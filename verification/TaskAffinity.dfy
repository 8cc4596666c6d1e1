/**
 Affinity bounces of unregistered workers: a task that prefers other hosts is put back on
 the stream with a higher count and then acknowledged, in that order.
 */
module TaskAffinity {
  import opened Common

  /** The two settings of a worker; by default 6 bounces and 20 seconds. */
  datatype Limits = Limits(maxBounces: int, waitSeconds: int)

  const BOUNCES := "affinity_bounces"
  const ENQUEUED := "affinity_enqueued_at"
  const HOSTS := "preferred_hosts"

  type Data = map<string, string>

  // ----- numbers in task fields -----

  predicate IsNumeral(s: string) {
    s != "" && forall i :: 0 <= i < |s| ==> '0' <= s[i] <= '9'
  }

  /** A field that is missing, empty or no number counts as 0. */
  function FieldNumber(data: Data, field: string): int {
    if field !in data then 0
    else
      var s := data[field];
      if IsNumeral(s) then DecimalValue(s)
      else if |s| > 1 && (s[0] == '-' || s[0] == '+') && IsNumeral(s[1..]) then
        (if s[0] == '-' then 0 - DecimalValue(s[1..]) as int else DecimalValue(s[1..]))
      else 0
  }

  lemma NumberWritten(data: Data, field: string, n: int)
    requires field in data && data[field] == SignedDecimal(n)
    ensures FieldNumber(data, field) == n
  {
    hide Decimal;
    hide DecimalValue;
    var s := data[field];
    if n < 0 {
      DecimalRoundTrip(-n);
      assert s[0] == '-' && s[1..] == Decimal(-n);
    } else {
      DecimalRoundTrip(n);
      assert s == Decimal(n);
    }
  }

  // ----- one decision -----

  /** `elsewhere` says of the preferred-hosts field whether it names hosts, and not this one. */
  predicate Defers(l: Limits, data: Data, elsewhere: Option<string> -> bool, now: int) {
    var enqueued := FieldNumber(data, ENQUEUED);
    var age := if enqueued != 0 && now > enqueued then now - enqueued else 0;
    && elsewhere(if HOSTS in data then Some(data[HOSTS]) else None)
    && FieldNumber(data, BOUNCES) < l.maxBounces
    && age < l.waitSeconds
  }

  function Bounced(data: Data, now: int): Data {
    var counted := data[BOUNCES := SignedDecimal(FieldNumber(data, BOUNCES) + 1)];
    if ENQUEUED in data && data[ENQUEUED] != "" then counted else counted[ENQUEUED := SignedDecimal(now)]
  }

  /** Only the two affinity fields differ, and the count is one higher. */
  lemma BounceChanges(data: Data, now: int)
    ensures var b := Bounced(data, now);
            && (forall k :: k in data ==> k in b)
            && (forall k :: k in b && k != BOUNCES && k != ENQUEUED ==> k in data && b[k] == data[k])
            && FieldNumber(b, BOUNCES) == FieldNumber(data, BOUNCES) + 1
  {
    NumberWritten(Bounced(data, now), BOUNCES, FieldNumber(data, BOUNCES) + 1);
  }

  /** The time a task was first put back is kept, and from its wait on the task is deferred no more. */
  lemma BounceIsTimely(l: Limits, data: Data, elsewhere: Option<string> -> bool, now: int)
    requires Defers(l, data, elsewhere, now)
    ensures FieldNumber(data, ENQUEUED) != 0 ==> now < FieldNumber(data, ENQUEUED) + l.waitSeconds
    ensures FieldNumber(Bounced(data, now), ENQUEUED)
            == if ENQUEUED in data && data[ENQUEUED] != "" then FieldNumber(data, ENQUEUED) else now
  {
    if !(ENQUEUED in data && data[ENQUEUED] != "") {
      NumberWritten(Bounced(data, now), ENQUEUED, now);
    }
  }

  // ----- the history of one task -----

  /** A task put back at each of these times. */
  function PutBack(data: Data, times: seq<int>): Data {
    if times == [] then data else Bounced(PutBack(data, times[..|times| - 1]), times[|times| - 1])
  }

  lemma {:induction false} PutBackFields(data: Data, times: seq<int>)
    requires BOUNCES !in data && ENQUEUED !in data
    ensures var b := PutBack(data, times);
            && FieldNumber(b, BOUNCES) == |times|
            && (if times == [] then ENQUEUED !in b else ENQUEUED in b && b[ENQUEUED] == SignedDecimal(times[0]))
            && (HOSTS in b <==> HOSTS in data) && (HOSTS in data ==> b[HOSTS] == data[HOSTS])
    decreases |times|
  {
    hide Decimal;
    hide FieldNumber;
    if times == [] {
      Missing(data, BOUNCES);
    } else {
      var front, last := times[..|times| - 1], times[|times| - 1];
      PutBackFields(data, front);
      BounceChanges(PutBack(data, front), last);
    }
  }

  lemma Missing(data: Data, field: string)
    requires field !in data
    ensures FieldNumber(data, field) == 0
  {
  }

  /**
   A task without bounce fields that was put back at these times, in order, is deferred now
   exactly when it prefers other hosts, was put back less often than the limit, and less than
   the wait has passed since it was first put back.
   */
  lemma DeferredExactly(l: Limits, data: Data, times: seq<int>, elsewhere: Option<string> -> bool, now: int)
    requires BOUNCES !in data && ENQUEUED !in data
    requires times != [] ==> 0 < times[0] <= now
    ensures Defers(l, PutBack(data, times), elsewhere, now) <==>
            && elsewhere(if HOSTS in data then Some(data[HOSTS]) else None)
            && |times| < l.maxBounces
            && (if times == [] then 0 else now - times[0]) < l.waitSeconds
  {
    var b := PutBack(data, times);
    PutBackFields(data, times);
    if times == [] {
      Missing(b, ENQUEUED);
    } else {
      NumberWritten(b, ENQUEUED, times[0]);
    }
    hide FieldNumber;
    hide Decimal;
    hide PutBack;
  }

  /** What the procedure does to the stream and the pending list, in its order. */
  class TaskStream {
    var entries: seq<Data>
    var acked: set<nat>

    constructor ()
      ensures entries == [] && acked == {}
    {
      entries, acked := [], {};
    }

    /** `dies` is where the process stops: before the append, between append and acknowledgement, or not at all. */
    method MaybeDefer(l: Limits, id: nat, elsewhere: Option<string> -> bool, now: int, dies: nat)
      returns (deferred: bool)
      requires id < |entries|
      modifies this
      ensures deferred <==> Defers(l, old(entries)[id], elsewhere, now) && dies > 1
      ensures !Defers(l, old(entries)[id], elsewhere, now) ==>
              entries == old(entries) && acked == old(acked) && !deferred
      ensures Defers(l, old(entries)[id], elsewhere, now) ==>
                && entries == old(entries) + (if dies == 0 then [] else [Bounced(old(entries)[id], now)])
                && acked == old(acked) + (if dies <= 1 then {} else {id})
    {
      if !Defers(l, entries[id], elsewhere, now) { return false; }
      if dies == 0 { return false; }
      entries := entries + [Bounced(entries[id], now)];
      if dies == 1 { return false; }
      acked := acked + {id};
      return true;
    }
  }

  // ----- every run -----

  /** Tasks on the stream, with the successors appended for them and those whose bounce was acknowledged. */
  datatype Tasks = Tasks(entries: seq<Data>, bounced: map<nat, nat>, halfway: map<nat, nat>)

  datatype Step =
    | Enqueue(data: Data)
    | Append(id: nat, elsewhere: Option<string> -> bool, now: int)
    | AckBounce(id: nat)

  /** An append whose process dies simply never reaches its AckBounce; the entry may then bounce again. */
  function Next(l: Limits, t: Tasks, step: Step): Tasks {
    match step
    case Enqueue(data) => t.(entries := t.entries + [data])
    case Append(id, elsewhere, now) =>
      if id < |t.entries| && Defers(l, t.entries[id], elsewhere, now)
      then t.(entries := t.entries + [Bounced(t.entries[id], now)], halfway := t.halfway[id := |t.entries|])
      else t
    case AckBounce(id) => if id in t.halfway then t.(bounced := t.bounced[id := t.halfway[id]]) else t
  }

  function Run(l: Limits, t: Tasks, steps: seq<Step>): Tasks
    decreases |steps|
  {
    if steps == [] then t else Run(l, Next(l, t, steps[0]), steps[1..])
  }

  const NO_TASKS: Tasks := Tasks([], map[], map[])

  /** `next` is a bounce of `id`: later on the stream, same task, one higher count. */
  predicate Follows(l: Limits, entries: seq<Data>, id: nat, next: nat) {
    && id < next < |entries|
    && FieldNumber(entries[id], BOUNCES) < l.maxBounces
    && FieldNumber(entries[next], BOUNCES) == FieldNumber(entries[id], BOUNCES) + 1
    && (forall k :: k in entries[id] ==> k in entries[next])
    && (forall k :: k in entries[next] && k != BOUNCES && k != ENQUEUED ==>
          k in entries[id] && entries[next][k] == entries[id][k])
  }

  predicate Sound(l: Limits, t: Tasks) {
    && (forall id :: id in t.halfway ==> Follows(l, t.entries, id, t.halfway[id]))
    && (forall id :: id in t.bounced ==> Follows(l, t.entries, id, t.bounced[id]))
  }

  lemma FollowsLater(l: Limits, entries: seq<Data>, more: seq<Data>, id: nat, next: nat)
    requires Follows(l, entries, id, next) && entries <= more
    ensures Follows(l, more, id, next)
  {
  }

  lemma StepKeeps(l: Limits, t: Tasks, step: Step)
    requires Sound(l, t)
    ensures Sound(l, Next(l, t, step)) && t.entries <= Next(l, t, step).entries
  {
    hide Bounced;
    hide FieldNumber;
    var n := Next(l, t, step);
    if step.Append? && step.id < |t.entries| && Defers(l, t.entries[step.id], step.elsewhere, step.now) {
      BounceChanges(t.entries[step.id], step.now);
      assert Follows(l, n.entries, step.id, |t.entries|);
    }
    hide Follows;
    hide Defers;
    forall id | id in t.halfway
      ensures Follows(l, n.entries, id, t.halfway[id])
    {
      FollowsLater(l, t.entries, n.entries, id, t.halfway[id]);
    }
    forall id | id in t.bounced
      ensures Follows(l, n.entries, id, t.bounced[id])
    {
      FollowsLater(l, t.entries, n.entries, id, t.bounced[id]);
    }
  }

  lemma {:induction false} RunKeeps(l: Limits, t: Tasks, steps: seq<Step>)
    requires Sound(l, t)
    ensures Sound(l, Run(l, t, steps))
    decreases |steps|
  {
    hide Sound;
    hide Next;
    if steps != [] {
      StepKeeps(l, t, steps[0]);
      RunKeeps(l, Next(l, t, steps[0]), steps[1..]);
    }
  }

  /** A line of bounces from one entry to another. */
  predicate Line(l: Limits, entries: seq<Data>, line: seq<nat>) {
    && line != [] && (forall i :: 0 <= i < |line| ==> line[i] < |entries|)
    && (forall i :: 0 <= i < |line| - 1 ==> Follows(l, entries, line[i], line[i + 1]))
  }

  lemma {:induction false} LineCounts(l: Limits, entries: seq<Data>, line: seq<nat>)
    requires Line(l, entries, line)
    ensures FieldNumber(entries[line[|line| - 1]], BOUNCES) == FieldNumber(entries[line[0]], BOUNCES) + |line| - 1
    decreases |line|
  {
    hide FieldNumber;
    if |line| > 1 {
      var front := line[..|line| - 1];
      LineCounts(l, entries, front);
      assert Follows(l, entries, line[|line| - 2], line[|line| - 1]);
    }
  }

  /** A task bounces at most as often as its count leaves room for, whatever hosts and clocks do. */
  lemma BouncesBounded(l: Limits, entries: seq<Data>, line: seq<nat>)
    requires Line(l, entries, line)
    ensures |line| - 1 <= if FieldNumber(entries[line[0]], BOUNCES) < l.maxBounces
                          then l.maxBounces - FieldNumber(entries[line[0]], BOUNCES) else 0
  {
    hide FieldNumber;
    if |line| > 1 {
      LineCounts(l, entries, line[..|line| - 1]);
      assert Follows(l, entries, line[|line| - 2], line[|line| - 1]);
      assert Follows(l, entries, line[0], line[1]);
    }
  }

  /** No task is lost to a bounce: from every entry a line leads to one that no bounce has acknowledged. */
  lemma {:induction false} NoTaskLost(l: Limits, steps: seq<Step>, id: nat) returns (line: seq<nat>)
    requires id < |Run(l, NO_TASKS, steps).entries|
    ensures var t := Run(l, NO_TASKS, steps);
            Line(l, t.entries, line) && line[0] == id && line[|line| - 1] !in t.bounced
  {
    RunKeeps(l, NO_TASKS, steps);
    line := LineFrom(l, Run(l, NO_TASKS, steps), id);
  }

  lemma {:induction false} LineFrom(l: Limits, t: Tasks, id: nat) returns (line: seq<nat>)
    requires Sound(l, t) && id < |t.entries|
    ensures Line(l, t.entries, line) && line[0] == id && line[|line| - 1] !in t.bounced
    decreases |t.entries| - id
  {
    hide FieldNumber;
    if id in t.bounced {
      var next := t.bounced[id];
      assert Follows(l, t.entries, id, next);
      var rest := LineFrom(l, t, next);
      line := [id] + rest;
      assert forall i :: 1 <= i < |line| ==> line[i] == rest[i - 1];
    } else {
      line := [id];
    }
  }
}
