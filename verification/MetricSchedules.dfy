/**
 Metric collection for one publication: stages with a due time and a grace time, retries
 that stop at the grace time or at an attempt limit, and queue items whose keys make every
 attempt unique. Times are integers in one unit.
 */
module MetricSchedules {
  import opened Common

  const HOUR: int := 3600
  const DEFAULT_ATTEMPTS: int := 24

  datatype Stage = Stage1h | Stage6h | Stage24h | Stage72h | Stage7d

  const STAGES: seq<Stage> := [Stage1h, Stage6h, Stage24h, Stage72h, Stage7d]

  function DueAfter(s: Stage): int {
    match s
    case Stage1h => HOUR
    case Stage6h => 6 * HOUR
    case Stage24h => 24 * HOUR
    case Stage72h => 72 * HOUR
    case Stage7d => 168 * HOUR
  }

  function GraceAfter(s: Stage): int {
    match s
    case Stage1h => 3 * HOUR
    case Stage6h => 12 * HOUR
    case Stage24h => 30 * HOUR
    case Stage72h => 84 * HOUR
    case Stage7d => 192 * HOUR
  }

  datatype Plan = Plan(stage: Stage, start: int, due: int, grace: int)

  /** One plan for each stage in order, and no two windows overlap. */
  method BuildPlans(start: int) returns (plans: seq<Plan>)
    ensures |plans| == |STAGES|
    ensures forall i :: 0 <= i < |STAGES| ==>
              plans[i] == Plan(STAGES[i], start, start + DueAfter(STAGES[i]), start + GraceAfter(STAGES[i]))
    ensures forall i :: 0 <= i < |plans| ==> plans[i].due < plans[i].grace
    ensures forall i, j :: 0 <= i < j < |plans| ==> plans[i].grace < plans[j].due
  {
    plans := [];
    for i := 0 to |STAGES|
      invariant |plans| == i
      invariant forall k :: 0 <= k < i ==>
                  plans[k] == Plan(STAGES[k], start, start + DueAfter(STAGES[k]), start + GraceAfter(STAGES[k]))
    {
      plans := plans + [Plan(STAGES[i], start, start + DueAfter(STAGES[i]), start + GraceAfter(STAGES[i]))];
    }
  }

  // ----- retry decisions -----

  datatype Status = Pending | Succeeded | Expired

  /** A row: when the last attempt was and when the stage was finished. */
  datatype Schedule = Schedule(
    stage: Stage, due: int, grace: int, status: Status, attempts: nat, lastAttempt: Option<int>,
    completed: Option<int>)

  /** The settings as they take effect: both have a default when not positive. */
  datatype Limits = Limits(maxAttempts: int, delay: int) {
    function Max(): (m: int)
      ensures m > 0
    {
      if maxAttempts <= 0 then DEFAULT_ATTEMPTS else maxAttempts
    }

    function Delay(): (d: int)
      ensures d > 0
    {
      if delay <= 0 then HOUR else delay
    }
  }

  datatype Decision = Expire(attempts: nat) | Retry(attempts: nat, runAfter: int)

  /** A retry lies strictly after now and no later than the grace time. */
  function Decide(s: Schedule, now: int, l: Limits): (d: Decision)
    ensures d.attempts == s.attempts + 1
    ensures d.Retry? ==> now < d.runAfter <= s.grace && d.attempts < l.Max()
    ensures d.Expire? <==> d.attempts >= l.Max() || now >= s.grace
  {
    if s.attempts + 1 >= l.Max() || now >= s.grace then Expire(s.attempts + 1)
    else Retry(s.attempts + 1, if now + l.Delay() > s.grace then s.grace else now + l.Delay())
  }

  // ----- one stage of one publication -----

  datatype Item = Item(runAfter: int, done: bool)

  /** A committed attempt: when it was made, and whether it found the metrics. */
  datatype Attempt = Attempt(at: int, found: bool)

  /**
   The schedule row and its queue items by attempt number, whether the stage's feedback is
   stored and its task held, and the committed attempts.
   */
  datatype Collection = Collection(
    schedule: Option<Schedule>, items: map<nat, Item>, feedback: bool, held: bool, tries: seq<Attempt>)

  datatype Step =
    | EnsureSchedule(plan: Plan)
    | EnsureItem(plan: Plan)
    | Try(attempt: nat, now: int, available: bool)

  function Enqueue(items: map<nat, Item>, attempt: nat, runAfter: int): map<nat, Item> {
    if attempt in items then items else items[attempt := Item(runAfter, false)]
  }

  function Done(items: map<nat, Item>, attempt: nat): map<nat, Item>
    requires attempt in items
  {
    items[attempt := items[attempt].(done := true)]
  }

  /** A claimed item runs once its time has come; what it finds decides. */
  function Tried(c: Collection, l: Limits, attempt: nat, now: int, available: bool): Collection {
    if c.schedule.None? || attempt !in c.items || c.items[attempt].done || now < c.items[attempt].runAfter then c
    else
      var s := c.schedule.value;
      var items := Done(c.items, attempt);
      var tries := c.tries + [Attempt(now, available)];
      if !s.status.Pending? then c.(items := items)
      else if available then
        Collection(Some(s.(status := Succeeded, attempts := s.attempts + 1, lastAttempt := Some(now),
                           completed := Some(now))),
                   items, true, c.held, tries)
      else
        match Decide(s, now, l)
        case Expire(n) =>
          Collection(Some(s.(status := Status.Expired, attempts := n, lastAttempt := Some(now),
                             completed := Some(now))),
                     items, c.feedback, c.held || s.stage.Stage24h?, tries)
        case Retry(n, runAfter) =>
          Collection(Some(s.(attempts := n, lastAttempt := Some(now))), Enqueue(items, n, runAfter), c.feedback,
                     c.held, tries)
  }

  function Next(c: Collection, l: Limits, step: Step): Collection {
    match step
    case EnsureSchedule(plan) =>
      if c.schedule.Some? then c
      else c.(schedule := Some(Schedule(plan.stage, plan.due, plan.grace, Pending, 0, None, None)))
    case EnsureItem(plan) =>
      if c.schedule.None? || !c.schedule.value.status.Pending? then c else c.(items := Enqueue(c.items, 0, plan.due))
    case Try(attempt, now, available) => Tried(c, l, attempt, now, available)
  }

  function Run(c: Collection, l: Limits, steps: seq<Step>): Collection
    decreases |steps|
  {
    if steps == [] then c else Run(Next(c, l, steps[0]), l, steps[1..])
  }

  const NONE: Collection := Collection(None, map[], false, false, [])

  // ----- what every run keeps -----

  /** The only item still to run is that of the current attempt, and it waits out the delay or the grace time. */
  predicate ItemsOk(c: Collection, s: Schedule, l: Limits) {
    && (forall k :: 0 <= k < s.attempts ==> k in c.items && c.items[k].done)
    && (forall k :: k in c.items ==> k < s.attempts || (s.status.Pending? && k == s.attempts && !c.items[k].done))
    && (s.status.Pending? && s.attempts > 0 ==> s.attempts in c.items)
    && (s.status.Pending? && s.attempts > 0 && s.attempts in c.items && |c.tries| == s.attempts ==>
          c.items[s.attempts].runAfter == Least(c.tries[|c.tries| - 1].at + l.Delay(), s.grace))
  }

  function Least(a: int, b: int): int {
    if a <= b then a else b
  }

  /** What a row stands at after these attempts: the last one found the metrics, or was the last that was allowed. */
  function Verdict(tries: seq<Attempt>, grace: int, l: Limits): Status {
    if tries == [] then Pending
    else
      var last := tries[|tries| - 1];
      if last.found then Succeeded
      else if |tries| >= l.Max() || last.at >= grace then Status.Expired
      else Pending
  }

  /** Each attempt was made while the row was pending, and after the delay or at the grace time. */
  predicate TriesOk(tries: seq<Attempt>, grace: int, l: Limits) {
    && (forall i :: 0 <= i < |tries| ==> Verdict(tries[..i], grace, l).Pending?)
    && (forall i :: 0 <= i < |tries| - 1 ==> tries[i + 1].at >= Least(tries[i].at + l.Delay(), grace))
  }

  /** The row, the feedback and the task say what the attempts came to. */
  predicate RowOk(c: Collection, s: Schedule, l: Limits) {
    && s.attempts == |c.tries|
    && s.status == Verdict(c.tries, s.grace, l)
    && s.lastAttempt == (if c.tries == [] then None else Some(c.tries[|c.tries| - 1].at))
    && s.completed == (if s.status.Pending? then None else s.lastAttempt)
    && c.feedback == s.status.Succeeded?
    && c.held == (s.status.Expired? && s.stage.Stage24h?)
  }

  predicate Sound(c: Collection, l: Limits) {
    match c.schedule
    case None => c == NONE
    case Some(s) => RowOk(c, s, l) && ItemsOk(c, s, l) && TriesOk(c.tries, s.grace, l)
  }

  lemma EnsureKeeps(c: Collection, l: Limits, step: Step)
    requires Sound(c, l) && !step.Try?
    ensures Sound(Next(c, l, step), l)
  {
  }

  lemma TryKeepsItems(c: Collection, l: Limits, attempt: nat, now: int, available: bool)
    requires Sound(c, l) && c.schedule.Some?
    ensures var n := Tried(c, l, attempt, now, available);
            n.schedule.Some? && ItemsOk(n, n.schedule.value, l)
  {
    hide TriesOk;
    hide Verdict;
  }

  lemma TryKeepsRow(c: Collection, l: Limits, attempt: nat, now: int, available: bool)
    requires Sound(c, l) && c.schedule.Some?
    ensures var n := Tried(c, l, attempt, now, available);
            n.schedule.Some? && RowOk(n, n.schedule.value, l)
  {
    hide TriesOk;
    hide ItemsOk;
  }

  lemma TryKeepsTries(c: Collection, l: Limits, attempt: nat, now: int, available: bool)
    requires Sound(c, l) && c.schedule.Some?
    ensures var n := Tried(c, l, attempt, now, available);
            n.schedule.Some? && TriesOk(n.tries, n.schedule.value.grace, l)
  {
    hide Verdict;
    var n := Tried(c, l, attempt, now, available);
    assert n.tries == c.tries || n.tries == c.tries + [Attempt(now, available)];
    forall i | 0 <= i < |n.tries|
      ensures Verdict(n.tries[..i], n.schedule.value.grace, l).Pending?
    {
      assert n.tries[..i] == c.tries[..i];
      assert c.tries[..|c.tries|] == c.tries;
    }
  }

  lemma StepKeeps(c: Collection, l: Limits, step: Step)
    requires Sound(c, l)
    ensures Sound(Next(c, l, step), l)
  {
    hide ItemsOk;
    hide TriesOk;
    hide RowOk;
    if step.Try? {
      if c.schedule.Some? {
        TryKeepsItems(c, l, step.attempt, step.now, step.available);
        TryKeepsRow(c, l, step.attempt, step.now, step.available);
        TryKeepsTries(c, l, step.attempt, step.now, step.available);
      }
    } else {
      EnsureKeeps(c, l, step);
    }
  }

  lemma {:induction false} RunKeeps(c: Collection, l: Limits, steps: seq<Step>)
    requires Sound(c, l)
    ensures Sound(Run(c, l, steps), l)
    decreases |steps|
  {
    hide Sound;
    hide Next;
    if steps != [] {
      StepKeeps(c, l, steps[0]);
      RunKeeps(Next(c, l, steps[0]), l, steps[1..]);
    }
  }

  /** A finished stage is never revived: its row, its attempts and what came of them stay as they are. */
  lemma {:induction false} FinishedStays(c: Collection, l: Limits, steps: seq<Step>)
    requires c.schedule.Some? && !c.schedule.value.status.Pending?
    ensures var n := Run(c, l, steps); n == c.(items := n.items)
    decreases |steps|
  {
    if steps != [] {
      FinishedStays(Next(c, l, steps[0]), l, steps[1..]);
    }
  }

  /**
   Over every run a stage has succeeded, with its feedback stored, exactly when its last
   attempt found the metrics; it has expired exactly when the last attempt found none and
   was the last one allowed or not before the grace time; and no attempt before the last
   found anything.
   */
  lemma StatusIsEarned(l: Limits, steps: seq<Step>)
    ensures var c := Run(NONE, l, steps);
            c.schedule.Some? ==>
              var s, n := c.schedule.value, |c.tries|;
              && (s.status.Succeeded? <==> n > 0 && c.tries[n - 1].found)
              && (s.status.Expired? <==>
                    n > 0 && !c.tries[n - 1].found && (n == l.Max() || c.tries[n - 1].at >= s.grace))
              && (forall i :: 0 <= i < n - 1 ==> !c.tries[i].found && c.tries[i].at < s.grace)
              && c.feedback == s.status.Succeeded? && c.held == (s.status.Expired? && s.stage.Stage24h?)
              && (s.completed.Some? <==> !s.status.Pending?)
              && (n > 0 ==> s.lastAttempt == Some(c.tries[n - 1].at))
  {
    hide Run;
    RunKeeps(NONE, l, steps);
    var c := Run(NONE, l, steps);
    if c.schedule.Some? {
      forall i | 0 <= i < |c.tries|
        ensures i < l.Max() && (i < |c.tries| - 1 ==> !c.tries[i].found && c.tries[i].at < c.schedule.value.grace)
      {
        PrefixPending(c.tries, c.schedule.value.grace, l, i);
      }
    }
  }

  lemma PrefixPending(tries: seq<Attempt>, grace: int, l: Limits, i: nat)
    requires TriesOk(tries, grace, l) && i < |tries|
    ensures i < l.Max()
    ensures i < |tries| - 1 ==> !tries[i].found && tries[i].at < grace
  {
    assert Verdict(tries[..i], grace, l).Pending?;
    if i < |tries| - 1 {
      assert Verdict(tries[..i + 1], grace, l).Pending?;
      assert tries[..i + 1][i] == tries[i];
    }
  }

  // ----- the plan a stage follows -----

  /** The row was made from the plan, whose window every item waits for and no attempt was early in. */
  predicate Follows(c: Collection, plan: Plan) {
    && (c.schedule.Some? ==>
          && c.schedule.value.stage == plan.stage
          && c.schedule.value.due == plan.due && c.schedule.value.grace == plan.grace)
    && (forall k :: k in c.items ==> plan.due <= c.items[k].runAfter <= plan.grace)
    && (forall i :: 0 <= i < |c.tries| ==> c.tries[i].at >= plan.due)
  }

  predicate OfPlan(step: Step, plan: Plan) {
    !step.Try? ==> step.plan == plan
  }

  lemma FollowsStep(c: Collection, l: Limits, step: Step, plan: Plan)
    requires Follows(c, plan) && OfPlan(step, plan) && plan.due <= plan.grace
    ensures Follows(Next(c, l, step), plan)
  {
  }

  lemma {:induction false} FollowsRun(c: Collection, l: Limits, steps: seq<Step>, plan: Plan)
    requires Follows(c, plan) && plan.due <= plan.grace
    requires forall i :: 0 <= i < |steps| ==> OfPlan(steps[i], plan)
    ensures Follows(Run(c, l, steps), plan)
    decreases |steps|
  {
    hide Follows;
    hide Next;
    hide OfPlan;
    if steps != [] {
      FollowsStep(c, l, steps[0], plan);
      FollowsRun(Next(c, l, steps[0]), l, steps[1..], plan);
    }
  }

  /** Ensured from one plan however often, a stage keeps that plan and is never tried before its due time. */
  lemma PlanIsKept(l: Limits, steps: seq<Step>, plan: Plan)
    requires plan.due <= plan.grace && forall i :: 0 <= i < |steps| ==> OfPlan(steps[i], plan)
    ensures var c := Run(NONE, l, steps);
            && (c.schedule.Some? ==>
                  && c.schedule.value.stage == plan.stage
                  && c.schedule.value.due == plan.due && c.schedule.value.grace == plan.grace)
            && (forall i :: 0 <= i < |c.tries| ==> c.tries[i].at >= plan.due)
  {
    hide Run;
    FollowsRun(NONE, l, steps, plan);
  }

  /** The plan a row was made from stays, whatever plans later ones bring. */
  lemma {:induction false} RowKeepsPlan(c: Collection, l: Limits, steps: seq<Step>)
    requires c.schedule.Some?
    ensures var n := Run(c, l, steps).schedule;
            && n.Some? && n.value.stage == c.schedule.value.stage
            && n.value.due == c.schedule.value.due && n.value.grace == c.schedule.value.grace
    decreases |steps|
  {
    if steps != [] {
      RowKeepsPlan(Next(c, l, steps[0]), l, steps[1..]);
    }
  }

  /** The first plan to be ensured is the one the stage follows. */
  lemma FirstPlanWins(l: Limits, plan: Plan, steps: seq<Step>)
    ensures var n := Run(NONE, l, [EnsureSchedule(plan)] + steps).schedule;
            && n.Some? && n.value.stage == plan.stage && n.value.due == plan.due && n.value.grace == plan.grace
  {
    var first := EnsureSchedule(plan);
    assert ([first] + steps)[1..] == steps;
    RowKeepsPlan(Next(NONE, l, first), l, steps);
  }

  lemma DueItem(c: Collection, l: Limits, plan: Plan)
    requires Sound(c, l) && Follows(c, plan) && c.schedule.Some? && c.schedule.value.status.Pending?
    requires plan.due <= plan.grace
    ensures var n, k := Next(c, l, EnsureItem(plan)), c.schedule.value.attempts;
            n.schedule == c.schedule && k in n.items && !n.items[k].done && n.items[k].runAfter <= plan.grace
  {
    hide TriesOk;
  }

  /** A pending stage can always be ended at its grace time or later: an attempt succeeds or expires it. */
  lemma PendingCanEnd(l: Limits, steps: seq<Step>, plan: Plan, now: int, available: bool) returns (more: seq<Step>)
    requires plan.due <= plan.grace <= now && forall i :: 0 <= i < |steps| ==> OfPlan(steps[i], plan)
    requires var s := Run(NONE, l, steps).schedule; s.Some? && s.value.status.Pending?
    ensures var n := Run(Run(NONE, l, steps), l, more);
            && n.schedule.Some? && n.schedule.value.status == (if available then Succeeded else Status.Expired)
            && n.schedule.value.completed == Some(now)
  {
    RunKeeps(NONE, l, steps);
    FollowsRun(NONE, l, steps, plan);
    var c := Run(NONE, l, steps);
    var ensure, attempt := EnsureItem(plan), Try(c.schedule.value.attempts, now, available);
    DueItem(c, l, plan);
    more := [ensure, attempt];
    var c1 := Next(c, l, ensure);
    var c2 := Next(c1, l, attempt);
    assert more[1..] == [attempt] && [attempt][1..] == [];
    assert Run(c, l, more) == Run(c1, l, [attempt]) == Run(c2, l, []) == c2;
  }

  // ----- the bound -----

  function CeilDiv(a: int, b: int): int
    requires b > 0
  {
    (a + b - 1) / b
  }

  /** How many tries fit between the first one and the grace time. */
  function WindowBound(first: int, grace: int, l: Limits): int {
    if first >= grace then 1 else CeilDiv(grace - first, l.Delay()) + 1
  }

  lemma {:induction false} TriesSpread(tries: seq<Attempt>, grace: int, l: Limits, i: nat)
    requires TriesOk(tries, grace, l) && i < |tries| - 1
    ensures grace > tries[i].at >= tries[0].at + i * l.Delay()
    decreases i
  {
    PrefixPending(tries, grace, l, i);
    if i > 0 {
      TriesSpread(tries, grace, l, i - 1);
      assert tries[i].at >= Least(tries[i - 1].at + l.Delay(), grace);
      assert i * l.Delay() == (i - 1) * l.Delay() + l.Delay();
    }
  }

  lemma FitsBelowCeil(k: nat, d: int, a: int)
    requires d > 0 && k * d < a
    ensures k + 1 <= CeilDiv(a, d)
  {
    var q := CeilDiv(a, d);
    assert q * d >= a;
    assert q <= k ==> q * d <= k * d;
  }

  /** Over every run a stage is tried at most as often as the limit and its window allow. */
  lemma TriesBounded(l: Limits, steps: seq<Step>)
    ensures var c := Run(NONE, l, steps);
            c.tries != [] ==>
              && c.schedule.Some?
              && |c.tries| <= l.Max()
              && |c.tries| <= WindowBound(c.tries[0].at, c.schedule.value.grace, l)
              && |c.tries| == c.schedule.value.attempts
  {
    hide Run;
    RunKeeps(NONE, l, steps);
    var c := Run(NONE, l, steps);
    if c.tries != [] {
      PrefixPending(c.tries, c.schedule.value.grace, l, |c.tries| - 1);
    }
    if |c.tries| > 1 {
      TriesSpread(c.tries, c.schedule.value.grace, l, |c.tries| - 2);
      FitsBelowCeil(|c.tries| - 2, l.Delay(), c.schedule.value.grace - c.tries[0].at);
    }
  }

  // ----- the rows as the store updates them -----

  class StageStore {
    var schedule: Option<Schedule>
    var items: map<nat, Item>
    var feedback: bool
    var held: bool
    ghost var tries: seq<Attempt>

    ghost function View(): Collection
      reads this
    {
      Collection(schedule, items, feedback, held, tries)
    }

    constructor ()
      ensures View() == NONE
    {
      schedule, items, feedback, held, tries := None, map[], false, false, [];
    }

    /** Inserts the schedule unless it exists, and its first item unless that exists or the schedule is finished. */
    method Ensure(plan: Plan, ghost l: Limits)
      modifies this
      ensures View() == Next(Next(old(View()), l, EnsureSchedule(plan)), l, EnsureItem(plan))
    {
      if schedule.None? {
        schedule := Some(Schedule(plan.stage, plan.due, plan.grace, Pending, 0, None, None));
      }
      if schedule.value.status.Pending? {
        if 0 !in items {
          items := items[0 := Item(plan.due, false)];
        }
      }
    }

    /** One claimed item: collect the metrics, or requeue or expire the stage. */
    method Collect(attempt: nat, now: int, available: bool, l: Limits)
      requires schedule.Some? && attempt in items && !items[attempt].done && items[attempt].runAfter <= now
      modifies this
      ensures View() == Tried(old(View()), l, attempt, now, available)
    {
      items := items[attempt := items[attempt].(done := true)];
      var s := schedule.value;
      if !s.status.Pending? { return; }
      tries := tries + [Attempt(now, available)];
      if available {
        feedback := true;
        schedule := Some(s.(status := Succeeded, attempts := s.attempts + 1, lastAttempt := Some(now),
                            completed := Some(now)));
        return;
      }
      var d := Decide(s, now, l);
      if d.Expire? {
        schedule := Some(s.(status := Status.Expired, attempts := d.attempts, lastAttempt := Some(now),
                            completed := Some(now)));
        held := held || s.stage.Stage24h?;
        return;
      }
      schedule := Some(s.(attempts := d.attempts, lastAttempt := Some(now)));
      if d.attempts !in items {
        items := items[d.attempts := Item(d.runAfter, false)];
      }
    }
  }
}
