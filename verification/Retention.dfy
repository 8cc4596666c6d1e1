/**
 Retention cleanup of the operations queue. Queue rows that lead to a publication or an
 upload are evidence, and so is every row connected to them through parent links; old
 finished rows outside that closure are deleted. A parent link may point to no row.
 */
module Retention {
  import opened Common

  type Id = string

  datatype Status = Queued | Running | Succeeded | DeadLettered | DeadLetter | Other

  datatype Row = Row(
    parent: Option<Id>, status: Status, updatedAt: int,
    task: Option<Id>, publication: Option<Id>, schedule: Option<Id>)

  datatype Publication = Publication(task: Id, youtube: bool)

  /** The tables that say what counts as evidence. */
  datatype Tables = Tables(publications: map<Id, Publication>, uploads: set<Id>, schedules: map<Id, Id>)

  type Queue = map<Id, Row>

  // ----- evidence -----

  predicate EvidenceTask(t: Tables, task: Id) {
    task in t.uploads || exists p :: p in t.publications && t.publications[p].task == task && t.publications[p].youtube
  }

  predicate EvidencePublication(t: Tables, p: Id) {
    p in t.publications && EvidenceTask(t, t.publications[p].task)
  }

  /** The row itself names a task, a publication or a metric schedule that is evidence. */
  predicate Anchored(t: Tables, r: Row) {
    || (r.task.Some? && EvidenceTask(t, r.task.value))
    || (r.publication.Some? && EvidencePublication(t, r.publication.value))
    || (r.schedule.Some? && r.schedule.value in t.schedules && EvidencePublication(t, t.schedules[r.schedule.value]))
  }

  /** A row concerns a production task that it names, or whose publication it names, directly or through a schedule. */
  predicate Concerns(t: Tables, r: Row, task: Id) {
    || r.task == Some(task)
    || exists p ::
         && p in t.publications && t.publications[p].task == task
         && (r.publication == Some(p) || exists x :: x in t.schedules && r.schedule == Some(x) && t.schedules[x] == p)
  }

  /** Anchored rows are those that concern a task with an upload of any status or a YouTube publication. */
  lemma AnchoredMeans(t: Tables, r: Row)
    ensures Anchored(t, r) <==>
            exists task ::
              && Concerns(t, r, task)
              && (task in t.uploads || exists p :: p in t.publications && t.publications[p] == Publication(task, true))
  {
    if Anchored(t, r) {
      var task := if r.task.Some? && EvidenceTask(t, r.task.value) then r.task.value
                  else if r.publication.Some? && EvidencePublication(t, r.publication.value) then
                      t.publications[r.publication.value].task
                  else t.publications[t.schedules[r.schedule.value]].task;
      assert Concerns(t, r, task);
      assert EvidenceTask(t, task);
      if task !in t.uploads {
        var p :| p in t.publications && t.publications[p].task == task && t.publications[p].youtube;
        assert t.publications[p] == Publication(task, true);
      }
    }
  }

  /** Parent and child, in either direction; both rows exist. */
  predicate Linked(q: Queue, a: Id, b: Id) {
    a in q && b in q && (q[a].parent == Some(b) || q[b].parent == Some(a))
  }

  function Anchors(t: Tables, q: Queue): set<Id> {
    set id | id in q && Anchored(t, q[id])
  }

  function Neighbours(q: Queue, s: set<Id>): set<Id> {
    set a, b | b in s && a in q && Linked(q, a, b) :: a
  }

  /** The recursive query: add related rows until nothing is added. */
  function Closure(q: Queue, s: set<Id>): (r: set<Id>)
    requires s <= q.Keys
    ensures s <= r <= q.Keys
    ensures Neighbours(q, r) <= r
    decreases q.Keys - s
  {
    var n := s + Neighbours(q, s);
    if n == s then s else Closure(q, n)
  }

  function Evidence(t: Tables, q: Queue): set<Id> {
    Closure(q, Anchors(t, q))
  }

  // ----- what the closure means -----

  /** A walk along links that ends in a row of `s`. */
  predicate Walk(q: Queue, s: set<Id>, path: seq<Id>) {
    && path != [] && path[|path| - 1] in s && path[0] in q
    && forall i :: 0 <= i < |path| - 1 ==> Linked(q, path[i], path[i + 1])
  }

  lemma {:induction false} WalkStaysInside(q: Queue, s: set<Id>, r: set<Id>, path: seq<Id>)
    requires Walk(q, s, path) && s <= r && Neighbours(q, r) <= r
    ensures forall i :: 0 <= i < |path| ==> path[i] in r
    decreases |path|
  {
    if |path| > 1 {
      assert Linked(q, path[0], path[1]);
      WalkStaysInside(q, s, r, path[1..]);
      assert path[1] in r && path[0] in Neighbours(q, r);
    }
  }

  lemma {:induction false} ClosureHasWalks(q: Queue, s: set<Id>, id: Id) returns (path: seq<Id>)
    requires s <= q.Keys && id in Closure(q, s)
    ensures Walk(q, s, path) && path[0] == id
    decreases q.Keys - s
  {
    var n := s + Neighbours(q, s);
    if n == s {
      path := [id];
    } else {
      var longer := ClosureHasWalks(q, n, id);
      var last := longer[|longer| - 1];
      if last in s {
        path := longer;
      } else {
        var b :| b in s && Linked(q, last, b);
        path := longer + [b];
      }
    }
  }

  /** A row is evidence exactly when links lead from it to an anchored row. */
  lemma EvidenceIsConnection(t: Tables, q: Queue, id: Id)
    ensures id in Evidence(t, q) <==> exists path :: Walk(q, Anchors(t, q), path) && path[0] == id
  {
    if id in Evidence(t, q) {
      var path := ClosureHasWalks(q, Anchors(t, q), id);
    }
    forall path | Walk(q, Anchors(t, q), path) && path[0] == id
      ensures id in Evidence(t, q)
    {
      WalkStaysInside(q, Anchors(t, q), Evidence(t, q), path);
    }
  }

  // ----- cleanup -----

  predicate Finished(s: Status) {
    s.Succeeded? || s.DeadLettered? || s.DeadLetter?
  }

  predicate Expired(r: Row, cutoff: int) {
    Finished(r.status) && r.updatedAt < cutoff
  }

  function Deleted(t: Tables, q: Queue, cutoff: int): set<Id> {
    set id | id in q && Expired(q[id], cutoff) && id !in Evidence(t, q)
  }

  function Cleaned(t: Tables, q: Queue, cutoff: int): Queue {
    q - Deleted(t, q, cutoff)
  }

  /** Deleting rows that are no evidence leaves the evidence exactly as it was. */
  lemma EvidenceSurvives(t: Tables, q: Queue, gone: set<Id>)
    requires gone !! Evidence(t, q)
    ensures Evidence(t, q - gone) == Evidence(t, q)
  {
    var n := q - gone;
    forall id | id in Evidence(t, q)
      ensures id in Evidence(t, n)
    {
      var path := ClosureHasWalks(q, Anchors(t, q), id);
      WalkStaysInside(q, Anchors(t, q), Evidence(t, q), path);
      assert Walk(n, Anchors(t, n), path) by {
        assert forall i :: 0 <= i < |path| - 1 ==> Linked(q, path[i], path[i + 1]);
      }
      WalkStaysInside(n, Anchors(t, n), Evidence(t, n), path);
    }
    forall id | id in Evidence(t, n)
      ensures id in Evidence(t, q)
    {
      var path := ClosureHasWalks(n, Anchors(t, n), id);
      assert Walk(q, Anchors(t, q), path) by {
        assert forall i :: 0 <= i < |path| - 1 ==> Linked(n, path[i], path[i + 1]);
      }
      WalkStaysInside(q, Anchors(t, q), Evidence(t, q), path);
    }
  }

  /**
   Cleanup deletes exactly the old finished rows that no links join to an anchored row; the
   evidence stays what it was, with every link inside it; and a second cleanup with the same
   or an earlier cutoff deletes nothing.
   */
  lemma CleanupKeepsEvidence(t: Tables, q: Queue, cutoff: int, again: int)
    requires again <= cutoff
    ensures forall id :: id in Deleted(t, q, cutoff) <==>
              && id in q && q[id].status in {Succeeded, DeadLettered, DeadLetter} && q[id].updatedAt < cutoff
              && !exists path :: Walk(q, Anchors(t, q), path) && path[0] == id
    ensures Evidence(t, Cleaned(t, q, cutoff)) == Evidence(t, q)
    ensures forall a, b :: a in Evidence(t, q) && Linked(q, a, b) ==> Linked(Cleaned(t, q, cutoff), a, b)
    ensures Deleted(t, Cleaned(t, q, cutoff), again) == {}
  {
    var n := Cleaned(t, q, cutoff);
    EvidenceSurvives(t, q, Deleted(t, q, cutoff));
    hide Evidence;
    forall id
      ensures id in Evidence(t, q) <==> exists path :: Walk(q, Anchors(t, q), path) && path[0] == id
    {
      EvidenceIsConnection(t, q, id);
    }
    forall a, b | a in Evidence(t, q) && Linked(q, a, b)
      ensures Linked(n, a, b)
    {
      LinkedIsEvidence(t, q, a, b);
    }
  }

  lemma LinkedIsEvidence(t: Tables, q: Queue, a: Id, b: Id)
    requires a in Evidence(t, q) && Linked(q, a, b)
    ensures b in Evidence(t, q)
  {
    assert b in Neighbours(q, Evidence(t, q));
  }

  /** Two cleanups with growing cutoffs are one with the later cutoff. */
  lemma CleanupsCompose(t: Tables, q: Queue, first: int, second: int)
    requires first <= second
    ensures Cleaned(t, Cleaned(t, q, first), second) == Cleaned(t, q, second)
  {
    EvidenceSurvives(t, q, Deleted(t, q, first));
    hide Evidence;
  }

  // ----- the procedure -----

  /** The recursive query as a loop over the rows found last. */
  method EvidenceRows(t: Tables, q: Queue) returns (found: set<Id>)
    ensures found == Evidence(t, q)
  {
    found := Anchors(t, q);
    var more := Neighbours(q, found) - found;
    while more != {}
      invariant found <= q.Keys && more == Neighbours(q, found) - found
      invariant Closure(q, found) == Evidence(t, q)
      decreases q.Keys - found
    {
      assert found + more == found + Neighbours(q, found);
      found := found + more;
      more := Neighbours(q, found) - found;
    }
    assert forall id :: id in Neighbours(q, found) && id !in found ==> id in more;
    assert found + Neighbours(q, found) == found;
  }

  datatype Audit = Audit(startedAt: int, legacy: bool)
  datatype Feedback = Feedback(publication: Id, collectedAt: int)
  datatype Days = Days(queue: int, audit: int, feedback: int)
  datatype Counts = Counts(queue: nat, audits: nat, feedback: nat)

  function OrDefault(days: int, fallback: int): int {
    if days <= 0 then fallback else days
  }

  /** Legacy tick audits from before the cutoff. */
  function OldAudits(audits: map<Id, Audit>, cutoff: int): set<Id> {
    set id | id in audits && audits[id].startedAt < cutoff && audits[id].legacy
  }

  /** Feedback from before the cutoff whose publication is no evidence. */
  function OldFeedback(t: Tables, feedback: map<Id, Feedback>, cutoff: int): set<Id> {
    set id | id in feedback && feedback[id].collectedAt < cutoff && !EvidencePublication(t, feedback[id].publication)
  }

  /** Two publications of one task. */
  predicate SameTask(t: Tables, p: Id, other: Id) {
    p in t.publications && other in t.publications && t.publications[p].task == t.publications[other].task
  }

  /**
   Feedback outlives the cleanup exactly when it is recent enough, or its publication's task has
   an upload or any YouTube publication; a legacy tick audit exactly when it is recent enough, and
   any other audit always; and a second cleanup deletes nothing more.
   */
  lemma FeedbackAndAuditsKept(t: Tables, feedback: map<Id, Feedback>, audits: map<Id, Audit>, cutoff: int)
    ensures var kept := feedback - OldFeedback(t, feedback, cutoff);
            && OldFeedback(t, kept, cutoff) == {}
            && forall id :: id in kept <==>
                 && id in feedback
                 && var p := feedback[id].publication;
                    || feedback[id].collectedAt >= cutoff
                    || (p in t.publications && t.publications[p].task in t.uploads)
                    || exists other :: SameTask(t, p, other) && t.publications[other].youtube
    ensures var kept := audits - OldAudits(audits, cutoff);
            && OldAudits(kept, cutoff) == {}
            && forall id :: id in kept <==> id in audits && (audits[id].legacy ==> audits[id].startedAt >= cutoff)
  {
    forall p
      ensures EvidencePublication(t, p) <==>
              || (p in t.publications && t.publications[p].task in t.uploads)
              || exists other :: SameTask(t, p, other) && t.publications[other].youtube
    {
      if p in t.publications && EvidencePublication(t, p) && t.publications[p].task !in t.uploads {
        var other :| other in t.publications && t.publications[other].task == t.publications[p].task
          && t.publications[other].youtube;
        assert SameTask(t, p, other);
      }
    }
    hide EvidencePublication;
  }

  class Store {
    var tables: Tables
    var queue: Queue
    var audits: map<Id, Audit>
    var feedback: map<Id, Feedback>

    constructor (tables: Tables)
      ensures this.tables == tables && queue == map[] && audits == map[] && feedback == map[]
    {
      this.tables := tables;
      queue, audits, feedback := map[], map[], map[];
    }

    /** Times are in days. Missing settings are 30, 90 and 365 days; publications and schedules are not touched. */
    method CleanupExpired(now: int, cfg: Days) returns (counts: Counts)
      modifies this`queue, this`audits, this`feedback
      ensures queue == Cleaned(tables, old(queue), now - OrDefault(cfg.queue, 30))
      ensures audits == old(audits) - OldAudits(old(audits), now - OrDefault(cfg.audit, 90))
      ensures feedback == old(feedback) - OldFeedback(tables, old(feedback), now - OrDefault(cfg.feedback, 365))
      ensures counts.queue == |Deleted(tables, old(queue), now - OrDefault(cfg.queue, 30))|
      ensures counts.audits == |OldAudits(old(audits), now - OrDefault(cfg.audit, 90))|
      ensures counts.feedback == |OldFeedback(tables, old(feedback), now - OrDefault(cfg.feedback, 365))|
    {
      var evidence := EvidenceRows(tables, queue);
      var gone := set id | id in queue && Expired(queue[id], now - OrDefault(cfg.queue, 30)) && id !in evidence;
      queue := queue - gone;
      var oldAudits := set id | id in audits && audits[id].startedAt < now - OrDefault(cfg.audit, 90)
          && audits[id].legacy;
      audits := audits - oldAudits;
      var oldFeedback := set id | id in feedback && feedback[id].collectedAt < now - OrDefault(cfg.feedback, 365)
                                  && !EvidencePublication(tables, feedback[id].publication);
      feedback := feedback - oldFeedback;
      hide Evidence;
      hide EvidencePublication;
      hide OrDefault;
      return Counts(|gone|, |oldAudits|, |oldFeedback|);
    }
  }
}
