/**
 When a prepared event can still reach its row's mark. While the row's lease is current and
 its node's claim is not over, a reconciler of that lease can send it whatever crashed
 before. Afterwards only what is already in the stream, or on its way there, can be marked,
 and a row without that is stranded for good.
 */
module EventProgress {
  import opened Common
  import opened EventEmission

  // ----- putting runs together -----

  lemma {:induction false} RunConcat(s: State, first: seq<Step>, second: seq<Step>)
    ensures Run(s, first + second) == Run(Run(s, first), second)
    decreases |first|
  {
    hide Next;
    if first == [] {
      assert first + second == second;
    } else {
      assert (first + second)[1..] == first[1..] + second;
      RunConcat(Next(s, first[0]), first[1..], second);
    }
  }

  lemma RunAppend(s: State, steps: seq<Step>, step: Step)
    ensures Run(s, steps + [step]) == Next(Run(s, steps), step)
  {
    hide Next;
    RunConcat(s, steps, [step]);
    assert [step][1..] == [];
  }

  lemma {:induction false} AboveAll(ids: set<ProcId>) returns (r: ProcId)
    ensures forall id :: id in ids ==> id < r
    decreases |ids|
  {
    if ids == {} {
      r := 0;
    } else {
      var id :| id in ids;
      var rest := AboveAll(ids - {id});
      r := if id < rest then rest else id + 1;
      assert forall x :: x in ids ==> x == id || x in ids - {id};
    }
  }

  // ----- the exact condition -----

  /** The row's lease is current and its node's claim is not over. */
  predicate Live(s: State, e: EmissionId)
    requires e in s.rows
  {
    && Current(s, s.rows[e].lease)
    && s.rows[e].attestation in s.claims && !s.claims[s.rows[e].attestation].standing.Ended?
  }

  /** The event is in the stream, or in the hands of a process that is about to append it. */
  predicate OnItsWay(s: State, e: EmissionId) {
    e in s.keys || exists p :: p in s.procs && s.procs[p].pc.Loaded? && s.procs[p].pc.emission == e
  }

  ghost predicate CanLeave(s: State, e: EmissionId) {
    exists steps :: IsMarked(Run(s, steps), e)
  }

  predicate IsMarked(s: State, e: EmissionId) {
    e in s.rows && !s.rows[e].state.Prepared?
  }

  // ----- sending -----

  /** The same tables, with the row unlocked. */
  lemma FreeRow(s: State, e: EmissionId) returns (steps: seq<Step>)
    requires Sound(s)
    ensures Run(s, steps) == s.(procs := Run(s, steps).procs) && RowFree(Run(s, steps), e)
  {
    hide AckedOk;
    hide RowsOk;
    hide Keyed;
    hide LeasesOk;
    if p :| p in s.procs && LocksRow(s.procs[p], e) {
      steps := [] + [Rollback(p)];
      RunAppend(s, [], Rollback(p));
      var n := Run(s, steps);
      forall q | q in n.procs
        ensures !LocksRow(n.procs[q], e)
      {
        if q != p {
          assert n.procs[q] == s.procs[q];
        }
      }
    } else {
      steps := [];
    }
  }

  /** A claim that is only suspended can stand again. */
  lemma Restand(s: State, e: EmissionId) returns (steps: seq<Step>)
    requires Sound(s) && e in s.rows && RowFree(s, e) && Live(s, e)
    ensures Run(s, steps) == s.(claims := Run(s, steps).claims)
    ensures MayAct(Run(s, steps), s.rows[e].lease, s.rows[e].attestation)
  {
    hide AckedOk;
    hide ProcsOk;
    hide Keyed;
    var a := s.rows[e].attestation;
    steps := [SetClaim(a, Standing)];
    assert steps[1..] == [];
    assert ClaimFree(s, a) by {
      forall f | f in s.rows && s.rows[f].attestation == a
        ensures RowFree(s, f)
      {
        assert f == e;
      }
    }
    hide RowFree;
  }

  lemma NotAcknowledged(s: State, e: EmissionId)
    requires Sound(s) && e in s.rows && s.rows[e].state.Prepared?
    ensures s.rows[e].attestation !in s.acked
  {
    hide ProcsOk;
    hide Keyed;
    hide LeasesOk;
  }

  /** A reconciler of the row's lease that starts now holds the row. */
  lemma ReconcilerLoads(s: State, e: EmissionId, r: ProcId) returns (steps: seq<Step>)
    requires e in s.rows && s.rows[e].state.Prepared? && RowFree(s, e) && r !in s.procs
    requires MayAct(s, s.rows[e].lease, s.rows[e].attestation) && s.rows[e].attestation !in s.acked
    ensures Run(s, steps) == s.(procs :=
                                s.procs[r := Proc(Reconciler, s.rows[e].lease, Loaded(e, s.rows[e].event), None)])
  {
    var lease := s.rows[e].lease;
    var one, two, three := Start(r, Reconciler, lease), Pick(r, e), Load(r);
    var s1 := Next(s, one);
    assert RowFree(s1, e);
    var s2 := Next(s1, two);
    assert RowFree(s2, e);
    RunAppend(s, [], one);
    RunAppend(s, [one], two);
    RunAppend(s, [one, two], three);
    assert [] + [one] == [one] && [one] + [two] == [one, two];
    steps := [one, two] + [three];
    var running, sending := Proc(Reconciler, lease, Running, None), Proc(Reconciler, lease, Sending(e), None);
    var loaded := Proc(Reconciler, lease, Loaded(e, s.rows[e].event), None);
    assert s.procs[r := running][r := sending][r := loaded] == s.procs[r := loaded];
  }

  /** A process that holds a row appends its event unless it is there, and marks the row. */
  lemma LoadedSends(s: State, p: ProcId, e: EmissionId)
    requires p in s.procs && e in s.rows && s.procs[p].pc == Loaded(e, s.rows[e].event)
    requires MayAct(s, s.procs[p].lease, s.rows[e].attestation)
    ensures var n := Run(s, [Append(p, true), Mark(p), Commit(p, true)]);
            var m := if e in s.keys then s.keys[e] else |s.stream|;
            && n == AppendOnce(s, e, s.rows[e].event).0.(rows := n.rows, procs := n.procs)
            && n.rows == s.rows[e := s.rows[e].(state := Emitted(m))]
            && p in n.procs && n.procs[p] == s.procs[p].(pc := Sent(e, m))
  {
    var one, two, three := Append(p, true), Mark(p), Commit(p, true);
    var s1 := Next(s, one);
    var s2 := Next(s1, two);
    RunAppend(s, [], one);
    RunAppend(s, [one], two);
    RunAppend(s, [one, two], three);
    assert [] + [one] == [one] && [one] + [two] == [one, two] && [one, two] + [three] == [one, two, three];
    hide Run;
    assert s1.procs[p].pc.Appended? && s2.procs[p].pc.Marked?;
  }

  lemma FreeCanBeSent(s: State, e: EmissionId) returns (steps: seq<Step>)
    requires Sound(s) && e in s.rows && s.rows[e].state.Prepared? && RowFree(s, e)
    requires MayAct(s, s.rows[e].lease, s.rows[e].attestation)
    ensures var n := Run(s, steps);
            && e in n.rows && n.rows[e].state.Emitted? && InStream(n, e, n.rows[e].state.message)
            && |n.stream| == |s.stream| + (if e in s.keys then 0 else 1)
  {
    NotAcknowledged(s, e);
    hide AckedOk;
    hide ProcsOk;
    hide LeasesOk;
    hide Next;
    hide Run;
    var r := AboveAll(s.procs.Keys);
    var load := ReconcilerLoads(s, e, r);
    LoadedSends(Run(s, load), r, e);
    RunConcat(s, load, [Append(r, true), Mark(r), Commit(r, true)]);
    steps := load + [Append(r, true), Mark(r), Commit(r, true)];
  }

  /**
   Whatever crashed before, the event of a live prepared row can be sent: it is then in the
   stream once and the row says where.
   */
  lemma LiveCanBeSent(s: State, e: EmissionId) returns (steps: seq<Step>)
    requires Sound(s) && e in s.rows && s.rows[e].state.Prepared? && Live(s, e)
    ensures var n := Run(s, steps);
            && e in n.rows && n.rows[e].state.Emitted? && InStream(n, e, n.rows[e].state.message)
            && |n.stream| == |s.stream| + (if e in s.keys then 0 else 1)
  {
    hide Next;
    hide Sound;
    var free := FreeRow(s, e);
    var s1 := Run(s, free);
    RunKeeps(s, free);
    var stand := Restand(s1, e);
    var s2 := Run(s1, stand);
    RunKeeps(s1, stand);
    RowFreeOf(s1, s2, e);
    var send := FreeCanBeSent(s2, e);
    RunConcat(s, free, stand);
    RunConcat(s, free + stand, send);
    steps := free + stand + send;
  }

  lemma RowFreeOf(s: State, n: State, e: EmissionId)
    requires RowFree(s, e) && n.procs == s.procs
    ensures RowFree(n, e)
  {
  }

  // ----- a whole delivery -----

  /** The attestation is new or was made under this lease, and no event has been prepared for it. */
  predicate MayDeliver(s: State, a: AttestationId, lease: Lease) {
    && Current(s, lease) && RowOf(s, a) == {} && a !in s.acked
    && (a in s.claims ==> s.claims[a] == Claim(lease, Standing))
  }

  /** A delivery that starts now is about to send the event it has prepared under a new row. */
  lemma DeliveryPrepares(s: State, p: ProcId, e: EmissionId, a: AttestationId, lease: Lease, event: Event)
    returns (steps: seq<Step>)
    requires MayDeliver(s, a, lease) && p !in s.procs && e !in s.rows
    ensures var n := Run(s, steps);
            && n.procs == s.procs[p := Proc(Delivery(a), lease, Sending(e), Some(event))]
            && n.rows == s.rows[e := Row(a, lease, event, Prepared)] && MayAct(n, lease, a)
            && n.stream == s.stream && n.keys == s.keys && n.acked == s.acked
  {
    var one, two := Start(p, Delivery(a), lease), Prepare(p, event, e, true);
    var s1 := Next(s, one);
    assert MayAct(s1, lease, a) && RowOf(s1, a) == {} && s1.rows == s.rows;
    RunAppend(s, [], one);
    RunAppend(s, [one], two);
    assert [] + [one] == [one];
    steps := [one] + [two];
    hide RowOf;
    var running := Proc(Delivery(a), lease, Running, None);
    var sending := Proc(Delivery(a), lease, Sending(e), Some(event));
    assert s.procs[p := running][p := sending] == s.procs[p := sending];
  }

  /** From there it can send, mark and acknowledge. */
  lemma DeliverySends(s: State, p: ProcId, e: EmissionId, a: AttestationId, lease: Lease, event: Event)
    returns (steps: seq<Step>)
    requires p in s.procs && s.procs[p] == Proc(Delivery(a), lease, Sending(e), Some(event))
    requires e in s.rows && s.rows[e] == Row(a, lease, event, Prepared) && RowFree(s, e)
    requires MayAct(s, lease, a) && a !in s.acked && e !in s.keys
    ensures var n := Run(s, steps);
            && n.stream == s.stream + [StreamEntry(e, event)] && a in n.acked
            && e in n.rows && n.rows[e].state == Emitted(|s.stream|)
  {
    var load, send, ack := Load(p), [Append(p, true), Mark(p), Commit(p, true)], Acknowledge(p);
    var s1 := Next(s, load);
    assert s1 == s.(procs := s1.procs) && s1.procs[p] == s.procs[p].(pc := Loaded(e, event));
    RunAppend(s, [], load);
    assert [] + [load] == [load];
    LoadedSends(s1, p, e);
    RunConcat(s, [load], send);
    var s2 := Run(s1, send);
    RunAppend(s, [load] + send, ack);
    hide Run;
    hide RowFree;
    assert s2.procs[p].pc.Sent? && MayAct(s2, lease, a);
    steps := [load] + send + [ack];
  }

  /**
   A delivery under a current lease and a standing claim, of a task without an event yet, can
   be run to the end: its own event is the one entry added to the stream, the row names it,
   and the task is acknowledged.
   */
  lemma DeliveryCompletes(s: State, a: AttestationId, lease: Lease, event: Event) returns (steps: seq<Step>)
    requires Sound(s) && MayDeliver(s, a, lease)
    ensures var n := Run(s, steps);
            && a in n.acked
            && |n.stream| == |s.stream| + 1 && s.stream <= n.stream && n.stream[|s.stream|].event == event
            && exists e :: e in n.rows && n.rows[e].attestation == a && InStream(n, e, |s.stream|)
                           && n.rows[e].state == Emitted(|s.stream|)
  {
    var p := AboveAll(s.procs.Keys);
    var e := AboveAll(s.rows.Keys);
    var prepare := DeliveryPrepares(s, p, e, a, lease, event);
    var s1 := Run(s, prepare);
    RunKeeps(s, prepare);
    NewRowIsFree(s, s1, p, e);
    hide Next;
    hide Run;
    var send := DeliverySends(s1, p, e, a, lease, event);
    RunConcat(s, prepare, send);
    steps := prepare + send;
    RunKeeps(s1, send);
    var n := Run(s1, send);
    EmittedIsInStream(n, e);
    RowsStay(s1, send, e);
    hide Sound;
  }

  /** Nobody has a row locked or keyed that was not there. */
  lemma NewRowIsFree(s: State, n: State, p: ProcId, e: EmissionId)
    requires Sound(s) && e !in s.rows && p !in s.procs && p in n.procs && n.procs == s.procs[p := n.procs[p]]
    requires n.procs[p].pc.Sending? && n.keys == s.keys
    ensures RowFree(n, e) && e !in n.keys
  {
    hide AckedOk;
    hide LeasesOk;
    forall q | q in n.procs
      ensures !LocksRow(n.procs[q], e)
    {
      if q != p {
        assert ProcOk(s, s.procs[q]);
      }
    }
  }

  lemma EmittedIsInStream(s: State, e: EmissionId)
    requires Sound(s) && e in s.rows && !s.rows[e].state.Prepared?
    ensures InStream(s, e, s.rows[e].state.message)
  {
    hide ProcsOk;
    hide AckedOk;
    hide LeasesOk;
  }

  lemma {:induction false} RowsStay(s: State, steps: seq<Step>, e: EmissionId)
    requires e in s.rows
    ensures var n := Run(s, steps);
            e in n.rows && n.rows[e].attestation == s.rows[e].attestation && n.rows[e].event == s.rows[e].event
    decreases |steps|
  {
    hide Next;
    if steps != [] {
      Grows(s, steps[0]);
      RowsStay(Next(s, steps[0]), steps[1..], e);
    }
  }

  // ----- marking what is on its way -----

  /** The orchestrator marks an entry of a free row, whatever became of the lease. */
  lemma KeyedCanLeave(s: State, e: EmissionId) returns (steps: seq<Step>)
    requires Sound(s) && e in s.rows && e in s.keys
    ensures IsMarked(Run(s, steps), e) && (s.rows[e].state.Prepared? ==> Run(s, steps).rows[e].state.Emitted?)
  {
    var free := FreeRow(s, e);
    var n := Run(s, free);
    RunAppend(s, free, Observe(s.keys[e]));
    steps := free + [Observe(s.keys[e])];
    hide AckedOk;
    hide ProcsOk;
    hide LeasesOk;
  }

  lemma OnItsWayCanLeave(s: State, e: EmissionId) returns (steps: seq<Step>)
    requires Sound(s) && e in s.rows && OnItsWay(s, e)
    ensures IsMarked(Run(s, steps), e) && (s.rows[e].state.Prepared? ==> Run(s, steps).rows[e].state.Emitted?)
  {
    if e in s.keys {
      steps := KeyedCanLeave(s, e);
    } else {
      var p :| p in s.procs && s.procs[p].pc.Loaded? && s.procs[p].pc.emission == e;
      var n := Next(s, Append(p, true));
      assert e in n.rows && e in n.keys;
      StepKeeps(s, Append(p, true));
      hide Sound;
      var rest := KeyedCanLeave(n, e);
      steps := [Append(p, true)] + rest;
      assert steps[1..] == rest;
    }
  }

  /** The task of an event on its way can be acknowledged by the orchestrator, whatever became of the worker. */
  lemma OnItsWayCanBeAcknowledged(s: State, e: EmissionId) returns (steps: seq<Step>)
    requires Sound(s) && e in s.rows && s.rows[e].state.Prepared? && OnItsWay(s, e)
    ensures var n := Run(s, steps);
            && s.rows[e].attestation in n.acked && e in n.rows
            && n.rows[e].state.Resolved? && InStream(n, e, n.rows[e].state.message)
  {
    hide Sound;
    hide Next;
    hide OnItsWay;
    var mark := OnItsWayCanLeave(s, e);
    RunKeeps(s, mark);
    RowsStay(s, mark, e);
    var s1 := Run(s, mark);
    var free := FreeRow(s1, e);
    RunKeeps(s1, free);
    var s2 := Run(s1, free);
    RunConcat(s, mark, free);
    RunAppend(s, mark + free, ResolveRow(e, true));
    steps := mark + free + [ResolveRow(e, true)];
    ResolvesTask(s2, e);
    RunKeeps(s, steps);
    EmittedIsInStream(Run(s, steps), e);
    hide Run;
  }

  lemma ResolvesTask(s: State, e: EmissionId)
    requires e in s.rows && s.rows[e].state.Emitted? && RowFree(s, e)
    ensures var n := Next(s, ResolveRow(e, true));
            e in n.rows && n.rows[e].state.Resolved? && s.rows[e].attestation in n.acked
  {
    hide RowFree;
  }

  // ----- stranded rows -----

  /** Prepared, with a lease or a claim that is over and nothing on its way. */
  predicate Stranded(s: State, e: EmissionId) {
    e in s.rows && s.rows[e].state.Prepared? && !Live(s, e) && !OnItsWay(s, e)
  }

  lemma LiveKept(s: State, step: Step, e: EmissionId)
    requires LeasesOk(s) && e in s.rows && !Live(s, e)
    ensures e in Next(s, step).rows && !Live(Next(s, step), e)
  {
    hide Next;
    Grows(s, step);
    LeasesMove(s, step);
  }

  lemma OnItsWayKept(s: State, step: Step, e: EmissionId)
    requires Sound(s) && Stranded(s, e)
    ensures !OnItsWay(Next(s, step), e)
  {
    hide AckedOk;
    hide Keyed;
    hide RowsOk;
    hide ProcsOk;
    hide RowFree;
    hide Next;
    var n := Next(s, step);
    StreamMoves(s, step);
    forall p | p in n.procs && n.procs[p].pc.Loaded? && n.procs[p].pc.emission == e
      ensures p in s.procs && s.procs[p].pc.Loaded? && s.procs[p].pc.emission == e
    {
      if OfWorld(step) || step.id != p {
        ProcsMove(s, step, p);
      } else {
        LoadComes(s, step, e);
      }
    }
  }

  /** Only a load of a live row brings a process to hold its event. */
  lemma LoadComes(s: State, step: Step, e: EmissionId)
    requires !OfWorld(step) && step.id in Next(s, step).procs && e in s.rows && !Live(s, e)
    requires var pc := Next(s, step).procs[step.id].pc; pc.Loaded? && pc.emission == e
    ensures step.id in s.procs && s.procs[step.id].pc.Loaded? && s.procs[step.id].pc.emission == e
  {
    hide PrepareRow;
    hide RowFree;
    if step.Prepare? && step.id in s.procs && s.procs[step.id].role.Delivery? {
      PrepareMoves(s, step);
    }
  }

  lemma StrandedKept(s: State, step: Step, e: EmissionId)
    requires Sound(s) && Stranded(s, e)
    ensures Stranded(Next(s, step), e)
  {
    LiveKept(s, step, e);
    OnItsWayKept(s, step, e);
    if !Next(s, step).rows[e].state.Prepared? {
      RowCame(s, step, e);
      MarksTheKey(s, step, e, Next(s, step).rows[e].state.message);
    }
    hide Next;
    hide Sound;
  }

  /** A stranded row is never marked, its event never reaches the stream, and its task is never acknowledged. */
  lemma {:induction false} StrandedForGood(s: State, steps: seq<Step>, e: EmissionId)
    requires Sound(s) && Stranded(s, e)
    ensures var n := Run(s, steps);
            && Sound(n) && Stranded(n, e)
            && (forall i :: 0 <= i < |n.stream| ==> n.stream[i].emission != e)
            && n.rows[e].attestation !in n.acked
    decreases |steps|
  {
    hide Next;
    if steps == [] {
      NotAcknowledged(s, e);
    } else {
      StepKeeps(s, steps[0]);
      StrandedKept(s, steps[0], e);
      hide Sound;
      hide Stranded;
      StrandedForGood(Next(s, steps[0]), steps[1..], e);
    }
  }

  /**
   The exact condition. A prepared row can still be marked in some run if and only if its
   lease is current with a claim that is not over, or its event is in the stream or about to
   be appended.
   */
  lemma CanLeaveExactly(s: State, e: EmissionId)
    requires Sound(s) && e in s.rows && s.rows[e].state.Prepared?
    ensures CanLeave(s, e) <==> Live(s, e) || OnItsWay(s, e)
  {
    hide Next;
    hide Sound;
    hide OnItsWay;
    hide Run;
    if Live(s, e) {
      var steps := LiveCanBeSent(s, e);
      assert IsMarked(Run(s, steps), e);
    } else if OnItsWay(s, e) {
      var steps := OnItsWayCanLeave(s, e);
      assert IsMarked(Run(s, steps), e);
    } else {
      forall steps
        ensures !IsMarked(Run(s, steps), e)
      {
        StrandedForGood(s, steps, e);
      }
    }
  }

  // ----- senders alone -----

  /** Nobody has passed the check that marks the row. */
  predicate Unmarked(s: State, e: EmissionId) {
    forall p :: p in s.procs ==> !(s.procs[p].pc.Marked? && s.procs[p].pc.emission == e)
  }

  lemma UnmarkedKept(s: State, step: Step, e: EmissionId)
    requires LeasesOk(s) && e in s.rows && !Live(s, e) && Unmarked(s, e)
    ensures Unmarked(Next(s, step), e)
  {
    hide LeasesOk;
    hide Next;
    var n := Next(s, step);
    forall p | p in n.procs
      ensures !(n.procs[p].pc.Marked? && n.procs[p].pc.emission == e)
    {
      if OfWorld(step) || step.id != p {
        ProcsMove(s, step, p);
      } else {
        MarkComes(s, step, e);
      }
    }
  }

  /** Only the mark of a live row brings a process past its check. */
  lemma MarkComes(s: State, step: Step, e: EmissionId)
    requires LeasesOk(s) && !OfWorld(step) && step.id in Next(s, step).procs && e in s.rows && !Live(s, e)
    ensures var pc := Next(s, step).procs[step.id].pc;
            pc.Marked? && pc.emission == e ==> step.id in s.procs && s.procs[step.id].pc == pc
  {
    hide PrepareRow;
    hide RowFree;
    hide MayLoad;
    if step.Prepare? && step.id in s.procs && s.procs[step.id].role.Delivery? {
      PrepareMoves(s, step);
    }
  }

  /** Once the lease is superseded or lapsed, no worker marks the row, be its event in the stream or not. */
  lemma {:induction false} SendersCannot(s: State, steps: seq<Step>, e: EmissionId)
    requires Sound(s) && e in s.rows && s.rows[e].state.Prepared? && !Live(s, e) && Unmarked(s, e)
    requires forall i :: 0 <= i < |steps| ==> !steps[i].Observe?
    ensures e in Run(s, steps).rows && Run(s, steps).rows[e].state.Prepared?
    decreases |steps|
  {
    hide Next;
    hide Unmarked;
    if steps != [] {
      StepKeeps(s, steps[0]);
      LiveKept(s, steps[0], e);
      UnmarkedKept(s, steps[0], e);
      StillPrepared(s, steps[0], e);
      hide Sound;
      SendersCannot(Next(s, steps[0]), steps[1..], e);
    }
  }

  lemma StillPrepared(s: State, step: Step, e: EmissionId)
    requires e in s.rows && s.rows[e].state.Prepared? && Unmarked(s, e) && !step.Observe?
    ensures e in Next(s, step).rows && Next(s, step).rows[e].state.Prepared?
  {
    hide Next;
    Grows(s, step);
    if !Next(s, step).rows[e].state.Prepared? {
      RowCame(s, step, e);
    }
  }

  // ----- a stranded row is reachable -----

  const FIRST: Lease := Lease(0, 1)

  const DONE: Event := Event(NodeCompleted, "")

  /** One worker has prepared its event and is about to send it. */
  function AboutToSend(): State {
    State(map[0 := Row(0, FIRST, DONE, Prepared)], [], map[],
          map[0 := Proc(Delivery(0), FIRST, Sending(0), Some(DONE))], {},
          map[0 := LeaseState(1, true)], map[0 := Claim(FIRST, Standing)])
  }

  lemma AboutToSendIsReachable()
    ensures Run(EMPTY, [Register(0), Start(0, Delivery(0), FIRST), Prepare(0, DONE, 0, true)]) == AboutToSend()
  {
    var one, two, three := Register(0), Start(0, Delivery(0), FIRST), Prepare(0, DONE, 0, true);
    var s2 := Next(Next(EMPTY, one), two);
    assert RowOf(s2, 0) == {};
    assert Next(s2, three) == AboutToSend();
    RunAppend(EMPTY, [], one);
    RunAppend(EMPTY, [one], two);
    RunAppend(EMPTY, [one, two], three);
    assert [] + [one] == [one] && [one] + [two] == [one, two] && [one, two] + [three] == [one, two, three];
    hide Next;
    hide Run;
  }

  /** A worker dies between preparing and sending, and its service registers anew. */
  lemma StrandingIsReachable() returns (steps: seq<Step>, e: EmissionId)
    ensures Stranded(Run(EMPTY, steps), e)
  {
    var before := [Register(0), Start(0, Delivery(0), FIRST), Prepare(0, DONE, 0, true)];
    AboutToSendIsReachable();
    RunAppend(EMPTY, before, Die(0));
    RunAppend(EMPTY, before + [Die(0)], Register(0));
    hide Run;
    steps, e := before + [Die(0)] + [Register(0)], 0;
  }
}
