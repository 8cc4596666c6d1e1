/**
 What a drill's facts were called with. The operation, the Manager task, the video and the
 receipt in a helper's journal are those of the calls made to it, in agreement with each
 other; a file of anybody else's, or a malformed video id, ends a drill for good.
 */
module DrillCalls {
  import opened Common
  import opened DrillRecords
  import opened DrillHelpers
  import opened DrillSafety
  import opened DrillWorlds

  /** The calls of a run that were made to one helper. */
  function CallsTo(steps: seq<Step>, id: HelperId): set<Call> {
    set i | 0 <= i < |steps| && steps[i].Calling? && steps[i].id == id :: steps[i].call
  }

  /** Where the helper is, or is about to be. */
  function Goal(h: Helper): Phase {
    if h.active.Some? then h.active.value.target else h.phase
  }

  /** Each fact of the helper was called for, the receipt under the Manager task that was recorded. */
  predicate CalledFor(h: Helper, id: HelperId, calls: set<Call>) {
    && (h.operation.Some? ==> Prepare(h.operation.value) in calls)
    && (h.manager.Some? ==> RecordSubmitted(Canonical(h.manager.value)) in calls)
    && (h.video.Some? ==> h.manager.Some? && BeforeReceipt(h.manager.value, h.video.value) in calls)
    && (|h.records| >= 2 || Goal(h).Posted? ==> PostAttempt in calls)
    && (h.recoveries > 0 ==> Authenticate(id) in calls)
    && (|h.records| >= 10 || Goal(h).Recovering? ==> LoadForResume in calls)
    && (|h.records| >= 13 || Goal(h).Finished? ==> RecordSucceeded(h.receiptSha) in calls)
  }

  lemma CallsMore(h: Helper, id: HelperId, calls: set<Call>, more: set<Call>)
    requires CalledFor(h, id, calls) && calls <= more
    ensures CalledFor(h, id, more)
  {
  }

  lemma CallCalls(h: Helper, id: HelperId, directory: map<FileName, Slot>, call: Call, calls: set<Call>)
    requires HelperOk(h) && h.active.None? && CalledFor(h, id, calls) && call in calls
    ensures CalledFor(Called(h, id, directory, call), id, calls)
  {
    hide FileOk;
    hide TargetOk;
    hide NonceOk;
    hide AnyVideoId;
    hide DirectoryIs;
    hide HasName;
  }

  lemma MoveCalls(w: World, id: HelperId, move: Move, calls: set<Call>)
    requires id in w.helpers && w.helpers[id].active.Some? && HelperOk(w.helpers[id])
    requires CalledFor(w.helpers[id], id, calls)
    ensures var n := Moved(w, id, w.helpers[id], w.helpers[id].active.value, move);
            id in n.helpers && CalledFor(n.helpers[id], id, calls)
  {
    hide FileOk;
    hide TargetOk;
    hide NonceOk;
    hide AnyVideoId;
    hide DirectoryIs;
    hide StageEntry;
  }

  lemma StepCalls(w: World, step: Step, id: HelperId, calls: set<Call>)
    requires Sound(w) && id in w.helpers && CalledFor(w.helpers[id], id, calls)
    requires step.Calling? && step.id == id ==> step.call in calls
    ensures id in Next(w, step).helpers && CalledFor(Next(w, step).helpers[id], id, calls)
  {
    hide HelperOk;
    hide Owns;
    hide OneOwner;
    hide CalledFor;
    hide Called;
    hide Moved;
    if step.id in w.helpers {
      var h := w.helpers[step.id];
      match step {
        case Calling(x, call) =>
          if h.active.None? && x == id {
            CallCalls(h, id, w.directory, call, calls);
          }
        case Moving(x, move) =>
          if h.active.Some? {
            MoveFrame(w, x, move);
            if x == id {
              MoveCalls(w, id, move, calls);
            }
          }
      }
    }
  }

  lemma {:induction false} RunCalls(w: World, steps: seq<Step>, id: HelperId, calls: set<Call>)
    requires Sound(w) && id in w.helpers && CalledFor(w.helpers[id], id, calls)
    ensures id in Run(w, steps).helpers && CalledFor(Run(w, steps).helpers[id], id, calls + CallsTo(steps, id))
    decreases |steps|
  {
    hide Sound;
    hide CalledFor;
    hide Next;
    if steps == [] {
      assert calls + CallsTo(steps, id) == calls;
    } else {
      var one := CallsTo([steps[0]], id);
      var more := calls + one;
      CallsMore(w.helpers[id], id, calls, more);
      assert steps[0].Calling? && steps[0].id == id ==> [steps[0]][0].call in one;
      StepCalls(w, steps[0], id, more);
      StepKeeps(w, steps[0]);
      RunCalls(Next(w, steps[0]), steps[1..], id, more);
      CallsSplit(steps, id);
      assert more + CallsTo(steps[1..], id) == calls + CallsTo(steps, id);
    }
  }

  lemma CallsSplit(steps: seq<Step>, id: HelperId)
    requires steps != []
    ensures CallsTo(steps, id) == CallsTo([steps[0]], id) + CallsTo(steps[1..], id)
  {
    var first, rest := [steps[0]], steps[1..];
    forall call | call in CallsTo(steps, id)
      ensures call in CallsTo(first, id) + CallsTo(rest, id)
    {
      var i :| 0 <= i < |steps| && steps[i].Calling? && steps[i].id == id && steps[i].call == call;
      if i == 0 {
        assert first[0].call == call;
      } else {
        assert rest[i - 1].call == call;
      }
    }
    forall call | call in CallsTo(rest, id)
      ensures call in CallsTo(steps, id)
    {
      var i :| 0 <= i < |rest| && rest[i].Calling? && rest[i].id == id && rest[i].call == call;
      assert steps[i + 1].call == call;
    }
    assert forall call :: call in CallsTo(first, id) ==> steps[0].Calling? && steps[0].call == call;
  }

  /**
   The journal of a finished drill names what its helper was called with: the operation it was
   prepared for, the Manager task that was recorded and for which the receipt was asked, with
   the video, and the receipt of its success; and the helper itself authenticated its abort.
   */
  lemma FinishedWasCalledFor(start: World, steps: seq<Step>, id: HelperId)
    requires Initial(start) && id in Run(start, steps).helpers && Run(start, steps).helpers[id].phase.Finished?
    requires id in start.helpers
    ensures var h, calls := Run(start, steps).helpers[id], CallsTo(steps, id);
            && h.operation.Some? && h.manager.Some? && h.video.Some?
            && Prepare(h.operation.value) in calls && PostAttempt in calls
            && RecordSubmitted(Canonical(h.manager.value)) in calls
            && BeforeReceipt(h.manager.value, h.video.value) in calls
            && Authenticate(id) in calls && LoadForResume in calls && RecordSucceeded(h.receiptSha) in calls
  {
    InitialSound(start);
    RunKeeps(start, steps);
    RunCalls(start, steps, id, {});
    assert {} + CallsTo(steps, id) == CallsTo(steps, id);
    var h := Run(start, steps).helpers[id];
    assert HelperOk(h);
    FinishedFacts(h);
    hide Run;
    hide Sound;
  }

  lemma FinishedFacts(h: Helper)
    requires HelperOk(h) && h.phase.Finished?
    ensures h.active.None? && |h.records| == 13 && h.recoveries == 1
    ensures h.operation.Some? && h.manager.Some? && h.video.Some?
  {
    hide FileOk;
    hide TargetOk;
    hide AnyVideoId;
  }

  // ----- what ends a drill -----

  /** A file that is none of the helper's own lies in the directory, and the helper is not past looking. */
  predicate Disturbed(w: World, id: HelperId, name: FileName) {
    && id in w.helpers && name in w.directory && !HasName(w.helpers[id].records, name)
    && (w.helpers[id].active.Some? ==> !w.helpers[id].active.value.checked && !w.helpers[id].active.value.created)
  }

  lemma DisturbedStep(w: World, id: HelperId, name: FileName, step: Step)
    requires Disturbed(w, id, name)
    ensures Disturbed(Next(w, step), id, name)
    ensures Next(w, step).helpers[id].records == w.helpers[id].records
    ensures Next(w, step).helpers[id].recoveries == w.helpers[id].recoveries
  {
    hide StageEntry;
    hide AnyVideoId;
    hide HasName;
  }

  /** A foreign file in its directory stops a drill: it writes nothing more and does not recover. */
  lemma {:induction false} ForeignFileStopsDrill(w: World, id: HelperId, name: FileName, steps: seq<Step>)
    requires Disturbed(w, id, name)
    ensures var n := Run(w, steps);
            && id in n.helpers && n.helpers[id].records == w.helpers[id].records
            && n.helpers[id].recoveries == w.helpers[id].recoveries
    decreases |steps|
  {
    assert id in w.helpers;
    hide Disturbed;
    hide Next;
    if steps != [] {
      DisturbedStep(w, id, name, steps[0]);
      ForeignFileStopsDrill(Next(w, steps[0]), id, name, steps[1..]);
    }
  }

  /** A malformed video id fails the drill for the rest of the run. */
  lemma MalformedVideoFails(w: World, id: HelperId, manager: Uuid, video: string, steps: seq<Step>)
    requires id in w.helpers && w.helpers[id].active.None? && w.helpers[id].phase.Submitted?
    requires w.helpers[id].manager == Some(manager) && !AnyVideoId(video)
    ensures var n := Run(w, [Calling(id, BeforeReceipt(manager, video))] + steps);
            id in n.helpers && n.helpers[id] == w.helpers[id].(phase := Failed)
  {
    hide AnyVideoId;
    var call := Calling(id, BeforeReceipt(manager, video));
    var w1 := Next(w, call);
    assert ([call] + steps)[1..] == steps;
    FailedIsAbsorbing(w1, id, steps);
  }
}
