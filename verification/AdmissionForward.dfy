/**
 A forward plan can be carried through: its credential is opened, the baseline captured, its
 workers verified, the current state captured and reconciled, and the transaction ends with
 success, with each of the three services created once and none left alive.
 */
module AdmissionForward {
  import opened Common
  import opened AdmissionTypes
  import opened AdmissionValidator
  import opened AdmissionContext
  import opened AdmissionCommands
  import opened AdmissionJournal
  import opened AdmissionInvariant
  import opened AdmissionPipeline
  import opened AdmissionRetire
  import opened AdmissionSteps
  import opened AdmissionFinish

  const EMPTY: Registered := Registered(None, None, None, None, None)

  /** The forward is being applied with a complete plan, and nothing of it or of its pipeline has started. */
  predicate Ready(d: Document) {
    && d.phase.ForwardApplying? && d.operation.None? && d.registered == Some(EMPTY)
    && Planned(d.forward.workers, d.targetCommit) && BeforeApply(d.forward.workers)
    && CredentialsOk(d)
    && (forall i :: 0 <= i < |d.authorities| ==> d.authorities[i].state.Provisioned?)
  }

  predicate Planned(workers: seq<Worker>, commit: string) {
    |workers| == 4 && OneBackendImage(workers, commit)
  }

  // ----- what the run finds -----

  const SHA := "1111111111111111111111111111111111111111111111111111111111111111"
  const SERVICE_IDS: seq<string> := ["aaaaaaaaaaaaaaaaaaaaaaaaa", "bbbbbbbbbbbbbbbbbbbbbbbbb",
                                     "ccccccccccccccccccccccccc"]
  const TASK_IDS: seq<string> := ["ddddddddddddddddddddddddd", "eeeeeeeeeeeeeeeeeeeeeeeee", "fffffffffffffffffffffffff"]
  const READ_ID := "ggggggggggggggggggggggggg"
  const PIN_ID := "hhhhhhhhhhhhhhhhhhhhhhhhh"

  const READER: RegisteredSecret := RegisteredSecret(SecretPresent, Some(READ_ID), "capture-read", SHA)
  const PINS: RegisteredSecret := RegisteredSecret(SecretPresent, Some(PIN_ID), "pins", SHA)

  const BASELINE_RESULT: JobResult := CaptureResult("baseline", "credentials", None)
  const CURRENT_RESULT: JobResult := CaptureResult("current", "credentials", Some(CapturePins("{}", SHA, {})))
  const RUN_RESULT: JobResult := RunResult(AlreadyAbsent, SHA, [], 1, SHA, SERVICE_IDS[2], TASK_IDS[2])

  const BASELINE: Job := Ran(NewJob("attempt", "input", "baseline", None), SERVICE_IDS[0], TASK_IDS[0], BASELINE_RESULT)
  const CURRENT: Job := Ran(NewJob("attempt", "input", "current", None), SERVICE_IDS[1], TASK_IDS[1], CURRENT_RESULT)
  const PINNED: Job := CURRENT.(pinsSecretId := Some(PIN_ID))
  const RUN: Job := Ran(NewJob("attempt", "input", "run", Some(PIN_ID)), SERVICE_IDS[2], TASK_IDS[2], RUN_RESULT)

  function Progress(d: Document): AppProgress {
    AppProgress(d.transactionId, d.targetCommit, [], MigrationApplied)
  }

  // ----- the pipeline, stage by stage -----

  /** One pipeline command that the engine has no part in. */
  lemma Writes(w: World, events: seq<Event>, c: PipelineCommand, r: Registered) returns (more: seq<Event>)
    requires var d := Trace(w, events).journal.document;
             Valid(d) && UpdatePipeline(d, c) == Written(WithRegistered(d, r)) && RegisteredOk(Some(r))
    requires OnSecrets(c) || c.CmdPrepareCapture? || c.CmdPrepareRun?
    ensures var m := Trace(w, events);
            var n := WithRegistered(m.journal.document, r);
            Valid(n) && Trace(w, more) == Then(m, n)
  {
    hide Valid;
    hide RegisteredOk;
    hide UpdatePipeline;
    hide Trace;
    hide Update;
    var m := Trace(w, events);
    PipelineTakes(m.journal.document, c, r);
    more := DoMore(w, events, OfPipeline(c), WithRegistered(m.journal.document, r));
  }

  lemma ReaderOpens(w: World) returns (events: seq<Event>)
    requires var d := w.journal.document;
             Valid(d) && PipelineOpen(d) && d.registered == Some(EMPTY) && d.baseline.captured
                 && BeforeApply(d.forward.workers)
    ensures var n := WithRegistered(w.journal.document, EMPTY.(captureRead := Some(READER)));
            Valid(n) && Leads(w, events, n)
  {
    hide Valid;
    hide BeforeApply;
    var asked := READER.(state := SecretCreating, id := None);
    NoEvents(w);
    hide Trace;
    events := Writes(w, [], CmdIntentRead("capture-read", SHA), EMPTY.(captureRead := Some(asked)));
    events := Writes(w, events, CmdBindRead(asked, READ_ID), EMPTY.(captureRead := Some(READER)));
  }

  /** A capture that may be prepared runs to its end. */
  lemma CaptureRuns(w: World, stage: JobStage, name: string, service: string, task: string, result: JobResult)
    returns (events: seq<Event>)
    requires var d := w.journal.document; Valid(d) && MayPrepareCapture(d, stage, Progress(d))
    requires w.permits.Get(stage) == 0 && w.created.Get(stage) == 0 && w.alive.Get(stage) == 0
    ensures var d := w.journal.document;
            var job := Ran(NewJob("attempt", "input", name, None), service, task, result);
            var n := WithRegistered(d, d.registered.value.Put(stage, job));
            && Valid(n) && Trace(w, events).journal.document == n
            && Trace(w, events) == w.(journal := Trace(w, events).journal, created := w.created.Put(stage, 1),
                                      services := Trace(w, events).services)
  {
    hide Valid;
    hide Next;
    hide MayPrepareCapture;
    hide ObserveJob;
    hide StartRemoval;
    hide DiscoverJob;
    hide BindLaunch;
    var d := w.journal.document;
    MayPrepareOpen(d, stage, Progress(d));
    var r, job := d.registered.value, NewJob("attempt", "input", name, None);
    NoEvents(w);
    ValidRegistered(d);
    PutOk(r, stage, job);
    hide RegisteredOk;
    hide Trace;
    var prepare := Writes(w, [], CmdPrepareCapture(stage, "attempt", "input", name, Progress(d)), r.Put(stage, job));
    var run := JobRuns(Trace(w, prepare), stage, service, task, result);
    PutAgain(r, stage, job, Ran(job, service, task, result));
    TraceConcat(w, prepare, run);
    events := prepare + run;
  }

  lemma MayPrepareOpen(d: Document, stage: JobStage, progress: AppProgress)
    requires MayPrepareCapture(d, stage, progress)
    ensures PipelineOpen(d)
  {
  }

  /** The pins of the finished capture are stored and bound to it. */
  lemma PinsBind(w: World) returns (events: seq<Event>)
    requires var d := w.journal.document;
             Valid(d) && PipelineOpen(d) && d.registered
                 == Some(Registered(Some(BASELINE), Some(CURRENT), None, None, Some(READER)))
    ensures var n := WithRegistered(w.journal.document,
                                    Registered(Some(BASELINE), Some(PINNED), None, Some(PINS), Some(READER)));
            Valid(n) && Leads(w, events, n)
  {
    hide Valid;
    hide Next;
    hide MayPrepareCapture;
    hide ObserveJob;
    hide StartRemoval;
    hide DiscoverJob;
    hide BindLaunch;
    hide IntentRead;
    hide BindRead;
    var asked := PINS.(state := SecretCreating, id := None);
    var r := w.journal.document.registered.value;
    NoEvents(w);
    hide Trace;
    events := Writes(w, [], CmdIntentPins("pins"), r.(pins := Some(asked)));
    events := Writes(w, events, CmdBindPins(asked, PIN_ID), r.(pins := Some(PINS), current := Some(PINNED)));
  }

  lemma ReconcileRuns(w: World) returns (events: seq<Event>)
    requires var d := w.journal.document;
             && Valid(d) && PipelineOpen(d)
             && d.registered == Some(Registered(Some(BASELINE), Some(PINNED), None, Some(PINS), Some(READER)))
    requires w.permits.run == 0 && w.created.run == 0 && w.alive.run == 0
    ensures var n := WithRegistered(w.journal.document,
                                    Registered(Some(BASELINE), Some(PINNED), Some(RUN), Some(PINS), Some(READER)));
            && Valid(n) && Trace(w, events).journal.document == n
            && Trace(w, events) == w.(journal := Trace(w, events).journal, created := w.created.Put(RunJob, 1),
                                      services := Trace(w, events).services)
  {
    hide Valid;
    hide Next;
    hide MayPrepareCapture;
    hide ObserveJob;
    hide StartRemoval;
    hide DiscoverJob;
    hide BindLaunch;
    hide IntentRead;
    hide BindRead;
    var r := w.journal.document.registered.value;
    var job := NewJob("attempt", "input", "run", Some(PIN_ID));
    NoEvents(w);
    hide Trace;
    var prepare := Writes(w, [], CmdPrepareRun("input", "run"), r.Put(RunJob, job));
    var run := JobRuns(Trace(w, prepare), RunJob, SERVICE_IDS[2], TASK_IDS[2], RUN_RESULT);
    TraceConcat(w, prepare, run);
    events := prepare + run;
  }

  /** The record of a pipeline that ran through. */
  const COMPLETE: Registered := Registered(
    Some(BASELINE), Some(PINNED), Some(RUN), Some(PINS.(state := SecretRemoved)), Some(READER.(state := SecretRemoved)))

  lemma SecretsGo(w: World) returns (events: seq<Event>)
    requires var d := w.journal.document;
             Valid(d) && d.registered == Some(Registered(Some(BASELINE), Some(PINNED), Some(RUN), Some(PINS),
                                                         Some(READER)))
    ensures var n := WithRegistered(w.journal.document, COMPLETE);
            Valid(n) && Leads(w, events, n)
  {
    hide Valid;
    hide Next;
    hide MayPrepareCapture;
    hide ObserveJob;
    hide StartRemoval;
    hide DiscoverJob;
    hide BindLaunch;
    hide IntentRead;
    hide BindRead;
    var r := w.journal.document.registered.value;
    NoEvents(w);
    hide Trace;
    events := Writes(w, [], CmdRemoveSecret(true, PINS), r.(pins := COMPLETE.pins));
    events := Writes(w, events, CmdRemoveSecret(false, READER), COMPLETE);
  }

  lemma CompletePasses()
    ensures SuccessGate(Some(COMPLETE))
  {
  }

  // ----- the workers -----

  /** The first workers are verified under spare ids, the others not applied. */
  predicate VerifiedUpTo(workers: seq<Worker>, i: nat) {
    && i <= |workers| <= 4
    && (forall k :: 0 <= k < i ==> workers[k].stage.Verified? && workers[k].dockerServiceId == Some(SPARE_IDS[k]))
    && (forall k :: i <= k < |workers| ==> NotApplied(workers[k]) && workers[k].dockerServiceId.None?)
  }

  lemma {:induction false} WorkersVerify(d: Document, i: nat) returns (commands: seq<Command>, n: Document)
    requires Valid(d) && d.phase.ForwardApplying? && d.operation.None? && VerifiedUpTo(d.forward.workers, i)
    ensures Valid(n) && Played(d, commands) == Some(n) && forall k :: 0 <= k < |commands| ==> !commands[k].OfPipeline?
    ensures n == WithWorkers(d, ForwardDirection, n.forward.workers)
    ensures SamePlans(d.forward.workers, n.forward.workers) && AllVerified(n.forward.workers)
    decreases |d.forward.workers| - i
  {
    hide Valid;
    hide Played;
    if i == |d.forward.workers| {
      NothingPlayed(d);
      commands, n := [], d;
    } else {
      assert forall k :: 0 <= k < i ==> SPARE_IDS[k][0] != SPARE_IDS[i][0];
      var first, m := WorkerVerifies(d, i, SPARE_IDS[i]);
      var rest;
      rest, n := WorkersVerify(m, i + 1);
      PlayedThen(d, first, m, rest);
      commands := first + rest;
    }
  }

  /** Whether all but the Go worker share the image does not depend on their stages. */
  lemma ImageKept(a: seq<Worker>, b: seq<Worker>, commit: string)
    requires SamePlans(a, b) && OneBackendImage(a, commit)
    ensures OneBackendImage(b, commit)
  {
    var i := First(a, (w: Worker) => w.service != GO_WORKER, 0);
    var j := First(b, (w: Worker) => w.service != GO_WORKER, 0);
    assert i == j by {
      assert forall k :: 0 <= k < |a| ==> SamePlan(a[k], b[k]);
    }
  }

  // ----- from the plan to the verified forward -----

  /** Whether a document is the other with workers of the same plans and another record. */
  predicate Carries(d: Document, n: Document) {
    && n == d.(forward := n.forward, registered := n.registered)
    && n.forward == d.forward.(workers := n.forward.workers) && SamePlans(d.forward.workers, n.forward.workers)
  }

  lemma CaptureMayBegin(d: Document, n: Document, stage: JobStage)
    requires Carries(d, n) && PipelineOpen(d) && d.baseline.captured && Planned(d.forward.workers, d.targetCommit)
    requires CredentialsOk(d)
    requires !stage.RunJob? && n.registered.Some? && n.registered.value.Get(stage).None?
    requires n.registered.value.captureRead == Some(READER)
    requires if stage.BaselineJob? then BeforeApply(n.forward.workers)
             else AllVerified(n.forward.workers) && n.registered.value.baseline == Some(BASELINE)
    ensures MayPrepareCapture(n, stage, Progress(n))
  {
    hide OneBackendImage;
    ImageKept(d.forward.workers, n.forward.workers, d.targetCommit);
    hide SamePlans;
    hide OperatorSecretOk;
    hide BeforeApply;
    hide AllVerified;
  }

  const FIRST_HALF: Registered := Registered(Some(BASELINE), None, None, None, Some(READER))

  lemma BaselineIsCaptured(w: World) returns (events: seq<Event>)
    requires Valid(w.journal.document) && Ready(w.journal.document)
    requires w.permits == NONE && w.created == NONE && w.alive == NONE
    ensures var n := WithRegistered(w.journal.document, FIRST_HALF);
            && Valid(n) && Trace(w, events).journal.document == n
            && Trace(w, events) == World(Trace(w, events).journal, NONE, Tally(1, 0, 0), NONE,
                                         Trace(w, events).services)
  {
    hide Valid;
    hide Next;
    hide Trace;
    hide BeforeApply;
    hide CredentialsOk;
    hide OneBackendImage;
    hide MayPrepareCapture;
    var d := w.journal.document;
    BaselineCaptured(d);
    var open := ReaderOpens(w);
    var w1 := Trace(w, open);
    CaptureMayBegin(d, w1.journal.document, BaselineJob);
    var capture := CaptureRuns(w1, BaselineJob, "baseline", SERVICE_IDS[0], TASK_IDS[0], BASELINE_RESULT);
    TraceConcat(w, open, capture);
    events := open + capture;
  }

  lemma BaselineCaptured(d: Document)
    requires Valid(d) && d.phase.ForwardApplying?
    ensures d.baseline.captured
  {
  }

  lemma WorkersAreVerified(w: World) returns (events: seq<Event>, n: Document)
    requires var d := w.journal.document;
             Valid(d) && d.phase.ForwardApplying? && d.operation.None? && |d.forward.workers| == 4
                 && BeforeApply(d.forward.workers)
    ensures Valid(n) && Leads(w, events, n)
    ensures n == WithWorkers(w.journal.document, ForwardDirection, n.forward.workers)
    ensures SamePlans(w.journal.document.forward.workers, n.forward.workers) && AllVerified(n.forward.workers)
  {
    hide Valid;
    hide Next;
    hide Trace;
    hide Played;
    var d := w.journal.document;
    forall i | 0 <= i < |d.forward.workers|
      ensures NotApplied(d.forward.workers[i]) && d.forward.workers[i].dockerServiceId.None?
    {
      IdsComeLater(d, i);
    }
    var commands;
    commands, n := WorkersVerify(d, 0);
    hide SamePlans;
    hide AllVerified;
    hide BeforeApply;
    NoEvents(w);
    events := PlayedLeads(w, [], d, commands, n);
  }

  lemma PipelineCompletes(w: World, d: Document) returns (events: seq<Event>)
    requires var n := w.journal.document;
             && Valid(n) && Carries(d, n) && PipelineOpen(d) && d.baseline.captured
             && Planned(d.forward.workers, d.targetCommit) && CredentialsOk(d)
             && n.registered == Some(FIRST_HALF) && AllVerified(n.forward.workers)
    requires w.permits == NONE && w.created == Tally(1, 0, 0) && w.alive == NONE
    ensures var n := WithRegistered(w.journal.document, COMPLETE);
            && Valid(n) && Trace(w, events).journal.document == n
            && Trace(w, events) == World(Trace(w, events).journal, NONE, Tally(1, 1, 1), NONE,
                                         Trace(w, events).services)
  {
    hide Valid;
    hide Next;
    hide Trace;
    hide CredentialsOk;
    hide Planned;
    hide MayPrepareCapture;
    CaptureMayBegin(d, w.journal.document, CurrentJob);
    hide Carries;
    hide AllVerified;
    var capture := CaptureRuns(w, CurrentJob, "current", SERVICE_IDS[1], TASK_IDS[1], CURRENT_RESULT);
    var w1 := Trace(w, capture);
    assert w1.journal.document.registered == Some(Registered(Some(BASELINE), Some(CURRENT), None, None, Some(READER)));
    var bind := PinsBind(w1);
    var w2 := Trace(w1, bind);
    TraceConcat(w, capture, bind);
    var run := ReconcileRuns(w2);
    var w3 := Trace(w2, run);
    TraceConcat(w, capture + bind, run);
    var go := SecretsGo(w3);
    TraceConcat(w, capture + bind + run, go);
    events := capture + bind + run + go;
  }

  // ----- the verified forward -----

  lemma Verifies(d: Document)
    requires Valid(d) && d.phase.ForwardApplying? && d.operation.None? && d.registered == Some(COMPLETE)
    requires AllVerified(d.forward.workers) && d.rollback.control.None?
    requires forall i :: 0 <= i < |d.authorities| ==> d.authorities[i].state.Provisioned?
    ensures Takes(d, OfPhase(CmdTransition(ForwardVerified, None)), d.(phase := ForwardVerified))
  {
    hide Valid;
    hide SuccessGate;
    hide AllVerified;
    CompletePasses();
    VerifiedValid(d);
  }

  lemma VerifiedValid(d: Document)
    requires Valid(d) && d.phase.ForwardApplying? && d.operation.None?
    requires AllVerified(d.forward.workers) && d.rollback.control.None?
    requires forall i :: 0 <= i < |d.authorities| ==> d.authorities[i].state.Provisioned?
    ensures Valid(d.(phase := ForwardVerified))
  {
    hide AuthoritiesOk;
    hide PreparedSecretsOk;
    hide RegisteredOk;
    hide BaselineOk;
    hide FailedForwardOk;
    hide ForwardOk;
    hide RollbackOk;
    hide VisionJobsOk;
    hide RetirementsOk;
    hide SecretRefsOk;
    hide AllVerified;
    hide IsRollbackAuthority;
    var n := d.(phase := ForwardVerified);
    assert SameContext(d, n);
    AuthoritiesTransfer(d, n);
    SecretsDistinct(d);
    PreparedSecretsTransfer(d, n);
  }

  /** A ready forward runs its pipeline and verifies its workers, and is otherwise as before. */
  lemma ForwardCompletes(w: World) returns (events: seq<Event>, n: Document)
    requires Inv(w.journal.document) && Ready(w.journal.document)
    requires w.permits == NONE && w.created == NONE && w.alive == NONE
    ensures Carries(w.journal.document, n) && n.registered == Some(COMPLETE) && AllVerified(n.forward.workers)
    ensures Valid(n) && Trace(w, events).journal.document == n
    ensures Trace(w, events) == World(Trace(w, events).journal, NONE, Tally(1, 1, 1), NONE, Trace(w, events).services)
  {
    hide Inv;
    hide Valid;
    hide Next;
    hide Trace;
    hide BeforeApply;
    hide CredentialsOk;
    hide Planned;
    hide AllVerified;
    var d := w.journal.document;
    InvForward(d);
    PlannedIsFour(d);
    var baseline := BaselineIsCaptured(w);
    var w1 := Trace(w, baseline);
    var workers, n1 := WorkersAreVerified(w1);
    var w2 := Trace(w1, workers);
    TraceConcat(w, baseline, workers);
    var pipeline := PipelineCompletes(w2, d);
    TraceConcat(w, baseline + workers, pipeline);
    events, n := baseline + workers + pipeline, WithRegistered(n1, COMPLETE);
  }

  /**
   A forward whose plan is complete and whose pipeline has not begun can be carried to
   success, with each of the three services created exactly once and none left alive.
   */
  lemma ForwardCanSucceed(w: World) returns (events: seq<Event>)
    requires Inv(w.journal.document) && Ready(w.journal.document)
    requires w.permits == NONE && w.created == NONE && w.alive == NONE
    ensures var n := Trace(w, events);
            && n.journal.document.phase.Done? && n.journal.document.outcome == Some(Succeeded)
            && n.created == Tally(1, 1, 1) && n.permits == NONE && n.alive == NONE
  {
    hide Inv;
    hide Valid;
    hide Next;
    hide Trace;
    hide BeforeApply;
    hide CredentialsOk;
    hide Planned;
    hide AllVerified;
    hide SamePlans;
    InvForward(w.journal.document);
    var before, n := ForwardCompletes(w);
    Verifies(n);
    var verify := DoMore(w, before, OfPhase(CmdTransition(ForwardVerified, None)), n.(phase := ForwardVerified));
    var w1 := Trace(w, verify);
    TraceInv(w, verify);
    var submissions := VerifiedCanFinish(w1.journal);
    var finish := RunAsTrace(w1, submissions);
    TraceConcat(w, verify, finish);
    events := verify + finish;
  }

  lemma PlannedIsFour(d: Document)
    requires Planned(d.forward.workers, d.targetCommit)
    ensures |d.forward.workers| == 4
  {
  }

  lemma InvForward(d: Document)
    requires Inv(d) && d.phase.ForwardApplying?
    ensures Valid(d) && d.rollback.control.None? && d.baseline.captured
  {
    hide AuthoritiesOk;
    hide PreparedSecretsOk;
  }
}
