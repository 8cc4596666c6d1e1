/**
 Runs from the beginning of a transaction that end in the two ways a promoted forward may
 be recorded: as the success it is, and as a rollback that was prepared before.
 */
module AdmissionSuccess {
  import opened Common
  import opened AdmissionTypes
  import opened AdmissionValidator
  import opened AdmissionCommands
  import opened AdmissionJournal
  import opened AdmissionInvariant
  import opened AdmissionIntents
  import opened AdmissionPhases
  import opened AdmissionPipeline
  import opened AdmissionRetire
  import opened AdmissionSteps
  import opened AdmissionFinish
  import opened AdmissionForward
  import opened AdmissionRollback
  import opened AdmissionRuns

  // ----- the control plane of the target -----

  const REDIS: RuntimeSecret := RuntimeSecret("1", "vp-redis-runtime", "rrrrrrrrrrrrrrrrrrrrrrrrr")

  function ControlSecret(name: string, digit: char, purpose: string): SecretRef {
    SecretRef(name, ['c', digit] + "aaaaaaaaaaaaaaaaaaaa", CONTROL_SERVICE, "c-1", purpose)
  }

  const CONTROL: ControlIdentity := ControlIdentity("c-1", "vp-control:1", SHA, [
    ControlSecret("vp-wc-operator-c-1", '0', "operator"), ControlSecret("s1", '1', "owner"),
        ControlSecret("s2", '2', "reader"),
    ControlSecret("s3", '3', "writer"), ControlSecret("s4", '4', "marker"), ControlSecret("s5", '5', "runtime"),
    ControlSecret("s6", '6', "janitor")
  ])

  lemma ControlSecretsOk()
    ensures ControlOk(Some(CONTROL))
  {
    var refs := CONTROL.secrets;
    forall i, j | 0 <= i < j < 7
      ensures refs[i].name != refs[j].name && refs[i].dockerSecretId != refs[j].dockerSecretId
      ensures refs[i].purpose != refs[j].purpose
    {
      assert refs[i].name[1] != refs[j].name[1] && refs[i].dockerSecretId[1] != refs[j].dockerSecretId[1];
      assert refs[i].purpose[0] != refs[j].purpose[0] || |refs[i].purpose| != |refs[j].purpose|
          || refs[i].purpose[1] != refs[j].purpose[1];
    }
  }

  lemma OperatorIsFirst()
    ensures OperatorSecretOk(CONTROL)
  {
    var refs := CONTROL.secrets;
    assert forall j :: 0 < j < 7 ==> |refs[j].purpose| != |refs[0].purpose|;
    SoleIs(refs, (ref: SecretRef) => ref.purpose == "operator", 0);
  }

  lemma RecordsRedis(d: Document)
    requires Begun(d) && d.runtimeRedis == map[]
    ensures Begun(d.(runtimeRedis := map["control" := REDIS]))
    ensures Takes(d, OfResource(CmdRecordRuntimeSecret("control", REDIS)), d.(runtimeRedis := map["control" := REDIS]))
  {
    hide TransactionIdOk;
    hide RegisteredOk;
    hide BaselineOk;
    hide FailedForwardOk;
    hide ForwardOk;
    hide RollbackOk;
    PlainValid(d.(runtimeRedis := map["control" := REDIS]));
    hide Valid;
  }

  lemma RecordsControl(d: Document)
    requires Begun(d) && d.forward.control.None?
    ensures Begun(d.(forward := d.forward.(control := Some(CONTROL))))
    ensures Takes(d, OfPlan(CmdRecordControl(ForwardDirection, CONTROL)),
                  d.(forward := d.forward.(control := Some(CONTROL))))
  {
    hide TransactionIdOk;
    hide RegisteredOk;
    hide BaselineOk;
    hide FailedForwardOk;
    hide RuntimeRedisOk;
    hide RollbackOk;
    hide ControlOk;
    ControlSecretsOk();
    PlainValid(d.(forward := d.forward.(control := Some(CONTROL))));
    hide Valid;
  }

  lemma PlansShareTheImage(commit: string)
    ensures OneBackendImage(Plans(commit, 4), commit)
  {
    PlansAre(commit, 4);
    hide Plans;
    hide SecretOf;
    var workers := Plans(commit, 4);
    assert SERVICES[0] == GO_WORKER;
    forall i | 0 < i < 4
      ensures SERVICES[i] != GO_WORKER
    {
      ServicesDistinct(0, i);
    }
    assert workers[0].service == GO_WORKER && workers[1].service != GO_WORKER;
    assert First(workers, (w: Worker) => w.service != GO_WORKER, 0) == 1;
    var image, suffix := workers[1].image, ":deploy-" + Slice(commit, 0, 12);
    assert image == "vp-ffmpeg-worker-python" + suffix;
    hide Slice;
  }

  // ----- ready to be carried through -----

  /** What the selections and plans make of a begun document. */
  function Selected(d: Document): Document {
    WithPlans(d.(runtimeRedis := map["control" := REDIS], forward := d.forward.(control := Some(CONTROL))), 4)
  }

  lemma Selects(d: Document) returns (commands: seq<Command>)
    requires Begun(d) && d.runtimeRedis == map[] && d.forward.control.None? && d.forward.workers == []
    ensures Begun(Selected(d)) && Played(d, commands) == Some(Selected(d))
    ensures forall i :: 0 <= i < |commands| ==> !commands[i].OfPipeline?
  {
    hide PartsOk;
    hide Played;
    hide Takes;
    hide Plans;
    RecordsRedis(d);
    var d1, c1 := d.(runtimeRedis := map["control" := REDIS]), OfResource(CmdRecordRuntimeSecret("control", REDIS));
    RecordsControl(d1);
    var d2, c2 := d1.(forward := d1.forward.(control := Some(CONTROL))),
        OfPlan(CmdRecordControl(ForwardDirection, CONTROL));
    NothingPlayed(d);
    PlayedMore(d, [], d, c1, d1);
    PlayedMore(d, [] + [c1], d1, c2, d2);
    var rest := RecordsPlans(d2, 4);
    WithPlansOk(d2, 4);
    PlayedThen(d, [] + [c1] + [c2], d2, rest);
    commands := [] + [c1] + [c2] + rest;
  }

  lemma BecomesReady(d: Document) returns (commands: seq<Command>)
    requires Begun(d) && d.runtimeRedis == map[] && d.forward.control.None? && d.forward.workers == []
    requires d.baseline.captured && d.registered == Some(EMPTY)
    ensures Ready(Selected(d).(phase := ForwardApplying))
    ensures Played(d, commands) == Some(Selected(d).(phase := ForwardApplying))
    ensures forall i :: 0 <= i < |commands| ==> !commands[i].OfPipeline?
  {
    hide Ready;
    hide PartsOk;
    hide Played;
    hide Takes;
    hide Plans;
    var n := Selected(d).(phase := ForwardApplying);
    SelectedIsReady(d);
    var before := Selects(d);
    Applies(Selected(d));
    var c := OfPhase(CmdTransition(ForwardApplying, None));
    PlayedMore(d, before, Selected(d), c, n);
    commands := before + [c];
  }

  lemma Applies(d: Document)
    requires Begun(d) && d.baseline.captured
    ensures Takes(d, OfPhase(CmdTransition(ForwardApplying, None)), d.(phase := ForwardApplying))
  {
    hide PartsOk;
    hide Takes;
    PlainMoves(d, ForwardApplying);
  }

  lemma SelectedIsReady(d: Document)
    requires Plain(d) && d.registered == Some(EMPTY)
    ensures Ready(Selected(d).(phase := ForwardApplying))
  {
    PlansShareTheImage(d.targetCommit);
    hide OneBackendImage;
    OperatorIsFirst();
    hide OperatorSecretOk;
    PlansAre(d.targetCommit, 4);
    hide Plans;
  }

  lemma BeginIsBegun(transactionId: string, targetCommit: string, namespace: string)
    requires TransactionIdOk(transactionId)
    ensures Begun(Begin(transactionId, targetCommit, namespace, LegacyNoControl))
  {
  }

  // ----- success -----

  /**
   From the beginning of any transaction a success can be reached: the pipeline ran through,
   with each of its services created exactly once and none left alive.
   */
  lemma SuccessIsReachable(transactionId: string, targetCommit: string, namespace: string) returns (events: seq<Event>)
    requires TransactionIdOk(transactionId)
    ensures var w := Trace(Start(transactionId, targetCommit, namespace, LegacyNoControl), events);
            && w.journal.document.phase.Done? && w.journal.document.outcome == Some(Succeeded)
            && w.created == Tally(1, 1, 1) && w.alive == NONE
  {
    hide PartsOk;
    hide Inv;
    hide Valid;
    hide Update;
    hide Played;
    hide Trace;
    hide Ready;
    hide Capturable;
    var start := Begin(transactionId, targetCommit, namespace, LegacyNoControl);
    var w := Start(transactionId, targetCommit, namespace, LegacyNoControl);
    BeginKeeps(transactionId, targetCommit, namespace, LegacyNoControl);
    BeginIsBegun(transactionId, targetCommit, namespace);
    var services := EmptyHost();
    Captures(start, services);
    var d := Captured(start, services);
    var c := OfPlan(CmdCaptureBaseline(LegacyNoControl, None, services));
    NothingPlayed(start);
    PlayedMore(start, [], start, c, d);
    var rest := BecomesReady(d);
    PlayedThen(start, [] + [c], d, rest);
    NoEvents(w);
    var ready := PlayedLeads(w, [], start, [] + [c] + rest, Selected(d).(phase := ForwardApplying));
    TraceInv(w, ready);
    var finish := ForwardCanSucceed(Trace(w, ready));
    TraceConcat(w, ready, finish);
    events := ready + finish;
  }

  // ----- success recorded as a rollback -----

  /** A complete forward is taken into a rollback, the attempt allocated, and the candidate restored. */
  lemma CandidateIsRestored(d: Document) returns (commands: seq<Command>)
    requires Plain(d) && PartsOk(d) && d.phase.ForwardApplying? && d.promotion == Promotion(false, false, false)
    requires d.baseline.captured && d.failedForward.captured && d.rollback.attempt == 0
    requires d.registered == Some(COMPLETE) && AllVerified(d.forward.workers)
    ensures Played(d, commands) == Some(Allocated(d).(phase := ForwardVerified))
    ensures forall i :: 0 <= i < |commands| ==> !commands[i].OfPipeline?
  {
    hide PartsOk;
    hide Played;
    hide Takes;
    hide AllVerified;
    hide AllocatedNamespace;
    hide AllocatedMarker;
    CompletePasses();
    assert CleanGate(d.registered);
    hide CleanGate;
    hide SuccessGate;
    PlainMoves(d, RollbackPreparing);
    var d1, c1 := d.(phase := RollbackPreparing), OfPhase(CmdTransition(RollbackPreparing, None));
    NothingPlayed(d);
    PlayedMore(d, [], d, c1, d1);
    SamePartsOk(d, d1);
    Allocates(d1);
    var d2, c2 := Allocated(d1), OfPlan(CmdAllocateRollback);
    PlayedMore(d, [] + [c1], d1, c2, d2);
    var rest := RestoresFrom(d2);
    PlayedThen(d, [] + [c1] + [c2], d2, rest);
    commands := [] + [c1] + [c2] + rest;
  }

  lemma RestoresFrom(d: Document) returns (commands: seq<Command>)
    requires Plain(d) && PartsOk(d) && d.phase.RollbackPreparing? && d.promotion == Promotion(false, false, false)
    requires d.baseline.captured && d.failedForward.captured
    requires SuccessGate(d.registered) && AllVerified(d.forward.workers)
    ensures Played(d, commands) == Some(d.(phase := ForwardVerified))
    ensures forall i :: 0 <= i < |commands| ==> !commands[i].OfPipeline?
  {
    hide PartsOk;
    hide Played;
    hide Takes;
    hide AllVerified;
    hide CleanGate;
    hide SuccessGate;
    PlainMoves(d, CandidateRestoreRequired);
    var d1, c1 := d.(phase := CandidateRestoreRequired), OfPhase(CmdTransition(CandidateRestoreRequired, None));
    NothingPlayed(d);
    PlayedMore(d, [], d, c1, d1);
    SamePartsOk(d, d1);
    PlainMoves(d1, CandidateRestoring);
    var d2, c2 := d.(phase := CandidateRestoring), OfPhase(CmdTransition(CandidateRestoring, None));
    PlayedMore(d, [] + [c1], d1, c2, d2);
    SamePartsOk(d, d2);
    PlainMoves(d2, CandidateRestored);
    var d3, c3 := d.(phase := CandidateRestored), OfPhase(CmdTransition(CandidateRestored, None));
    PlayedMore(d, [] + [c1] + [c2], d2, c3, d3);
    SamePartsOk(d, d3);
    PlainMoves(d3, ForwardVerified);
    var c4 := OfPhase(CmdTransition(ForwardVerified, None));
    PlayedMore(d, [] + [c1] + [c2] + [c3], d3, c4, d.(phase := ForwardVerified));
    commands := [] + [c1] + [c2] + [c3] + [c4];
  }

  /** A verified forward with a prepared rollback ends as rolled back when that is asked for. */
  lemma ForwardEndsAsRollback(j: Journal) returns (submissions: seq<Submission>)
    requires Inv(j.document) && j.document.phase.ForwardVerified?
    requires j.document.failedForward.captured && j.document.rollback.attempt == 1
    requires AllVerified(j.document.rollback.workers)
    ensures var n := Run(j, submissions).document; n.phase.Done? && n.outcome == Some(RolledBack)
    ensures forall i :: 0 <= i < |submissions| ==> WellShaped(submissions[i].command)
  {
    hide Inv;
    hide Valid;
    hide Update;
    hide Played;
    hide AllVerified;
    var d := j.document;
    var commands, m := PromotesAll(d);
    var ask := OfPhase(CmdTransition(Retiring, Some(RolledBack)));
    var n := AsksForRollback(m);
    PlayedMore(d, commands, m, ask, n);
    TakesKeeps(m, ask, n);
    PlayedRuns(j, commands + [ask]);
    var first := Submissions(j.revision, commands + [ask]);
    hide Run;
    var last := RetiringCanFinish(Run(j, first));
    RunThen(j, first, last);
    submissions := first + last;
  }

  lemma AsksForRollback(d: Document) returns (n: Document)
    requires Inv(d) && d.phase.ControlPromoted?
    requires d.failedForward.captured && d.rollback.attempt == 1 && AllVerified(d.rollback.workers)
    ensures n == d.(retiringOutcome := Some(RolledBack), phase := Retiring)
    ensures Takes(d, OfPhase(CmdTransition(Retiring, Some(RolledBack))), n)
  {
    hide Inv;
    hide Valid;
    hide SetPhase;
    hide AllVerified;
    InvFacts(d);
    RollbackFromSuccess(d);
    RetireValid(d, RolledBack);
    n := d.(retiringOutcome := Some(RolledBack), phase := Retiring);
  }

  lemma ValidParts(d: Document)
    requires Valid(d)
    ensures PartsOk(d)
  {
    hide TransactionIdOk;
    hide RegisteredOk;
    hide RuntimeRedisOk;
    hide BaselineOk;
    hide FailedForwardOk;
    hide ForwardOk;
    hide RollbackOk;
  }

  /** A failure is captured although the forward then is ready to go through. */
  lemma FailedAndReady(w: World) returns (events: seq<Event>, n: Document)
    requires var d := w.journal.document;
             && Begun(d) && !d.baseline.captured && !d.failedForward.captured && d.runtimeRedis == map[]
             && d.forward.control.None? && d.forward.workers == [] && d.registered == Some(EMPTY)
    ensures Ready(n) && Plain(n) && n.phase.ForwardApplying? && Leads(w, events, n)
    ensures n.baseline.captured && n.failedForward.captured && n.rollback == w.journal.document.rollback
    ensures n.promotion == Promotion(false, false, false)
  {
    hide PartsOk;
    hide Played;
    hide Takes;
    hide Trace;
    hide Ready;
    hide Capturable;
    hide Plans;
    var d := w.journal.document;
    var services := EmptyHost();
    Captures(d, services);
    var d1, c1 := Captured(d, services), OfPlan(CmdCaptureBaseline(LegacyNoControl, None, services));
    Fails(d1);
    var d2, c2 := d1.(failedForward := FailedForward(true, None, [])), OfPlan(CmdCaptureFailedForward(None, []));
    NothingPlayed(d);
    PlayedMore(d, [], d, c1, d1);
    PlayedMore(d, [] + [c1], d1, c2, d2);
    var rest := BecomesReady(d2);
    PlayedThen(d, [] + [c1] + [c2], d2, rest);
    n := Selected(d2).(phase := ForwardApplying);
    NoEvents(w);
    events := PlayedLeads(w, [], d, [] + [c1] + [c2] + rest, n);
  }

  /**
   From the beginning of any transaction: the forward is carried through and promoted, and
   the outcome is rolled back.
   */
  lemma SuccessAsRollbackIsReachable(transactionId: string, targetCommit: string, namespace: string)
    returns (events: seq<Event>)
    requires TransactionIdOk(transactionId)
    ensures var w := Trace(Start(transactionId, targetCommit, namespace, LegacyNoControl), events);
            && w.journal.document.phase.Done? && w.journal.document.outcome == Some(RolledBack)
            && w.created == Tally(1, 1, 1) && w.alive == NONE
  {
    hide PartsOk;
    hide Inv;
    hide Valid;
    hide Update;
    hide Played;
    hide Trace;
    hide Ready;
    hide Capturable;
    hide AllVerified;
    hide SamePlans;
    var start := Begin(transactionId, targetCommit, namespace, LegacyNoControl);
    var w := Start(transactionId, targetCommit, namespace, LegacyNoControl);
    BeginKeeps(transactionId, targetCommit, namespace, LegacyNoControl);
    BeginIsBegun(transactionId, targetCommit, namespace);
    var ready, d := FailedAndReady(w);
    TraceInv(w, ready);
    var w1 := Trace(w, ready);
    var complete, n := ForwardCompletes(w1);
    TraceConcat(w, ready, complete);
    var w2 := Trace(w, ready + complete);
    TraceInv(w, ready + complete);
    ValidParts(n);
    var restore := CandidateIsRestored(n);
    NoEvents(w2);
    var restored := PlayedLeads(w2, [], n, restore, Allocated(n).(phase := ForwardVerified));
    TraceInv(w2, restored);
    TraceConcat(w, ready + complete, restored);
    var w3 := Trace(w2, restored);
    assert AllVerified([]) by { NoWorkers(); }
    var submissions := ForwardEndsAsRollback(w3.journal);
    var finish := RunAsTrace(w3, submissions);
    TraceConcat(w, ready + complete + restored, finish);
    events := ready + complete + restored + finish;
  }

  lemma NoWorkers()
    ensures AllVerified([])
  {
  }
}
