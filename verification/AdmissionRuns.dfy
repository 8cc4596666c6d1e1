/**
 Runs from the beginning of a transaction that reach what other theorems speak of: a
 forward ready to be carried through, a rollback recorded as a success, an abort that a
 queued retirement blocks, and a legacy transaction that no abort can start from.
 */
module AdmissionRuns {
  import opened Common
  import opened AdmissionTypes
  import opened AdmissionValidator
  import opened AdmissionCommands
  import opened AdmissionJournal
  import opened AdmissionInvariant
  import opened AdmissionNamespace
  import opened AdmissionIntents
  import opened AdmissionPhases
  import opened AdmissionWriteOnce
  import opened AdmissionAbort
  import opened AdmissionStart
  import opened AdmissionPipeline
  import opened AdmissionSteps
  import opened AdmissionFinish
  import opened AdmissionRetire
  import opened AdmissionForward
  import opened AdmissionRollback

  // ----- documents without authorities -----

  /** Nothing is provisioned, prepared, queued, announced or aborted. */
  predicate Plain(d: Document) {
    && d.authorities == [] && d.preparedSecrets == [] && d.retirements == [] && d.visionJobs == []
    && d.operation.None? && d.abort.None? && d.outcome.None? && d.retiringOutcome.None?
    && !(d.phase in {Aborting, Retiring, Done})
  }

  predicate PartsOk(d: Document) {
    && TransactionIdOk(d.transactionId) && RegisteredOk(d.registered) && RuntimeRedisOk(d.runtimeRedis)
    && BaselineOk(d.baseline) && FailedForwardOk(d.failedForward) && ForwardOk(d.forward) && RollbackOk(d.rollback)
  }

  lemma PlainValid(d: Document)
    requires Plain(d) && PartsOk(d) && MilestonesOk(d) && d.promotion == ExpectedPromotion(d.phase, None)
    ensures Valid(d)
  {
    hide TransactionIdOk;
    hide RegisteredOk;
    hide RuntimeRedisOk;
    hide BaselineOk;
    hide FailedForwardOk;
    hide ForwardOk;
    hide RollbackOk;
    hide MilestonesOk;
  }

  // ----- the captured services -----

  function Absent(name: string): ServiceIdentity {
    ServiceIdentity(name, false, None, None, None)
  }

  const NAMES: seq<string> := [
    "vp-api-swarm", "vp-frontend-swarm", "vp-autoflow-api-swarm", "vp-event-outbox-relay-swarm",
    "vp-channel-agent-runner-swarm", "vp-ffmpeg-worker-go-swarm", "vp-ffmpeg-worker-gpu-swarm",
    "vp-vision-worker-swarm", "vp-youtube-publisher-swarm"
  ]

  predicate Capturable(services: seq<ServiceIdentity>) {
    ServiceIdentitiesOk(services) && ServiceNames(services) == APP_SERVICES
  }

  lemma NamesAreDistinct(i: nat, j: nat)
    requires i < j < 9
    ensures NAMES[i] != NAMES[j]
  {
    var lengths := [12, 17, 21, 27, 29, 25, 26, 22, 26];
    assert |NAMES[i]| == lengths[i] && |NAMES[j]| == lengths[j];
    if i == 6 && j == 8 {
      assert NAMES[6][3] == 'f' && NAMES[8][3] == 'y';
    } else {
      assert lengths[i] != lengths[j];
    }
  }

  lemma NamesAreAll(services: seq<ServiceIdentity>)
    requires |services| == 9 && forall i :: 0 <= i < 9 ==> services[i].name == NAMES[i]
    ensures ServiceNames(services) == APP_SERVICES
  {
    var names := ServiceNames(services);
    forall i | 0 <= i < 9
      ensures NAMES[i] in names
    {
      assert services[i].name == NAMES[i];
    }
    assert NAMES[0] in names && NAMES[1] in names && NAMES[2] in names && NAMES[3] in names && NAMES[4] in names;
    assert NAMES[5] in names && NAMES[6] in names && NAMES[7] in names && NAMES[8] in names;
  }

  /** A host on which none of the services exists yet. */
  lemma EmptyHost() returns (services: seq<ServiceIdentity>)
    ensures Capturable(services)
  {
    services := seq(9, i requires 0 <= i < 9 => Absent(NAMES[i]));
    NamesAreAll(services);
    hide ServiceNames;
    forall i, j | 0 <= i < j < 9
      ensures services[i].name != services[j].name
    {
      NamesAreDistinct(i, j);
    }
  }

  // ----- phases of a plain document -----

  /** A phase change that leads from one plain document to another. */
  lemma PlainMoves(d: Document, target: Phase)
    requires Plain(d) && PartsOk(d) && d.promotion == ExpectedPromotion(d.phase, None) && MayEnter(d, target)
    requires target in {ForwardApplying, RollbackPreparing, RollbackApplying, RollbackVerified,
                        CandidateRestoreRequired, CandidateRestoring, CandidateRestored, ForwardVerified}
    requires MilestonesOk(d.(phase := target)) && d.promotion == Promotion(false, false, false)
    ensures Takes(d, OfPhase(CmdTransition(target, None)), d.(phase := target))
  {
    hide PartsOk;
    hide MilestonesOk;
    hide MayEnter;
    SamePartsOk(d, d.(phase := target));
    PlainValid(d.(phase := target));
    hide Valid;
  }

  lemma SamePartsOk(d: Document, n: Document)
    requires PartsOk(d) && n == d.(phase := n.phase)
    ensures PartsOk(n)
  {
  }

  // ----- a rollback recorded as a success -----

  function Captured(d: Document, services: seq<ServiceIdentity>): Document {
    d.(baseline := Baseline(true, d.baseline.kind, None, services))
  }

  predicate Begun(d: Document) {
    && Plain(d) && PartsOk(d) && d.phase.Preparing? && d.promotion == Promotion(false, false, false)
    && d.baseline.kind.LegacyNoControl?
  }

  lemma Captures(d: Document, services: seq<ServiceIdentity>)
    requires Begun(d) && !d.baseline.captured && Capturable(services)
    ensures Begun(Captured(d, services))
    ensures Takes(d, OfPlan(CmdCaptureBaseline(LegacyNoControl, None, services)), Captured(d, services))
  {
    hide ServiceIdentitiesOk;
    hide ServiceNames;
    hide TransactionIdOk;
    hide RegisteredOk;
    hide RuntimeRedisOk;
    hide FailedForwardOk;
    hide ForwardOk;
    hide RollbackOk;
    PlainValid(Captured(d, services));
    hide Valid;
  }

  lemma Fails(d: Document)
    requires Begun(d) && !d.failedForward.captured
    ensures Begun(d.(failedForward := FailedForward(true, None, [])))
    ensures Takes(d, OfPlan(CmdCaptureFailedForward(None, [])), d.(failedForward := FailedForward(true, None, [])))
  {
    hide TransactionIdOk;
    hide RegisteredOk;
    hide RuntimeRedisOk;
    hide BaselineOk;
    hide ForwardOk;
    hide RollbackOk;
    PlainValid(d.(failedForward := FailedForward(true, None, [])));
    hide Valid;
  }

  lemma Allocates(d: Document)
    requires Plain(d) && PartsOk(d) && d.phase.RollbackPreparing? && d.promotion == Promotion(false, false, false)
    requires MilestonesOk(d) && d.rollback.attempt == 0
    ensures PartsOk(Allocated(d)) && Takes(d, OfPlan(CmdAllocateRollback), Allocated(d))
  {
    hide RegisteredOk;
    hide RuntimeRedisOk;
    hide BaselineOk;
    hide FailedForwardOk;
    hide ForwardOk;
    hide RollbackNamespaceOk;
    hide RollbackMarkerOk;
    hide AllocatedNamespace;
    hide AllocatedMarker;
    AllocationFits(d.transactionId);
    hide TransactionIdOk;
    PlainValid(Allocated(d));
    hide Valid;
  }

  /** A begun transaction without workers fails, and its empty rollback is verified. */
  lemma EmptyRollback(d: Document) returns (commands: seq<Command>)
    requires Begun(d) && d.baseline.captured && d.failedForward.captured
    requires d.rollback.attempt == 0 && d.rollback.workers == [] && CleanGate(d.registered)
    ensures Played(d, commands) == Some(Allocated(d).(phase := RollbackVerified))
  {
    hide PartsOk;
    hide Played;
    hide Update;
    hide Valid;
    hide CleanGate;
    hide SuccessGate;
    hide AllocatedNamespace;
    hide AllocatedMarker;
    NothingPlayed(d);
    PlainMoves(d, RollbackPreparing);
    var d1, c1 := d.(phase := RollbackPreparing), OfPhase(CmdTransition(RollbackPreparing, None));
    PlayedMore(d, [], d, c1, d1);
    SamePartsOk(d, d1);
    Allocates(d1);
    var d2, c2 := Allocated(d1), OfPlan(CmdAllocateRollback);
    PlayedMore(d, [] + [c1], d1, c2, d2);
    PlainMoves(d2, RollbackApplying);
    var d3, c3 := d2.(phase := RollbackApplying), OfPhase(CmdTransition(RollbackApplying, None));
    PlayedMore(d, [] + [c1] + [c2], d2, c3, d3);
    SamePartsOk(d2, d3);
    PlainMoves(d3, RollbackVerified);
    var d4, c4 := d3.(phase := RollbackVerified), OfPhase(CmdTransition(RollbackVerified, None));
    PlayedMore(d, [] + [c1] + [c2] + [c3], d3, c4, d4);
    commands := [] + [c1] + [c2] + [c3] + [c4];
  }

  /** A verified rollback whose forward workers are all verified ends as a success when that is asked for. */
  lemma RollbackEndsAsSuccess(j: Journal) returns (submissions: seq<Submission>)
    requires Inv(j.document) && j.document.phase.RollbackVerified? && AllVerified(j.document.forward.workers)
    ensures var n := Run(j, submissions).document; n.phase.Done? && n.outcome == Some(Succeeded)
  {
    hide Inv;
    hide Valid;
    hide Update;
    hide Played;
    hide AllVerified;
    var d := j.document;
    var commands, m := PromotesAll(d);
    var ask := OfPhase(CmdTransition(Retiring, Some(Succeeded)));
    var n := AsksForSuccess(m);
    PlayedMore(d, commands, m, ask, n);
    TakesKeeps(m, ask, n);
    PlayedRuns(j, commands + [ask]);
    var first := Submissions(j.revision, commands + [ask]);
    hide Run;
    var last := RetiringCanFinish(Run(j, first));
    RunThen(j, first, last);
    submissions := first + last;
  }

  lemma AsksForSuccess(d: Document) returns (n: Document)
    requires Inv(d) && d.phase.RollbackControlPromoted? && AllVerified(d.forward.workers)
    ensures n == d.(retiringOutcome := Some(Succeeded), phase := Retiring)
    ensures Takes(d, OfPhase(CmdTransition(Retiring, Some(Succeeded))), n)
  {
    hide Inv;
    hide Valid;
    hide SetPhase;
    hide AllVerified;
    InvFacts(d);
    SuccessFromRollback(d);
    RetireValid(d, Succeeded);
    n := d.(retiringOutcome := Some(Succeeded), phase := Retiring);
  }

  /**
   From the beginning: the failure is captured, the one attempt allocated and verified, and the
   outcome is success.
   */
  lemma RollbackAsSuccessIsReachable(transactionId: string, targetCommit: string, namespace: string)
    returns (submissions: seq<Submission>)
    requires TransactionIdOk(transactionId)
    ensures var d := Run(Journal(0, Begin(transactionId, targetCommit, namespace, LegacyNoControl)),
                         submissions).document;
            d.phase.Done? && d.outcome == Some(Succeeded) && d.failedForward.captured && d.rollback.attempt == 1
  {
    var start := Begin(transactionId, targetCommit, namespace, LegacyNoControl);
    var j := Journal(0, start);
    BeginKeeps(transactionId, targetCommit, namespace, LegacyNoControl);
    assert Begun(start) && CleanGate(start.registered);
    hide Inv;
    hide Valid;
    hide Update;
    hide Played;
    hide PartsOk;
    hide CleanGate;
    var services := EmptyHost();
    Captures(start, services);
    var d1 := Captured(start, services);
    Fails(d1);
    var d2 := d1.(failedForward := FailedForward(true, None, []));
    var c1, c2 := OfPlan(CmdCaptureBaseline(LegacyNoControl, None, services)),
        OfPlan(CmdCaptureFailedForward(None, []));
    NothingPlayed(start);
    PlayedMore(start, [], start, c1, d1);
    PlayedMore(start, [] + [c1], d1, c2, d2);
    var rest := EmptyRollback(d2);
    PlayedThen(start, [] + [c1] + [c2], d2, rest);
    var commands := [] + [c1] + [c2] + rest;
    PlayedInv(start, commands);
    PlayedRuns(j, commands);
    var first := Submissions(0, commands);
    hide Run;
    var m := Run(j, first);
    assert m.document == Allocated(d2).(phase := RollbackVerified);
    var last := RollbackEndsAsSuccess(m);
    RunThen(j, first, last);
    submissions := first + last;
    RunLater(m, last);
  }

  // ----- an abort that cannot end -----

  const OLD_SECRET: Retirement := Retirement(
    "retirement", Identity(SecretIdentity, Some("aaaaaaaaaaaaaaaaaaaaaaaaa"), "old", "old", "1", "database", None))

  lemma QueuesRetirement(d: Document)
    requires Valid(d) && d.phase.Aborting? && d.retirements == [] && d.operation.None?
    ensures Takes(d, OfResource(CmdQueueRetirement(OLD_SECRET)), d.(retirements := [OLD_SECRET]))
  {
    assert [] + [OLD_SECRET] == [OLD_SECRET];
    RetiringChangeValid(d, d.(retirements := [OLD_SECRET]));
    hide Valid;
  }

  /** A transaction begun, aborted and given a retirement: whatever is submitted after that, it stays aborting. */
  lemma BlockedAbortIsReachable(transactionId: string, targetCommit: string, namespace: string, kind: BaselineKind)
    returns (submissions: seq<Submission>)
    requires TransactionIdOk(transactionId)
    ensures var j := Run(Journal(0, Begin(transactionId, targetCommit, namespace, kind)), submissions);
            && j.document.phase.Aborting? && j.document.retirements != []
            && forall more :: Run(j, more).document.phase.Aborting?
  {
    var d := Begin(transactionId, targetCommit, namespace, kind);
    BeginKeeps(transactionId, targetCommit, namespace, kind);
    assert d.phase.Preparing? && !NeedsLegacyCheck(d) && d.retirements == [] && d.operation.None?;
    hide Begin;
    hide Inv;
    hide Valid;
    hide Update;
    hide Played;
    var c1, c2 := OfPhase(CmdBeginAbort("failed", None)), OfResource(CmdQueueRetirement(OLD_SECRET));
    var d1 := StartsAbort(d);
    var d2 := d1.(retirements := [OLD_SECRET]);
    QueuesRetirement(d1);
    NothingPlayed(d);
    PlayedMore(d, [], d, c1, d1);
    PlayedMore(d, [] + [c1], d1, c2, d2);
    var commands := [] + [c1] + [c2];
    PlayedInv(d, commands);
    PlayedRuns(Journal(0, d), commands);
    submissions := Submissions(0, commands);
    hide Run;
    var j := Run(Journal(0, d), submissions);
    forall more
      ensures Run(j, more).document.phase.Aborting?
    {
      RetirementBlocksAbort(j, more);
    }
  }

  lemma StartsAbort(d: Document) returns (n: Document)
    requires Inv(d) && d.phase.Preparing? && !NeedsLegacyCheck(d) && d.operation.None?
    ensures n.phase.Aborting? && n.retirements == d.retirements && n.operation.None?
    ensures Takes(d, OfPhase(CmdBeginAbort("failed", None)), n)
  {
    hide Inv;
    hide Valid;
    AbortStartsWhen(d, "failed", None);
    BeginAbortSets(d, "failed", None);
    BeginAbortAccepted(d, "failed", None);
    hide BeginAbort;
    n := BeginAbort(d, "failed", None).document;
    assert Update(d, OfPhase(CmdBeginAbort("failed", None))) == BeginAbort(d, "failed", None);
  }

  // ----- four planned workers -----

  const SERVICES: seq<string> := [
    "vp-ffmpeg-worker-go-swarm", "vp-ffmpeg-worker-gpu-swarm", "vp-vision-worker-swarm", "vp-youtube-publisher-swarm"
  ]

  const DIGITS: string := "0123"

  function SecretOf(service: string, purpose: string, kind: char, digit: char): SecretRef {
    SecretRef([kind, digit], [kind, digit] + "aaaaaaaaaaaaaaaaaaaa", service, Decimal(1), purpose)
  }

  /** The plan of one worker of the target commit. */
  function PlanOf(commit: string, i: nat): Worker
    requires i < 4
  {
    Worker(SERVICES[i], 1, commit, "vp-ffmpeg-worker-python:deploy-" + Slice(commit, 0, 12), None,
           SecretOf(SERVICES[i], "database", 'd', DIGITS[i]), SecretOf(SERVICES[i], "admission", 'a', DIGITS[i]), None,
               Pending)
  }

  function Plans(commit: string, n: nat): seq<Worker>
    requires n <= 4
  {
    if n == 0 then [] else Plans(commit, n - 1) + [PlanOf(commit, n - 1)]
  }

  lemma {:induction false} PlansAre(commit: string, n: nat)
    requires n <= 4
    ensures |Plans(commit, n)| == n && forall i :: 0 <= i < n ==> Plans(commit, n)[i] == PlanOf(commit, i)
  {
    hide PlanOf;
    if n > 0 {
      PlansAre(commit, n - 1);
    }
  }

  lemma PlanOk(commit: string, i: nat)
    requires i < 4
    ensures WorkerOk(PlanOf(commit, i))
    ensures DisjointSecrets(PlanOf(commit, i).databaseSecret, PlanOf(commit, i).admissionSecret)
  {
    hide Decimal;
    var w := PlanOf(commit, i);
    assert w.databaseSecret.name[0] != w.admissionSecret.name[0];
    assert w.databaseSecret.dockerSecretId[0] != w.admissionSecret.dockerSecretId[0];
  }

  lemma PlansDistinct(commit: string, i: nat, j: nat)
    requires i < j < 4
    ensures DistinctWorkers(PlanOf(commit, i), PlanOf(commit, j))
  {
    hide Decimal;
    var v, w := PlanOf(commit, i), PlanOf(commit, j);
    assert v.service != w.service by { ServicesDistinct(i, j); }
    hide SecretOf;
    SecretsApart(v.service, w.service, "database", 'd', DIGITS[i], "database", 'd', DIGITS[j]);
    SecretsApart(v.service, w.service, "database", 'd', DIGITS[i], "admission", 'a', DIGITS[j]);
    SecretsApart(v.service, w.service, "admission", 'a', DIGITS[i], "database", 'd', DIGITS[j]);
    SecretsApart(v.service, w.service, "admission", 'a', DIGITS[i], "admission", 'a', DIGITS[j]);
  }

  lemma ServicesDistinct(i: nat, j: nat)
    requires i < j < 4
    ensures SERVICES[i] != SERVICES[j]
  {
    assert |SERVICES[0]| == 25 && |SERVICES[1]| == 26 && |SERVICES[2]| == 22 && |SERVICES[3]| == 26;
    assert SERVICES[1][3] == 'f' && SERVICES[3][3] == 'y';
  }

  lemma SecretsApart(s: string, t: string, p: string, k: char, a: char, q: string, l: char, b: char)
    requires a != b
    ensures DisjointSecrets(SecretOf(s, p, k, a), SecretOf(t, q, l, b))
  {
    var x, y := SecretOf(s, p, k, a), SecretOf(t, q, l, b);
    assert x.name[1] != y.name[1] && x.dockerSecretId[1] != y.dockerSecretId[1];
  }

  lemma PlansOk(commit: string, n: nat)
    requires n <= 4
    ensures WorkersOk(Plans(commit, n))
  {
    PlansAre(commit, n);
    hide PlanOf;
    hide Plans;
    hide WorkerOk;
    hide DisjointSecrets;
    hide DistinctWorkers;
    var workers := Plans(commit, n);
    forall i | 0 <= i < n
      ensures WorkerOk(workers[i]) && DisjointSecrets(workers[i].databaseSecret, workers[i].admissionSecret)
    {
      PlanOk(commit, i);
    }
    forall i, j | 0 <= i < j < n
      ensures DistinctWorkers(workers[i], workers[j])
    {
      PlansDistinct(commit, i, j);
    }
  }

  function WithPlans(d: Document, n: nat): Document
    requires n <= 4
  {
    d.(forward := d.forward.(workers := Plans(d.targetCommit, n)))
  }

  lemma WithPlansOk(d: Document, n: nat)
    requires Begun(d) && n <= 4
    ensures Begun(WithPlans(d, n)) && Valid(WithPlans(d, n))
  {
    hide TransactionIdOk;
    hide RegisteredOk;
    hide RuntimeRedisOk;
    hide BaselineOk;
    hide FailedForwardOk;
    hide RollbackOk;
    hide WorkersOk;
    hide Plans;
    PlansOk(d.targetCommit, n);
    PlainValid(WithPlans(d, n));
    hide Valid;
  }

  lemma RecordsPlan(d: Document, i: nat)
    requires Begun(d) && i < 4
    ensures Takes(WithPlans(d, i), OfPlan(CmdRecordWorkerPlan(ForwardDirection, PlanOf(d.targetCommit, i))),
                  WithPlans(d, i + 1))
  {
    hide Valid;
    hide PartsOk;
    WithPlansOk(d, i + 1);
    var n := WithPlans(d, i);
    var plan := PlanOf(d.targetCommit, i);
    PlansAre(d.targetCommit, i);
    PlanOk(d.targetCommit, i);
    assert plan.stage.Pending? && plan.dockerServiceId.None?;
    hide WorkerOk;
    forall k | 0 <= k < i
      ensures !IsWorker(n.forward.workers[k], plan.service, plan.generation)
    {
      ServicesDistinct(k, i);
    }
    hide PlanOf;
    RecordIsPlan(n, plan);
    hide Update;
  }

  lemma RecordIsPlan(d: Document, plan: Worker)
    ensures Update(d, OfPlan(CmdRecordWorkerPlan(ForwardDirection, plan)))
            == RecordWorkerPlan(d, ForwardDirection, plan)
  {
    hide RecordWorkerPlan;
  }

  lemma {:induction false} RecordsPlans(d: Document, n: nat) returns (commands: seq<Command>)
    requires Begun(d) && d.forward.workers == [] && n <= 4
    ensures Played(d, commands) == Some(WithPlans(d, n)) && forall i :: 0 <= i < |commands| ==> !commands[i].OfPipeline?
  {
    hide Played;
    hide Takes;
    hide Begun;
    if n == 0 {
      NothingPlayed(d);
      commands := [];
    } else {
      var before := RecordsPlans(d, n - 1);
      RecordsPlan(d, n - 1);
      var c := OfPlan(CmdRecordWorkerPlan(ForwardDirection, PlanOf(d.targetCommit, n - 1)));
      PlayedMore(d, before, WithPlans(d, n - 1), c, WithPlans(d, n));
      commands := before + [c];
    }
  }

  // ----- a legacy transaction that cannot be aborted where it stands -----

  /** With its four workers planned, a legacy transaction still preparing refuses every abort. */
  lemma UnabortableIsReachable(transactionId: string, targetCommit: string, namespace: string)
    returns (submissions: seq<Submission>)
    requires TransactionIdOk(transactionId)
    ensures var d := Run(Journal(0, Begin(transactionId, targetCommit, namespace, LegacyNoControl)),
                         submissions).document;
            && Inv(d) && d.phase.Preparing? && NeedsLegacyCheck(d)
            && forall reason, progress :: !BeginAbort(d, reason, progress).Written?
  {
    var start := Begin(transactionId, targetCommit, namespace, LegacyNoControl);
    BeginKeeps(transactionId, targetCommit, namespace, LegacyNoControl);
    assert Begun(start) && start.forward.workers == [];
    hide Inv;
    hide Begun;
    hide Played;
    hide BeginAbort;
    var commands := RecordsPlans(start, 4);
    PlayedInv(start, commands);
    PlayedRuns(Journal(0, start), commands);
    submissions := Submissions(0, commands);
    hide Run;
    var d := WithPlans(start, 4);
    PlansAre(targetCommit, 4);
    hide Plans;
    forall reason, progress
      ensures !BeginAbort(d, reason, progress).Written?
    {
      PreparingAbortsExactly(d, reason);
    }
  }
}
