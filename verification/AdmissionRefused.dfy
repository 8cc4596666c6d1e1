/**
 A run from the beginning of a transaction to a rollback whose attempt is refused: the
 baseline already runs the target's control plane, two runtime authorities of one service
 were provisioned for it, and the rollback chooses that control plane again.
 */
module AdmissionRefused {
  import opened Common
  import opened AdmissionTypes
  import opened AdmissionValidator
  import opened AdmissionCommands
  import opened AdmissionJournal
  import opened AdmissionInvariant
  import opened AdmissionSteps
  import opened AdmissionFinish
  import opened AdmissionForward
  import opened AdmissionRollback
  import opened AdmissionRuns
  import opened AdmissionSuccess

  const VISION := "vp-vision-worker-swarm"

  function TargetImage(commit: string): string {
    "vp-ffmpeg-worker-python:deploy-" + Slice(commit, 0, 12)
  }

  /** The control plane of the target commit. */
  function TargetControl(commit: string): ControlIdentity {
    CONTROL.(generation := "c-" + Slice(commit, 0, 20), image := TargetImage(commit))
  }

  /** A runtime authority provisioned by that control plane. */
  function VisionAuthority(commit: string, generation: string, state: AuthorityState): Authority {
    var control := "c-" + Slice(commit, 0, 20);
    Authority(RuntimeKind, VISION, generation, state, TargetImage(commit), control,
              "control/" + control + "/worker-registration-operator-database-url")
  }

  // ----- documents with these authorities -----

  /** No secret, job, retirement or operation, and no rollback attempt yet. */
  predicate Modest(d: Document) {
    && d.preparedSecrets == [] && d.retirements == [] && d.visionJobs == []
    && d.operation.None? && d.abort.None? && d.outcome.None? && d.retiringOutcome.None?
    && (d.phase.Preparing? || d.phase.RollbackPreparing?) && d.rollback.attempt == 0
    && d.promotion == Promotion(false, false, false)
  }

  predicate OfTarget(a: Authority, commit: string) {
    && a == VisionAuthority(commit, a.generation, a.state)
    && !a.state.Revoked?
  }

  predicate AuthoritiesFit(d: Document) {
    && (forall i :: 0 <= i < |d.authorities| ==> OfTarget(d.authorities[i], d.targetCommit))
    && (forall i, j :: 0 <= i < j < |d.authorities| ==> d.authorities[i].generation != d.authorities[j].generation)
    && (d.phase.RollbackPreparing? ==> forall i :: 0 <= i < |d.authorities| ==> d.authorities[i].state.Provisioned?)
  }

  lemma ModestValid(d: Document)
    requires Modest(d) && PartsOk(d) && AuthoritiesFit(d) && MilestonesOk(d)
    ensures Valid(d)
  {
    hide TransactionIdOk;
    hide RegisteredOk;
    hide RuntimeRedisOk;
    hide BaselineOk;
    hide FailedForwardOk;
    hide ForwardOk;
    hide RollbackOk;
    hide MilestonesOk;
    assert RollbackControl(d).None?;
    hide RollbackControl;
    forall i | 0 <= i < |d.authorities|
      ensures AuthorityEntryOk(d, d.authorities[i]) && AuthorityStateOk(d, d.authorities[i])
    {
      assert OfTarget(d.authorities[i], d.targetCommit);
    }
    forall i, j | 0 <= i < j < |d.authorities|
      ensures AuthorityPairOk(d, d.authorities[i], d.authorities[j])
    {
      assert OfTarget(d.authorities[i], d.targetCommit) && OfTarget(d.authorities[j], d.targetCommit);
    }
    hide AuthorityEntryOk;
    hide AuthorityStateOk;
    hide AuthorityPairOk;
  }

  // ----- an authority is provisioned -----

  function WithAuthority(d: Document, generation: string, state: AuthorityState): Document {
    d.(authorities := d.authorities + [VisionAuthority(d.targetCommit, generation, state)])
  }

  predicate Open(d: Document, generation: string) {
    && Modest(d) && PartsOk(d) && AuthoritiesFit(d) && d.phase.Preparing?
    && forall i :: 0 <= i < |d.authorities| ==> d.authorities[i].generation != generation
  }

  lemma WithAuthorityValid(d: Document, generation: string, state: AuthorityState)
    requires Open(d, generation) && !state.Revoked?
    ensures Valid(WithAuthority(d, generation, state)) && AuthoritiesFit(WithAuthority(d, generation, state))
  {
    hide PartsOk;
    var n := WithAuthority(d, generation, state);
    VisionIsOfTarget(d.targetCommit, generation, state);
    hide VisionAuthority;
    hide OfTarget;
    SameParts(d, n);
    ModestValid(n);
  }

  lemma VisionIsOfTarget(commit: string, generation: string, state: AuthorityState)
    requires !state.Revoked?
    ensures OfTarget(VisionAuthority(commit, generation, state), commit)
    ensures VisionAuthority(commit, generation, state).generation == generation
  {
  }

  lemma SameParts(d: Document, n: Document)
    requires PartsOk(d) && n == d.(authorities := n.authorities, phase := n.phase)
    ensures PartsOk(n)
  {
  }

  lemma RecordsIntent(d: Document, generation: string)
    requires Open(d, generation)
    ensures Takes(d, OfResource(CmdRecordAuthorityIntent(VisionAuthority(d.targetCommit, generation, Planned))),
                  WithAuthority(d, generation, Planned))
  {
    hide Valid;
    hide PartsOk;
    WithAuthorityValid(d, generation, Planned);
    IntentUpdates(d, generation);
    IntentIsResource(d, VisionAuthority(d.targetCommit, generation, Planned));
    hide Update;
    hide RecordAuthorityIntent;
    hide VisionAuthority;
  }

  lemma IntentUpdates(d: Document, generation: string)
    requires Open(d, generation)
    ensures RecordAuthorityIntent(d, VisionAuthority(d.targetCommit, generation, Planned))
            == Written(WithAuthority(d, generation, Planned))
  {
    hide PartsOk;
    hide First;
  }

  lemma IntentIsResource(d: Document, a: Authority)
    ensures Update(d, OfResource(CmdRecordAuthorityIntent(a))) == RecordAuthorityIntent(d, a)
  {
    hide RecordAuthorityIntent;
  }

  lemma Marks(d: Document, generation: string, state: AuthorityState)
    requires Open(d, generation) && (state.Planned? || state.Provisioning?)
    ensures Takes(WithAuthority(d, generation, state),
                  OfResource(CmdMarkAuthority(RuntimeKind, VISION, generation, state.Provisioning?)),
                  WithAuthority(d, generation, NextState(state)))
  {
    hide Valid;
    hide PartsOk;
    WithAuthorityValid(d, generation, NextState(state));
    var n := WithAuthority(d, generation, state);
    MarkIsResource(n, RuntimeKind, VISION, generation, state.Provisioning?);
    MarkWrites(d, generation, state);
    hide Update;
    hide MarkAuthority;
    hide VisionAuthority;
  }

  lemma MarkWrites(d: Document, generation: string, state: AuthorityState)
    requires Open(d, generation) && (state.Planned? || state.Provisioning?)
    ensures MarkAuthority(WithAuthority(d, generation, state), RuntimeKind, VISION, generation, state.Provisioning?)
            == Written(WithAuthority(d, generation, NextState(state)))
  {
    hide PartsOk;
    hide Sole;
    var n, k := WithAuthority(d, generation, state), |d.authorities|;
    SoleIs(n.authorities, (a: Authority) => HasKey(a, RuntimeKind, VISION, generation), k);
    assert n.authorities[k := n.authorities[k].(state := NextState(state))]
        == WithAuthority(d, generation, NextState(state)).authorities;
  }

  /** One more authority of the service is provisioned. */
  lemma ProvisionsOne(d: Document, generation: string) returns (commands: seq<Command>)
    requires Open(d, generation)
    ensures Played(d, commands) == Some(WithAuthority(d, generation, Provisioned))
  {
    hide Open;
    hide Played;
    hide Takes;
    hide WithAuthority;
    RecordsIntent(d, generation);
    Marks(d, generation, Planned);
    Marks(d, generation, Provisioning);
    var c1 := OfResource(CmdRecordAuthorityIntent(VisionAuthority(d.targetCommit, generation, Planned)));
    var c2 := OfResource(CmdMarkAuthority(RuntimeKind, VISION, generation, false));
    var c3 := OfResource(CmdMarkAuthority(RuntimeKind, VISION, generation, true));
    NothingPlayed(d);
    PlayedMore(d, [], d, c1, WithAuthority(d, generation, Planned));
    PlayedMore(d, [] + [c1], WithAuthority(d, generation, Planned), c2, WithAuthority(d, generation, Provisioning));
    PlayedMore(d, [] + [c1] + [c2], WithAuthority(d, generation, Provisioning), c3,
               WithAuthority(d, generation, Provisioned));
    commands := [] + [c1] + [c2] + [c3];
  }

  // ----- the way into the rollback -----

  const RUNNING: ServiceIdentity := ServiceIdentity(VISION, true, Some("vvvvvvvvvvvvvvvvvvvvvvvvv"),
                                                    Some("vp-vision:1"), Some(SHA))

  /** A host on which only the vision worker runs. */
  lemma VisionHost() returns (services: seq<ServiceIdentity>)
    ensures Capturable(services) && ServiceExisted(services, VISION)
  {
    services := seq(9, i requires 0 <= i < 9 => if i == 7 then RUNNING else Absent(NAMES[i]));
    assert services[7] == RUNNING && NAMES[7] == VISION;
    NamesAreAll(services);
    hide ServiceNames;
    forall i, j | 0 <= i < j < 9
      ensures services[i].name != services[j].name
    {
      NamesAreDistinct(i, j);
    }
  }

  function BaselineOf(d: Document, services: seq<ServiceIdentity>): Document {
    d.(baseline := Baseline(true, Managed, Some(TargetControl(d.targetCommit)), services))
  }

  lemma TargetControlOk(commit: string)
    ensures ControlOk(Some(TargetControl(commit)))
  {
    ControlSecretsOk();
    assert TargetControl(commit).secrets == CONTROL.secrets;
    hide SecretRefsOk;
  }

  lemma CapturesTarget(d: Document, services: seq<ServiceIdentity>)
    requires Open(d, "1") && !d.baseline.captured && d.baseline.kind.Managed? && Capturable(services)
    ensures Open(BaselineOf(d, services), "1")
    ensures Takes(d, OfPlan(CmdCaptureBaseline(Managed, Some(TargetControl(d.targetCommit)), services)),
                  BaselineOf(d, services))
  {
    hide ServiceIdentitiesOk;
    hide ServiceNames;
    hide TransactionIdOk;
    hide RegisteredOk;
    hide RuntimeRedisOk;
    hide FailedForwardOk;
    hide ForwardOk;
    hide RollbackOk;
    hide ControlOk;
    hide OfTarget;
    TargetControlOk(d.targetCommit);
    hide TargetControl;
    ModestValid(BaselineOf(d, services));
    hide Valid;
  }

  lemma FailsRunning(d: Document)
    requires Modest(d) && PartsOk(d) && AuthoritiesFit(d) && d.phase.Preparing? && !d.failedForward.captured
    ensures PartsOk(d.(failedForward := FailedForward(true, None, [RUNNING])))
    ensures Takes(d, OfPlan(CmdCaptureFailedForward(None, [RUNNING])),
                  d.(failedForward := FailedForward(true, None, [RUNNING])))
  {
    hide TransactionIdOk;
    hide RegisteredOk;
    hide RuntimeRedisOk;
    hide BaselineOk;
    hide ForwardOk;
    hide RollbackOk;
    hide OfTarget;
    var n := d.(failedForward := FailedForward(true, None, [RUNNING]));
    assert FailedForwardOk(n.failedForward);
    ModestValid(n);
    hide Valid;
  }

  lemma EntersRollback(d: Document)
    requires Modest(d) && PartsOk(d) && AuthoritiesFit(d) && d.phase.Preparing?
    requires AuthoritiesFit(d.(phase := RollbackPreparing))
    requires d.baseline.captured && d.failedForward.captured && CleanGate(d.registered)
    ensures Takes(d, OfPhase(CmdTransition(RollbackPreparing, None)), d.(phase := RollbackPreparing))
  {
    hide PartsOk;
    hide AuthoritiesFit;
    hide CleanGate;
    hide SuccessGate;
    SameParts(d, d.(phase := RollbackPreparing));
    ModestValid(d.(phase := RollbackPreparing));
    hide Valid;
  }

  function WithControl(d: Document): Document {
    d.(rollback := d.rollback.(control := Some(TargetControl(d.targetCommit))))
  }

  lemma ChoosesControl(d: Document)
    requires Modest(d) && PartsOk(d) && AuthoritiesFit(d) && d.phase.RollbackPreparing? && MilestonesOk(d)
    requires d.rollback.control.None?
    ensures Takes(d, OfPlan(CmdRecordControl(RollbackDirection, TargetControl(d.targetCommit))), WithControl(d))
  {
    hide TransactionIdOk;
    hide RegisteredOk;
    hide RuntimeRedisOk;
    hide BaselineOk;
    hide FailedForwardOk;
    hide ForwardOk;
    hide OfTarget;
    hide ControlOk;
    TargetControlOk(d.targetCommit);
    hide TargetControl;
    ModestValid(WithControl(d));
    hide Valid;
  }

  /** The document before the rollback: two provisioned authorities of the vision worker. */
  function Doubled(d: Document): Document {
    WithAuthority(WithAuthority(d, "1", Provisioned), "2", Provisioned)
  }

  lemma Doubles(d: Document) returns (commands: seq<Command>)
    requires Open(d, "1") && d.authorities == []
    ensures Played(d, commands) == Some(Doubled(d))
    ensures AuthoritiesFit(Doubled(d)) && AuthoritiesFit(Doubled(d).(phase := RollbackPreparing)) && PartsOk(Doubled(d))
  {
    hide Played;
    hide PartsOk;
    var d1 := WithAuthority(d, "1", Provisioned);
    var first := ProvisionsOne(d, "1");
    WithAuthorityValid(d, "1", Provisioned);
    SameParts(d, d1);
    VisionIsOfTarget(d.targetCommit, "1", Provisioned);
    VisionIsOfTarget(d.targetCommit, "2", Provisioned);
    hide Valid;
    hide OfTarget;
    hide VisionAuthority;
    assert "1"[0] != "2"[0];
    assert Open(d1, "2");
    var second := ProvisionsOne(d1, "2");
    WithAuthorityValid(d1, "2", Provisioned);
    SameParts(d1, Doubled(d));
    PlayedThen(d, first, d1, second);
    commands := first + second;
    assert forall i :: 0 <= i < 2 ==> Doubled(d).authorities[i].state.Provisioned? by { StatesGiven(d.targetCommit); }
  }

  lemma StatesGiven(commit: string)
    ensures VisionAuthority(commit, "1", Provisioned).state.Provisioned?
    ensures VisionAuthority(commit, "2", Provisioned).state.Provisioned?
  {
  }

  /** Both authorities are claimed by the control plane the rollback chose. */
  lemma BothAreClaimed(d: Document)
    requires d.authorities == [VisionAuthority(d.targetCommit, "1", Provisioned),
                               VisionAuthority(d.targetCommit, "2", Provisioned)]
    requires d.baseline.control == Some(TargetControl(d.targetCommit)) && d.rollback.control == d.baseline.control
    requires ServiceExisted(d.baseline.services, VISION) && d.failedForward.services == [RUNNING]
    requires d.forward.workers == []
    ensures !MayAllocate(d)
  {
    assert ServiceExisted(d.failedForward.services, VISION) by { assert d.failedForward.services[0] == RUNNING; }
    hide ServiceExisted;
    assert Claimed(d, d.authorities[0]) && Claimed(d, d.authorities[1]);
    assert d.authorities[0].service == d.authorities[1].service;
  }

  lemma BeginIsOpen(transactionId: string, targetCommit: string, namespace: string)
    requires TransactionIdOk(transactionId)
    ensures var d := Begin(transactionId, targetCommit, namespace, Managed); Open(d, "1") && CleanGate(d.registered)
  {
  }

  /** From the beginning of a transaction: the rollback is prepared and its attempt refused. */
  lemma RefusedAllocationIsReachable(transactionId: string, targetCommit: string, namespace: string)
    returns (submissions: seq<Submission>)
    requires TransactionIdOk(transactionId)
    ensures var j := Run(Journal(0, Begin(transactionId, targetCommit, namespace, Managed)), submissions);
            && Inv(j.document) && j.document.phase.RollbackPreparing? && j.document.rollback.attempt == 0
            && Apply(j.document, OfPlan(CmdAllocateRollback)).None?
  {
    hide Inv;
    hide Valid;
    hide Update;
    hide Played;
    hide PartsOk;
    hide Capturable;
    hide ServiceExisted;
    hide CleanGate;
    hide AuthoritiesFit;
    hide VisionAuthority;
    hide TargetControl;
    var start := Begin(transactionId, targetCommit, namespace, Managed);
    BeginKeeps(transactionId, targetCommit, namespace, Managed);
    BeginIsOpen(transactionId, targetCommit, namespace);
    var services := VisionHost();
    CapturesTarget(start, services);
    var d1, c1 := BaselineOf(start, services),
        OfPlan(CmdCaptureBaseline(Managed, Some(TargetControl(targetCommit)), services));
    NothingPlayed(start);
    PlayedMore(start, [], start, c1, d1);
    var double := Doubles(d1);
    var d2 := Doubled(d1);
    PlayedThen(start, [] + [c1], d1, double);
    var rest := RollbackIsPrepared(d2);
    PlayedThen(start, [] + [c1] + double, d2, rest);
    var commands := [] + [c1] + double + rest;
    PlayedInv(start, commands);
    PlayedRuns(Journal(0, start), commands);
    submissions := Submissions(0, commands);
    hide Run;
    var d := Prepared(d2);
    BothAreClaimed(d);
    hide MayAllocate;
    AllocationAccepted(d);
  }

  function Prepared(d: Document): Document {
    WithControl(d.(failedForward := FailedForward(true, None, [RUNNING]), phase := RollbackPreparing))
  }

  lemma RollbackIsPrepared(d: Document) returns (commands: seq<Command>)
    requires Modest(d) && PartsOk(d) && AuthoritiesFit(d) && d.phase.Preparing?
    requires AuthoritiesFit(d.(phase := RollbackPreparing))
    requires d.baseline.captured && !d.failedForward.captured && CleanGate(d.registered) && d.rollback.control.None?
    ensures Played(d, commands) == Some(Prepared(d))
  {
    hide Played;
    hide PartsOk;
    hide Takes;
    hide CleanGate;
    hide OfTarget;
    FailsRunning(d);
    var d1, c1 := d.(failedForward := FailedForward(true, None, [RUNNING])),
        OfPlan(CmdCaptureFailedForward(None, [RUNNING]));
    EntersRollback(d1);
    var d2, c2 := d1.(phase := RollbackPreparing), OfPhase(CmdTransition(RollbackPreparing, None));
    SameParts(d1, d2);
    ChoosesControl(d2);
    var c3 := OfPlan(CmdRecordControl(RollbackDirection, TargetControl(d.targetCommit)));
    NothingPlayed(d);
    PlayedMore(d, [], d, c1, d1);
    PlayedMore(d, [] + [c1], d1, c2, d2);
    PlayedMore(d, [] + [c1] + [c2], d2, c3, WithControl(d2));
    commands := [] + [c1] + [c2] + [c3];
  }
}
