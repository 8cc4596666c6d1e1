/**
 The cross-field rules that every written journal document must satisfy, and the
 gate of the registered reconcile pipeline.
 */
module AdmissionValidator {
  import opened Common
  import opened AdmissionTypes

  /** Characters lo..hi of `s`, clipped to its length. */
  function Slice(s: string, lo: nat, hi: nat): string
    requires lo <= hi
  {
    if |s| <= lo then "" else if |s| <= hi then s[lo..] else s[lo..hi]
  }

  predicate TransactionIdOk(id: string) {
    |id| == 35 && id[..3] == "tx-" && forall i :: 3 <= i < 35 ==> IsHexDigit(id[i])
  }

  // ----- lists with distinct identities -----

  predicate SecretRefsOk(refs: seq<SecretRef>) {
    forall i, j :: 0 <= i < j < |refs| ==>
      && refs[i].name != refs[j].name
      && refs[i].dockerSecretId != refs[j].dockerSecretId
      && (refs[i].service, refs[i].generation,
          refs[i].purpose) != (refs[j].service, refs[j].generation, refs[j].purpose)
  }

  predicate ServiceIdentityOk(s: ServiceIdentity) {
    s.existed <==> s.dockerServiceId.Some? && s.image.Some? && s.specDigest.Some?
  }

  predicate ServiceIdentitiesOk(services: seq<ServiceIdentity>) {
    && (forall i :: 0 <= i < |services| ==> ServiceIdentityOk(services[i]))
    && (forall i, j :: 0 <= i < j < |services| ==>
          && services[i].name != services[j].name
          && (services[i].dockerServiceId.Some? ==> services[i].dockerServiceId != services[j].dockerServiceId))
  }

  function ServiceNames(services: seq<ServiceIdentity>): set<string> {
    set i | 0 <= i < |services| :: services[i].name
  }

  predicate ControlOk(c: Option<ControlIdentity>) {
    c.Some? ==> |c.value.secrets| == 7 && SecretRefsOk(c.value.secrets)
  }

  predicate MarkerOk(m: Option<MarkerIdentity>) {
    m.Some? ==> SecretRefsOk(m.value.secrets)
  }

  predicate IsApplied(w: Worker) {
    w.stage.Applied? || w.stage.Verified?
  }

  /** A worker names its service and spec exactly from the applied stage on. */
  predicate WorkerOk(w: Worker) {
    && w.generation >= 1
    && w.databaseSecret.dockerSecretId != w.admissionSecret.dockerSecretId
    && w.databaseSecret.service == w.service && w.admissionSecret.service == w.service
    && w.databaseSecret.generation == Decimal(w.generation) && w.admissionSecret.generation == Decimal(w.generation)
    && w.databaseSecret.purpose == "database" && w.admissionSecret.purpose == "admission"
    && (w.dockerServiceId.Some? <==> IsApplied(w))
    && (w.targetSpecDigest.Some? <==> IsApplied(w))
  }

  predicate DisjointSecrets(a: SecretRef, b: SecretRef) {
    a.name != b.name && a.dockerSecretId != b.dockerSecretId
  }

  predicate WorkersOk(workers: seq<Worker>) {
    && (forall i :: 0 <= i < |workers| ==> WorkerOk(workers[i]))
    && (forall i :: 0 <= i < |workers| ==> DisjointSecrets(workers[i].databaseSecret, workers[i].admissionSecret))
    && (forall i, j :: 0 <= i < j < |workers| ==> DistinctWorkers(workers[i], workers[j]))
  }

  predicate DistinctWorkers(a: Worker, b: Worker) {
    && (a.service, a.generation) != (b.service, b.generation)
    && (a.dockerServiceId.Some? ==> a.dockerServiceId != b.dockerServiceId)
    && DisjointSecrets(a.databaseSecret, b.databaseSecret) && DisjointSecrets(a.databaseSecret, b.admissionSecret)
    && DisjointSecrets(a.admissionSecret, b.databaseSecret) && DisjointSecrets(a.admissionSecret, b.admissionSecret)
  }

  predicate AllVerified(workers: seq<Worker>) {
    forall i :: 0 <= i < |workers| ==> workers[i].stage.Verified?
  }

  predicate IdentityOk(identity: Identity) {
    identity.kind.ManifestIdentity? || identity.dockerId.Some?
  }

  function LogicalKey(identity: Identity): (string, string, IdentityKind, string, string) {
    (identity.service, identity.generation, identity.kind, identity.purpose, identity.name)
  }

  predicate DistinctRetirements(a: Retirement, b: Retirement) {
    && a.id != b.id
    && (a.identity.dockerId.Some? ==> a.identity.dockerId != b.identity.dockerId)
    && LogicalKey(a.identity) != LogicalKey(b.identity)
  }

  predicate RetirementsOk(retirements: seq<Retirement>) {
    && (forall i :: 0 <= i < |retirements| ==> IdentityOk(retirements[i].identity))
    && (forall i, j :: 0 <= i < j < |retirements| ==> DistinctRetirements(retirements[i], retirements[j]))
  }

  predicate VisionJobOk(job: VisionJob) {
    && ((job.mode.Safety? || job.mode.FinalSafety?) <==> job.databaseSecret.Some?)
    && (job.state.VisionPlanned? ==> job.dockerServiceId.None?)
    && (job.state.VisionCreated? || job.state.VisionTerminal? ==> job.dockerServiceId.Some?)
    && (job.state.VisionTerminal? || job.state.VisionRemoved? <==> job.exitCode.Some?)
    && (job.exitCode.Some? ==> job.exitCode.value <= 255)
  }

  predicate DistinctVisionJobs(a: VisionJob, b: VisionJob) {
    a.mode != b.mode && (a.dockerServiceId.Some? ==> a.dockerServiceId != b.dockerServiceId)
  }

  predicate VisionJobsOk(jobs: seq<VisionJob>) {
    && (forall i :: 0 <= i < |jobs| ==> VisionJobOk(jobs[i]))
    && (forall i, j :: 0 <= i < j < |jobs| ==> DistinctVisionJobs(jobs[i], jobs[j]))
  }

  predicate RuntimeRedisOk(m: map<string, RuntimeSecret>) {
    forall r, r' :: r in m && r' in m && r != r' ==>
      m[r].secretName != m[r'].secretName && m[r].dockerSecretId != m[r'].dockerSecretId
  }

  predicate BaselineOk(b: Baseline) {
    && ControlOk(b.control)
    && ServiceIdentitiesOk(b.services)
    && (if b.captured then ServiceNames(b.services) == APP_SERVICES else b.control.None? && b.services == [])
  }

  predicate FailedForwardOk(f: FailedForward) {
    && ServiceIdentitiesOk(f.services)
    && (!f.captured ==> f.control.None? && f.services == [])
    && ServiceNames(f.services) <= APP_SERVICES
  }

  predicate ForwardOk(f: Forward) {
    ControlOk(f.control) && MarkerOk(f.marker) && WorkersOk(f.workers)
  }

  predicate AllDigits(s: string) {
    forall i :: 0 <= i < |s| ==> IsDigit(s[i])
  }

  /** The pattern rollback-[1-9][0-9]{1,19}. */
  predicate RollbackNamespaceOk(s: string) {
    && 11 <= |s| <= 29
    && s[..9] == "rollback-"
    && AllDigits(s[9..])
    && s[9] != '0'
  }

  /** The pattern m-rb-[0-9a-f]{12}-[1-9][0-9]*. */
  predicate RollbackMarkerOk(s: string) {
    && 19 <= |s| <= 64
    && s[..5] == "m-rb-"
    && (forall i :: 5 <= i < 17 ==> IsHexDigit(s[i]))
    && s[17] == '-'
    && AllDigits(s[18..])
    && s[18] != '0'
  }

  predicate RollbackOk(r: Rollback) {
    && (r.namespace.Some? ==> RollbackNamespaceOk(r.namespace.value))
    && (r.markerGeneration.Some? ==> RollbackMarkerOk(r.markerGeneration.value))
    && (r.attempt == 0 ==> r.namespace.None? && r.markerGeneration.None?)
    && (r.attempt > 0 ==> r.namespace.Some? && r.markerGeneration.Some?)
    && ControlOk(r.control) && MarkerOk(r.marker) && WorkersOk(r.workers)
  }

  // ----- authorities and prepared secrets -----

  /** The baseline control plane when the document is far enough into a rollback to reuse it. */
  function RollbackControl(d: Document): Option<ControlIdentity> {
    if d.phase in {Preparing, ForwardApplying, Aborting}
       || d.outcome == Some(Aborted)
       || !d.baseline.captured || !d.failedForward.captured
       || d.rollback.attempt < 1 || d.rollback.namespace.None?
       || d.rollback.markerGeneration
           != Some("m-rb-" + Slice(d.transactionId, 3, 15) + "-" + Decimal(d.rollback.attempt))
       || d.rollback.control.None? || d.rollback.control != d.baseline.control
    then None
    else d.rollback.control
  }

  predicate ServiceExisted(services: seq<ServiceIdentity>, name: string) {
    exists i :: 0 <= i < |services| && services[i].name == name && services[i].existed
  }

  predicate PlansWorker(workers: seq<Worker>, service: string, generation: string) {
    exists i :: 0 <= i < |workers| && workers[i].service == service && Decimal(workers[i].generation) == generation
  }

  predicate IsRollbackAuthority(d: Document, a: Authority) {
    var control := RollbackControl(d);
    && control.Some?
    && a.kind.RuntimeKind?
    && a.service in RUNTIME_SERVICES
    && a.controlImage == control.value.image
    && a.controlGeneration == control.value.generation
    && ServiceExisted(d.baseline.services, a.service)
    && ServiceExisted(d.failedForward.services, a.service)
    && !PlansWorker(d.forward.workers, a.service, a.generation)
  }

  /** Rules of one authority against the control plane it must have been provisioned by. */
  predicate AuthorityOk(a: Authority, targetCommit: string, rollbackControl: Option<ControlIdentity>) {
    var controlGeneration :=
      if rollbackControl.Some? then rollbackControl.value.generation else "c-" + Slice(targetCommit, 0, 20);
    var controlImage :=
      if rollbackControl.Some? then rollbackControl.value.image
      else "vp-ffmpeg-worker-python:deploy-" + Slice(targetCommit, 0, 12);
    var operatorReference := "control/" + controlGeneration + "/worker-registration-operator-database-url";
    && (rollbackControl.Some? ==> a.kind.RuntimeKind?)
    && a.controlGeneration == controlGeneration
    && a.controlImage == controlImage
    && match a.kind
       case ControlKind =>
         a.service == CONTROL_SERVICE && a.generation == controlGeneration && a.operatorReference == operatorReference
       case MarkerKind =>
         a.service == MARKER_SERVICE && a.operatorReference == "marker/" + a.generation
             + "/worker-marker-owner-database-url"
       case RuntimeKind =>
         a.service in RUNTIME_SERVICES && a.operatorReference == operatorReference
  }

  predicate SameAuthorityKey(a: Authority, b: Authority) {
    a.kind == b.kind && a.service == b.service && a.generation == b.generation
  }

  predicate AuthorityEntryOk(d: Document, a: Authority) {
    AuthorityOk(a, d.targetCommit, if IsRollbackAuthority(d, a) then d.rollback.control else None)
  }

  predicate AuthorityPairOk(d: Document, a: Authority, b: Authority) {
    && !SameAuthorityKey(a, b)
    && (IsRollbackAuthority(d, a) && IsRollbackAuthority(d, b) ==> a.service != b.service)
    && (!IsRollbackAuthority(d, a) && !IsRollbackAuthority(d, b) ==> a.controlImage == b.controlImage)
  }

  predicate AuthoritiesOk(d: Document) {
    && (forall i :: 0 <= i < |d.authorities| ==> AuthorityEntryOk(d, d.authorities[i]))
    && (forall i, j :: 0 <= i < j < |d.authorities| ==> AuthorityPairOk(d, d.authorities[i], d.authorities[j]))
  }

  /** The same rules for the authorities of the abort plan, where no rollback authority is possible. */
  predicate AbortAuthoritiesOk(authorities: seq<Authority>, targetCommit: string) {
    && (forall i :: 0 <= i < |authorities| ==> AuthorityOk(authorities[i], targetCommit, None))
    && (forall i, j :: 0 <= i < j < |authorities| ==>
          !SameAuthorityKey(authorities[i], authorities[j])
              && authorities[i].controlImage == authorities[j].controlImage)
  }

  predicate IsAborted(d: Document) {
    d.phase.Aborting? || (d.phase.Done? && d.outcome == Some(Aborted))
  }

  predicate AuthorityStateOk(d: Document, a: Authority) {
    if d.phase.Preparing? || d.phase.ForwardApplying? || (d.phase.RollbackPreparing? && IsRollbackAuthority(d, a))
    then !a.state.Revoked?
    else IsAborted(d) || a.state.Provisioned?
  }

  predicate AuthorityStatesOk(d: Document) {
    forall i :: 0 <= i < |d.authorities| ==> AuthorityStateOk(d, d.authorities[i])
  }

  function MarkerPurposeName(purpose: string): Option<string> {
    if purpose == "readiness-database" then Some("readiness")
    else if purpose == "janitor-database" then Some("janitor")
    else if purpose == "repair-database" then Some("repair")
    else None
  }

  function WorkerShortName(service: string): string {
    if service == "vp-ffmpeg-worker-go-swarm" then "ffmpeg-go"
    else if service == "vp-ffmpeg-worker-gpu-swarm" then "ffmpeg"
    else if service == "vp-vision-worker-swarm" then "vision"
    else "youtube-publisher"
  }

  predicate IsRollbackSecret(d: Document, ref: SecretRef) {
    var control := RollbackControl(d);
    && control.Some?
    && if ref.service == MARKER_SERVICE then
         var short := MarkerPurposeName(ref.purpose);
         && Some(ref.generation) == d.rollback.markerGeneration
         && short.Some?
         && ref.name == "vp-wrm-" + short.value + "-db-" + ref.generation
         && (d.rollback.marker.Some? ==>
               && d.rollback.marker.value.generation == ref.generation
               && d.rollback.marker.value.image == control.value.image
               && ref in d.rollback.marker.value.secrets)
       else
         && ref.service in RUNTIME_SERVICES
         && (ref.purpose == "database" || ref.purpose == "admission")
         && IsRollbackWorkerSecret(d, ref)
  }

  predicate IsRollbackWorkerSecret(d: Document, ref: SecretRef) {
    var workers := d.rollback.workers;
    if exists i :: 0 <= i < |workers| && workers[i].service == ref.service then
      var only := Sole(workers, (w: Worker) => w.service == ref.service);
      && only.Some?
      && ref == (if ref.purpose == "database" then workers[only.value].databaseSecret
                 else workers[only.value].admissionSecret)
    else
      && ref.name == "vp-wr-" + WorkerShortName(ref.service)
                     + (if ref.purpose == "database" then "-db-" else "-admission-") + ref.generation
      && exists i :: 0 <= i < |d.authorities|
                     && IsRollbackAuthority(d, d.authorities[i])
                     && d.authorities[i].service == ref.service
                     && d.authorities[i].generation == ref.generation
                     && d.authorities[i].state.Provisioned?
  }

  function ExpectedKind(service: string): AuthorityKind {
    if service == CONTROL_SERVICE then ControlKind
    else if service == MARKER_SERVICE then MarkerKind
    else RuntimeKind
  }

  predicate Backs(d: Document, a: Authority, ref: SecretRef) {
    && a.kind == ExpectedKind(ref.service)
    && a.service == ref.service
    && a.generation == ref.generation
    && a.state.Provisioned?
    && !IsRollbackAuthority(d, a)
  }

  /** Exactly one provisioned authority backs the secret. */
  predicate IsBacked(d: Document, ref: SecretRef) {
    exists i :: 0 <= i < |d.authorities| && Backs(d, d.authorities[i], ref)
                && forall j :: 0 <= j < |d.authorities| && Backs(d, d.authorities[j], ref) ==> j == i
  }

  predicate IsCutoverSecret(d: Document, ref: SecretRef) {
    && ref.service == "vision-cutover"
    && ref.generation == d.transactionId
    && (ref.purpose == "safety-database" || ref.purpose == "final-safety-database")
  }

  predicate PreparedSecretOk(d: Document, ref: SecretRef) {
    IsRollbackSecret(d, ref) || IsCutoverSecret(d, ref) || IsBacked(d, ref)
  }

  predicate PreparedSecretsOk(d: Document) {
    && SecretRefsOk(d.preparedSecrets)
    && forall i :: 0 <= i < |d.preparedSecrets| ==> PreparedSecretOk(d, d.preparedSecrets[i])
  }

  // ----- phase-dependent fields -----

  predicate RetiringOk(phase: Phase, outcome: Option<Outcome>, retiring: Option<Outcome>) {
    && retiring != Some(Aborted)
    && (if phase.Retiring? then retiring.Some?
        else if phase.Done? && outcome != Some(Aborted) then retiring == outcome
        else retiring.None?)
  }

  predicate RollbackStarted(phase: Phase, retiring: Option<Outcome>) {
    || phase in {RollbackPreparing, RollbackApplying, RollbackVerified, RollbackWorkersPromoted, RollbackMarkerPromoted,
                 RollbackControlPromoted, CandidateRestoreRequired, CandidateRestoring, CandidateRestored}
    || (phase in {Retiring, Done} && retiring == Some(RolledBack))
  }

  predicate RollbackAllocated(phase: Phase, retiring: Option<Outcome>) {
    || phase in {RollbackApplying, RollbackVerified, RollbackWorkersPromoted, RollbackMarkerPromoted,
        RollbackControlPromoted}
    || (phase in {Retiring, Done} && retiring == Some(RolledBack))
  }

  predicate ForwardMustBeVerified(phase: Phase, retiring: Option<Outcome>) {
    || phase in {ForwardVerified, WorkersPromoted, MarkerPromoted, ControlPromoted}
    || (phase in {Retiring, Done} && retiring == Some(Succeeded))
  }

  predicate RollbackMustBeVerified(phase: Phase, retiring: Option<Outcome>) {
    || phase in {RollbackVerified, RollbackWorkersPromoted, RollbackMarkerPromoted, RollbackControlPromoted}
    || (phase in {Retiring, Done} && retiring == Some(RolledBack))
  }

  predicate MilestonesOk(d: Document) {
    && (!d.phase.Preparing? && !IsAborted(d) ==> d.baseline.captured)
    && (RollbackStarted(d.phase, d.retiringOutcome) ==> d.failedForward.captured)
    && (RollbackAllocated(d.phase, d.retiringOutcome) ==> d.rollback.attempt >= 1)
    && (ForwardMustBeVerified(d.phase, d.retiringOutcome) ==> AllVerified(d.forward.workers))
    && (RollbackMustBeVerified(d.phase, d.retiringOutcome) ==> AllVerified(d.rollback.workers))
  }

  /** The authorities still to be revoked, in document order. */
  function Remaining(authorities: seq<Authority>): (r: seq<Authority>)
    ensures |r| <= |authorities|
  {
    if authorities == [] then []
    else if authorities[0].state.Revoked? then Remaining(authorities[1..])
    else [authorities[0]] + Remaining(authorities[1..])
  }

  lemma {:induction false} RemainingMembers(authorities: seq<Authority>)
    ensures forall a :: a in Remaining(authorities) <==> a in authorities && !a.state.Revoked?
  {
    if authorities != [] {
      RemainingMembers(authorities[1..]);
      assert authorities == [authorities[0]] + authorities[1..];
    }
  }

  predicate AbortOk(d: Document) {
    match d.abort
    case None => !IsAborted(d)
    case Some(plan) =>
      && AbortAuthoritiesOk(plan.authorities, d.targetCommit)
      && IsAborted(d)
      && plan.authorities == Remaining(d.authorities)
  }

  /** The identity under which the removal of a prepared secret is announced. */
  function SecretRefIdentity(ref: SecretRef): Identity {
    Identity(SecretIdentity, Some(ref.dockerSecretId), ref.name, ref.service, ref.generation, ref.purpose, None)
  }

  predicate OperationOk(d: Document) {
    match d.operation
    case None => true
    case Some(op) =>
      && d.phase == IntentPhase(op.kind)
      && op.targetPhase == IntentTarget(op.kind)
      && IdentityOk(op.identity)
      && (op.kind.RemovePreparedSecret? ==>
            Sole(d.preparedSecrets, (ref: SecretRef) => SecretRefIdentity(ref) == op.identity).Some?)
  }

  // ----- the registered reconcile record -----

  predicate RegisteredSecretOk(s: Option<RegisteredSecret>) {
    s.Some? && !s.value.state.SecretCreating? ==> s.value.id.Some?
  }

  predicate JobOk(j: Option<Job>) {
    j.Some? ==>
      && (j.value.state.JobTerminal? ==> j.value.exitCode.Some?)
      && (j.value.exitCode.Some? ==> j.value.exitCode.value <= 255)
      && (j.value.state.JobCreated? ==> j.value.serviceId.Some?)
      && (j.value.state.JobPlanned? ==> j.value.serviceId.None?)
  }

  predicate RegisteredOk(r: Option<Registered>) {
    r.Some? ==>
      && JobOk(r.value.baseline) && JobOk(r.value.current) && JobOk(r.value.run)
      && RegisteredSecretOk(r.value.pins) && RegisteredSecretOk(r.value.captureRead)
  }

  predicate JobGone(j: Option<Job>) {
    j.Some? ==> j.value.state.JobRemoved?
  }

  predicate SecretGone(s: Option<RegisteredSecret>) {
    s.Some? ==> s.value.state.SecretRemoved?
  }

  /** Nothing of the pipeline is left running. An older journal has no record and passes. */
  predicate CleanGate(r: Option<Registered>) {
    r.Some? ==>
      && JobGone(r.value.baseline) && JobGone(r.value.current) && JobGone(r.value.run)
      && SecretGone(r.value.pins) && SecretGone(r.value.captureRead)
  }

  predicate StringLess(a: string, b: string)
    decreases |a|
  {
    b != "" && (a == "" || a[0] < b[0] || (a[0] == b[0] && StringLess(a[1..], b[1..])))
  }

  predicate StrictlySorted(s: seq<string>) {
    forall i :: 0 <= i < |s| - 1 ==> StringLess(s[i], s[i + 1])
  }

  predicate ExitedCleanly(j: Option<Job>) {
    j.Some? && j.value.exitCode == Some(0)
  }

  /** The receipt of the run agrees with the pins that both later stages were bound to. */
  predicate ReceiptOk(baseline: Job, current: Job, run: Job, pins: RegisteredSecret) {
    && run.result.Some? && run.result.value.RunResult?
    && current.result.Some? && current.result.value.CaptureResult? && current.result.value.capturePins.Some?
    && baseline.result.Some? && baseline.result.value.CaptureResult?
    && var receipt := run.result.value;
       var captured := current.result.value.capturePins.value;
       && pins.id == current.pinsSecretId && pins.id == run.pinsSecretId
       && pins.sha == captured.pinSha && receipt.pinSha == pins.sha
       && Some(receipt.serviceId) == run.serviceId && Some(receipt.taskId) == run.taskId
       && !receipt.outcome.OtherOutcome?
       && baseline.result.value.credentials == current.result.value.credentials
       && receipt.requestBytes >= 1
       && StrictlySorted(receipt.attemptedStreams)
       && (forall s :: s in receipt.attemptedStreams ==> s in captured.commands)
       && (receipt.outcome.AlreadyAbsent? <==> receipt.attemptedStreams == [])
  }

  /** All three jobs ran, exited 0 and were removed, and the run's receipt is consistent. */
  predicate SuccessGate(r: Option<Registered>) {
    r.Some? ==>
      && CleanGate(r)
      && ExitedCleanly(r.value.baseline) && ExitedCleanly(r.value.current) && ExitedCleanly(r.value.run)
      && r.value.captureRead.Some? && r.value.pins.Some?
      && ReceiptOk(r.value.baseline.value, r.value.current.value, r.value.run.value, r.value.pins.value)
  }

  // ----- the whole document -----

  predicate Valid(d: Document) {
    && TransactionIdOk(d.transactionId)
    && RegisteredOk(d.registered)
    && (d.phase.Done? <==> d.outcome.Some?)
    && RuntimeRedisOk(d.runtimeRedis)
    && BaselineOk(d.baseline)
    && FailedForwardOk(d.failedForward)
    && ForwardOk(d.forward)
    && RollbackOk(d.rollback)
    && AuthoritiesOk(d)
    && AuthorityStatesOk(d)
    && PreparedSecretsOk(d)
    && RetiringOk(d.phase, d.outcome, d.retiringOutcome)
    && MilestonesOk(d)
    && d.promotion == ExpectedPromotion(d.phase, d.outcome)
    && RetirementsOk(d.retirements)
    && VisionJobsOk(d.visionJobs)
    && AbortOk(d)
    && OperationOk(d)
  }
}
