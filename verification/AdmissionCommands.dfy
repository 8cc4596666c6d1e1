/**
 The journal's commands. Each one is an updater over a copy of the document that
 may refuse; a changed copy is written only at the expected revision and only
 when the validator accepts it.
 */
module AdmissionCommands {
  import opened Common
  import opened AdmissionTypes
  import opened AdmissionValidator

  datatype UpdateResult = Refused | Unchanged | Written(document: Document)

  datatype Direction = ForwardDirection | RollbackDirection

  // ----- phase changes -----

  const FORWARD_MILESTONES: set<Phase> := {ForwardVerified, WorkersPromoted, MarkerPromoted, ControlPromoted}
  const CLEAN_TARGETS: set<Phase> := {RollbackPreparing, Aborting, Retiring, Done}

  /** What a phase demands of the document before it may be entered. */
  predicate MayEnter(d: Document, target: Phase) {
    && target in LegalTransitions(d.phase)
    && d.operation.None?
    && (target.ForwardApplying? ==> d.baseline.captured)
    && (target in FORWARD_MILESTONES ==> SuccessGate(d.registered))
    && (target in CLEAN_TARGETS ==> CleanGate(d.registered))
    && (target.ForwardVerified? ==> AllVerified(d.forward.workers))
    && (target.RollbackPreparing? ==> d.failedForward.captured)
    && (target.RollbackApplying? ==>
          d.rollback.attempt >= 1 && d.rollback.namespace.Some? && d.rollback.markerGeneration.Some?)
    && (target.RollbackVerified? ==> AllVerified(d.rollback.workers))
  }

  predicate AllJobsRemoved(jobs: seq<VisionJob>) {
    forall i :: 0 <= i < |jobs| ==> jobs[i].state.VisionRemoved?
  }

  predicate AllRevoked(authorities: seq<Authority>) {
    forall i :: 0 <= i < |authorities| ==> authorities[i].state.Revoked?
  }

  predicate MayFinishAborted(d: Document) {
    && d.phase.Aborting?
    && d.preparedSecrets == []
    && d.abort.Some? && d.abort.value.authorities == []
    && AllRevoked(d.authorities)
    && d.promotion == Promotion(false, false, false)
    && d.retirements == []
  }

  predicate MayFinishRetired(d: Document, outcome: Option<Outcome>) {
    && d.retirements == []
    && d.promotion == Promotion(true, true, true)
    && outcome.Some? && outcome != Some(Aborted)
    && outcome == d.retiringOutcome
  }

  /** The outcome a retiring transaction records when none is given. */
  function DefaultOutcome(phase: Phase): Outcome {
    if phase.RollbackControlPromoted? then RolledBack else Succeeded
  }

  function SetPhase(d: Document, target: Phase, outcome: Option<Outcome>): (r: Option<Document>) {
    if !MayEnter(d, target) then None
    else if target.Retiring? then
      var chosen := if outcome.Some? then outcome.value else DefaultOutcome(d.phase);
      if chosen.Aborted? then None
      else Some(d.(retiringOutcome := Some(chosen), phase := Retiring))
    else if target.Done? then
      if !AllJobsRemoved(d.visionJobs) then None
      else if outcome == Some(Aborted) && !MayFinishAborted(d) then None
      else if outcome != Some(Aborted) && !MayFinishRetired(d, outcome) then None
      else Some(d.(outcome := outcome, phase := Done))
    else if outcome.Some? then None
    else
      match target
      case WorkersPromoted => Some(d.(promotion := d.promotion.(workers := true), phase := target))
      case RollbackWorkersPromoted => Some(d.(promotion := Promotion(true, false, false), phase := target))
      case MarkerPromoted =>
        if !d.promotion.workers then None else Some(d.(promotion := d.promotion.(marker := true), phase := target))
      case RollbackMarkerPromoted =>
        if !d.promotion.workers then None else Some(d.(promotion := d.promotion.(marker := true), phase := target))
      case ControlPromoted =>
        if !d.promotion.marker then None else Some(d.(promotion := d.promotion.(control := true), phase := target))
      case RollbackControlPromoted =>
        if !d.promotion.marker then None else Some(d.(promotion := d.promotion.(control := true), phase := target))
      case _ => Some(d.(phase := target))
  }

  function FromPhase(r: Option<Document>): UpdateResult {
    if r.None? then Refused else Written(r.value)
  }

  function Transition(d: Document, target: Phase, outcome: Option<Outcome>): UpdateResult {
    FromPhase(SetPhase(d, target, outcome))
  }

  // ----- legacy bootstrap recovery -----

  predicate SameSecrets(a: seq<SecretRef>, b: seq<SecretRef>) {
    multiset(a) == multiset(b)
  }

  function WorkerSecrets(workers: seq<Worker>): seq<SecretRef> {
    if workers == [] then []
    else [workers[0].databaseSecret, workers[0].admissionSecret] + WorkerSecrets(workers[1..])
  }

  predicate EndsWith(s: string, suffix: string) {
    |suffix| <= |s| && s[|s| - |suffix|..] == suffix
  }

  function DatabaseSecrets(refs: seq<SecretRef>): seq<SecretRef> {
    if refs == [] then []
    else (if EndsWith(refs[0].purpose, "-database") then [refs[0]] else []) + DatabaseSecrets(refs[1..])
  }

  function AuthorityKeys(authorities: seq<Authority>): set<(AuthorityKind, string, string)> {
    set i | 0 <= i < |authorities| :: (authorities[i].kind, authorities[i].service, authorities[i].generation)
  }

  function ExpectedKeys(control: ControlIdentity, marker: MarkerIdentity,
                        workers: seq<Worker>): set<(AuthorityKind, string, string)> {
    {(ControlKind, CONTROL_SERVICE, control.generation), (MarkerKind, MARKER_SERVICE, marker.generation)}
    + set i | 0 <= i < |workers| :: (RuntimeKind, workers[i].service, Decimal(workers[i].generation))
  }

  function ServiceNamed(services: seq<ServiceIdentity>, name: string): Option<ServiceIdentity> {
    var i := First(services, (s: ServiceIdentity) => s.name == name, 0);
    if i < |services| then Some(services[i]) else None
  }

  predicate LegacyContextOk(d: Document, progress: AppProgress, resume: bool) {
    && (d.phase.ForwardApplying? || d.phase.RollbackPreparing?)
    && d.baseline.kind.LegacyNoControl? && d.baseline.captured && d.baseline.control.None?
    && d.operation.None? && d.abort.None?
    && d.promotion == Promotion(false, false, false)
    && d.retirements == []
    && (resume || d.janitor.None?)
    && d.rollback.attempt <= 1
    && d.rollback.control.None? && d.rollback.marker.None? && d.rollback.workers == []
    && d.forward.control.Some? && d.forward.marker.Some?
    && progress.transactionId == d.transactionId && progress.targetCommit == d.targetCommit
    && (resume || forall s :: s in progress.attempted ==> s !in RUNTIME_SERVICES)
  }

  predicate LegacyWorkersOk(d: Document, resume: bool)
    requires d.forward.control.Some? && d.forward.marker.Some?
  {
    var workers := d.forward.workers;
    && |workers| == 4
    && (set i | 0 <= i < |workers| :: workers[i].service) == RUNTIME_SERVICES
    && (forall i :: 0 <= i < |workers| ==> workers[i].stage.Prepared? || (resume && IsApplied(workers[i])))
    && d.forward.control.value.generation == "c-" + Slice(d.targetCommit, 0, 20)
    && d.forward.marker.value.image == d.forward.control.value.image
  }

  predicate LegacyAuthoritiesOk(d: Document)
    requires d.forward.control.Some? && d.forward.marker.Some?
  {
    var control, marker := d.forward.control.value, d.forward.marker.value;
    && |d.authorities| == 6
    && AuthorityKeys(d.authorities) == ExpectedKeys(control, marker, d.forward.workers)
    && (forall i :: 0 <= i < |d.authorities| ==>
          && d.authorities[i].state.Provisioned?
          && d.authorities[i].controlGeneration == control.generation
          && d.authorities[i].controlImage == control.image)
    && SameSecrets(control.secrets + DatabaseSecrets(marker.secrets) + WorkerSecrets(d.forward.workers),
                   d.preparedSecrets)
  }

  predicate LegacyResumeOk(d: Document, progress: AppProgress) {
    var workers := d.forward.workers;
    && d.phase.RollbackPreparing?
    && progress.migration.MigrationApplied?
    && d.failedForward.captured
    && (exists i :: 0 <= i < |workers| && IsApplied(workers[i]))
    && (forall i :: 0 <= i < |workers| ==>
          && (IsApplied(workers[i]) <==> workers[i].service in progress.attempted)
          && (IsApplied(workers[i]) ==>
                var seen := ServiceNamed(d.failedForward.services, workers[i].service);
                && seen.Some?
                && seen.value.dockerServiceId == workers[i].dockerServiceId
                && seen.value.specDigest == workers[i].targetSpecDigest
                && seen.value.image == Some(workers[i].image)))
  }

  predicate LegacyFailureOk(d: Document, progress: AppProgress)
    requires d.forward.control.Some?
  {
    var failed := d.failedForward;
    failed.captured ==>
      && ServiceNames(failed.services) == (set s | s in progress.attempted)
      && failed.control.Some?
      && failed.control.value.generation == d.forward.control.value.generation
      && failed.control.value.image == d.forward.control.value.image
      && (forall i :: 0 <= i < |failed.services| ==>
            var was := ServiceNamed(d.baseline.services, failed.services[i].name);
            was.Some? && was.value.dockerServiceId == failed.services[i].dockerServiceId)
  }

  /**
   A complete bootstrap candidate, unused (abort) or already applied (resume). The document was
   validated when read.
   */
  predicate LegacyEligible(d: Document, progress: AppProgress, resume: bool) {
    && LegacyContextOk(d, progress, resume)
    && LegacyWorkersOk(d, resume)
    && LegacyAuthoritiesOk(d)
    && (resume ==> LegacyResumeOk(d, progress))
    && LegacyFailureOk(d, progress)
  }

  function ResumeLegacyForward(d: Document, transactionId: string, commit: string,
                               progress: AppProgress): UpdateResult {
    if d.transactionId != transactionId || d.targetCommit != commit || !LegacyEligible(d, progress, true) then Refused
    else Written(d.(lastError := Some(LastError("legacy_forward_resumed", d.phase)), phase := ForwardApplying))
  }

  // ----- abort -----

  predicate NeedsLegacyCheck(d: Document) {
    d.phase.RollbackPreparing? || (d.baseline.kind.LegacyNoControl? && |d.forward.workers| == 4)
  }

  predicate AnyApplied(workers: seq<Worker>) {
    exists i :: 0 <= i < |workers| && IsApplied(workers[i])
  }

  function BeginAbort(d: Document, reason: string, progress: Option<AppProgress>): UpdateResult {
    if NeedsLegacyCheck(d) && (progress.None? || !LegacyEligible(d, progress.value, false)) then Refused
    else if !d.phase.Preparing? && !d.phase.ForwardApplying? && !NeedsLegacyCheck(d) then Refused
    else if d.operation.Some? || d.abort.Some? then Refused
    else if d.phase.ForwardApplying? && (d.janitor.Some? || AnyApplied(d.forward.workers)) then Refused
    else
      var planned := d.(abort := Some(AbortPlan(reason, Remaining(d.authorities))),
                        lastError := Some(LastError(reason, d.phase)));
      FromPhase(SetPhase(planned, Aborting, None))
  }

  function IntentSecretRemoval(d: Document, dockerSecretId: string, operationId: string): UpdateResult {
    if !d.phase.Aborting? || d.operation.Some? then Refused
    else
      var only := Sole(d.preparedSecrets, (ref: SecretRef) => ref.dockerSecretId == dockerSecretId);
      if only.None? then Refused
      else Written(d.(operation := Some(Operation(operationId, RemovePreparedSecret, Aborting,
                                                  SecretRefIdentity(d.preparedSecrets[only.value])))))
  }

  predicate NamesSecret(identity: Identity, ref: SecretRef) {
    && identity.dockerId == Some(ref.dockerSecretId) && identity.name == ref.name && identity.service == ref.service
    && identity.generation == ref.generation && identity.purpose == ref.purpose
  }

  function CompleteSecretRemoval(d: Document, operationId: string): UpdateResult {
    if !d.phase.Aborting? || d.operation.None? || d.operation.value.id != operationId
       || !d.operation.value.kind.RemovePreparedSecret? then Refused
    else
      var identity := d.operation.value.identity;
      var only := Sole(d.preparedSecrets, (ref: SecretRef) => NamesSecret(identity, ref));
      if only.None? then Refused
      else Written(d.(preparedSecrets := Without(d.preparedSecrets, d.preparedSecrets[only.value]), operation := None))
  }

  function Revoke(authorities: seq<Authority>, i: nat): seq<Authority>
    requires i < |authorities|
  {
    authorities[i := authorities[i].(state := Revoked)]
  }

  predicate HasKey(a: Authority, kind: AuthorityKind, service: string, generation: string) {
    a.kind == kind && a.service == service && a.generation == generation
  }

  function CompleteAbortAuthority(d: Document, kind: AuthorityKind, service: string, generation: string): UpdateResult {
    if !d.phase.Aborting? || d.operation.Some? || d.preparedSecrets != [] || d.abort.None? then Refused
    else
      var queue := d.abort.value.authorities;
      var queued := Sole(queue, (a: Authority) => HasKey(a, kind, service, generation));
      var live := Sole(d.authorities, (a: Authority) => HasKey(a, kind, service, generation) && !a.state.Revoked?);
      if queued.None? || live.None? then Refused
      else Written(d.(authorities := Revoke(d.authorities, live.value),
                      abort := Some(d.abort.value.(authorities := Without(queue, queue[queued.value])))))
  }

  // ----- authorities and prepared secrets -----

  predicate PreparationPhase(phase: Phase) {
    phase in {Preparing, ForwardApplying, RollbackPreparing, RollbackApplying}
  }

  predicate RollbackPhase(phase: Phase) {
    phase.RollbackPreparing? || phase.RollbackApplying?
  }

  function RecordAuthorityIntent(d: Document, a: Authority): UpdateResult {
    var control := if RollbackPhase(d.phase) then RollbackControl(d) else None;
    if !PreparationPhase(d.phase) || !a.state.Planned? || !AuthorityOk(a, d.targetCommit, control) then Refused
    else if RollbackPhase(d.phase) && !IsRollbackAuthority(d, a) then Refused
    else
      var i := First(d.authorities, (e: Authority) => SameAuthorityKey(e, a), 0);
      if i < |d.authorities| then
        var existing := d.authorities[i];
        if existing.controlImage != a.controlImage || existing.controlGeneration != a.controlGeneration
           || existing.operatorReference != a.operatorReference || existing.state.Revoked? then Refused
        else if d.phase.RollbackApplying? then (if existing.state.Provisioned? then Unchanged else Refused)
        else Written(d)
      else if d.phase.RollbackApplying? then Refused
      else Written(d.(authorities := d.authorities + [a]))
  }

  function MarkAuthority(d: Document, kind: AuthorityKind, service: string, generation: string,
                         provisioned: bool): UpdateResult {
    var only := Sole(d.authorities, (a: Authority) => HasKey(a, kind, service, generation));
    if !PreparationPhase(d.phase) || only.None? then Refused
    else
      var a := d.authorities[only.value];
      if RollbackPhase(d.phase) && !IsRollbackAuthority(d, a) then Refused
      else if d.phase.RollbackApplying? then (if a.state.Provisioned? then Unchanged else Refused)
      else if a.state == (if provisioned then Provisioning else Planned) then
        var next := a.(state := if provisioned then Provisioned else Provisioning);
        Written(d.(authorities := d.authorities[only.value := next]))
      else if a.state.Provisioned? || (!provisioned && a.state.Provisioning?) then Written(d)
      else Refused
  }

  function RecordPreparedSecret(d: Document, ref: SecretRef): UpdateResult {
    if !d.phase.Preparing? && !d.phase.ForwardApplying?
        && !(RollbackPhase(d.phase) && IsRollbackSecret(d, ref)) then Refused
    else
      var i := First(d.preparedSecrets, (e: SecretRef) => e.name == ref.name || e.dockerSecretId == ref.dockerSecretId,
                     0);
      if i < |d.preparedSecrets| && d.preparedSecrets[i] == ref then
        (if d.phase.RollbackApplying? then Unchanged else Written(d))
      else if i < |d.preparedSecrets| || d.phase.RollbackApplying? then Refused
      else Written(d.(preparedSecrets := d.preparedSecrets + [ref]))
  }

  // ----- write-once captures and selections -----

  function CaptureBaseline(d: Document, kind: BaselineKind, control: Option<ControlIdentity>,
                           services: seq<ServiceIdentity>): UpdateResult {
    var desired := Baseline(true, kind, control, services);
    if !ControlOk(control) || (kind.Managed? <==> control.None?) || !ServiceIdentitiesOk(services)
       || ServiceNames(services) != APP_SERVICES then Refused
    else if !d.phase.Preparing? || d.operation.Some? || d.baseline.kind != kind then Refused
    else if d.baseline.captured then (if d.baseline == desired then Unchanged else Refused)
    else Written(d.(baseline := desired))
  }

  function CaptureFailedForward(d: Document, control: Option<FailedControl>,
                                services: seq<ServiceIdentity>): UpdateResult {
    var desired := FailedForward(true, control, services);
    if !ServiceIdentitiesOk(services)
       || (exists i :: 0 <= i < |services| && (!services[i].existed || services[i].name !in APP_SERVICES)) then Refused
    else if (!d.phase.Preparing? && !d.phase.ForwardApplying?) || d.operation.Some? then Refused
    else if d.failedForward.captured then (if d.failedForward == desired then Unchanged else Refused)
    else Written(d.(failedForward := desired))
  }

  function HexValue(c: char): nat {
    if '0' <= c <= '9' then (c - '0') as nat
    else if 'a' <= c <= 'f' then 10 + (c - 'a') as nat
    else 0
  }

  function ParseHex(s: string): nat {
    if s == "" then 0 else 16 * ParseHex(s[..|s| - 1]) + HexValue(s[|s| - 1])
  }

  const NAMESPACE_BASE: nat := 100_000_000_000_000_000

  /** The namespace number a transaction id fixes for its only rollback attempt. */
  function NamespaceNumber(transactionId: string): nat {
    ParseHex(Slice(transactionId, 3, 18)) + NAMESPACE_BASE
  }

  function AllocatedNamespace(transactionId: string): string {
    "rollback-" + Decimal(NamespaceNumber(transactionId))
  }

  function AllocatedMarker(transactionId: string): string {
    "m-rb-" + Slice(transactionId, 3, 15) + "-" + Decimal(1)
  }

  function AllocateRollback(d: Document): UpdateResult {
    if !d.phase.RollbackPreparing? || d.operation.Some? then Refused
    else if d.rollback.attempt != 0 then Unchanged
    else Written(d.(rollback := d.rollback.(attempt := 1,
                                            namespace := Some(AllocatedNamespace(d.transactionId)),
                                            markerGeneration := Some(AllocatedMarker(d.transactionId)))))
  }

  predicate DirectionOpen(d: Document, direction: Direction) {
    match direction
    case ForwardDirection => d.phase.Preparing? || d.phase.ForwardApplying?
    case RollbackDirection => RollbackPhase(d.phase)
  }

  function RecordControl(d: Document, direction: Direction, control: ControlIdentity): UpdateResult {
    if !ControlOk(Some(control)) || !DirectionOpen(d, direction) || d.operation.Some? then Refused
    else
      var existing := if direction.ForwardDirection? then d.forward.control else d.rollback.control;
      if existing.Some? then (if existing == Some(control) then Unchanged else Refused)
      else if direction.ForwardDirection? then Written(d.(forward := d.forward.(control := Some(control))))
      else Written(d.(rollback := d.rollback.(control := Some(control))))
  }

  function RecordMarker(d: Document, direction: Direction, marker: MarkerIdentity): UpdateResult {
    if !MarkerOk(Some(marker)) || !DirectionOpen(d, direction) || d.operation.Some? then Refused
    else
      var existing := if direction.ForwardDirection? then d.forward.marker else d.rollback.marker;
      if existing.Some? then (if existing == Some(marker) then Unchanged else Refused)
      else if direction.ForwardDirection? then Written(d.(forward := d.forward.(marker := Some(marker))))
      else Written(d.(rollback := d.rollback.(marker := Some(marker))))
  }

  function RecordJanitor(d: Document, service: JanitorService): UpdateResult {
    if !(d.phase.Preparing? || d.phase.ForwardApplying? || d.phase.RollbackApplying?) || d.operation.Some? then Refused
    else if d.janitor.Some? then (if d.janitor == Some(service) then Unchanged else Refused)
    else Written(d.(janitor := Some(service)))
  }

  function ClearJanitor(d: Document, service: JanitorService): UpdateResult {
    if !d.phase.RollbackApplying? || d.operation.Some? then Refused
    else if d.janitor.None? then Unchanged
    else if d.janitor != Some(service) then Refused
    else Written(d.(janitor := None))
  }

  // ----- workers -----

  function WorkersOf(d: Document, direction: Direction): seq<Worker> {
    if direction.ForwardDirection? then d.forward.workers else d.rollback.workers
  }

  function WithWorkers(d: Document, direction: Direction, workers: seq<Worker>): Document {
    if direction.ForwardDirection? then d.(forward := d.forward.(workers := workers))
    else d.(rollback := d.rollback.(workers := workers))
  }

  predicate WorkersOpen(d: Document, direction: Direction) {
    DirectionOpen(d, direction) && (direction.RollbackDirection? ==> d.rollback.attempt != 0)
  }

  predicate IsWorker(w: Worker, service: string, generation: nat) {
    w.service == service && w.generation == generation
  }

  /** Equal up to what the stages fill in later. */
  predicate SamePlan(a: Worker, b: Worker) {
    && a.service == b.service && a.generation == b.generation && a.commit == b.commit && a.image == b.image
    && a.databaseSecret == b.databaseSecret && a.admissionSecret == b.admissionSecret
  }

  function RecordWorkerPlan(d: Document, direction: Direction, plan: Worker): UpdateResult {
    if !plan.stage.Pending? || plan.dockerServiceId.Some? || !WorkerOk(plan)
       || d.operation.Some? || !WorkersOpen(d, direction) then Refused
    else
      var workers := WorkersOf(d, direction);
      if exists i :: 0 <= i < |workers| && IsWorker(workers[i], plan.service, plan.generation) then
        var only := Sole(workers, (w: Worker) => IsWorker(w, plan.service, plan.generation));
        if only.None? || !SamePlan(workers[only.value], plan) then Refused else Unchanged
      else Written(WithWorkers(d, direction, workers + [plan]))
  }

  function Successor(stage: WorkerStage): Option<WorkerStage> {
    match stage
    case Pending => Some(Prepared)
    case Prepared => Some(Applied)
    case Applied => Some(Verified)
    case Verified => None
  }

  /** One stage forward for one worker; None when the ids do not fit the stage. */
  function AdvancedWorker(w: Worker, target: WorkerStage, serviceId: Option<string>,
                          digest: Option<string>): Option<Worker> {
    match target
    case Prepared =>
      if serviceId.Some? || digest.Some? || w.dockerServiceId.Some? || w.targetSpecDigest.Some? then None
      else Some(w.(stage := Prepared))
    case Applied =>
      if serviceId.None? || digest.None? || w.dockerServiceId.Some? || w.targetSpecDigest.Some? then None
      else Some(w.(stage := Applied, dockerServiceId := serviceId, targetSpecDigest := digest))
    case Verified =>
      if serviceId != w.dockerServiceId || digest != w.targetSpecDigest then None else Some(w.(stage := Verified))
    case Pending => None
  }

  function AdvanceWorkerStage(d: Document, direction: Direction, service: string, generation: nat,
                              expected: WorkerStage, target: WorkerStage,
                              serviceId: Option<string>, digest: Option<string>): UpdateResult
  {
    if Successor(expected) != Some(target) || d.operation.Some? || !WorkersOpen(d, direction) then Refused
    else
      var workers := WorkersOf(d, direction);
      var only := Sole(workers, (w: Worker) => IsWorker(w, service, generation));
      if only.None? then Refused
      else
        var w := workers[only.value];
        if StageRank(w.stage) >= StageRank(target) then
          if target.Prepared? then (if serviceId.None? && digest.None? then Unchanged else Refused)
          else if serviceId == w.dockerServiceId && digest == w.targetSpecDigest then Unchanged
          else Refused
        else if w.stage != expected then Refused
        else
          var next := AdvancedWorker(w, target, serviceId, digest);
          if next.None? then Refused else Written(WithWorkers(d, direction, workers[only.value := next.value]))
  }

  // ----- runtime secrets and vision jobs -----

  function RecordRuntimeSecret(d: Document, role: string, secret: RuntimeSecret): UpdateResult {
    if !d.phase.Preparing? || d.operation.Some? then Refused
    else if role in d.runtimeRedis && d.runtimeRedis[role] != secret then Refused
    else Written(d.(runtimeRedis := d.runtimeRedis[role := secret]))
  }

  function VisionRole(mode: VisionMode): string {
    if mode.Reconcile? then "control" else "watcher"
  }

  function VisionPurpose(mode: VisionMode): string {
    if mode.FinalSafety? then "final-safety-database" else "safety-database"
  }

  predicate SameVisionPlan(a: VisionJob, b: VisionJob) {
    a.mode == b.mode && a.name == b.name && a.image == b.image && a.redisSecret == b.redisSecret
        && a.databaseSecret == b.databaseSecret
  }

  function PrepareVisionJob(d: Document, mode: VisionMode, name: string, image: string,
                            database: Option<SecretRef>): UpdateResult {
    var role := VisionRole(mode);
    if !(d.phase.Preparing? || d.phase.ForwardApplying?) || d.operation.Some? || role !in d.runtimeRedis then Refused
    else if (mode.Safety? || mode.FinalSafety?) != database.Some? then Refused
    else if database.Some? && !(database.value in d.preparedSecrets && database.value.service == "vision-cutover"
                                && database.value.generation == d.transactionId
                                && database.value.purpose == VisionPurpose(mode)) then Refused
    else
      var runtime := d.runtimeRedis[role];
      var redis := SecretRef(runtime.secretName, runtime.dockerSecretId, "worker-redis-runtime",
                             runtime.runtimeGeneration, role);
      var job := VisionJob(mode, name, image, redis, database, None, VisionPlanned, None);
      if exists i :: 0 <= i < |d.visionJobs| && d.visionJobs[i].mode == mode then
        var only := Sole(d.visionJobs, (j: VisionJob) => j.mode == mode);
        if only.None? || !SameVisionPlan(d.visionJobs[only.value], job) then Refused else Written(d)
      else Written(d.(visionJobs := d.visionJobs + [job]))
  }

  function RecordVisionService(d: Document, mode: VisionMode, serviceId: string): UpdateResult {
    var only := Sole(d.visionJobs, (j: VisionJob) => j.mode == mode);
    if only.None? then Refused
    else
      var job := d.visionJobs[only.value];
      if job.state.VisionPlanned? && job.dockerServiceId.None? then
        Written(d.(visionJobs := d.visionJobs[only.value :=
                                              job.(dockerServiceId := Some(serviceId), state := VisionCreated)]))
      else if job.dockerServiceId != Some(serviceId) then Refused
      else Written(d)
  }

  function RecordVisionTerminal(d: Document, mode: VisionMode, exitCode: nat): UpdateResult {
    var only := Sole(d.visionJobs, (j: VisionJob) => j.mode == mode);
    if only.None? || exitCode > 255 then Refused
    else
      var job := d.visionJobs[only.value];
      if job.state.VisionCreated? then
        Written(d.(visionJobs := d.visionJobs[only.value := job.(state := VisionTerminal, exitCode := Some(exitCode))]))
      else if (job.state.VisionTerminal? || job.state.VisionRemoved?) && job.exitCode == Some(exitCode) then Written(d)
      else Refused
  }

  /** Drops the secret a finished safety job used. */
  function DropSecret(secrets: seq<SecretRef>, used: Option<SecretRef>): seq<SecretRef> {
    if used.None? then secrets else Without(secrets, used.value)
  }

  function CompleteVisionRemoval(d: Document, mode: VisionMode): UpdateResult {
    var only := Sole(d.visionJobs, (j: VisionJob) => j.mode == mode);
    if only.None? || !d.visionJobs[only.value].state.VisionTerminal? then Refused
    else
      var job := d.visionJobs[only.value];
      Written(d.(preparedSecrets := DropSecret(d.preparedSecrets, job.databaseSecret),
                 visionJobs := d.visionJobs[only.value := job.(state := VisionRemoved)]))
  }

  function AbortVisionRemoval(d: Document, mode: VisionMode): UpdateResult {
    var only := Sole(d.visionJobs, (j: VisionJob) => j.mode == mode);
    if !(d.phase.Preparing? || d.phase.ForwardApplying? || d.phase.Aborting?) || d.operation.Some?
        || only.None? then Refused
    else
      var job := d.visionJobs[only.value];
      if job.state.VisionRemoved? then Written(d)
      else Written(d.(preparedSecrets := DropSecret(d.preparedSecrets, job.databaseSecret),
                      visionJobs := d.visionJobs[only.value := job.(state := VisionRemoved, exitCode := Some(255))]))
  }

  // ----- retirements and intents -----

  function QueueRetirement(d: Document, retirement: Retirement): UpdateResult {
    if d.phase.Preparing? || d.phase.Done? || !IdentityOk(retirement.identity) then Refused
    else Written(d.(retirements := d.retirements + [retirement]))
  }

  function CompleteRetirement(d: Document, id: string): UpdateResult {
    var only := Sole(d.retirements, (r: Retirement) => r.id == id);
    if !d.phase.Retiring? || only.None? then Refused
    else Written(d.(retirements := Without(d.retirements, d.retirements[only.value])))
  }

  function Intent(d: Document, kind: OperationKind, identity: Identity, operationId: string): UpdateResult {
    if kind.RemovePreparedSecret? || !IdentityOk(identity) then Refused
    else if d.phase != IntentPhase(kind) || d.operation.Some? then Refused
    else if kind in {PromoteWorkers, PromoteMarker, PromoteControl} && !SuccessGate(d.registered) then Refused
    else Written(d.(operation := Some(Operation(operationId, kind, IntentTarget(kind), identity))))
  }

  function CompleteIntent(d: Document, operationId: string): UpdateResult {
    if d.operation.None? || d.operation.value.id != operationId
        || d.operation.value.kind.RemovePreparedSecret? then Refused
    else FromPhase(SetPhase(d.(operation := None), d.operation.value.targetPhase, None))
  }
}
