/**
 What an accepted command leaves behind, and for how long: the fact it gave is recorded, a
 janitor stays until it is cleared by name, a retirement until it is completed, a prepared
 secret until a removal; and once a worker is applied no capture of the baseline can begin.
 */
module AdmissionAccepted {
  import opened Common
  import opened AdmissionTypes
  import opened AdmissionValidator
  import opened AdmissionCommands
  import opened AdmissionJournal
  import opened AdmissionInvariant
  import opened AdmissionWriteOnce
  import opened AdmissionProvenance

  // ----- the fact is recorded -----

  /** Some authority is the given one, whatever became of its state. */
  predicate HasAuthority(authorities: seq<Authority>, a: Authority) {
    exists i :: 0 <= i < |authorities| && authorities[i].(state := a.state) == a
  }

  predicate HasMark(authorities: seq<Authority>, kind: AuthorityKind, service: string, generation: string, rank: nat) {
    exists i :: 0 <= i < |authorities| && HasKey(authorities[i], kind, service, generation)
        && AuthorityRank(authorities[i].state) >= rank
  }

  /** What a resource command was for holds in the document. */
  predicate ResourceDone(n: Document, c: ResourceCommand) {
    match c
    case CmdRecordAuthorityIntent(a) => HasAuthority(n.authorities, a)
    case CmdMarkAuthority(kind, service, generation, provisioned) =>
      HasMark(n.authorities, kind, service, generation, if provisioned then 2 else 1)
    case CmdRecordPreparedSecret(ref) => ref in n.preparedSecrets
    case CmdRecordRuntimeSecret(role, secret) => role in n.runtimeRedis && n.runtimeRedis[role] == secret
    case CmdRecordJanitor(service) => n.janitor == Some(service)
    case CmdClearJanitor(service) => n.janitor.None?
    case CmdQueueRetirement(retirement) => retirement in n.retirements
    case CmdCompleteRetirement(id) => forall r :: r in n.retirements ==> r.id != id
  }

  lemma IntentIsRecorded(d: Document, a: Authority)
    requires !RecordAuthorityIntent(d, a).Refused?
    ensures HasAuthority(DocumentAfter(d, RecordAuthorityIntent(d, a)).authorities, a)
  {
    hide AuthorityOk;
    hide RollbackControl;
    hide IsRollbackAuthority;
    var n := DocumentAfter(d, RecordAuthorityIntent(d, a)).authorities;
    var i := First(d.authorities, (e: Authority) => SameAuthorityKey(e, a), 0);
    assert i < |n| && n[i].(state := a.state) == a;
  }

  lemma MarkIsRecorded(d: Document, kind: AuthorityKind, service: string, generation: string, provisioned: bool)
    requires !MarkAuthority(d, kind, service, generation, provisioned).Refused?
    ensures HasMark(DocumentAfter(d, MarkAuthority(d, kind, service, generation, provisioned)).authorities, kind,
                    service, generation, if provisioned then 2 else 1)
  {
    hide IsRollbackAuthority;
    var n := DocumentAfter(d, MarkAuthority(d, kind, service, generation, provisioned)).authorities;
    var i := Sole(d.authorities, (a: Authority) => HasKey(a, kind, service, generation)).value;
    assert i < |n| && HasKey(n[i], kind, service, generation);
  }

  lemma RetirementIsGone(d: Document, id: string)
    requires !CompleteRetirement(d, id).Refused?
    ensures forall r :: r in DocumentAfter(d, CompleteRetirement(d, id)).retirements ==> r.id != id
  {
    hide Without;
    var only := Sole(d.retirements, (r: Retirement) => r.id == id).value;
    forall r | r in d.retirements && r.id == id
      ensures r == d.retirements[only]
    {
      var k :| 0 <= k < |d.retirements| && d.retirements[k] == r;
      assert k == only;
    }
  }

  /** A resource command that is not refused has done what it is for. */
  lemma ResourceIsDone(d: Document, c: ResourceCommand)
    requires !UpdateResource(d, c).Refused?
    ensures ResourceDone(DocumentAfter(d, UpdateResource(d, c)), c)
  {
    hide HasAuthority;
    hide HasMark;
    match c {
      case CmdRecordAuthorityIntent(a) => IntentIsRecorded(d, a);
      case CmdMarkAuthority(kind, service, generation, provisioned) =>
        MarkIsRecorded(d, kind, service, generation, provisioned);
      case CmdCompleteRetirement(id) => RetirementIsGone(d, id);
      case _ =>
    }
    hide RecordAuthorityIntent;
    hide MarkAuthority;
    hide CompleteRetirement;
    hide IsRollbackSecret;
    hide IdentityOk;
  }

  predicate HasJob(jobs: seq<VisionJob>, mode: VisionMode, like: VisionJob -> bool) {
    exists i :: 0 <= i < |jobs| && jobs[i].mode == mode && like(jobs[i])
  }

  /** What a vision command was for holds in the document. */
  predicate VisionDone(n: Document, c: VisionCommand) {
    match c
    case CmdPrepareVisionJob(mode, name, image, database) =>
      HasJob(n.visionJobs, mode, (j: VisionJob) => j.name == name && j.image == image && j.databaseSecret == database)
    case CmdRecordVisionService(mode, serviceId) =>
      HasJob(n.visionJobs, mode, (j: VisionJob) => j.dockerServiceId == Some(serviceId))
    case CmdRecordVisionTerminal(mode, exitCode) =>
      HasJob(n.visionJobs, mode, (j: VisionJob) => j.exitCode == Some(exitCode))
    case CmdCompleteVisionRemoval(mode) => HasJob(n.visionJobs, mode, (j: VisionJob) => j.state.VisionRemoved?)
    case CmdAbortVisionRemoval(mode) => HasJob(n.visionJobs, mode, (j: VisionJob) => j.state.VisionRemoved?)
  }

  /** A vision command that is not refused has done what it is for. */
  lemma VisionIsDone(d: Document, c: VisionCommand)
    requires !UpdateVision(d, c).Refused?
    ensures VisionDone(DocumentAfter(d, UpdateVision(d, c)), c)
  {
    hide DropSecret;
    hide VisionPurpose;
    hide VisionRole;
    var jobs := DocumentAfter(d, UpdateVision(d, c)).visionJobs;
    var only := Sole(d.visionJobs, (j: VisionJob) => j.mode == c.mode);
    var i := if only.Some? then only.value else |d.visionJobs|;
    assert i < |jobs| && jobs[i].mode == c.mode;
  }

  // ----- and stays -----

  lemma AuthorityStays(j: Journal, a: Authority, submissions: seq<Submission>)
    requires HasAuthority(j.document.authorities, a)
    ensures HasAuthority(Run(j, submissions).document.authorities, a)
  {
    RunLater(j, submissions);
    hide Run;
    var d, n := j.document, Run(j, submissions).document;
    var i :| 0 <= i < |d.authorities| && d.authorities[i].(state := a.state) == a;
    assert AuthorityLater(d.authorities[i], n.authorities[i]);
    assert n.authorities[i].(state := a.state) == a;
  }

  /** What may have been dropped between two documents, and by which of the commands. */
  ghost predicate DroppedBy(d: Document, n: Document, written: set<Command>) {
    && (forall s :: d.janitor == Some(s) && n.janitor != Some(s) ==> OfResource(CmdClearJanitor(s)) in written)
    && (forall r :: r in d.retirements && r !in n.retirements ==> OfResource(CmdCompleteRetirement(r.id)) in written)
    && (forall ref :: ref in d.preparedSecrets && ref !in n.preparedSecrets ==> RemovalIn(written))
  }

  ghost predicate RemovalIn(written: set<Command>) {
    || (exists operation :: OfOperation(CmdCompleteSecretRemoval(operation)) in written)
    || (exists mode :: OfVision(CmdCompleteVisionRemoval(mode)) in written)
    || (exists mode :: OfVision(CmdAbortVisionRemoval(mode)) in written)
  }

  lemma DropStep(d: Document, c: Command)
    requires Update(d, c).Written?
    ensures DroppedBy(d, Update(d, c).document, {c})
  {
    hide UpdatePhase;
    hide UpdatePlan;
    hide UpdatePipeline;
    match c {
      case OfPhase(p) => PhaseFrame(d, p);
      case OfOperation(o) => DropOperation(d, o);
      case OfResource(r) => DropResource(d, r);
      case OfPlan(p) => PlanFrame(d, p);
      case OfVision(v) => DropVision(d, v);
      case OfPipeline(p) => PipelineFrame(d, p);
    }
    hide UpdateOperation;
    hide UpdateResource;
    hide UpdateVision;
    hide RemovalIn;
  }

  lemma DropOperation(d: Document, c: OperationCommand)
    requires UpdateOperation(d, c).Written?
    ensures DroppedBy(d, UpdateOperation(d, c).document, {OfOperation(c)})
  {
    hide Without;
    hide IdentityOk;
    hide SuccessGate;
    OperationFrame(d, c);
    if c.CmdCompleteSecretRemoval? {
      assert OfOperation(CmdCompleteSecretRemoval(c.operationId)) in {OfOperation(c)};
    }
    hide RemovalIn;
  }

  lemma DropResource(d: Document, c: ResourceCommand)
    requires UpdateResource(d, c).Written?
    ensures DroppedBy(d, UpdateResource(d, c).document, {OfResource(c)})
  {
    hide Without;
    hide AuthorityOk;
    hide RollbackControl;
    hide IsRollbackAuthority;
    hide IsRollbackSecret;
    hide IdentityOk;
    hide SameAuthorityKey;
    hide RemovalIn;
  }

  lemma DropVision(d: Document, c: VisionCommand)
    requires UpdateVision(d, c).Written?
    ensures DroppedBy(d, UpdateVision(d, c).document, {OfVision(c)})
  {
    hide DropSecret;
    VisionFrame(d, c);
    if c.CmdCompleteVisionRemoval? {
      assert OfVision(CmdCompleteVisionRemoval(c.mode)) in {OfVision(c)};
    } else if c.CmdAbortVisionRemoval? {
      assert OfVision(CmdAbortVisionRemoval(c.mode)) in {OfVision(c)};
    }
    hide RemovalIn;
  }

  lemma DroppedMore(a: Document, b: Document, c: Document, first: set<Command>, second: set<Command>)
    requires DroppedBy(a, b, first) && DroppedBy(b, c, second)
    ensures DroppedBy(a, c, first + second)
  {
    RemovalMore(first, first + second);
    RemovalMore(second, first + second);
    hide RemovalIn;
  }

  lemma RemovalMore(written: set<Command>, more: set<Command>)
    requires written <= more
    ensures RemovalIn(written) ==> RemovalIn(more)
  {
  }

  /**
   Over any run a janitor is dropped only by clearing it by name, a retirement only by completing
   it, and a prepared secret only by a removal.
   */
  lemma {:induction false} NothingIsDropped(j: Journal, submissions: seq<Submission>)
    ensures DroppedBy(j.document, Run(j, submissions).document, WrittenBy(j, submissions))
    decreases |submissions|
  {
    hide DroppedBy;
    hide Update;
    hide Valid;
    if submissions == [] {
      NothingDropped(j.document);
    } else {
      var s := submissions[0];
      var n := After(j, s);
      var one := if n != j then {s.command} else {};
      if n != j {
        DropStep(j.document, s.command);
      } else {
        NothingDropped(j.document);
      }
      NothingIsDropped(n, submissions[1..]);
      DroppedMore(j.document, n.document, Run(n, submissions[1..]).document, one, WrittenBy(n, submissions[1..]));
    }
  }

  lemma NothingDropped(d: Document)
    ensures DroppedBy(d, d, {})
  {
  }

  // ----- the time for a baseline -----

  /** A worker of the forward is applied. */
  predicate Begun(d: Document) {
    AnyApplied(d.forward.workers)
  }

  lemma BegunStays(d: Document, n: Document)
    requires Begun(d) && Later(d, n)
    ensures Begun(n)
  {
    var i :| 0 <= i < |d.forward.workers| && IsApplied(d.forward.workers[i]);
    assert WorkerLater(d.forward.workers[i], n.forward.workers[i]);
    assert IsApplied(n.forward.workers[i]);
  }

  /** The reader and the baseline capture have not begun. */
  predicate NoBaseline(d: Document) {
    d.registered.Some? && d.registered.value.captureRead.None? && d.registered.value.baseline.None?
  }

  predicate NoCapture(d: Document) {
    d.registered.Some? && d.registered.value.baseline.None?
  }

  lemma BegunIsLate(d: Document, c: PipelineCommand)
    requires Begun(d) && NoCapture(d) && UpdatePipeline(d, c).Written?
    ensures NoCapture(UpdatePipeline(d, c).document)
    ensures NoBaseline(d) ==> NoBaseline(UpdatePipeline(d, c).document)
  {
    hide OneBackendImage;
    hide CredentialsOk;
    hide ProgressAllowsBaseline;
    hide Finished;
    assert !BeforeApply(d.forward.workers);
    hide BeforeApply;
  }

  /**
   Once a worker of the forward is applied without a captured baseline, no run captures one; and
   without a reader, no run makes one.
   */
  lemma {:induction false} ApplyClosesBaseline(j: Journal, submissions: seq<Submission>)
    requires Begun(j.document) && NoCapture(j.document)
    ensures NoCapture(Run(j, submissions).document)
    ensures NoBaseline(j.document) ==> NoBaseline(Run(j, submissions).document)
    decreases |submissions|
  {
    hide Begun;
    hide NoCapture;
    hide NoBaseline;
    hide Update;
    hide Valid;
    if submissions != [] {
      var s := submissions[0];
      var n := After(j, s);
      if n != j {
        LateStep(j.document, s.command);
      }
      ApplyClosesBaseline(n, submissions[1..]);
    }
  }

  lemma LateStep(d: Document, c: Command)
    requires Begun(d) && NoCapture(d) && Update(d, c).Written?
    ensures var n := Update(d, c).document;
            Begun(n) && NoCapture(n) && (NoBaseline(d) ==> NoBaseline(n))
  {
    hide Begun;
    UpdateLater(d, c);
    BegunStays(d, Update(d, c).document);
    hide Later;
    hide UpdatePhase;
    hide UpdateOperation;
    hide UpdateResource;
    hide UpdatePlan;
    hide UpdateVision;
    hide UpdatePipeline;
    match c {
      case OfPhase(p) => PhaseFrame(d, p);
      case OfOperation(o) => OperationFrame(d, o);
      case OfResource(r) => ResourceFrame(d, r);
      case OfPlan(p) => PlanFrame(d, p);
      case OfVision(v) => VisionFrame(d, v);
      case OfPipeline(p) => BegunIsLate(d, p);
    }
  }

  // ----- legacy candidates -----

  /** The failure saw this worker's service as it was applied. */
  predicate SeenAsApplied(services: seq<ServiceIdentity>, w: Worker) {
    exists k :: 0 <= k < |services| && services[k].name == w.service
        && services[k].dockerServiceId == w.dockerServiceId
        && services[k].specDigest == w.targetSpecDigest && services[k].image == Some(w.image)
  }

  /**
   A legacy forward is resumed only past its migration, with the workers that were attempted
   exactly those applied, and each of their services seen by the failure as it was applied.
   */
  lemma ResumeMatchesServices(d: Document, id: string, commit: string, progress: AppProgress)
    requires ResumeLegacyForward(d, id, commit, progress).Written?
    ensures d.transactionId == progress.transactionId == id && d.targetCommit == progress.targetCommit == commit
    ensures d.phase.RollbackPreparing? && progress.migration.MigrationApplied? && d.failedForward.captured
    ensures forall i :: 0 <= i < |d.forward.workers| ==>
              (IsApplied(d.forward.workers[i]) <==> d.forward.workers[i].service in progress.attempted)
    ensures forall i :: 0 <= i < |d.forward.workers| && IsApplied(d.forward.workers[i]) ==>
              SeenAsApplied(d.failedForward.services, d.forward.workers[i])
  {
    hide LegacyAuthoritiesOk;
    hide LegacyWorkersOk;
    hide LegacyFailureOk;
    var services := d.failedForward.services;
    forall i | 0 <= i < |d.forward.workers| && IsApplied(d.forward.workers[i])
      ensures SeenAsApplied(services, d.forward.workers[i])
    {
      var w := d.forward.workers[i];
      var k := First(services, (s: ServiceIdentity) => s.name == w.service, 0);
      assert ServiceNamed(services, w.service).Some? && services[k].name == w.service;
    }
  }

  /** A legacy candidate is aborted only before any runtime worker was attempted or applied. */
  lemma LegacyAbortIsEarly(d: Document, reason: string, progress: Option<AppProgress>)
    requires NeedsLegacyCheck(d) && BeginAbort(d, reason, progress).Written?
    ensures progress.Some? && progress.value.transactionId == d.transactionId
    ensures forall s :: s in progress.value.attempted ==> s !in RUNTIME_SERVICES
    ensures forall i :: 0 <= i < |d.forward.workers| ==> d.forward.workers[i].stage.Prepared?
  {
    hide LegacyAuthoritiesOk;
    hide LegacyFailureOk;
    hide SetPhase;
    hide Remaining;
  }
}
