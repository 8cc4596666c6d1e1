/**
 Captures, selections and worker plans are written once. Over any run what was
 recorded stays, worker stages only rise, and repeating an accepted command later
 changes nothing, not even the revision.
 */
module AdmissionWriteOnce {
  import opened Common
  import opened AdmissionTypes
  import opened AdmissionValidator
  import opened AdmissionCommands
  import opened AdmissionJournal
  import opened AdmissionInvariant

  predicate Kept<T(==)>(before: Option<T>, after: Option<T>) {
    before.Some? ==> after == before
  }

  /** The same planned worker, no stage lost, and its service and spec fixed once known. */
  predicate WorkerLater(a: Worker, b: Worker) {
    && SamePlan(a, b)
    && StageRank(a.stage) <= StageRank(b.stage)
    && Kept(a.dockerServiceId, b.dockerServiceId)
    && Kept(a.targetSpecDigest, b.targetSpecDigest)
  }

  predicate WorkersLater(a: seq<Worker>, b: seq<Worker>) {
    |a| <= |b| && forall i :: 0 <= i < |a| ==> WorkerLater(a[i], b[i])
  }

  function AuthorityRank(state: AuthorityState): nat {
    match state
    case Planned => 0
    case Provisioning => 1
    case Provisioned => 2
    case Revoked => 3
  }

  /** The same authority, at least as far provisioned or revoked. */
  predicate AuthorityLater(a: Authority, b: Authority) {
    b == a.(state := b.state) && AuthorityRank(a.state) <= AuthorityRank(b.state)
  }

  predicate AuthoritiesLater(a: seq<Authority>, b: seq<Authority>) {
    |a| <= |b| && forall i :: 0 <= i < |a| ==> AuthorityLater(a[i], b[i])
  }

  function VisionRank(state: VisionState): nat {
    match state
    case VisionPlanned => 0
    case VisionCreated => 1
    case VisionTerminal => 2
    case VisionRemoved => 3
  }

  /**
   The same job, no state lost, its service fixed once known, its exit code once terminal unless
   an abort removes it.
   */
  predicate JobLater(a: VisionJob, b: VisionJob) {
    && SameVisionPlan(a, b) && VisionRank(a.state) <= VisionRank(b.state) && Kept(a.dockerServiceId, b.dockerServiceId)
    && (a.state.VisionTerminal? || a.state.VisionRemoved? ==>
          Kept(a.exitCode, b.exitCode) || (b.state.VisionRemoved? && b.exitCode == Some(255)))
  }

  predicate JobsLater(a: seq<VisionJob>, b: seq<VisionJob>) {
    |a| <= |b| && forall i :: 0 <= i < |a| ==> JobLater(a[i], b[i])
  }

  predicate ForwardLater(a: Forward, b: Forward) {
    && b.namespace == a.namespace && Kept(a.control, b.control) && Kept(a.marker, b.marker)
    && WorkersLater(a.workers, b.workers)
  }

  predicate RollbackLater(a: Rollback, b: Rollback) {
    && a.attempt <= b.attempt
    && (a.attempt > 0 ==>
          b.attempt == a.attempt && b.namespace == a.namespace && b.markerGeneration == a.markerGeneration)
    && Kept(a.control, b.control) && Kept(a.marker, b.marker)
    && WorkersLater(a.workers, b.workers)
  }

  /** What was recorded once is still recorded. */
  predicate Later(d: Document, n: Document) {
    && n.transactionId == d.transactionId && n.targetCommit == d.targetCommit
    && n.baseline.kind == d.baseline.kind
    && (d.baseline.captured ==> n.baseline == d.baseline)
    && (d.failedForward.captured ==> n.failedForward == d.failedForward)
    && ForwardLater(d.forward, n.forward)
    && RollbackLater(d.rollback, n.rollback)
    && (forall role :: role in d.runtimeRedis ==>
        role in n.runtimeRedis && n.runtimeRedis[role] == d.runtimeRedis[role])
    && AuthoritiesLater(d.authorities, n.authorities)
    && JobsLater(d.visionJobs, n.visionJobs)
  }

  lemma LaterIsTransitive(a: Document, b: Document, c: Document)
    requires Later(a, b) && Later(b, c)
    ensures Later(a, c)
  {
  }

  // ----- one update -----

  lemma AppendedLater(workers: seq<Worker>, plan: Worker)
    ensures WorkersLater(workers, workers + [plan])
  {
  }

  lemma AdvancedLater(workers: seq<Worker>, i: nat, target: WorkerStage, serviceId: Option<string>,
                      digest: Option<string>)
    requires i < |workers| && StageRank(workers[i].stage) < StageRank(target)
    requires AdvancedWorker(workers[i], target, serviceId, digest).Some?
    ensures WorkersLater(workers, workers[i := AdvancedWorker(workers[i], target, serviceId, digest).value])
  {
  }

  lemma SameLater(workers: seq<Worker>)
    ensures WorkersLater(workers, workers)
  {
  }

  lemma SameAuthorities(authorities: seq<Authority>)
    ensures AuthoritiesLater(authorities, authorities)
  {
  }

  lemma SameJobs(jobs: seq<VisionJob>)
    ensures JobsLater(jobs, jobs)
  {
  }

  lemma PlanLater(d: Document, c: PlanCommand)
    requires UpdatePlan(d, c).Written?
    ensures Later(d, UpdatePlan(d, c).document)
  {
    hide WorkersLater;
    hide AuthoritiesLater;
    hide JobsLater;
    SameAuthorities(d.authorities);
    SameJobs(d.visionJobs);
    hide WorkerOk;
    hide ControlOk;
    hide MarkerOk;
    hide ServiceIdentitiesOk;
    hide AdvancedWorker;
    hide AllocatedNamespace;
    hide AllocatedMarker;
    SameLater(d.forward.workers);
    SameLater(d.rollback.workers);
    match c {
      case CmdRecordWorkerPlan(direction, plan) =>
        AppendedLater(WorkersOf(d, direction), plan);
      case CmdAdvanceWorkerStage(direction, service, generation, expected, target, serviceId, digest) =>
        var only := Sole(WorkersOf(d, direction), (w: Worker) => IsWorker(w, service, generation));
        AdvancedLater(WorkersOf(d, direction), only.value, target, serviceId, digest);
      case _ =>
    }
  }

  lemma OperationLater(d: Document, c: OperationCommand)
    requires UpdateOperation(d, c).Written?
    ensures AuthoritiesLater(d.authorities, UpdateOperation(d, c).document.authorities)
  {
    hide Without;
  }

  lemma VisionLater(d: Document, c: VisionCommand)
    requires UpdateVision(d, c).Written?
    ensures JobsLater(d.visionJobs, UpdateVision(d, c).document.visionJobs)
  {
    hide JobsLater;
    hide DropSecret;
    hide VisionPurpose;
    hide VisionRole;
    hide Sole;
    var jobs := d.visionJobs;
    SameJobs(jobs);
    var only := Sole(jobs, (j: VisionJob) => j.mode == c.mode);
    var later := UpdateVision(d, c).document.visionJobs;
    if c.CmdPrepareVisionJob? {
      if later != jobs {
        AddedJobLater(jobs, later[|jobs|]);
      }
    } else if later != jobs {
      ChangedJobLater(jobs, only.value, later[only.value]);
    }
  }

  lemma AddedJobLater(jobs: seq<VisionJob>, job: VisionJob)
    ensures JobsLater(jobs, jobs + [job])
  {
  }

  lemma ChangedJobLater(jobs: seq<VisionJob>, i: nat, job: VisionJob)
    requires i < |jobs| && JobLater(jobs[i], job)
    ensures JobsLater(jobs, jobs[i := job])
  {
  }

  lemma ResourceLater(d: Document, c: ResourceCommand)
    requires UpdateResource(d, c).Written?
    ensures AuthoritiesLater(d.authorities, UpdateResource(d, c).document.authorities)
    ensures forall i :: 0 <= i < |d.authorities| ==>
              AuthorityRank(UpdateResource(d, c).document.authorities[i].state) <= AuthorityRank(d.authorities[i].state)
                  + 1
    ensures forall role :: role in d.runtimeRedis ==>
              role in UpdateResource(d, c).document.runtimeRedis
              && UpdateResource(d, c).document.runtimeRedis[role] == d.runtimeRedis[role]
  {
  }

  lemma UpdateLater(d: Document, c: Command)
    requires Update(d, c).Written?
    ensures Later(d, Update(d, c).document)
  {
    hide UpdatePhase;
    hide UpdateOperation;
    hide UpdateResource;
    hide UpdatePlan;
    hide UpdateVision;
    hide UpdatePipeline;
    hide WorkersLater;
    hide AuthoritiesLater;
    hide JobsLater;
    SameLater(d.forward.workers);
    SameLater(d.rollback.workers);
    SameAuthorities(d.authorities);
    SameJobs(d.visionJobs);
    match c {
      case OfPhase(p) => PhaseFrame(d, p);
      case OfOperation(o) =>
        OperationFrame(d, o);
        OperationLater(d, o);
      case OfResource(r) =>
        ResourceFrame(d, r);
        ResourceLater(d, r);
      case OfPlan(p) => PlanLater(d, p);
      case OfVision(v) =>
        VisionFrame(d, v);
        VisionLater(d, v);
      case OfPipeline(p) => PipelineFrame(d, p);
    }
  }

  lemma LaterIsReflexive(d: Document)
    ensures Later(d, d)
  {
  }

  /** Over any run: identities once set never change and worker stages only rise. */
  lemma {:induction false} RunLater(j: Journal, submissions: seq<Submission>)
    ensures Later(j.document, Run(j, submissions).document)
    decreases |submissions|
  {
    hide Later;
    hide Update;
    hide Valid;
    LaterIsReflexive(j.document);
    if submissions != [] {
      var next := After(j, submissions[0]);
      if Update(j.document, submissions[0].command).Written? {
        UpdateLater(j.document, submissions[0].command);
      }
      RunLater(next, submissions[1..]);
      LaterIsTransitive(j.document, next.document, Run(next, submissions[1..]).document);
    }
  }

  // ----- replays -----

  /** The phases in which a plan command is open at all. */
  predicate PlanOpen(d: Document, c: PlanCommand) {
    && d.operation.None?
    && match c
       case CmdCaptureBaseline(_, _, _) => d.phase.Preparing?
       case CmdCaptureFailedForward(_, _) => d.phase.Preparing? || d.phase.ForwardApplying?
       case CmdAllocateRollback => d.phase.RollbackPreparing?
       case CmdRecordControl(direction, _) => DirectionOpen(d, direction)
       case CmdRecordMarker(direction, _) => DirectionOpen(d, direction)
       case CmdRecordWorkerPlan(direction, _) => DirectionOpen(d, direction)
       case CmdAdvanceWorkerStage(direction, _, _, _, _, _, _) => DirectionOpen(d, direction)
  }

  lemma ReplayCapture(d: Document, c: PlanCommand, later: Document)
    requires !c.CmdRecordWorkerPlan? && !c.CmdAdvanceWorkerStage?
    requires !UpdatePlan(d, c).Refused?
    requires Later(if UpdatePlan(d, c).Written? then UpdatePlan(d, c).document else d, later)
    ensures UpdatePlan(later, c) == if PlanOpen(later, c) then Unchanged else Refused
  {
    hide WorkersLater;
    hide ControlOk;
    hide MarkerOk;
    hide ServiceIdentitiesOk;
    hide AllocatedNamespace;
    hide AllocatedMarker;
  }

  lemma SoleWorker(workers: seq<Worker>, i: nat, service: string, generation: nat)
    requires WorkersOk(workers) && i < |workers| && IsWorker(workers[i], service, generation)
    ensures Sole(workers, (w: Worker) => IsWorker(w, service, generation)) == Some(i)
  {
    hide WorkerOk;
    hide DisjointSecrets;
    hide Sole;
    assert forall j :: 0 <= j < i ==> DistinctWorkers(workers[j], workers[i]);
    assert forall j :: i < j < |workers| ==> DistinctWorkers(workers[i], workers[j]);
    SoleIs(workers, (w: Worker) => IsWorker(w, service, generation), i);
  }

  predicate PlanAt(workers: seq<Worker>, i: nat, plan: Worker) {
    i < |workers| && SamePlan(workers[i], plan)
  }

  /** The document an updater leaves: its own when it writes one, else the old one. */
  function DocumentAfter(d: Document, u: UpdateResult): Document {
    if u.Written? then u.document else d
  }

  lemma PlanIsRecorded(d: Document, direction: Direction, plan: Worker) returns (i: nat)
    requires !RecordWorkerPlan(d, direction, plan).Refused?
    ensures PlanAt(WorkersOf(DocumentAfter(d, RecordWorkerPlan(d, direction, plan)), direction), i, plan)
    ensures direction.RollbackDirection? ==> DocumentAfter(d, RecordWorkerPlan(d, direction, plan)).rollback.attempt > 0
  {
    hide WorkerOk;
    hide SamePlan;
    hide IsWorker;
    var workers := WorkersOf(d, direction);
    if RecordWorkerPlan(d, direction, plan).Written? {
      i := |workers|;
      assert SamePlan(plan, plan) by { SamePlanReflexive(plan); }
    } else {
      i := Sole(workers, (w: Worker) => IsWorker(w, plan.service, plan.generation)).value;
    }
  }

  lemma SamePlanReflexive(plan: Worker)
    ensures SamePlan(plan, plan)
  {
  }

  /** Recording the plan of a recorded worker again changes nothing. */
  lemma ReplayPlan(later: Document, direction: Direction, plan: Worker, i: nat)
    requires plan.stage.Pending? && plan.dockerServiceId.None? && WorkerOk(plan)
    requires WorkersOk(WorkersOf(later, direction)) && PlanAt(WorkersOf(later, direction), i, plan)
    requires direction.RollbackDirection? ==> later.rollback.attempt > 0
    ensures RecordWorkerPlan(later, direction, plan)
            == if PlanOpen(later, CmdRecordWorkerPlan(direction, plan)) then Unchanged else Refused
  {
    hide WorkerOk;
    hide WorkersOk;
    hide Sole;
    assert IsWorker(WorkersOf(later, direction)[i], plan.service, plan.generation);
    SoleWorker(WorkersOf(later, direction), i, plan.service, plan.generation);
  }

  /** The worker at `i` has reached `target` with the ids the caller names. */
  predicate StageAt(workers: seq<Worker>, i: nat, service: string, generation: nat,
                    target: WorkerStage, serviceId: Option<string>, digest: Option<string>)
  {
    && i < |workers| && IsWorker(workers[i], service, generation)
    && StageRank(workers[i].stage) >= StageRank(target)
    && if target.Prepared? then serviceId.None? && digest.None?
       else workers[i].dockerServiceId == serviceId && workers[i].targetSpecDigest == digest
            && serviceId.Some? && digest.Some?
  }

  lemma StageIsRecorded(d: Document, direction: Direction, service: string, generation: nat, expected: WorkerStage,
                        target: WorkerStage, serviceId: Option<string>, digest: Option<string>) returns (i: nat)
    requires WorkersOk(WorkersOf(d, direction))
    requires !AdvanceWorkerStage(d, direction, service, generation, expected, target, serviceId, digest).Refused?
    ensures StageAt(WorkersOf(DocumentAfter(d,
                                            AdvanceWorkerStage(d, direction, service, generation, expected, target,
                                                               serviceId, digest)),
                              direction),
                    i, service, generation, target, serviceId, digest)
  {
    hide DistinctWorkers;
    hide DisjointSecrets;
    var workers := WorkersOf(d, direction);
    i := Sole(workers, (w: Worker) => IsWorker(w, service, generation)).value;
    assert WorkerOk(workers[i]);
  }

  lemma ReplayStage(later: Document, direction: Direction, service: string, generation: nat, expected: WorkerStage,
                    target: WorkerStage, serviceId: Option<string>, digest: Option<string>, i: nat)
    requires Successor(expected) == Some(target)
    requires WorkersOk(WorkersOf(later, direction))
    requires StageAt(WorkersOf(later, direction), i, service, generation, target, serviceId, digest)
    requires direction.RollbackDirection? ==> later.rollback.attempt > 0
    ensures AdvanceWorkerStage(later, direction, service, generation, expected, target, serviceId, digest)
            == if later.operation.None? && DirectionOpen(later, direction) then Unchanged else Refused
  {
    hide WorkersOk;
    hide Sole;
    hide AdvancedWorker;
    SoleWorker(WorkersOf(later, direction), i, service, generation);
  }

  lemma LaterPlan(d: Document, later: Document, direction: Direction, i: nat, plan: Worker)
    requires Later(d, later) && PlanAt(WorkersOf(d, direction), i, plan)
    ensures PlanAt(WorkersOf(later, direction), i, plan)
  {
    assert WorkerLater(WorkersOf(d, direction)[i], WorkersOf(later, direction)[i]);
  }

  lemma LaterStage(d: Document, later: Document, direction: Direction, i: nat, service: string, generation: nat,
                   target: WorkerStage, serviceId: Option<string>, digest: Option<string>)
    requires Later(d, later) && StageAt(WorkersOf(d, direction), i, service, generation, target, serviceId, digest)
    ensures StageAt(WorkersOf(later, direction), i, service, generation, target, serviceId, digest)
  {
    assert WorkerLater(WorkersOf(d, direction)[i], WorkersOf(later, direction)[i]);
  }

  lemma ValidWorkers(d: Document, direction: Direction)
    requires Valid(d)
    ensures WorkersOk(WorkersOf(d, direction))
  {
    hide WorkersOk;
  }

  lemma WorkersOpenLater(d: Document, c: PlanCommand)
    requires c.CmdRecordWorkerPlan? || c.CmdAdvanceWorkerStage?
    requires !UpdatePlan(d, c).Refused?
    ensures c.direction.RollbackDirection? ==> DocumentAfter(d, UpdatePlan(d, c)).rollback.attempt > 0
  {
    hide WorkerOk;
    hide AdvancedWorker;
    hide Sole;
  }

  /** A command the journal took once is, in any later document, a repetition or not open. */
  lemma ReplayUpdate(d: Document, c: PlanCommand, later: Document)
    requires Valid(d) && Valid(later)
    requires !UpdatePlan(d, c).Refused?
    requires Later(DocumentAfter(d, UpdatePlan(d, c)), later)
    ensures UpdatePlan(later, c) == if PlanOpen(later, c) then Unchanged else Refused
  {
    hide Valid;
    match c {
      case CmdRecordWorkerPlan(direction, plan) =>
        hide WorkersLater;
        hide WorkersOk;
        hide PlanAt;
        WorkersOpenLater(d, c);
        ValidWorkers(later, direction);
        var i := PlanIsRecorded(d, direction, plan);
        LaterPlan(DocumentAfter(d, UpdatePlan(d, c)), later, direction, i, plan);
        ReplayPlan(later, direction, plan, i);
      case CmdAdvanceWorkerStage(direction, service, generation, expected, target, serviceId, digest) =>
        hide WorkersLater;
        hide WorkersOk;
        hide StageAt;
        WorkersOpenLater(d, c);
        ValidWorkers(d, direction);
        ValidWorkers(later, direction);
        var i := StageIsRecorded(d, direction, service, generation, expected, target, serviceId, digest);
        LaterStage(DocumentAfter(d, UpdatePlan(d, c)), later, direction, i, service, generation, target, serviceId,
                   digest);
        ReplayStage(later, direction, service, generation, expected, target, serviceId, digest, i);
      case _ =>
        ReplayCapture(d, c, later);
    }
  }

  /**
   Submitting an accepted capture, allocation, selection, worker plan or stage again,
   however much has happened since, is accepted exactly where such commands are open,
   and then returns the journal as it stands, revision included.
   */
  lemma ReplayIsNoOp(j: Journal, c: PlanCommand, submissions: seq<Submission>)
    requires Inv(j.document)
    requires Submit(j, Submission(j.revision, OfPlan(c))).Some?
    ensures var now := Run(Submit(j, Submission(j.revision, OfPlan(c))).value, submissions);
            Submit(now, Submission(now.revision, OfPlan(c))) == if PlanOpen(now.document, c) then Some(now) else None
  {
    hide Valid;
    hide Later;
    hide PlanOpen;
    hide UpdatePlan;
    hide UpdatePhase;
    hide UpdateOperation;
    hide UpdateResource;
    hide UpdateVision;
    hide UpdatePipeline;
    var s := Submission(j.revision, OfPlan(c));
    var once := Submit(j, s).value;
    assert once.document == DocumentAfter(j.document, UpdatePlan(j.document, c));
    var now := Run(once, submissions);
    RunLater(once, submissions);
    AfterKeeps(j, s);
    RunKeeps(once, submissions);
    ReplayUpdate(j.document, c, now.document);
  }
}
