/**
 The registered reconcile pipeline together with the engine that runs its services.
 A process that consumed a launch in the journal may create the service once, may die
 first, and others may act in between. What a command reports of a service is what the
 engine shows: its id, its task and its exit code are those of the service, which is observed
 only where it is alive and called gone only where it is not.
 */
module AdmissionPipeline {
  import opened Common
  import opened AdmissionTypes
  import opened AdmissionValidator
  import opened AdmissionCommands
  import opened AdmissionJournal
  import opened AdmissionInvariant

  /** A value for each stage. */
  datatype Tally<T> = Tally(baseline: T, current: T, run: T) {
    function Get(stage: JobStage): T {
      match stage
      case BaselineJob => baseline
      case CurrentJob => current
      case RunJob => run
    }

    function Put(stage: JobStage, n: T): (t: Tally<T>)
      ensures t.Get(stage) == n
      ensures forall other: JobStage :: other != stage ==> t.Get(other) == Get(other)
    {
      match stage
      case BaselineJob => this.(baseline := n)
      case CurrentJob => this.(current := n)
      case RunJob => this.(run := n)
    }
  }

  const NONE: Tally<nat> := Tally(0, 0, 0)

  /** What the engine keeps of a service it created: its one task, how that exited and what it left behind. */
  datatype Service =
    | NoService
    | Service(id: string, task: Option<string>, exit: Option<nat>, output: Option<JobResult>)

  /**
   The journal, the launches consumed whose process has yet to act, the services created so
   far and those alive, and what became of them.
   */
  datatype World = World(
    journal: Journal, permits: Tally<nat>, created: Tally<nat>, alive: Tally<nat>, services: Tally<Service>)

  datatype Event =
    | Submitting(submission: Submission)
    | Creating(stage: JobStage, id: string)
    | Tasking(stage: JobStage, task: string)
    | Exiting(stage: JobStage, code: nat, output: Option<JobResult>)
    | Dying(stage: JobStage)
    | Removing(stage: JobStage)

  /** The stage whose service a command reports to have seen. */
  function Observed(c: Command): Option<JobStage> {
    if !c.OfPipeline? then None
    else
      match c.pipelineCommand
      case CmdBindLaunch(stage, _, _) => Some(stage)
      case CmdObserveJob(stage, _, _, _, _, _) => Some(stage)
      case CmdDiscoverJob(stage, _, _) => Some(stage)
      case _ => None
  }

  /** The stage whose launch a command consumes. */
  function Consumed(c: Command): Option<JobStage> {
    if c.OfPipeline? && c.pipelineCommand.CmdConsumeLaunch? then Some(c.pipelineCommand.stage) else None
  }

  /** The engine has this service under this id. */
  predicate Named(s: Service, id: string) {
    s.Service? && s.id == id
  }

  /** What the engine must have answered before the command is submitted. */
  predicate EngineAgrees(w: World, c: Command) {
    c.OfPipeline? ==>
      match c.pipelineCommand
      case CmdBindLaunch(stage, _, id) => w.created.Get(stage) > 0 && Named(w.services.Get(stage), id)
      case CmdObserveJob(stage, _, id, task, code, result) =>
        var s := w.services.Get(stage);
        && w.alive.Get(stage) > 0 && Named(s, id) && task == s.task && code == s.exit
        && (result.Some? ==> result == s.output)
      case CmdDiscoverJob(stage, _, id) => w.alive.Get(stage) > 0 && Named(w.services.Get(stage), id)
      case CmdStartRemoval(stage, job) =>
        if job.serviceId.Some? then w.alive.Get(stage) > 0 else w.alive.Get(stage) == 0
      case CmdFinishRemoval(stage, _) => w.alive.Get(stage) == 0
      case _ => true
  }

  function Next(w: World, e: Event): World {
    match e
    case Submitting(s) =>
      var next := Submit(w.journal, s);
      var consumed := Consumed(s.command);
      if next.None? || !EngineAgrees(w, s.command) then w
      else if consumed.Some? then
        w.(journal := next.value, permits := w.permits.Put(consumed.value, w.permits.Get(consumed.value) + 1))
      else w.(journal := next.value)
    case Creating(stage, id) =>
      if w.permits.Get(stage) == 0 then w
      else w.(permits := w.permits.Put(stage, w.permits.Get(stage) - 1),
              created := w.created.Put(stage, w.created.Get(stage) + 1),
              alive := w.alive.Put(stage, w.alive.Get(stage) + 1),
              services := w.services.Put(stage, Service(id, None, None, None)))
    case Tasking(stage, task) =>
      var s := w.services.Get(stage);
      if s.NoService? || s.task.Some? then w else w.(services := w.services.Put(stage, s.(task := Some(task))))
    case Exiting(stage, code, output) =>
      var s := w.services.Get(stage);
      if s.NoService? || s.task.None? || s.exit.Some? then w
      else w.(services := w.services.Put(stage, s.(exit := Some(code), output := output)))
    case Dying(stage) =>
      if w.permits.Get(stage) == 0 then w else w.(permits := w.permits.Put(stage, w.permits.Get(stage) - 1))
    case Removing(stage) =>
      if w.alive.Get(stage) == 0 then w else w.(alive := w.alive.Put(stage, w.alive.Get(stage) - 1))
  }

  function Trace(w: World, events: seq<Event>): World
    decreases |events|
  {
    if events == [] then w else Trace(Next(w, events[0]), events[1..])
  }

  function Start(transactionId: string, targetCommit: string, namespace: string, kind: BaselineKind): World {
    World(Journal(0, Begin(transactionId, targetCommit, namespace, kind)), NONE, NONE, NONE,
          Tally(NoService, NoService, NoService))
  }

  // ----- what every update of the pipeline record keeps -----

  predicate Launched(r: Registered, stage: JobStage) {
    r.Get(stage).Some? && !r.Get(stage).value.state.JobPlanned?
  }

  predicate Exited(r: Registered, stage: JobStage) {
    r.Get(stage).Some? && r.Get(stage).value.exitCode.Some?
  }

  /** A later stage exists only after the one before it finished. */
  predicate InOrder(r: Registered) {
    && (r.current.Some? ==> Finished(r.baseline))
    && (r.run.Some? ==> Finished(r.current))
  }

  lemma OrderKept(d: Document, c: PipelineCommand)
    requires d.registered.Some? && InOrder(d.registered.value) && UpdatePipeline(d, c).Written?
    ensures UpdatePipeline(d, c).document.registered.Some?
    ensures InOrder(UpdatePipeline(d, c).document.registered.value)
  {
    hide OneBackendImage;
    hide CredentialsOk;
    hide ProgressAllowsBaseline;
  }

  lemma LaunchKept(d: Document, c: PipelineCommand, stage: JobStage)
    requires d.registered.Some? && UpdatePipeline(d, c).Written?
    ensures UpdatePipeline(d, c).document.registered.Some?
    ensures Launched(d.registered.value, stage) ==> Launched(UpdatePipeline(d, c).document.registered.value, stage)
    ensures Consumed(OfPipeline(c)) == Some(stage) ==>
              !Launched(d.registered.value, stage) && Launched(UpdatePipeline(d, c).document.registered.value, stage)
  {
    hide MayPrepareCapture;
    hide Finished;
    hide OneBackendImage;
    hide CredentialsOk;
    hide ProgressAllowsBaseline;
    if c.CmdPrepareCapture? {
      CaptureIsNew(d, c.stage, c.progress);
    }
  }

  lemma CaptureIsNew(d: Document, stage: JobStage, progress: AppProgress)
    requires MayPrepareCapture(d, stage, progress)
    ensures d.registered.Some? && d.registered.value.Get(stage).None?
  {
  }

  lemma ExitObserved(d: Document, c: PipelineCommand, stage: JobStage)
    requires d.registered.Some? && UpdatePipeline(d, c).Written?
    requires UpdatePipeline(d, c).document.registered.Some?
    requires Exited(UpdatePipeline(d, c).document.registered.value, stage)
    ensures var code := UpdatePipeline(d, c).document.registered.value.Get(stage).value.exitCode;
            || (Exited(d.registered.value, stage) && d.registered.value.Get(stage).value.exitCode == code)
            || (c.CmdObserveJob? && c.stage == stage && c.code == code)
    ensures Exited(d.registered.value, stage) || Observed(OfPipeline(c)) == Some(stage)
  {
    hide MayPrepareCapture;
    hide Finished;
  }

  /** The job is being taken down or is. */
  predicate Ending(r: Registered, stage: JobStage) {
    r.Get(stage).Some? && (r.Get(stage).value.state.JobRemoving? || r.Get(stage).value.state.JobRemoved?)
  }

  predicate Bound(r: Registered, stage: JobStage) {
    r.Get(stage).Some? && r.Get(stage).value.serviceId.Some?
  }

  lemma BoundObserved(d: Document, c: PipelineCommand, stage: JobStage)
    requires d.registered.Some? && UpdatePipeline(d, c).Written?
    requires UpdatePipeline(d, c).document.registered.Some?
    requires Bound(UpdatePipeline(d, c).document.registered.value, stage)
    ensures Bound(d.registered.value, stage) || Observed(OfPipeline(c)) == Some(stage)
  {
    hide MayPrepareCapture;
    hide Finished;
  }

  /** A removal starts from a job that was never launched, or whose service has been seen. */
  lemma EndingComes(d: Document, c: PipelineCommand, stage: JobStage)
    requires RegisteredOk(d.registered) && d.registered.Some? && UpdatePipeline(d, c).Written?
    requires UpdatePipeline(d, c).document.registered.Some?
    requires Ending(UpdatePipeline(d, c).document.registered.value, stage)
    ensures || Ending(d.registered.value, stage)
            || !Launched(d.registered.value, stage) || Bound(d.registered.value, stage)
                || Exited(d.registered.value, stage)
  {
    hide MayPrepareCapture;
    hide Finished;
    hide IntentRead;
    hide IntentPins;
    hide RemoveRegisteredSecret;
    if c.CmdIntentRead? || c.CmdIntentPins? || c.CmdRemoveSecret? {
      SecretsLeaveJobs(d, c, stage);
    }
  }

  lemma SecretsLeaveJobs(d: Document, c: PipelineCommand, stage: JobStage)
    requires c.CmdIntentRead? || c.CmdIntentPins? || c.CmdRemoveSecret?
    requires d.registered.Some? && UpdatePipeline(d, c).Written?
    ensures UpdatePipeline(d, c).document.registered.Some?
    ensures UpdatePipeline(d, c).document.registered.value.Get(stage) == d.registered.value.Get(stage)
  {
    hide Finished;
    hide JobsGone;
    hide BeforeApply;
  }

  lemma RemovedComes(d: Document, c: PipelineCommand, stage: JobStage)
    requires d.registered.Some? && UpdatePipeline(d, c).Written?
    requires UpdatePipeline(d, c).document.registered.Some?
    requires var j := UpdatePipeline(d, c).document.registered.value.Get(stage); j.Some? && j.value.state.JobRemoved?
    ensures || (d.registered.value.Get(stage).Some? && d.registered.value.Get(stage).value.state.JobRemoved?)
            || (c.CmdFinishRemoval? && c.stage == stage)
  {
    hide MayPrepareCapture;
    hide Finished;
  }

  // ----- the invariant over worlds -----

  predicate AtMostOnce(w: World, r: Registered, stage: JobStage) {
    && w.created.Get(stage) + w.permits.Get(stage) <= (if Launched(r, stage) then 1 else 0)
    && (Exited(r, stage) || Bound(r, stage) ==> w.created.Get(stage) >= 1)
    && w.alive.Get(stage) <= w.created.Get(stage)
    && (Ending(r, stage) ==> w.permits.Get(stage) == 0)
    && (r.Get(stage).Some? && r.Get(stage).value.state.JobRemoved? ==> w.alive.Get(stage) == 0)
  }

  /** What the journal says of a service is what the engine has; a result is kept only of one that exited 0. */
  predicate JobTrue(s: Service, j: Option<Job>) {
    j.Some? ==>
      && (j.value.serviceId.Some? ==> Named(s, j.value.serviceId.value))
      && (j.value.taskId.Some? ==> s.Service? && j.value.taskId == s.task)
      && (j.value.exitCode.Some? ==> s.Service? && j.value.exitCode == s.exit)
      && (j.value.result.Some? ==> s.Service? && j.value.exitCode == Some(0) && j.value.result == s.output)
  }

  /** The engine has a service exactly where one was created. */
  predicate RecordTrue(w: World, r: Registered, stage: JobStage) {
    && (w.created.Get(stage) > 0 <==> w.services.Get(stage).Service?)
    && JobTrue(w.services.Get(stage), r.Get(stage))
  }

  predicate Sound(w: World) {
    && Inv(w.journal.document)
    && w.journal.document.registered.Some?
    && var r := w.journal.document.registered.value;
       && InOrder(r)
       && (forall stage: JobStage :: AtMostOnce(w, r, stage) && RecordTrue(w, r, stage))
  }

  lemma RegisteredFrame(d: Document, c: Command)
    requires Update(d, c).Written? && !c.OfPipeline?
    ensures Update(d, c).document.registered == d.registered
  {
    hide UpdatePhase;
    hide UpdateOperation;
    hide UpdateResource;
    hide UpdatePlan;
    hide UpdateVision;
    match c {
      case OfPhase(p) => PhaseFrame(d, p);
      case OfOperation(o) => OperationFrame(d, o);
      case OfResource(r) => ResourceFrame(d, r);
      case OfPlan(p) => PlanFrame(d, p);
      case OfVision(v) => VisionFrame(d, v);
    }
  }

  lemma UpdateOfPipeline(d: Document, c: Command)
    ensures c.OfPipeline? ==> Update(d, c) == UpdatePipeline(d, c.pipelineCommand)
  {
    hide UpdatePipeline;
  }

  lemma InvRegistered(d: Document)
    requires Inv(d)
    ensures RegisteredOk(d.registered)
  {
    hide RegisteredOk;
  }

  lemma ConsumeWrites(d: Document, c: Command)
    requires Consumed(c).Some?
    ensures !Update(d, c).Unchanged?
  {
  }

  /** One stage through one written pipeline update. */
  lemma StageKeeps(w: World, n: World, c: PipelineCommand, stage: JobStage)
    requires w.journal.document.registered.Some? && AtMostOnce(w, w.journal.document.registered.value, stage)
    requires UpdatePipeline(w.journal.document, c).Written?
    requires n.journal.document == UpdatePipeline(w.journal.document, c).document
    requires n.created == w.created && n.alive == w.alive && RegisteredOk(w.journal.document.registered)
    requires n.permits.Get(stage) == w.permits.Get(stage) + (if Consumed(OfPipeline(c)) == Some(stage) then 1 else 0)
    requires EngineAgrees(w, OfPipeline(c))
    ensures n.journal.document.registered.Some? && AtMostOnce(n, n.journal.document.registered.value, stage)
  {
    var d, r := w.journal.document, n.journal.document.registered;
    assert Observed(OfPipeline(c)) == Some(stage) ==> w.alive.Get(stage) > 0 || w.created.Get(stage) > 0;
    assert c.CmdFinishRemoval? && c.stage == stage ==> w.alive.Get(stage) == 0;
    hide EngineAgrees;
    hide UpdatePipeline;
    hide Observed;
    hide RegisteredOk;
    LaunchKept(d, c, stage);
    hide Launched;
    hide Exited;
    hide Bound;
    hide Ending;
    if Exited(r.value, stage) {
      ExitObserved(d, c, stage);
    }
    if Bound(r.value, stage) {
      BoundObserved(d, c, stage);
    }
    if Ending(r.value, stage) {
      EndingComes(d, c, stage);
      LaunchedOnce(d, c, stage);
    }
    if r.value.Get(stage).Some? && r.value.Get(stage).value.state.JobRemoved? {
      RemovedComes(d, c, stage);
    }
  }

  /** No update makes up what the engine did not answer. */
  lemma TruthKept(w: World, c: PipelineCommand, stage: JobStage)
    requires var d := w.journal.document;
             d.registered.Some? && JobTrue(w.services.Get(stage), d.registered.value.Get(stage))
    requires UpdatePipeline(w.journal.document, c).Written? && EngineAgrees(w, OfPipeline(c))
    requires UpdatePipeline(w.journal.document, c).document.registered.Some?
    ensures JobTrue(w.services.Get(stage), UpdatePipeline(w.journal.document, c).document.registered.value.Get(stage))
  {
    hide MayPrepareCapture;
    hide Finished;
    hide IntentRead;
    hide IntentPins;
    hide RemoveRegisteredSecret;
    if c.CmdIntentRead? || c.CmdIntentPins? || c.CmdRemoveSecret? {
      SecretsLeaveJobs(w.journal.document, c, stage);
    }
  }

  /** A launch is not consumed by a job that is being taken down. */
  lemma LaunchedOnce(d: Document, c: PipelineCommand, stage: JobStage)
    requires d.registered.Some? && UpdatePipeline(d, c).Written? && UpdatePipeline(d, c).document.registered.Some?
    requires Ending(UpdatePipeline(d, c).document.registered.value, stage)
    ensures Consumed(OfPipeline(c)) != Some(stage)
  {
    hide MayPrepareCapture;
  }

  lemma SubmittingKeeps(w: World, s: Submission)
    requires Sound(w)
    ensures Sound(Next(w, Submitting(s)))
  {
    hide Inv;
    hide Update;
    hide UpdatePipeline;
    hide Valid;
    hide InOrder;
    hide AtMostOnce;
    hide JobTrue;
    hide EngineAgrees;
    hide Consumed;
    var d := w.journal.document;
    var n := Next(w, Submitting(s));
    AfterKeeps(w.journal, s);
    InvRegistered(d);
    hide RegisteredOk;
    if Consumed(s.command).Some? {
      ConsumeWrites(d, s.command);
    }
    if n != w {
      UpdateOfPipeline(d, s.command);
      if s.command.OfPipeline? {
        var c := s.command.pipelineCommand;
        OrderKept(d, c);
        forall stage: JobStage
          ensures AtMostOnce(n, n.journal.document.registered.value, stage)
          ensures RecordTrue(n, n.journal.document.registered.value, stage)
        {
          StageKeeps(w, n, c, stage);
          TruthKept(w, c, stage);
        }
      } else {
        RegisteredFrame(d, s.command);
        PlainCommand(s.command);
        forall stage: JobStage
          ensures AtMostOnce(n, n.journal.document.registered.value, stage)
          ensures RecordTrue(n, n.journal.document.registered.value, stage)
        {
          SameTally(w, n, d.registered.value, stage);
        }
      }
    }
  }

  lemma PlainCommand(c: Command)
    requires !c.OfPipeline?
    ensures Consumed(c).None?
  {
  }

  lemma SameTally(w: World, n: World, r: Registered, stage: JobStage)
    requires n.created == w.created && n.permits == w.permits && n.alive == w.alive
    ensures AtMostOnce(n, r, stage) <==> AtMostOnce(w, r, stage)
  {
  }

  /** A service is made where there was none, and then gets its task and its exit once. */
  lemma EngineTruth(w: World, e: Event, r: Registered, stage: JobStage)
    requires AtMostOnce(w, r, stage) && RecordTrue(w, r, stage) && !e.Submitting?
    ensures RecordTrue(Next(w, e), r, stage)
  {
    hide Launched;
    hide Ending;
  }

  lemma EngineCounts(w: World, e: Event, r: Registered, stage: JobStage)
    requires AtMostOnce(w, r, stage) && !e.Submitting?
    ensures AtMostOnce(Next(w, e), r, stage)
  {
    hide Launched;
    hide Exited;
    hide Bound;
  }

  lemma EngineKeeps(w: World, e: Event)
    requires Sound(w) && !e.Submitting?
    ensures Sound(Next(w, e))
  {
    hide Inv;
    hide InOrder;
    hide RecordTrue;
    hide AtMostOnce;
    var r := w.journal.document.registered.value;
    assert Next(w, e).journal == w.journal;
    hide Next;
    forall stage: JobStage
      ensures AtMostOnce(Next(w, e), r, stage) && RecordTrue(Next(w, e), r, stage)
    {
      EngineTruth(w, e, r, stage);
      EngineCounts(w, e, r, stage);
    }
  }

  lemma {:induction false} TraceKeeps(w: World, events: seq<Event>)
    requires Sound(w)
    ensures Sound(Trace(w, events))
    decreases |events|
  {
    hide Sound;
    hide Next;
    if events != [] {
      if events[0].Submitting? {
        SubmittingKeeps(w, events[0].submission);
      } else {
        EngineKeeps(w, events[0]);
      }
      TraceKeeps(Next(w, events[0]), events[1..]);
    }
  }

  lemma StartSound(transactionId: string, targetCommit: string, namespace: string, kind: BaselineKind)
    requires TransactionIdOk(transactionId)
    ensures Sound(Start(transactionId, targetCommit, namespace, kind))
  {
    hide Inv;
    BeginKeeps(transactionId, targetCommit, namespace, kind);
  }

  predicate ExitedZero(s: Service) {
    s.Service? && s.exit == Some(0)
  }

  /**
   From the beginning of a transaction, whatever is submitted and wherever processes
   die: no stage gets a second service; whatever the record says of a service is so, and
   a result is kept only of one that exited 0; a later stage's service exists only when the
   one before it ran once, really exited 0 and was removed; a verified or promoted forward
   passes the success gate with each of the three services created exactly once and exited 0;
   and where the record is clean, as in every phase but the applying one, no service is alive
   and none can still be created.
   */
  lemma CreatedOnceInOrder(transactionId: string, targetCommit: string, namespace: string, kind: BaselineKind,
                           events: seq<Event>)
    requires TransactionIdOk(transactionId)
    ensures var w := Trace(Start(transactionId, targetCommit, namespace, kind), events);
            var d := w.journal.document;
            && d.registered.Some?
            && w.created.baseline <= 1 && w.created.current <= 1 && w.created.run <= 1
            && (d.registered.value.current.Some? ==> Finished(d.registered.value.baseline) && w.created.baseline == 1)
            && (d.registered.value.run.Some? ==> Finished(d.registered.value.current) && w.created.current == 1)
            && (w.created.current == 1 ==> d.registered.value.current.Some?)
            && (w.created.run == 1 ==> d.registered.value.run.Some?)
            && (d.phase in FORWARD_MILESTONES ==> SuccessGate(d.registered) && w.created == Tally(1, 1, 1))
            && (CleanGate(d.registered) ==> w.alive == NONE && w.permits == NONE)
            && (!d.phase.ForwardApplying? ==> w.alive == NONE && w.permits == NONE)
            && (forall stage: JobStage :: JobTrue(w.services.Get(stage), d.registered.value.Get(stage)))
            && (d.registered.value.current.Some? ==> ExitedZero(w.services.baseline))
            && (d.registered.value.run.Some? ==> ExitedZero(w.services.current))
            && (d.phase in FORWARD_MILESTONES ==>
                  ExitedZero(w.services.baseline) && ExitedZero(w.services.current) && ExitedZero(w.services.run))
  {
    hide Trace;
    hide Begin;
    var start := Start(transactionId, targetCommit, namespace, kind);
    StartSound(transactionId, targetCommit, namespace, kind);
    TraceKeeps(start, events);
    SoundMeans(Trace(start, events));
  }

  lemma SoundMeans(w: World)
    requires Sound(w)
    ensures var d := w.journal.document;
            && w.created.baseline <= 1 && w.created.current <= 1 && w.created.run <= 1
            && (d.registered.value.current.Some? ==> Finished(d.registered.value.baseline) && w.created.baseline == 1)
            && (d.registered.value.run.Some? ==> Finished(d.registered.value.current) && w.created.current == 1)
            && (w.created.current == 1 ==> d.registered.value.current.Some?)
            && (w.created.run == 1 ==> d.registered.value.run.Some?)
            && (d.phase in FORWARD_MILESTONES ==> SuccessGate(d.registered) && w.created == Tally(1, 1, 1))
            && (CleanGate(d.registered) ==> w.alive == NONE && w.permits == NONE)
            && (!d.phase.ForwardApplying? ==> w.alive == NONE && w.permits == NONE)
            && (forall stage: JobStage :: JobTrue(w.services.Get(stage), d.registered.value.Get(stage)))
            && (d.registered.value.current.Some? ==> ExitedZero(w.services.baseline))
            && (d.registered.value.run.Some? ==> ExitedZero(w.services.current))
            && (d.phase in FORWARD_MILESTONES ==>
                  ExitedZero(w.services.baseline) && ExitedZero(w.services.current) && ExitedZero(w.services.run))
  {
    hide Valid;
    hide ReceiptOk;
    var r := w.journal.document.registered.value;
    assert AtMostOnce(w, r, BaselineJob) && AtMostOnce(w, r, CurrentJob) && AtMostOnce(w, r, RunJob);
    assert RecordTrue(w, r, BaselineJob) && RecordTrue(w, r, CurrentJob) && RecordTrue(w, r, RunJob);
    forall stage: JobStage
      ensures JobTrue(w.services.Get(stage), r.Get(stage))
    {
      assert RecordTrue(w, r, stage);
    }
  }

  // ----- identities of jobs and secrets -----

  predicate IdKept(before: Option<string>, after: Option<string>) {
    before.Some? ==> after == before
  }

  /** The same job under the same attempt, its service and task fixed once seen. */
  predicate JobKept(a: Option<Job>, b: Option<Job>) {
    a.Some? ==>
      && b.Some? && b.value.attemptId == a.value.attemptId && b.value.input == a.value.input
          && b.value.specName == a.value.specName
      && IdKept(a.value.serviceId, b.value.serviceId) && IdKept(a.value.taskId, b.value.taskId)
  }

  function SecretRank(state: SecretState): nat {
    match state
    case SecretCreating => 0
    case SecretPresent => 1
    case SecretRemoving => 2
    case SecretRemoved => 3
  }

  predicate SecretKept(a: Option<RegisteredSecret>, b: Option<RegisteredSecret>) {
    a.Some? ==>
      && b.Some? && b.value.name == a.value.name && b.value.sha == a.value.sha
      && IdKept(a.value.id, b.value.id) && SecretRank(a.value.state) <= SecretRank(b.value.state)
  }

  predicate RecordKept(r: Registered, n: Registered) {
    && JobKept(r.baseline, n.baseline) && JobKept(r.current, n.current) && JobKept(r.run, n.run)
    && SecretKept(r.pins, n.pins) && SecretKept(r.captureRead, n.captureRead)
  }

  predicate FreshJob(j: Option<Job>) {
    j.Some? && (j.value.state.JobPlanned? || j.value.state.JobLaunching?) ==>
        j.value.serviceId.None? && j.value.taskId.None?
  }

  predicate FreshSecret(s: Option<RegisteredSecret>) {
    s.Some? && s.value.state.SecretCreating? ==> s.value.id.None?
  }

  /** What is not created yet has no id yet. */
  predicate NothingSeenEarly(r: Registered) {
    FreshJob(r.baseline) && FreshJob(r.current) && FreshJob(r.run) && FreshSecret(r.pins) && FreshSecret(r.captureRead)
  }

  predicate OnSecrets(c: PipelineCommand) {
    c.CmdIntentRead? || c.CmdBindRead? || c.CmdIntentPins? || c.CmdBindPins? || c.CmdRemoveSecret?
  }

  lemma ReadIdentitiesKept(d: Document, c: PipelineCommand)
    requires d.registered.Some? && NothingSeenEarly(d.registered.value)
    requires c.CmdIntentRead? || c.CmdBindRead? || (c.CmdRemoveSecret? && !c.pinsSecret)
    requires UpdatePipeline(d, c).Written?
    ensures UpdatePipeline(d, c).document.registered.Some?
    ensures var r, n := d.registered.value, UpdatePipeline(d, c).document.registered.value;
            n == r.(captureRead := n.captureRead) && FreshSecret(n.captureRead)
                && SecretKept(r.captureRead, n.captureRead)
  {
    hide FreshJob;
    hide JobsGone;
    hide BeforeApply;
  }

  lemma PinIdentitiesKept(d: Document, c: PipelineCommand)
    requires d.registered.Some? && NothingSeenEarly(d.registered.value)
    requires c.CmdIntentPins? || c.CmdBindPins? || (c.CmdRemoveSecret? && c.pinsSecret)
    requires UpdatePipeline(d, c).Written?
    ensures UpdatePipeline(d, c).document.registered.Some?
    ensures var r, n := d.registered.value, UpdatePipeline(d, c).document.registered.value;
            && n == r.(pins := n.pins, current := n.current) && FreshSecret(n.pins) && SecretKept(r.pins, n.pins)
            && FreshJob(n.current) && JobKept(r.current, n.current)
  {
    hide JobsGone;
    hide Finished;
  }

  lemma SecretIdentitiesKept(d: Document, c: PipelineCommand)
    requires d.registered.Some? && NothingSeenEarly(d.registered.value) && OnSecrets(c) && UpdatePipeline(d, c).Written?
    ensures UpdatePipeline(d, c).document.registered.Some?
    ensures NothingSeenEarly(UpdatePipeline(d, c).document.registered.value)
    ensures RecordKept(d.registered.value, UpdatePipeline(d, c).document.registered.value)
  {
    hide UpdatePipeline;
    if c.CmdIntentRead? || c.CmdBindRead? || (c.CmdRemoveSecret? && !c.pinsSecret) {
      ReadIdentitiesKept(d, c);
    } else {
      PinIdentitiesKept(d, c);
    }
    hide FreshJob;
    hide FreshSecret;
  }

  /** Putting back a job that keeps its identity keeps the whole record's. */
  lemma PutKept(r: Registered, stage: JobStage, job: Job)
    requires NothingSeenEarly(r) && JobKept(r.Get(stage), Some(job)) && FreshJob(Some(job))
    ensures RecordKept(r, r.Put(stage, job)) && NothingSeenEarly(r.Put(stage, job))
  {
  }

  lemma FreshAt(r: Registered, stage: JobStage)
    requires NothingSeenEarly(r)
    ensures FreshJob(r.Get(stage))
  {
  }

  lemma JobIdentitiesKept(d: Document, c: PipelineCommand)
    requires d.registered.Some? && NothingSeenEarly(d.registered.value) && !OnSecrets(c)
    requires UpdatePipeline(d, c).Written?
    ensures UpdatePipeline(d, c).document.registered.Some?
    ensures NothingSeenEarly(UpdatePipeline(d, c).document.registered.value)
    ensures RecordKept(d.registered.value, UpdatePipeline(d, c).document.registered.value)
  {
    hide MayPrepareCapture;
    hide NothingSeenEarly;
    hide RecordKept;
    var r := d.registered.value;
    match c {
      case CmdPrepareCapture(stage, attemptId, input, specName, progress) =>
        CaptureIsNew(d, stage, progress);
        PutKept(r, stage, NewJob(attemptId, input, specName, None));
      case CmdPrepareRun(input, specName) =>
        PutKept(r, RunJob, NewJob(r.current.value.attemptId, input, specName, r.current.value.pinsSecretId));
      case CmdConsumeLaunch(stage) =>
        FreshAt(r, stage);
        PutKept(r, stage, r.Get(stage).value.(state := JobLaunching));
      case CmdBindLaunch(stage, job, serviceId) =>
        FreshAt(r, stage);
        PutKept(r, stage, job.(serviceId := Some(serviceId), state := JobCreated));
      case CmdObserveJob(stage, job, serviceId, taskId, code, result) =>
        FreshAt(r, stage);
        PutKept(r, stage, job.(serviceId := Some(serviceId), taskId := taskId, exitCode := code,
                               state := if code.None? then JobCreated else JobTerminal,
                               result := if code == Some(0) then result else job.result));
      case CmdDiscoverJob(stage, job, serviceId) =>
        PutKept(r, stage, job.(serviceId := Some(serviceId), state := JobCreated));
      case CmdStartRemoval(stage, job) =>
        PutKept(r, stage, job.(state := JobRemoving));
      case CmdFinishRemoval(stage, job) =>
        PutKept(r, stage, job.(state := JobRemoved));
      case _ =>
    }
  }

  lemma IdentitiesKept(d: Document, c: PipelineCommand)
    requires d.registered.Some? && NothingSeenEarly(d.registered.value) && UpdatePipeline(d, c).Written?
    ensures UpdatePipeline(d, c).document.registered.Some?
    ensures NothingSeenEarly(UpdatePipeline(d, c).document.registered.value)
    ensures RecordKept(d.registered.value, UpdatePipeline(d, c).document.registered.value)
  {
    hide UpdatePipeline;
    hide NothingSeenEarly;
    hide RecordKept;
    if OnSecrets(c) {
      SecretIdentitiesKept(d, c);
    } else {
      JobIdentitiesKept(d, c);
    }
  }

  lemma RecordKeptTransitive(a: Registered, b: Registered, c: Registered)
    requires RecordKept(a, b) && RecordKept(b, c)
    ensures RecordKept(a, c)
  {
  }

  lemma RecordKeptReflexive(r: Registered)
    ensures RecordKept(r, r)
  {
  }

  /** Over any run every job keeps its attempt, service and task, and every secret its name and id. */
  lemma {:induction false} PipelineIdentitiesKept(j: Journal, submissions: seq<Submission>)
    requires j.document.registered.Some? && NothingSeenEarly(j.document.registered.value)
    ensures var n := Run(j, submissions).document;
            n.registered.Some? && RecordKept(j.document.registered.value, n.registered.value)
    decreases |submissions|
  {
    hide Update;
    hide UpdatePipeline;
    hide Valid;
    hide RecordKept;
    hide NothingSeenEarly;
    RecordKeptReflexive(j.document.registered.value);
    if submissions != [] {
      var c := submissions[0].command;
      var next := After(j, submissions[0]);
      if Update(j.document, c).Written? {
        UpdateOfPipeline(j.document, c);
        if c.OfPipeline? {
          IdentitiesKept(j.document, c.pipelineCommand);
        } else {
          RegisteredFrame(j.document, c);
        }
      }
      PipelineIdentitiesKept(next, submissions[1..]);
      RecordKeptTransitive(j.document.registered.value, next.document.registered.value,
                           Run(next, submissions[1..]).document.registered.value);
    }
  }

  // ----- the captured credential outlives its jobs -----

  /** Once the read credential is removed, no capture job is left or will be made. */
  predicate ReaderOutlives(r: Registered) {
    r.captureRead.Some? && r.captureRead.value.state.SecretRemoved? ==> JobGone(r.baseline) && JobGone(r.current)
  }

  lemma ReaderKept(d: Document, c: PipelineCommand)
    requires d.registered.Some? && ReaderOutlives(d.registered.value) && UpdatePipeline(d, c).Written?
    ensures UpdatePipeline(d, c).document.registered.Some?
    ensures ReaderOutlives(UpdatePipeline(d, c).document.registered.value)
  {
    hide OneBackendImage;
    hide CredentialsOk;
    hide ProgressAllowsBaseline;
    hide AllVerified;
    hide BeforeApply;
    hide Finished;
  }

  lemma {:induction false} ReaderOutlivesCaptures(j: Journal, submissions: seq<Submission>)
    requires j.document.registered.Some? && ReaderOutlives(j.document.registered.value)
    ensures var n := Run(j, submissions).document; n.registered.Some? && ReaderOutlives(n.registered.value)
    decreases |submissions|
  {
    hide Update;
    hide UpdatePipeline;
    hide Valid;
    hide ReaderOutlives;
    if submissions != [] {
      var c := submissions[0].command;
      if Update(j.document, c).Written? {
        UpdateOfPipeline(j.document, c);
        if c.OfPipeline? {
          ReaderKept(j.document, c.pipelineCommand);
        } else {
          RegisteredFrame(j.document, c);
        }
      }
      ReaderOutlivesCaptures(After(j, submissions[0]), submissions[1..]);
    }
  }
}
