/**
 Steps of a transaction that are always accepted: the commands that run one pipeline job
 from its launch to its removal, together with the engine, and those that bring one worker
 to its last stage.
 */
module AdmissionSteps {
  import opened Common
  import opened AdmissionTypes
  import opened AdmissionValidator
  import opened AdmissionContext
  import opened AdmissionCommands
  import opened AdmissionJournal
  import opened AdmissionInvariant
  import opened AdmissionPipeline

  // ----- commands that are all accepted -----

  /** The command is accepted and leaves this document. */
  predicate Takes(d: Document, c: Command, n: Document) {
    Update(d, c) == Written(n) && Valid(n)
  }

  /** The document after commands that are all accepted and written; None when one is not. */
  function Played(d: Document, commands: seq<Command>): Option<Document>
    decreases |commands|
  {
    if commands == [] then Some(d)
    else
      var next := Update(d, commands[0]);
      if next.Written? && Valid(next.document) then Played(next.document, commands[1..]) else None
  }

  lemma {:induction false} PlayedThen(d: Document, first: seq<Command>, m: Document, second: seq<Command>)
    requires Played(d, first) == Some(m)
    ensures Played(d, first + second) == Played(m, second)
    decreases |first|
  {
    hide Update;
    hide Valid;
    if first == [] {
      assert first + second == second;
    } else {
      assert (first + second)[1..] == first[1..] + second;
      PlayedThen(Update(d, first[0]).document, first[1..], m, second);
    }
  }

  lemma PlayedMore(d: Document, commands: seq<Command>, m: Document, c: Command, n: Document)
    requires Played(d, commands) == Some(m) && Takes(m, c, n)
    ensures Played(d, commands + [c]) == Some(n)
  {
    hide Update;
    hide Valid;
    PlayedThen(d, commands, m, [c]);
    assert [c][1..] == [];
  }

  function Submissions(revision: nat, commands: seq<Command>): seq<Submission>
    decreases |commands|
  {
    if commands == [] then [] else [Submission(revision, commands[0])] + Submissions(revision + 1, commands[1..])
  }

  lemma {:induction false} PlayedRuns(j: Journal, commands: seq<Command>)
    requires Played(j.document, commands).Some?
    ensures Run(j, Submissions(j.revision, commands))
            == Journal(j.revision + |commands|, Played(j.document, commands).value)
    ensures |Submissions(j.revision, commands)| == |commands|
    ensures forall i :: 0 <= i < |commands| ==> Submissions(j.revision, commands)[i].command == commands[i]
    decreases |commands|
  {
    hide Update;
    hide Valid;
    if commands != [] {
      var n := Update(j.document, commands[0]).document;
      PlayedRuns(Journal(j.revision + 1, n), commands[1..]);
      assert Submissions(j.revision, commands)[1..] == Submissions(j.revision + 1, commands[1..]);
    }
  }

  lemma {:induction false} RunThen(j: Journal, first: seq<Submission>, second: seq<Submission>)
    ensures Run(j, first + second) == Run(Run(j, first), second)
    decreases |first|
  {
    hide After;
    if first == [] {
      assert first + second == second;
    } else {
      assert (first + second)[1..] == first[1..] + second;
      RunThen(After(j, first[0]), first[1..], second);
    }
  }

  // ----- putting traces together -----

  lemma {:induction false} TraceConcat(w: World, first: seq<Event>, second: seq<Event>)
    ensures Trace(w, first + second) == Trace(Trace(w, first), second)
    decreases |first|
  {
    hide Next;
    if first == [] {
      assert first + second == second;
    } else {
      assert (first + second)[1..] == first[1..] + second;
      TraceConcat(Next(w, first[0]), first[1..], second);
    }
  }

  lemma NoEvents(w: World)
    ensures Trace(w, []) == w
  {
    hide Next;
  }

  lemma TraceOne(w: World, e: Event)
    ensures Trace(w, [e]) == Next(w, e)
  {
    hide Next;
    assert [e][1..] == [];
  }

  lemma {:induction false} TraceInv(w: World, events: seq<Event>)
    requires Inv(w.journal.document)
    ensures Inv(Trace(w, events).journal.document)
    decreases |events|
  {
    hide Inv;
    hide Submit;
    hide EngineAgrees;
    hide Consumed;
    if events != [] {
      if events[0].Submitting? {
        AfterKeeps(w.journal, events[0].submission);
      }
      TraceInv(Next(w, events[0]), events[1..]);
    }
  }

  /** Submissions that are not about the pipeline run as in the journal alone. */
  lemma {:induction false} RunAsTrace(w: World, submissions: seq<Submission>) returns (events: seq<Event>)
    requires forall i :: 0 <= i < |submissions| ==> !submissions[i].command.OfPipeline?
    ensures Trace(w, events) == w.(journal := Run(w.journal, submissions))
    decreases |submissions|
  {
    hide Submit;
    if submissions == [] {
      events := [];
    } else {
      var e := Submitting(submissions[0]);
      assert Next(w, e) == w.(journal := After(w.journal, submissions[0]));
      var rest := RunAsTrace(Next(w, e), submissions[1..]);
      events := [e] + rest;
      assert events[1..] == rest;
    }
  }

  // ----- one command -----

  function Then(w: World, n: Document): World {
    w.(journal := Journal(w.journal.revision + 1, n))
  }

  lemma Do(w: World, c: Command, n: Document) returns (events: seq<Event>)
    requires Takes(w.journal.document, c, n) && EngineAgrees(w, c) && Consumed(c).None?
    ensures Trace(w, events) == Then(w, n)
  {
    hide Update;
    hide Valid;
    hide EngineAgrees;
    var e := Submitting(Submission(w.journal.revision, c));
    events := [e];
    TraceOne(w, e);
  }

  lemma DoMore(w: World, events: seq<Event>, c: Command, n: Document) returns (more: seq<Event>)
    requires var m := Trace(w, events); Takes(m.journal.document, c, n) && EngineAgrees(m, c) && Consumed(c).None?
    ensures Trace(w, more) == Then(Trace(w, events), n)
  {
    hide Takes;
    hide EngineAgrees;
    hide Consumed;
    hide Next;
    var last := Do(Trace(w, events), c, n);
    TraceConcat(w, events, last);
    more := events + last;
  }

  /** The events lead to this document and leave the engine as it was. */
  predicate Leads(w: World, events: seq<Event>, n: Document) {
    Trace(w, events) == w.(journal := Trace(w, events).journal) && Trace(w, events).journal.document == n
  }

  /** Accepted commands that are not about the pipeline run as in the journal alone. */
  lemma PlayedLeads(w: World, events: seq<Event>, m: Document, commands: seq<Command>, n: Document)
    returns (more: seq<Event>)
    requires Leads(w, events, m) && Played(m, commands) == Some(n)
    requires forall i :: 0 <= i < |commands| ==> !commands[i].OfPipeline?
    ensures Leads(w, more, n)
  {
    hide Played;
    hide Run;
    hide Trace;
    hide Submissions;
    var t := Trace(w, events);
    PlayedRuns(t.journal, commands);
    var rest := RunAsTrace(t, Submissions(t.journal.revision, commands));
    TraceConcat(w, events, rest);
    more := events + rest;
  }

  // ----- the pipeline record -----

  /** No rule outside the record looks at it. */
  lemma RegisteredChangeValid(d: Document, r: Registered)
    requires Valid(d) && RegisteredOk(Some(r))
    ensures Valid(WithRegistered(d, r))
  {
    hide RegisteredOk;
    hide BaselineOk;
    hide FailedForwardOk;
    hide ForwardOk;
    hide RollbackOk;
    hide AuthoritiesOk;
    hide PreparedSecretsOk;
    hide VisionJobsOk;
    hide RetirementsOk;
    hide SecretRefsOk;
    hide AbortAuthoritiesOk;
    hide AllVerified;
    hide IsRollbackAuthority;
    var n := WithRegistered(d, r);
    assert SameContext(d, n);
    AuthoritiesTransfer(d, n);
    SecretsDistinct(d);
    PreparedSecretsTransfer(d, n);
    forall a
      ensures IsRollbackAuthority(n, a) == IsRollbackAuthority(d, a)
    {
      RollbackAuthorityTransfers(d, n, a);
    }
  }

  /** An updater that only changes the record. */
  lemma PipelineTakes(d: Document, c: PipelineCommand, r: Registered)
    requires Valid(d) && UpdatePipeline(d, c) == Written(WithRegistered(d, r)) && RegisteredOk(Some(r))
    ensures Takes(d, OfPipeline(c), WithRegistered(d, r))
  {
    hide Valid;
    hide UpdatePipeline;
    hide RegisteredOk;
    RegisteredChangeValid(d, r);
    UpdateOfPipeline(d, OfPipeline(c));
    hide Update;
  }

  lemma ValidRegistered(d: Document)
    requires Valid(d)
    ensures RegisteredOk(d.registered)
  {
    hide RegisteredOk;
  }

  lemma PutOk(r: Registered, stage: JobStage, job: Job)
    requires RegisteredOk(Some(r)) && JobOk(Some(job))
    ensures RegisteredOk(Some(r.Put(stage, job)))
  {
    hide JobOk;
  }

  lemma PutAgain(r: Registered, stage: JobStage, a: Job, b: Job)
    ensures r.Put(stage, a).Put(stage, b) == r.Put(stage, b)
  {
  }

  // ----- one job -----

  /** The job after a clean run, and taken down. */
  function Ran(job: Job, service: string, task: string, result: JobResult): Job {
    job.(serviceId := Some(service), taskId := Some(task), exitCode := Some(0), state := JobRemoved,
         result := Some(result))
  }

  /** A pipeline command that replaces the job of one stage. */
  lemma JobTakes(d: Document, c: PipelineCommand, stage: JobStage, job: Job) returns (n: Document)
    requires Valid(d) && d.registered.Some? && JobOk(Some(job))
    requires UpdatePipeline(d, c) == Written(WithRegistered(d, d.registered.value.Put(stage, job)))
    ensures n == WithRegistered(d, d.registered.value.Put(stage, job)) && Takes(d, OfPipeline(c), n)
  {
    hide Valid;
    hide UpdatePipeline;
    n := WithRegistered(d, d.registered.value.Put(stage, job));
    ValidRegistered(d);
    PutOk(d.registered.value, stage, job);
    hide RegisteredOk;
    PipelineTakes(d, c, d.registered.value.Put(stage, job));
  }

  // ----- the commands of one job -----

  lemma Consumes(d: Document, stage: JobStage) returns (n: Document)
    requires Valid(d) && PipelineOpen(d) && d.registered.value.Get(stage).Some?
    requires d.registered.value.Get(stage).value.state.JobPlanned?
    ensures n == WithRegistered(d, d.registered.value.Put(stage,
                                                          d.registered.value.Get(stage).value.(state := JobLaunching)))
    ensures Takes(d, OfPipeline(CmdConsumeLaunch(stage)), n)
  {
    hide Valid;
    hide Update;
    ValidRegistered(d);
    n := JobTakes(d, CmdConsumeLaunch(stage), stage, d.registered.value.Get(stage).value.(state := JobLaunching));
  }

  lemma Binds(d: Document, stage: JobStage, job: Job, service: string) returns (n: Document)
    requires Valid(d) && d.registered.Some? && d.registered.value.Get(stage) == Some(job) && job.state.JobLaunching?
    ensures n == WithRegistered(d, d.registered.value.Put(stage, job.(serviceId := Some(service), state := JobCreated)))
    ensures Takes(d, OfPipeline(CmdBindLaunch(stage, job, service)), n)
  {
    hide Valid;
    hide Update;
    ValidRegistered(d);
    n := JobTakes(d, CmdBindLaunch(stage, job, service), stage, job.(serviceId := Some(service), state := JobCreated));
  }

  lemma Observes(d: Document, stage: JobStage, job: Job, service: string, task: string, result: JobResult)
    returns (n: Document)
    requires Valid(d) && d.registered.Some? && d.registered.value.Get(stage) == Some(job) && job.state.JobCreated?
    requires job.serviceId == Some(service) && job.taskId.None?
    ensures n == WithRegistered(d,
                                d.registered.value.Put(stage, Ran(job, service, task, result).(state := JobTerminal)))
    ensures Takes(d, OfPipeline(CmdObserveJob(stage, job, service, Some(task), Some(0), Some(result))), n)
  {
    hide Valid;
    hide Update;
    ValidRegistered(d);
    n := JobTakes(d, CmdObserveJob(stage, job, service, Some(task), Some(0), Some(result)), stage,
                  Ran(job, service, task, result).(state := JobTerminal));
  }

  lemma StartsRemoval(d: Document, stage: JobStage, job: Job) returns (n: Document)
    requires Valid(d) && d.registered.Some? && d.registered.value.Get(stage) == Some(job) && job.state.JobTerminal?
    ensures n == WithRegistered(d, d.registered.value.Put(stage, job.(state := JobRemoving)))
    ensures Takes(d, OfPipeline(CmdStartRemoval(stage, job)), n)
  {
    hide Valid;
    hide Update;
    ValidRegistered(d);
    n := JobTakes(d, CmdStartRemoval(stage, job), stage, job.(state := JobRemoving));
  }

  lemma Finishes(d: Document, stage: JobStage, job: Job) returns (n: Document)
    requires Valid(d) && d.registered.Some? && d.registered.value.Get(stage) == Some(job) && job.state.JobRemoving?
    ensures n == WithRegistered(d, d.registered.value.Put(stage, job.(state := JobRemoved)))
    ensures Takes(d, OfPipeline(CmdFinishRemoval(stage, job)), n)
  {
    hide Valid;
    hide Update;
    ValidRegistered(d);
    n := JobTakes(d, CmdFinishRemoval(stage, job), stage, job.(state := JobRemoved));
  }

  /** The launch is consumed and its service created. */
  lemma Launches(w: World, stage: JobStage, service: string) returns (events: seq<Event>)
    requires var d := w.journal.document;
             && Valid(d) && PipelineOpen(d) && d.registered.value.Get(stage).Some?
             && d.registered.value.Get(stage).value.state.JobPlanned?
    requires w.permits.Get(stage) == 0 && w.created.Get(stage) == 0 && w.alive.Get(stage) == 0
    ensures var d := w.journal.document;
            var n := WithRegistered(d, d.registered.value.Put(stage,
                                                              d.registered.value.Get(stage).value.(state :=
                                                                                                   JobLaunching)));
            Valid(n) && Trace(w, events)
                == Then(w, n).(created := w.created.Put(stage, 1), alive := w.alive.Put(stage, 1),
                               services := w.services.Put(stage, Service(service, None, None, None)))
  {
    hide Valid;
    hide Update;
    var d, c := w.journal.document, CmdConsumeLaunch(stage);
    var n := Consumes(d, stage);
    var e := Submitting(Submission(w.journal.revision, OfPipeline(c)));
    var w1 := Next(w, e);
    assert w1 == Then(w, n).(permits := w.permits.Put(stage, 1));
    var w2 := Next(w1, Creating(stage, service));
    assert w.permits.Put(stage, 1).Put(stage, 0) == w.permits;
    TraceOne(w, e);
    TraceOne(w1, Creating(stage, service));
    hide Next;
    TraceConcat(w, [e], [Creating(stage, service)]);
    events := [e] + [Creating(stage, service)];
  }

  /** The created service gets its task, which exits 0. */
  lemma TaskExits(w: World, stage: JobStage, service: string, task: string, result: JobResult)
    returns (events: seq<Event>)
    requires w.services.Get(stage) == Service(service, None, None, None)
    ensures Trace(w, events)
            == w.(services := w.services.Put(stage, Service(service, Some(task), Some(0), Some(result))))
  {
    var begin, end := Tasking(stage, task), Exiting(stage, 0, Some(result));
    TraceOne(w, begin);
    TraceOne(Next(w, begin), end);
    TraceConcat(w, [begin], [end]);
    hide Trace;
    events := [begin] + [end];
  }

  /** The service that exited 0 is bound, seen with its result, and its removal announced. */
  lemma Exits(w: World, stage: JobStage, service: string, task: string, result: JobResult) returns (events: seq<Event>)
    requires var d := w.journal.document;
             && Valid(d) && d.registered.Some? && d.registered.value.Get(stage).Some?
             && d.registered.value.Get(stage).value.state.JobLaunching?
             && d.registered.value.Get(stage).value.serviceId.None? && d.registered.value.Get(stage).value.taskId.None?
    requires w.created.Get(stage) == 1 && w.alive.Get(stage) == 1
    requires w.services.Get(stage) == Service(service, Some(task), Some(0), Some(result))
    ensures var d := w.journal.document;
            var job := Ran(d.registered.value.Get(stage).value, service, task, result).(state := JobRemoving);
            var n := WithRegistered(d, d.registered.value.Put(stage, job));
            Valid(n) && Leads(w, events, n)
  {
    hide Valid;
    hide Update;
    var d := w.journal.document;
    var r := d.registered.value;
    var job := r.Get(stage).value;
    var bound := job.(serviceId := Some(service), state := JobCreated);
    var seen := bound.(taskId := Some(task), exitCode := Some(0), state := JobTerminal, result := Some(result));
    var ending := seen.(state := JobRemoving);
    var bind, observe := CmdBindLaunch(stage, job, service),
        CmdObserveJob(stage, bound, service, Some(task), Some(0), Some(result));
    var start := CmdStartRemoval(stage, seen);
    var d1 := Binds(d, stage, job, service);
    var d2 := Observes(d1, stage, bound, service, task, result);
    var d3 := StartsRemoval(d2, stage, seen);
    PutAgain(r, stage, bound, seen);
    PutAgain(r, stage, seen, ending);
    events := Do(w, OfPipeline(bind), d1);
    events := DoMore(w, events, OfPipeline(observe), d2);
    events := DoMore(w, events, OfPipeline(start), d3);
    hide Trace;
  }

  /** A planned job runs to its end: one service created, seen to exit 0, removed. */
  lemma JobRuns(w: World, stage: JobStage, service: string, task: string, result: JobResult)
    returns (events: seq<Event>)
    requires var d := w.journal.document;
             && Valid(d) && PipelineOpen(d) && d.registered.value.Get(stage).Some?
             && var job := d.registered.value.Get(stage).value;
             && job.state.JobPlanned? && job.serviceId.None? && job.taskId.None?
    requires w.permits.Get(stage) == 0 && w.created.Get(stage) == 0 && w.alive.Get(stage) == 0
    ensures var d := w.journal.document;
            var n := WithRegistered(d, d.registered.value.Put(stage,
                                                              Ran(d.registered.value.Get(stage).value, service, task,
                                                                  result)));
            && Valid(n)
            && Trace(w, events).journal.document == n
            && Trace(w, events)
               == w.(journal := Trace(w, events).journal, created := w.created.Put(stage, 1),
                     services := w.services.Put(stage, Service(service, Some(task), Some(0), Some(result))))
  {
    hide Valid;
    hide Update;
    var d := w.journal.document;
    var r := d.registered.value;
    var job := r.Get(stage).value;
    var launch := Launches(w, stage, service);
    var work := TaskExits(Trace(w, launch), stage, service, task, result);
    TraceConcat(w, launch, work);
    launch := launch + work;
    var w1 := Trace(w, launch);
    var exit := Exits(w1, stage, service, task, result);
    var w2 := Trace(w1, exit);
    TraceConcat(w, launch, exit);
    hide Trace;
    var ending := Ran(job, service, task, result).(state := JobRemoving);
    PutAgain(r, stage, job.(state := JobLaunching), ending);
    assert w2.journal.document == WithRegistered(d, r.Put(stage, ending));
    var remove := Removing(stage);
    var w3 := Next(w2, remove);
    TraceOne(w2, remove);
    TraceConcat(w, launch + exit, [remove]);
    assert w.alive.Put(stage, 1).Put(stage, 0) == w.alive;
    var finish := CmdFinishRemoval(stage, ending);
    var n := Finishes(w3.journal.document, stage, ending);
    PutAgain(r, stage, ending, ending.(state := JobRemoved));
    events := DoMore(w, launch + exit + [remove], OfPipeline(finish), n);
  }

  // ----- workers -----

  predicate SamePlans(a: seq<Worker>, b: seq<Worker>) {
    |a| == |b| && forall i :: 0 <= i < |a| ==> SamePlan(a[i], b[i])
  }

  /** While the forward is applied no rollback control plane is in play, so only the workers themselves have to fit. */
  lemma ForwardChangeValid(d: Document, workers: seq<Worker>)
    requires Valid(d) && d.phase.ForwardApplying? && WorkersOk(workers)
    ensures Valid(WithWorkers(d, ForwardDirection, workers))
  {
    hide WorkersOk;
    hide RegisteredOk;
    hide BaselineOk;
    hide FailedForwardOk;
    hide RollbackOk;
    hide VisionJobsOk;
    hide RetirementsOk;
    hide AuthorityOk;
    hide AbortAuthoritiesOk;
    hide IsCutoverSecret;
    var n := WithWorkers(d, ForwardDirection, workers);
    forall a
      ensures !IsRollbackAuthority(d, a) && !IsRollbackAuthority(n, a)
    {
      assert RollbackControl(d).None? && RollbackControl(n).None?;
    }
    forall ref
      ensures PreparedSecretOk(n, ref) == PreparedSecretOk(d, ref)
    {
      NoRollbackSecret(d, n, ref);
    }
    hide IsRollbackAuthority;
    hide PreparedSecretOk;
    hide SecretRefsOk;
  }

  lemma NoRollbackSecret(d: Document, n: Document, ref: SecretRef)
    requires d.phase.ForwardApplying? && n == d.(forward := n.forward)
    ensures PreparedSecretOk(n, ref) == PreparedSecretOk(d, ref)
  {
    hide IsRollbackWorkerSecret;
    assert RollbackControl(d).None? && RollbackControl(n).None?;
    hide RollbackControl;
    forall a
      ensures Backs(n, a, ref) == Backs(d, a, ref)
    {
      assert !IsRollbackAuthority(d, a) && !IsRollbackAuthority(n, a);
    }
    hide Backs;
  }

  predicate IdIsFree(workers: seq<Worker>, i: nat, id: Option<string>) {
    id.Some? ==> forall j :: 0 <= j < |workers| && j != i ==> workers[j].dockerServiceId != id
  }

  lemma AdvancedOk(workers: seq<Worker>, i: nat, target: WorkerStage, service: Option<string>, digest: Option<string>)
    requires WorkersOk(workers) && i < |workers| && Successor(workers[i].stage) == Some(target)
    requires AdvancedWorker(workers[i], target, service, digest).Some? && IdIsFree(workers, i, service)
    ensures WorkersOk(workers[i := AdvancedWorker(workers[i], target, service, digest).value])
  {
    var w := AdvancedWorker(workers[i], target, service, digest).value;
    var next := workers[i := w];
    assert WorkerOk(workers[i]);
    assert w == workers[i].(stage := w.stage, dockerServiceId := w.dockerServiceId,
                            targetSpecDigest := w.targetSpecDigest);
    hide AdvancedWorker;
    forall a, b | 0 <= a < b < |next|
      ensures DistinctWorkers(next[a], next[b])
    {
      assert DistinctWorkers(workers[a], workers[b]);
    }
  }

  lemma AdvanceUpdates(d: Document, direction: Direction, i: nat, target: WorkerStage, service: Option<string>,
                       digest: Option<string>)
    requires WorkersOpen(d, direction) && d.operation.None? && WorkersOk(WorkersOf(d, direction))
    requires i < |WorkersOf(d, direction)|
    requires var w := WorkersOf(d, direction)[i];
             Successor(w.stage) == Some(target) && AdvancedWorker(w, target, service, digest).Some?
    ensures var w := WorkersOf(d, direction)[i];
            AdvanceWorkerStage(d, direction, w.service, w.generation, w.stage, target, service, digest)
            == Written(WithWorkers(d, direction,
                                   WorkersOf(d, direction)[i := AdvancedWorker(w, target, service, digest).value]))
  {
    hide AdvancedWorker;
    hide Sole;
    hide WithWorkers;
    hide WorkersOpen;
    var workers := WorkersOf(d, direction);
    var w := workers[i];
    assert forall j :: 0 <= j < i ==> DistinctWorkers(workers[j], w);
    assert forall j :: i < j < |workers| ==> DistinctWorkers(w, workers[j]);
    SoleIs(workers, (x: Worker) => IsWorker(x, w.service, w.generation), i);
    hide WorkersOk;
    hide WorkersOf;
  }

  lemma AdvanceIsPlan(d: Document, direction: Direction, service: string, generation: nat, from: WorkerStage,
                      to: WorkerStage,
                      id: Option<string>, digest: Option<string>)
    ensures Update(d, OfPlan(CmdAdvanceWorkerStage(direction, service, generation, from, to, id, digest)))
            == AdvanceWorkerStage(d, direction, service, generation, from, to, id, digest)
  {
    hide AdvanceWorkerStage;
  }

  lemma AdvanceTakes(d: Document, i: nat, target: WorkerStage, service: Option<string>, digest: Option<string>)
    returns (c: Command, n: Document)
    requires Valid(d) && d.phase.ForwardApplying? && d.operation.None? && i < |d.forward.workers|
    requires var workers := d.forward.workers;
             && Successor(workers[i].stage) == Some(target) && AdvancedWorker(workers[i], target, service, digest).Some?
             && IdIsFree(workers, i, service)
    ensures Takes(d, c, n) && !c.OfPipeline?
    ensures n == WithWorkers(d, ForwardDirection,
                             d.forward.workers[i := AdvancedWorker(d.forward.workers[i], target, service,
                                                                   digest).value])
  {
    hide Valid;
    hide Update;
    hide AdvanceWorkerStage;
    hide AdvancedWorker;
    var workers := d.forward.workers;
    var w := workers[i];
    ValidWorkers(d);
    AdvancedOk(workers, i, target, service, digest);
    hide WorkersOk;
    n := WithWorkers(d, ForwardDirection, workers[i := AdvancedWorker(w, target, service, digest).value]);
    ForwardChangeValid(d, workers[i := AdvancedWorker(w, target, service, digest).value]);
    AdvanceUpdates(d, ForwardDirection, i, target, service, digest);
    AdvanceIsPlan(d, ForwardDirection, w.service, w.generation, w.stage, target, service, digest);
    c := OfPlan(CmdAdvanceWorkerStage(ForwardDirection, w.service, w.generation, w.stage, target, service, digest));
  }

  lemma ValidWorkers(d: Document)
    requires Valid(d)
    ensures WorkersOk(d.forward.workers) && WorkersOk(d.rollback.workers)
  {
    hide WorkersOk;
  }

  // ----- one worker -----

  const DIGEST := "0000000000000000000000000000000000000000000000000000000000000000"

  function VerifiedAs(w: Worker, id: string): Worker {
    w.(stage := Verified, dockerServiceId := Some(id), targetSpecDigest := Some(DIGEST))
  }

  predicate NotApplied(w: Worker) {
    w.stage.Pending? || w.stage.Prepared?
  }

  lemma IdsComeLater(d: Document, i: nat)
    requires Valid(d) && i < |d.forward.workers| && NotApplied(d.forward.workers[i])
    ensures d.forward.workers[i].dockerServiceId.None? && d.forward.workers[i].targetSpecDigest.None?
  {
    ValidWorkers(d);
    hide Valid;
    assert WorkerOk(d.forward.workers[i]);
  }

  lemma NothingPlayed(d: Document)
    ensures Played(d, []) == Some(d)
  {
  }

  lemma WorkerPrepares(d: Document, i: nat) returns (commands: seq<Command>, n: Document)
    requires Valid(d) && d.phase.ForwardApplying? && d.operation.None? && i < |d.forward.workers|
    requires NotApplied(d.forward.workers[i])
    ensures Valid(n) && Played(d, commands) == Some(n) && forall k :: 0 <= k < |commands| ==> !commands[k].OfPipeline?
    ensures n == WithWorkers(d, ForwardDirection, d.forward.workers[i := d.forward.workers[i].(stage := Prepared)])
  {
    hide Valid;
    hide Update;
    hide Played;
    IdsComeLater(d, i);
    if d.forward.workers[i].stage.Pending? {
      var c;
      c, n := AdvanceTakes(d, i, Prepared, None, None);
      NothingPlayed(d);
      PlayedMore(d, [], d, c, n);
      commands := [] + [c];
    } else {
      NothingPlayed(d);
      commands, n := [], d;
      assert d.forward.workers[i := d.forward.workers[i]] == d.forward.workers;
    }
  }

  lemma WorkerApplies(d: Document, i: nat, id: string) returns (commands: seq<Command>, n: Document)
    requires Valid(d) && d.phase.ForwardApplying? && d.operation.None? && i < |d.forward.workers|
    requires d.forward.workers[i].stage.Prepared? && IdIsFree(d.forward.workers, i, Some(id))
    ensures Valid(n) && Played(d, commands) == Some(n) && forall k :: 0 <= k < |commands| ==> !commands[k].OfPipeline?
    ensures n == WithWorkers(d, ForwardDirection, d.forward.workers[i := VerifiedAs(d.forward.workers[i], id)])
  {
    hide Valid;
    hide Update;
    hide Played;
    IdsComeLater(d, i);
    var c, m := AdvanceTakes(d, i, Applied, Some(id), Some(DIGEST));
    NothingPlayed(d);
    PlayedMore(d, [], d, c, m);
    var c';
    c', n := AdvanceTakes(m, i, Verified, Some(id), Some(DIGEST));
    PlayedMore(d, [] + [c], m, c', n);
    commands := [] + [c] + [c'];
  }

  /** A worker that is not applied yet can be verified under a free service id. */
  lemma WorkerVerifies(d: Document, i: nat, id: string) returns (commands: seq<Command>, n: Document)
    requires Valid(d) && d.phase.ForwardApplying? && d.operation.None? && i < |d.forward.workers|
    requires NotApplied(d.forward.workers[i]) && IdIsFree(d.forward.workers, i, Some(id))
    ensures Valid(n) && Played(d, commands) == Some(n) && forall k :: 0 <= k < |commands| ==> !commands[k].OfPipeline?
    ensures n == WithWorkers(d, ForwardDirection, d.forward.workers[i := VerifiedAs(d.forward.workers[i], id)])
  {
    hide Valid;
    hide Played;
    var first, m := WorkerPrepares(d, i);
    var second;
    second, n := WorkerApplies(m, i, id);
    PlayedThen(d, first, m, second);
    commands := first + second;
  }
}
