/**
 The journal as the program holds it: a file with a revision, and a draft that an
 updater changes in place before the file is replaced. Each method is tied to the
 specification function of its command.
 */
module AdmissionFile {
  import opened Common
  import opened AdmissionTypes
  import opened AdmissionValidator
  import opened AdmissionCommands
  import opened AdmissionJournal
  import opened AdmissionInvariant

  /** The positions of the elements that satisfy `p`; one of them exactly when there is a sole match. */
  method Matches<T>(s: seq<T>, p: T -> bool) returns (found: seq<nat>)
    ensures forall i :: i in found <==> 0 <= i < |s| && p(s[i])
    ensures |found| == 1 <==> Sole(s, p).Some?
    ensures |found| == 1 ==> Sole(s, p) == Some(found[0])
  {
    found := [];
    for i := 0 to |s|
      invariant forall k :: k in found <==> 0 <= k < i && p(s[k])
      invariant forall a :: 0 <= a < |found| ==> found[a] < i && p(s[found[a]])
      invariant forall a, b :: 0 <= a < b < |found| ==> found[a] < found[b]
    {
      if p(s[i]) {
        found := found + [i];
      }
    }
    if |found| == 1 {
      SoleIs(s, p, found[0]);
    } else if |found| > 1 {
      assert found[0] in found && found[1] in found;
    }
  }

  /** Rebuilds the list without the elements equal to `x`. */
  method Drop<T(==,!new)>(s: seq<T>, x: T) returns (r: seq<T>)
    ensures r == Without(s, x)
  {
    hide Without;
    r := [];
    assert s[0..] == s;
    for i := 0 to |s|
      invariant r + Without(s[i..], x) == Without(s, x)
    {
      WithoutFrom(s, x, i);
      if s[i] != x {
        r := r + [s[i]];
      }
    }
    assert Without(s[|s|..], x) == [] by { assert s[|s|..] == []; NothingWithout(x); }
  }

  lemma NothingWithout<T(!new)>(x: T)
    ensures Without([], x) == []
  {
  }

  method Advance(w: Worker, target: WorkerStage, serviceId: Option<string>, digest: Option<string>)
    returns (r: Option<Worker>)
    requires !target.Pending?
    ensures r == AdvancedWorker(w, target, serviceId, digest)
  {
    var worker := w;
    if target.Prepared? {
      if serviceId.Some? || digest.Some? || worker.dockerServiceId.Some?
          || worker.targetSpecDigest.Some? { return None; }
    } else if target.Applied? {
      if serviceId.None? || digest.None? || worker.dockerServiceId.Some?
          || worker.targetSpecDigest.Some? { return None; }
      worker := worker.(dockerServiceId := serviceId, targetSpecDigest := digest);
    } else if serviceId != worker.dockerServiceId || digest != worker.targetSpecDigest {
      return None;
    }
    worker := worker.(stage := target);
    return Some(worker);
  }

  datatype Reply = Raised | Skipped | Changed

  /** What an updater's reply and the draft it leaves say, as one value. */
  function Result(reply: Reply, d: Document): UpdateResult {
    match reply
    case Raised => Refused
    case Skipped => Unchanged
    case Changed => Written(d)
  }

  /** A copy of the document under change. After Raised its contents are discarded. */
  class Draft {
    var document: Document

    constructor (d: Document)
      ensures document == d
    {
      document := d;
    }

    method SetPhase(target: Phase, given: Option<Outcome>) returns (ok: bool)
      modifies this
      ensures ok <==> AdmissionCommands.SetPhase(old(document), target, given).Some?
      ensures ok ==> Some(document) == AdmissionCommands.SetPhase(old(document), target, given)
    {
      hide SuccessGate;
      hide CleanGate;
      hide AllVerified;
      var outcome := given;
      var current := document.phase;
      if target !in LegalTransitions(current) || document.operation.Some? { return false; }
      if target.ForwardApplying? && !document.baseline.captured { return false; }
      if target in FORWARD_MILESTONES && !SuccessGate(document.registered) { return false; }
      if target in CLEAN_TARGETS && !CleanGate(document.registered) { return false; }
      if target.ForwardVerified? && !AllVerified(document.forward.workers) { return false; }
      if target.RollbackPreparing? && !document.failedForward.captured { return false; }
      if target.RollbackApplying?
         && (document.rollback.attempt < 1 || document.rollback.namespace.None?
             || document.rollback.markerGeneration.None?)
      {
        return false;
      }
      if target.RollbackVerified? && !AllVerified(document.rollback.workers) { return false; }
      if target.WorkersPromoted? {
        document := document.(promotion := document.promotion.(workers := true));
      } else if target.MarkerPromoted? || target.RollbackMarkerPromoted? {
        if !document.promotion.workers { return false; }
        document := document.(promotion := document.promotion.(marker := true));
      } else if target.ControlPromoted? || target.RollbackControlPromoted? {
        if !document.promotion.marker { return false; }
        document := document.(promotion := document.promotion.(control := true));
      } else if target.RollbackWorkersPromoted? {
        document := document.(promotion := Promotion(true, false, false));
      } else if target.Retiring? {
        if outcome.None? {
          outcome := Some(if current.RollbackControlPromoted? then RolledBack else Succeeded);
        }
        if outcome == Some(Aborted) { return false; }
        document := document.(retiringOutcome := outcome);
      } else if target.Done? {
        var live := AnyLive(document.visionJobs);
        if live { return false; }
        if outcome == Some(Aborted) {
          var unrevoked := AnyUnrevoked(document.authorities);
          if !current.Aborting? || document.preparedSecrets != [] || document.abort.None?
             || document.abort.value.authorities != [] || unrevoked
             || document.promotion != Promotion(false, false, false) || document.retirements != []
          {
            return false;
          }
        } else if document.retirements != [] || document.promotion != Promotion(true, true, true)
                  || outcome.None? || outcome != document.retiringOutcome
        {
          return false;
        }
        document := document.(outcome := outcome);
      }
      if !target.Retiring? && !target.Done? && outcome.Some? { return false; }
      document := document.(phase := target);
      return true;
    }

    method AdvanceWorkerStage(direction: Direction, service: string, generation: nat, expected: WorkerStage,
                              target: WorkerStage, serviceId: Option<string>, digest: Option<string>)
                                returns (reply: Reply)
      modifies this
      ensures Result(reply, document)
              == AdmissionCommands.AdvanceWorkerStage(old(document), direction, service, generation, expected, target,
                                                      serviceId, digest)
      ensures reply.Skipped? ==> document == old(document)
    {
      hide Sole;
      hide AdvancedWorker;
      hide WithWorkers;
      hide WorkersOpen;
      hide WorkersOf;
      hide IsWorker;
      if Successor(expected) != Some(target) || document.operation.Some?
          || !WorkersOpen(document, direction) { return Raised; }
      var workers := WorkersOf(document, direction);
      var matches := Matches(workers, (w: Worker) => IsWorker(w, service, generation));
      if |matches| != 1 { return Raised; }
      var i := matches[0];
      var worker := workers[i];
      if StageRank(worker.stage) >= StageRank(target) {
        if target.Prepared? {
          if serviceId.Some? || digest.Some? { return Raised; }
        } else if serviceId != worker.dockerServiceId || digest != worker.targetSpecDigest {
          return Raised;
        }
        return Skipped;
      }
      if worker.stage != expected { return Raised; }
      var next := Advance(worker, target, serviceId, digest);
      if next.None? { return Raised; }
      document := WithWorkers(document, direction, workers[i := next.value]);
      return Changed;
    }

    method CompleteSecretRemoval(operationId: string) returns (reply: Reply)
      modifies this
      ensures Result(reply, document) == AdmissionCommands.CompleteSecretRemoval(old(document), operationId)
    {
      hide Sole;
      if !document.phase.Aborting? || document.operation.None? || document.operation.value.id != operationId
         || !document.operation.value.kind.RemovePreparedSecret?
      {
        return Raised;
      }
      var identity := document.operation.value.identity;
      var matches := Matches(document.preparedSecrets, (ref: SecretRef) => NamesSecret(identity, ref));
      if |matches| != 1 { return Raised; }
      var kept := Drop(document.preparedSecrets, document.preparedSecrets[matches[0]]);
      document := document.(preparedSecrets := kept);
      document := document.(operation := None);
      return Changed;
    }

    method CompleteAbortAuthority(kind: AuthorityKind, service: string, generation: string) returns (reply: Reply)
      modifies this
      ensures Result(reply, document)
              == AdmissionCommands.CompleteAbortAuthority(old(document), kind, service, generation)
    {
      hide Sole;
      if !document.phase.Aborting? || document.operation.Some? || document.preparedSecrets != []
          || document.abort.None? {
        return Raised;
      }
      var queue := document.abort.value.authorities;
      var queued := Matches(queue, (a: Authority) => HasKey(a, kind, service, generation));
      var live := Matches(document.authorities,
                          (a: Authority) => HasKey(a, kind, service, generation) && !a.state.Revoked?);
      if |queued| != 1 || |live| != 1 { return Raised; }
      var revoked := document.authorities[live[0]].(state := Revoked);
      document := document.(authorities := document.authorities[live[0] := revoked]);
      var kept := Drop(queue, queue[queued[0]]);
      document := document.(abort := Some(document.abort.value.(authorities := kept)));
      return Changed;
    }
  }

  method AnyLive(jobs: seq<VisionJob>) returns (live: bool)
    ensures live <==> !AllJobsRemoved(jobs)
  {
    for i := 0 to |jobs|
      invariant forall j :: 0 <= j < i ==> jobs[j].state.VisionRemoved?
    {
      if !jobs[i].state.VisionRemoved? { return true; }
    }
    return false;
  }

  method AnyUnrevoked(authorities: seq<Authority>) returns (unrevoked: bool)
    ensures unrevoked <==> !AllRevoked(authorities)
  {
    for i := 0 to |authorities|
      invariant forall j :: 0 <= j < i ==> authorities[j].state.Revoked?
    {
      if !authorities[i].state.Revoked? { return true; }
    }
    return false;
  }

  /** The file. Its document always satisfies the journal's invariant. */
  class JournalFile {
    var revision: nat
    var document: Document

    ghost predicate Sound()
      reads this
    {
      Inv(document)
    }

    ghost function View(): Journal
      reads this
    {
      Journal(revision, document)
    }

    constructor (transactionId: string, targetCommit: string, namespace: string, kind: BaselineKind)
      requires TransactionIdOk(transactionId)
      ensures Sound() && View() == Journal(0, Begin(transactionId, targetCommit, namespace, kind))
    {
      hide Inv;
      revision := 0;
      document := Begin(transactionId, targetCommit, namespace, kind);
      new;
      BeginKeeps(transactionId, targetCommit, namespace, kind);
    }

    /** Compare-and-swap of any command: the file ends as the specification says and stays sound. */
    method Submit(s: Submission) returns (accepted: bool)
      requires Sound()
      modifies this
      ensures Sound()
      ensures View() == After(old(View()), s)
      ensures accepted <==> AdmissionJournal.Submit(old(View()), s).Some?
    {
      hide Update;
      hide Inv;
      hide Valid;
      AfterKeeps(View(), s);
      if s.revision != revision { return false; }
      var u := Update(document, s.command);
      if u.Refused? { return false; }
      if u.Written? {
        if !Valid(u.document) { return false; }
        revision, document := revision + 1, u.document;
      }
      return true;
    }

    /** The write that ends every update: the draft replaces the document unless it raised or is invalid. */
    method Replace(reply: Reply, draft: Draft, ghost c: Command) returns (accepted: bool)
      requires Sound() && Result(reply, draft.document) == Update(document, c)
      modifies this
      ensures Sound()
      ensures View() == After(old(View()), Submission(old(revision), c))
      ensures accepted <==> AdmissionJournal.Submit(old(View()), Submission(old(revision), c)).Some?
    {
      hide Update;
      hide Inv;
      hide Valid;
      AfterKeeps(View(), Submission(revision, c));
      if reply.Raised? { return false; }
      if reply.Changed? {
        if !Valid(draft.document) { return false; }
        revision, document := revision + 1, draft.document;
      }
      return true;
    }

    method Transition(expected: nat, target: Phase, outcome: Option<Outcome>) returns (accepted: bool)
      requires Sound()
      modifies this
      ensures Sound()
      ensures View() == After(old(View()), Submission(expected, OfPhase(CmdTransition(target, outcome))))
      ensures accepted <==> AdmissionJournal.Submit(old(View()),
                                                    Submission(expected, OfPhase(CmdTransition(target, outcome)))).Some?
    {
      hide Inv;
      hide Valid;
      hide AdmissionCommands.SetPhase;
      if expected != revision { return false; }
      var draft := new Draft(document);
      var ok := draft.SetPhase(target, outcome);
      accepted := Replace(if ok then Changed else Raised, draft, OfPhase(CmdTransition(target, outcome)));
    }

    method AdvanceWorkerStage(expected: nat, direction: Direction, service: string, generation: nat, from: WorkerStage,
                              to: WorkerStage, serviceId: Option<string>, digest: Option<string>)
                                returns (accepted: bool)
      requires Sound()
      modifies this
      ensures Sound()
      ensures View() == After(old(View()),
                              Submission(expected,
                                         OfPlan(CmdAdvanceWorkerStage(direction, service, generation, from, to,
                                                                      serviceId, digest))))
      ensures accepted <==>
              AdmissionJournal.Submit(old(View()),
                                      Submission(expected, OfPlan(CmdAdvanceWorkerStage(direction, service, generation,
                                                                                        from, to,
                                                                                        serviceId, digest)))).Some?
    {
      hide Inv;
      hide Valid;
      hide AdmissionCommands.AdvanceWorkerStage;
      if expected != revision { return false; }
      var draft := new Draft(document);
      var reply := draft.AdvanceWorkerStage(direction, service, generation, from, to, serviceId, digest);
      accepted := Replace(reply, draft,
                          OfPlan(CmdAdvanceWorkerStage(direction, service, generation, from, to, serviceId, digest)));
    }
  }
}
