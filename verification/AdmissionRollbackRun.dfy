/**
 A rollback that is allocated can be carried to its end: what it claims is provisioned, its
 workers are verified, and the transaction is finished as rolled back.
 */
module AdmissionRollbackRun {
  import opened Common
  import opened AdmissionTypes
  import opened AdmissionValidator
  import opened AdmissionContext
  import opened AdmissionCommands
  import opened AdmissionJournal
  import opened AdmissionInvariant
  import opened AdmissionRetire
  import opened AdmissionSteps
  import opened AdmissionFinish
  import opened AdmissionRollback

  predicate AllProvisioned(d: Document) {
    forall i :: 0 <= i < |d.authorities| ==> d.authorities[i].state.Provisioned?
  }

  // ----- from preparing to applying -----

  lemma AppliesRollback(d: Document)
    requires Valid(d) && d.phase.RollbackPreparing? && d.operation.None? && d.rollback.attempt >= 1 && AllProvisioned(d)
    ensures Takes(d, OfPhase(CmdTransition(RollbackApplying, None)), d.(phase := RollbackApplying))
  {
    hide Valid;
    hide CleanGate;
    hide SuccessGate;
    AllocatedHasNames(d);
    ApplyingValid(d);
  }

  lemma AllocatedHasNames(d: Document)
    requires Valid(d) && d.rollback.attempt >= 1
    ensures d.rollback.namespace.Some? && d.rollback.markerGeneration.Some?
  {
  }

  lemma ApplyingValid(d: Document)
    requires Valid(d) && d.phase.RollbackPreparing? && d.operation.None? && d.rollback.attempt >= 1 && AllProvisioned(d)
    ensures Valid(d.(phase := RollbackApplying))
  {
    hide AuthoritiesOk;
    hide PreparedSecretsOk;
    hide RegisteredOk;
    hide BaselineOk;
    hide FailedForwardOk;
    hide ForwardOk;
    hide RollbackOk;
    hide VisionJobsOk;
    hide RetirementsOk;
    hide SecretRefsOk;
    hide AllVerified;
    hide IsRollbackAuthority;
    hide TransactionIdOk;
    hide RuntimeRedisOk;
    var n := d.(phase := RollbackApplying);
    assert SameContext(d, n);
    AuthoritiesTransfer(d, n);
    SecretsDistinct(d);
    PreparedSecretsTransfer(d, n);
  }

  // ----- the workers -----

  lemma StagesLeaveClaims(d: Document, workers: seq<Worker>, a: Authority)
    requires SamePlans(d.rollback.workers, workers)
    ensures var n := WithWorkers(d, RollbackDirection, workers);
            RollbackControl(n) == RollbackControl(d) && IsRollbackAuthority(n, a) == IsRollbackAuthority(d, a)
  {
    assert RollbackControl(WithWorkers(d, RollbackDirection, workers)) == RollbackControl(d);
    hide RollbackControl;
  }

  lemma StagesLeaveSecrets(d: Document, workers: seq<Worker>, ref: SecretRef)
    requires SamePlans(d.rollback.workers, workers)
    ensures PreparedSecretOk(WithWorkers(d, RollbackDirection, workers), ref) == PreparedSecretOk(d, ref)
  {
    var n := WithWorkers(d, RollbackDirection, workers);
    forall a
      ensures RollbackControl(n) == RollbackControl(d) && IsRollbackAuthority(n, a) == IsRollbackAuthority(d, a)
    {
      StagesLeaveClaims(d, workers, a);
    }
    hide RollbackControl;
    hide IsRollbackAuthority;
    assert IsRollbackWorkerSecret(n, ref)
        == IsRollbackWorkerSecret(d, ref) by { StagesLeaveWorkerSecret(d, workers, ref); }
    assert IsBacked(n, ref) == IsBacked(d, ref) by {
      forall i | 0 <= i < |d.authorities|
        ensures Backs(n, d.authorities[i], ref) == Backs(d, d.authorities[i], ref)
      {
      }
      hide Backs;
    }
    hide IsRollbackWorkerSecret;
    hide IsBacked;
  }

  lemma StagesLeaveWorkerSecret(d: Document, workers: seq<Worker>, ref: SecretRef)
    requires SamePlans(d.rollback.workers, workers)
    requires forall a :: IsRollbackAuthority(WithWorkers(d, RollbackDirection, workers), a) == IsRollbackAuthority(d, a)
    ensures IsRollbackWorkerSecret(WithWorkers(d, RollbackDirection, workers), ref) == IsRollbackWorkerSecret(d, ref)
  {
    hide IsRollbackAuthority;
    hide WorkerShortName;
    var before := d.rollback.workers;
    assert forall i :: 0 <= i < |before| ==> SamePlan(before[i], workers[i]);
    SoleSame(before, workers, (w: Worker) => w.service == ref.service);
    hide Sole;
  }

  lemma StagesLeaveAuthorities(d: Document, workers: seq<Worker>)
    requires SamePlans(d.rollback.workers, workers) && AuthoritiesOk(d) && AuthorityStatesOk(d)
    ensures AuthoritiesOk(WithWorkers(d, RollbackDirection, workers))
    ensures AuthorityStatesOk(WithWorkers(d, RollbackDirection, workers))
  {
    var n := WithWorkers(d, RollbackDirection, workers);
    forall a
      ensures IsRollbackAuthority(n, a) == IsRollbackAuthority(d, a)
    {
      StagesLeaveClaims(d, workers, a);
    }
    hide IsRollbackAuthority;
    hide AuthorityOk;
    hide SamePlans;
    forall i | 0 <= i < |d.authorities|
      ensures AuthorityEntryOk(n, d.authorities[i]) && AuthorityStateOk(n, d.authorities[i])
    {
      assert AuthorityEntryOk(d, d.authorities[i]) && AuthorityStateOk(d, d.authorities[i]);
    }
    forall i, j | 0 <= i < j < |d.authorities|
      ensures AuthorityPairOk(n, d.authorities[i], d.authorities[j])
    {
      assert AuthorityPairOk(d, d.authorities[i], d.authorities[j]);
    }
    hide AuthorityEntryOk;
    hide AuthorityStateOk;
    hide AuthorityPairOk;
  }

  /** While the rollback is applied only the workers' plans matter to the other rules. */
  lemma RollbackChangeValid(d: Document, workers: seq<Worker>)
    requires Valid(d) && d.phase.RollbackApplying? && WorkersOk(workers) && SamePlans(d.rollback.workers, workers)
    ensures Valid(WithWorkers(d, RollbackDirection, workers))
  {
    hide WorkersOk;
    hide SamePlans;
    hide AuthoritiesOk;
    hide AuthorityStatesOk;
    hide PreparedSecretOk;
    hide SecretRefsOk;
    hide RegisteredOk;
    hide BaselineOk;
    hide FailedForwardOk;
    hide ForwardOk;
    hide VisionJobsOk;
    hide RetirementsOk;
    hide AllVerified;
    hide AbortAuthoritiesOk;
    hide RuntimeRedisOk;
    hide TransactionIdOk;
    var n := WithWorkers(d, RollbackDirection, workers);
    StagesLeaveAuthorities(d, workers);
    forall i | 0 <= i < |d.preparedSecrets|
      ensures PreparedSecretOk(n, d.preparedSecrets[i])
    {
      StagesLeaveSecrets(d, workers, d.preparedSecrets[i]);
    }
  }

  lemma RollbackAdvances(d: Document, i: nat, target: WorkerStage, service: Option<string>, digest: Option<string>)
    returns (c: Command, n: Document)
    requires Valid(d) && d.phase.RollbackApplying? && d.operation.None? && d.rollback.attempt != 0
    requires i < |d.rollback.workers|
    requires var workers := d.rollback.workers;
             && Successor(workers[i].stage) == Some(target) && AdvancedWorker(workers[i], target, service, digest).Some?
             && IdIsFree(workers, i, service)
    ensures Takes(d, c, n) && c.OfPlan?
    ensures n == WithWorkers(d, RollbackDirection,
                             d.rollback.workers[i := AdvancedWorker(d.rollback.workers[i], target, service,
                                                                    digest).value])
  {
    hide Valid;
    hide Update;
    hide AdvanceWorkerStage;
    var workers := d.rollback.workers;
    var w := workers[i];
    var next := workers[i := AdvancedWorker(w, target, service, digest).value];
    assert SamePlans(workers, next);
    hide AdvancedWorker;
    hide SamePlans;
    ValidWorkers(d);
    AdvancedOk(workers, i, target, service, digest);
    hide WorkersOk;
    n := WithWorkers(d, RollbackDirection, next);
    RollbackChangeValid(d, next);
    AdvanceUpdates(d, RollbackDirection, i, target, service, digest);
    AdvanceIsPlan(d, RollbackDirection, w.service, w.generation, w.stage, target, service, digest);
    c := OfPlan(CmdAdvanceWorkerStage(RollbackDirection, w.service, w.generation, w.stage, target, service, digest));
  }

  /** The worker verified, under the id it has or a new one. */
  predicate IsVerifiedAs(a: Worker, b: Worker, id: string) {
    SamePlan(a, b) && b.stage.Verified? && (b.dockerServiceId == a.dockerServiceId || b.dockerServiceId == Some(id))
  }

  /** One worker can be verified from any stage. */
  lemma {:induction false} RollbackVerifies(d: Document, i: nat, id: string)
    returns (commands: seq<Command>, n: Document)
    requires Valid(d) && d.phase.RollbackApplying? && d.operation.None? && d.rollback.attempt != 0
    requires i < |d.rollback.workers|
    requires IdIsFree(d.rollback.workers, i, Some(id))
    ensures Valid(n) && Played(d, commands) == Some(n) && forall k :: 0 <= k < |commands| ==> commands[k].OfPlan?
    ensures |n.rollback.workers| == |d.rollback.workers|
    ensures IsVerifiedAs(d.rollback.workers[i], n.rollback.workers[i], id)
    ensures n == WithWorkers(d, RollbackDirection, d.rollback.workers[i := n.rollback.workers[i]])
    decreases 3 - StageRank(d.rollback.workers[i].stage)
  {
    hide Valid;
    hide Update;
    hide Played;
    var w := d.rollback.workers[i];
    NothingPlayed(d);
    if w.stage.Verified? {
      commands, n := [], d;
      assert d.rollback.workers[i := w] == d.rollback.workers;
    } else {
      var c, m := NextStep(d, i, id);
      PlayedMore(d, [], d, c, m);
      var rest;
      rest, n := RollbackVerifies(m, i, id);
      PlayedThen(d, [] + [c], m, rest);
      commands := [] + [c] + rest;
    }
  }

  lemma NextStep(d: Document, i: nat, id: string) returns (c: Command, n: Document)
    requires Valid(d) && d.phase.RollbackApplying? && d.operation.None? && d.rollback.attempt != 0
    requires i < |d.rollback.workers|
    requires IdIsFree(d.rollback.workers, i, Some(id)) && !d.rollback.workers[i].stage.Verified?
    ensures Takes(d, c, n) && c.OfPlan? && |n.rollback.workers| == |d.rollback.workers|
    ensures var a, b := d.rollback.workers[i], n.rollback.workers[i];
            && SamePlan(a, b) && StageRank(b.stage) == StageRank(a.stage) + 1
            && (b.dockerServiceId == a.dockerServiceId || b.dockerServiceId == Some(id))
    ensures n == WithWorkers(d, RollbackDirection, d.rollback.workers[i := n.rollback.workers[i]])
    ensures IdIsFree(n.rollback.workers, i, Some(id))
  {
    hide Valid;
    hide Update;
    var w := d.rollback.workers[i];
    RollbackWorkerOk(d, i);
    match w.stage {
      case Pending =>
        c, n := RollbackAdvances(d, i, Prepared, None, None);
      case Prepared =>
        c, n := RollbackAdvances(d, i, Applied, Some(id), Some(DIGEST));
      case Applied =>
        c, n := RollbackAdvances(d, i, Verified, w.dockerServiceId, w.targetSpecDigest);
    }
  }

  lemma RollbackWorkerOk(d: Document, i: nat)
    requires Valid(d) && i < |d.rollback.workers|
    ensures var w := d.rollback.workers[i];
            && (w.dockerServiceId.Some? <==> IsApplied(w)) && (w.targetSpecDigest.Some? <==> IsApplied(w))
            && IdIsFree(d.rollback.workers, i, w.dockerServiceId)
  {
    ValidWorkers(d);
    hide Valid;
    var workers := d.rollback.workers;
    assert WorkerOk(workers[i]);
    forall j | 0 <= j < |workers| && j != i && workers[i].dockerServiceId.Some?
      ensures workers[j].dockerServiceId != workers[i].dockerServiceId
    {
      if j < i {
        assert DistinctWorkers(workers[j], workers[i]);
      } else {
        assert DistinctWorkers(workers[i], workers[j]);
      }
    }
  }

  /** An id for each worker, none of them in use from the i-th on. */
  predicate Supplies(ids: seq<string>, workers: seq<Worker>, i: nat) {
    && |ids| == |workers|
    && (forall k, l :: 0 <= k < l < |ids| ==> ids[k] != ids[l])
    && (forall k, l :: i <= k < |ids| && 0 <= l < |workers| ==> workers[l].dockerServiceId != Some(ids[k]))
  }

  lemma {:induction false} RollbackVerifiesAll(d: Document, ids: seq<string>, i: nat)
    returns (commands: seq<Command>, n: Document)
    requires Valid(d) && d.phase.RollbackApplying? && d.operation.None? && d.rollback.attempt != 0
    requires i <= |d.rollback.workers| && Supplies(ids, d.rollback.workers, i)
    requires forall k :: 0 <= k < i ==> d.rollback.workers[k].stage.Verified?
    ensures Valid(n) && Played(d, commands) == Some(n) && forall k :: 0 <= k < |commands| ==> commands[k].OfPlan?
    ensures n == WithWorkers(d, RollbackDirection, n.rollback.workers) && AllVerified(n.rollback.workers)
    decreases |d.rollback.workers| - i
  {
    hide Valid;
    hide Played;
    NothingPlayed(d);
    if i == |d.rollback.workers| {
      commands, n := [], d;
    } else {
      var first, m := RollbackVerifies(d, i, ids[i]);
      var rest;
      rest, n := RollbackVerifiesAll(m, ids, i + 1);
      PlayedThen(d, first, m, rest);
      commands := first + rest;
    }
  }

  // ----- to the end -----

  lemma VerifiesRollback(d: Document)
    requires Inv(d) && d.phase.RollbackApplying? && AllVerified(d.rollback.workers)
    ensures Takes(d, OfPhase(CmdTransition(RollbackVerified, None)), d.(phase := RollbackVerified))
  {
    hide Inv;
    hide Valid;
    hide AllVerified;
    hide CleanGate;
    hide SuccessGate;
    ApplyingFacts(d);
    hide FlagsAndMilestones;
    SettledMove(d, d.(phase := RollbackVerified));
    VerifiedFlags(d);
  }

  lemma ApplyingFacts(d: Document)
    requires Inv(d) && d.phase.RollbackApplying?
    ensures Valid(d) && d.operation.None? && d.outcome.None? && d.rollback.attempt == 1
    ensures MilestonesOk(d) && RetiringOk(d.phase, d.outcome, d.retiringOutcome)
    ensures d.promotion == Promotion(false, false, false)
  {
    hide Inv;
    hide Valid;
    InvOpens(d);
    ValidOpens(d);
    hide AllVerified;
    hide AllocatedNamespace;
    hide AllocatedMarker;
  }

  lemma InvOpens(d: Document)
    requires Inv(d)
    ensures Valid(d) && RollbackAllocation(d.transactionId, d.rollback)
  {
    hide Valid;
    hide RollbackAllocation;
  }

  lemma ValidOpens(d: Document)
    requires Valid(d)
    ensures MilestonesOk(d) && OperationOk(d) && RetiringOk(d.phase, d.outcome, d.retiringOutcome)
    ensures d.promotion == ExpectedPromotion(d.phase, d.outcome) && (d.phase.Done? <==> d.outcome.Some?)
  {
    hide MilestonesOk;
    hide OperationOk;
    hide AuthoritiesOk;
    hide AuthorityStatesOk;
    hide PreparedSecretsOk;
    hide VisionJobsOk;
    hide RetirementsOk;
  }

  lemma VerifiedFlags(d: Document)
    requires d.phase.RollbackApplying? && d.outcome.None? && AllVerified(d.rollback.workers) && MilestonesOk(d)
    requires RetiringOk(d.phase, d.outcome, d.retiringOutcome) && d.promotion == Promotion(false, false, false)
    ensures FlagsAndMilestones(d.(phase := RollbackVerified))
  {
    hide AllVerified;
  }

  /** A rollback that is being applied can be finished as rolled back. */
  lemma ApplyingCanFinish(j: Journal, ids: seq<string>) returns (submissions: seq<Submission>)
    requires Inv(j.document) && j.document.phase.RollbackApplying? && Supplies(ids, j.document.rollback.workers, 0)
    ensures var n := Run(j, submissions).document;
            n.phase.Done? && n.outcome == Some(RolledBack) && n.retirements == []
  {
    hide Inv;
    hide Valid;
    hide Update;
    hide Played;
    hide AllVerified;
    hide Supplies;
    var d := j.document;
    ApplyingFacts(d);
    var commands, m := RollbackVerifiesAll(d, ids, 0);
    PlayedInv(d, commands);
    VerifiesRollback(m);
    var c, n := OfPhase(CmdTransition(RollbackVerified, None)), m.(phase := RollbackVerified);
    PlayedMore(d, commands, m, c, n);
    PlayedInv(d, commands + [c]);
    PlayedRuns(j, commands + [c]);
    var first := Submissions(j.revision, commands + [c]);
    hide Run;
    var last := VerifiedCanFinish(Run(j, first));
    RunThen(j, first, last);
    submissions := first + last;
  }

  /** A prepared and allocated rollback can be finished: first what it claims is provisioned. */
  lemma AllocatedCanFinish(j: Journal, ids: seq<string>) returns (submissions: seq<Submission>)
    requires Inv(j.document) && j.document.phase.RollbackPreparing? && j.document.rollback.attempt == 1
    requires Supplies(ids, j.document.rollback.workers, 0)
    ensures var n := Run(j, submissions).document;
            n.phase.Done? && n.outcome == Some(RolledBack) && n.retirements == []
  {
    hide Inv;
    hide Valid;
    hide Update;
    hide Played;
    hide Supplies;
    var d := j.document;
    PreparingFacts(d);
    var commands, m := Provisions(d, 0);
    AppliesRollback(m);
    var c, n := OfPhase(CmdTransition(RollbackApplying, None)), m.(phase := RollbackApplying);
    PlayedMore(d, commands, m, c, n);
    PlayedInv(d, commands + [c]);
    PlayedRuns(j, commands + [c]);
    var first := Submissions(j.revision, commands + [c]);
    hide Run;
    var last := ApplyingCanFinish(Run(j, first), ids);
    RunThen(j, first, last);
    submissions := first + last;
  }

  lemma PreparingFacts(d: Document)
    requires Inv(d) && d.phase.RollbackPreparing?
    ensures Valid(d) && d.operation.None? && d.rollback.attempt <= 1
    ensures d.rollback.attempt == 0 ==> d.rollback.workers == []
  {
    hide Inv;
    hide Valid;
    InvOpens(d);
    ValidOpens(d);
    hide AllVerified;
    hide AllocatedNamespace;
    hide AllocatedMarker;
  }

  /**
   Every rollback that is prepared or applied can be finished as rolled back, given service
   ids for its workers, unless its attempt is yet to be allocated and refused.
   */
  lemma RollbackCanFinish(j: Journal, ids: seq<string>) returns (submissions: seq<Submission>)
    requires Inv(j.document) && (j.document.phase.RollbackPreparing? || j.document.phase.RollbackApplying?)
    requires j.document.phase.RollbackPreparing? && j.document.rollback.attempt == 0 ==> MayAllocate(j.document)
    requires Supplies(ids, j.document.rollback.workers, 0)
    ensures var n := Run(j, submissions).document;
            n.phase.Done? && n.outcome == Some(RolledBack) && n.retirements == []
  {
    hide Inv;
    hide Valid;
    hide Update;
    hide Played;
    hide Supplies;
    hide MayAllocate;
    var d := j.document;
    if d.phase.RollbackApplying? {
      submissions := ApplyingCanFinish(j, ids);
    } else {
      PreparingFacts(d);
      if d.rollback.attempt == 1 {
        submissions := AllocatedCanFinish(j, ids);
      } else {
        AllocationAccepted(d);
        var c := OfPlan(CmdAllocateRollback);
        NothingPlayed(d);
        PlayedMore(d, [], d, c, Allocated(d));
        PlayedInv(d, [] + [c]);
        PlayedRuns(j, [] + [c]);
        var first := Submissions(j.revision, [] + [c]);
        hide Run;
        var last := AllocatedCanFinish(Run(j, first), ids);
        RunThen(j, first, last);
        submissions := first + last;
      }
    }
  }
}
