/**
 An abort drains completely and in order: prepared secrets first, then every
 authority, with the remaining queue always in document order. It can finish
 exactly when no retirement was queued.
 */
module AdmissionAbort {
  import opened Common
  import opened AdmissionTypes
  import opened AdmissionValidator
  import opened AdmissionCommands
  import opened AdmissionJournal
  import opened AdmissionInvariant
  import opened AdmissionIntents

  /** In every reachable aborting journal the queue is exactly the unrevoked authorities, in order, and no
      authority is revoked while a prepared secret remains. */
  lemma AbortOrder(transactionId: string, targetCommit: string, namespace: string, kind: BaselineKind,
                   submissions: seq<Submission>)
    requires TransactionIdOk(transactionId)
    ensures var d := Run(Journal(0, Begin(transactionId, targetCommit, namespace, kind)), submissions).document;
            d.phase.Aborting? ==>
              && d.abort.Some? && d.abort.value.authorities == Remaining(d.authorities)
              && (d.preparedSecrets != [] ==> NoneRevoked(d.authorities))
              && d.promotion == Promotion(false, false, false)
              && CleanGate(d.registered)
  {
    hide Run;
    BeginKeeps(transactionId, targetCommit, namespace, kind);
    RunKeeps(Journal(0, Begin(transactionId, targetCommit, namespace, kind)), submissions);
  }

  // ----- the measure of what is left -----

  function LiveJobs(jobs: seq<VisionJob>): nat {
    if jobs == [] then 0 else (if jobs[0].state.VisionRemoved? then 0 else 1) + LiveJobs(jobs[1..])
  }

  function WorkLeft(d: Document): nat
    requires d.operation.Some? && d.operation.value.kind.RemovePreparedSecret? ==> d.preparedSecrets != []
  {
    2 * |d.preparedSecrets| - (if d.operation.Some? && d.operation.value.kind.RemovePreparedSecret? then 1 else 0)
    + |Remaining(d.authorities)| + LiveJobs(d.visionJobs) + (if d.phase.Aborting? then 1 else 0)
  }

  lemma OperationHasSecret(d: Document)
    requires Inv(d)
    ensures d.operation.Some? && d.operation.value.kind.RemovePreparedSecret? ==> d.preparedSecrets != []
  {
    hide AuthoritiesOk;
    hide PreparedSecretsOk;
    hide PipelineSettled;
  }

  lemma {:induction false} LiveAfterUpdate(jobs: seq<VisionJob>, i: nat, job: VisionJob)
    requires i < |jobs|
    ensures LiveJobs(jobs[i := job]) + (if jobs[i].state.VisionRemoved? then 0 else 1)
            == LiveJobs(jobs) + (if job.state.VisionRemoved? then 0 else 1)
  {
    if i == 0 {
      assert jobs[0 := job][1..] == jobs[1..];
    } else {
      assert jobs[i := job][1..] == jobs[1..][i - 1 := job];
      LiveAfterUpdate(jobs[1..], i - 1, job);
    }
  }

  lemma {:induction false} NoLiveJobs(jobs: seq<VisionJob>)
    ensures LiveJobs(jobs) == 0 <==> AllJobsRemoved(jobs)
  {
    if jobs != [] {
      NoLiveJobs(jobs[1..]);
      if AllJobsRemoved(jobs) {
        forall i | 0 <= i < |jobs[1..]|
          ensures jobs[1..][i].state.VisionRemoved?
        {
          assert jobs[1..][i] == jobs[i + 1];
        }
      } else if jobs[0].state.VisionRemoved? {
        var i :| 0 <= i < |jobs| && !jobs[i].state.VisionRemoved?;
        assert jobs[1..][i - 1] == jobs[i];
      }
    }
  }

  /** Revoking one authority takes exactly that one out of the queue. */
  lemma {:induction false} RemainingAfterRevoke(authorities: seq<Authority>, i: nat)
    requires i < |authorities| && !authorities[i].state.Revoked?
    requires forall j :: 0 <= j < |authorities| && j != i ==> authorities[j] != authorities[i]
    ensures Remaining(Revoke(authorities, i)) == Without(Remaining(authorities), authorities[i])
    ensures |Remaining(Revoke(authorities, i))| < |Remaining(authorities)|
  {
    var rest := authorities[1..];
    if i == 0 {
      assert Revoke(authorities, 0)[1..] == rest;
      RemainingMembers(rest);
      assert authorities[0] !in Remaining(rest);
    } else {
      assert Revoke(authorities, i)[1..] == Revoke(rest, i - 1);
      RemainingAfterRevoke(rest, i - 1);
    }
    RemainingMembers(authorities);
    assert authorities[i] in Remaining(authorities);
  }

  // ----- every accepted command only lowers it -----

  lemma VisionLowers(d: Document, c: VisionCommand)
    requires UpdateVision(d, c).Written? && d.phase.Aborting?
    ensures var n := UpdateVision(d, c).document;
            && LiveJobs(n.visionJobs) <= LiveJobs(d.visionJobs)
            && |n.preparedSecrets| <= |d.preparedSecrets|
            && (n.visionJobs != d.visionJobs && (c.CmdAbortVisionRemoval? || c.CmdCompleteVisionRemoval?) ==>
                  LiveJobs(n.visionJobs) < LiveJobs(d.visionJobs))
  {
    var only := Sole(d.visionJobs, (j: VisionJob) => j.mode == c.mode);
    if only.Some? {
      var i := only.value;
      var n := UpdateVision(d, c).document;
      if n.visionJobs != d.visionJobs {
        LiveAfterUpdate(d.visionJobs, i, n.visionJobs[i]);
      }
    }
  }

  predicate UniqueKeys(authorities: seq<Authority>) {
    forall i, j :: 0 <= i < j < |authorities| ==> !SameAuthorityKey(authorities[i], authorities[j])
  }

  lemma InvKeys(d: Document)
    requires Inv(d)
    ensures UniqueKeys(d.authorities)
  {
    hide AuthorityEntryOk;
    hide IsRollbackAuthority;
    hide PreparedSecretsOk;
    hide PipelineSettled;
    forall i, j | 0 <= i < j < |d.authorities|
      ensures !SameAuthorityKey(d.authorities[i], d.authorities[j])
    {
      assert AuthorityPairOk(d, d.authorities[i], d.authorities[j]);
    }
  }

  lemma AuthorityLowers(d: Document, kind: AuthorityKind, service: string, generation: string)
    requires UniqueKeys(d.authorities)
    requires CompleteAbortAuthority(d, kind, service, generation).Written?
    ensures var n := CompleteAbortAuthority(d, kind, service, generation).document;
            |Remaining(n.authorities)| < |Remaining(d.authorities)|
  {
    var live := Sole(d.authorities, (a: Authority) => HasKey(a, kind, service, generation) && !a.state.Revoked?);
    RemainingAfterRevoke(d.authorities, live.value);
  }

  lemma OperationLowers(d: Document, c: OperationCommand)
    requires Inv(d) && d.phase.Aborting? && UpdateOperation(d, c).Written? && Valid(UpdateOperation(d, c).document)
    ensures Inv(UpdateOperation(d, c).document)
    ensures d.operation.Some? && d.operation.value.kind.RemovePreparedSecret? ==> d.preparedSecrets != []
    ensures var n := UpdateOperation(d, c).document;
            && (n.operation.Some? && n.operation.value.kind.RemovePreparedSecret? ==> n.preparedSecrets != [])
            && WorkLeft(n) < WorkLeft(d)
  {
    hide Inv;
    hide Valid;
    UpdateKeeps(d, OfOperation(c));
    OperationHasSecret(d);
    OperationHasSecret(UpdateOperation(d, c).document);
    InvKeys(d);
    if c.CmdCompleteAbortAuthority? {
      AuthorityLowers(d, c.authorityKind, c.service, c.generation);
    }
  }

  // ----- a queued retirement blocks the abort for good -----

  lemma BlockedPhase(d: Document, c: PhaseCommand)
    requires d.phase.Aborting? && d.retirements != [] && d.promotion == Promotion(false, false, false)
    ensures !UpdatePhase(d, c).Written? || UpdatePhase(d, c).document.phase.Aborting?
  {
    hide CleanGate;
    hide SuccessGate;
  }

  lemma BlockedUpdate(d: Document, c: Command)
    requires Inv(d) && d.phase.Aborting? && d.retirements != [] && Update(d, c).Written?
    ensures Update(d, c).document.phase.Aborting? && Update(d, c).document.retirements != []
  {
    hide Inv;
    hide Valid;
    hide UpdatePhase;
    hide UpdateOperation;
    hide UpdatePlan;
    hide UpdateVision;
    hide UpdatePipeline;
    match c {
      case OfPhase(p) =>
        assert d.promotion == Promotion(false, false, false) by { InvFacts(d); }
        PhaseFrame(d, p);
        BlockedPhase(d, p);
      case OfOperation(o) => OperationFrame(d, o);
      case OfResource(r) => ResourceFrame(d, r);
      case OfPlan(p) => PlanFrame(d, p);
      case OfVision(v) => VisionFrame(d, v);
      case OfPipeline(p) => PipelineFrame(d, p);
    }
  }

  lemma {:induction false} RetirementBlocksAbort(j: Journal, submissions: seq<Submission>)
    requires Inv(j.document) && j.document.phase.Aborting? && j.document.retirements != []
    ensures Run(j, submissions).document.phase.Aborting?
    decreases |submissions|
  {
    hide Inv;
    hide Update;
    hide Valid;
    if submissions != [] {
      if Update(j.document, submissions[0].command).Written? {
        BlockedUpdate(j.document, submissions[0].command);
      }
      AfterKeeps(j, submissions[0]);
      RetirementBlocksAbort(After(j, submissions[0]), submissions[1..]);
    }
  }
}
