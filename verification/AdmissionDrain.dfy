/**
 The drain itself: no accepted command undoes progress, and from every aborting
 journal without queued retirements the steps of the drain lead to the aborted end.
 */
module AdmissionDrain {
  import opened Common
  import opened AdmissionTypes
  import opened AdmissionValidator
  import opened AdmissionContext
  import opened AdmissionCommands
  import opened AdmissionJournal
  import opened AdmissionInvariant
  import opened AdmissionIntents
  import opened AdmissionAbort

  // ----- no accepted command undoes progress -----

  lemma PhaseLeavesWork(d: Document, c: PhaseCommand)
    requires d.phase.Aborting? && d.promotion == Promotion(false, false, false) && UpdatePhase(d, c).Written?
    requires d.operation.Some? ==> d.operation.value.kind.RemovePreparedSecret?
    ensures UpdatePhase(d, c).document == d.(phase := Done, outcome := Some(Aborted))
    ensures d.operation.None? && d.retirements == []
  {
    hide CleanGate;
    hide SuccessGate;
  }

  lemma ResourceLeavesWork(d: Document, c: ResourceCommand)
    requires d.phase.Aborting? && UpdateResource(d, c).Written?
    ensures var n := UpdateResource(d, c).document;
            n.authorities == d.authorities && n.preparedSecrets == d.preparedSecrets && n.operation == d.operation
  {
  }

  lemma PlanClosed(d: Document, c: PlanCommand)
    requires d.phase.Aborting?
    ensures !UpdatePlan(d, c).Written?
  {
  }

  lemma LeftOf(d: Document, n: Document)
    requires d.operation.Some? && d.operation.value.kind.RemovePreparedSecret? ==> d.preparedSecrets != []
    requires n.operation.Some? && n.operation.value.kind.RemovePreparedSecret? ==> n.preparedSecrets != []
    requires n.operation == d.operation && n.authorities == d.authorities && n.phase == d.phase
    requires |n.preparedSecrets| <= |d.preparedSecrets| && LiveJobs(n.visionJobs) <= LiveJobs(d.visionJobs)
    ensures WorkLeft(n) <= WorkLeft(d)
    ensures LiveJobs(n.visionJobs) < LiveJobs(d.visionJobs) ==> WorkLeft(n) < WorkLeft(d)
  {
  }

  predicate Measured(d: Document) {
    d.operation.Some? && d.operation.value.kind.RemovePreparedSecret? ==> d.preparedSecrets != []
  }

  predicate RemovesJob(c: Command) {
    c.OfVision? && (c.visionCommand.CmdAbortVisionRemoval? || c.visionCommand.CmdCompleteVisionRemoval?)
  }

  /** Abort work never grows, and every operation, revocation and end of the abort lowers it. */
  lemma AbortNeverRegresses(d: Document, c: Command)
    requires Inv(d) && d.phase.Aborting? && Update(d, c).Written? && Valid(Update(d, c).document)
    ensures Measured(d) && Measured(Update(d, c).document)
    ensures WorkLeft(Update(d, c).document) <= WorkLeft(d)
    ensures c.OfOperation? || c.OfPhase? ==> WorkLeft(Update(d, c).document) < WorkLeft(d)
    ensures RemovesJob(c) && Update(d, c).document.visionJobs != d.visionJobs ==>
            WorkLeft(Update(d, c).document) < WorkLeft(d)
  {
    hide Valid;
    hide Inv;
    hide UpdatePhase;
    hide UpdateOperation;
    hide UpdateResource;
    hide UpdatePlan;
    hide UpdateVision;
    hide UpdatePipeline;
    hide OperationOk;
    var n := Update(d, c).document;
    UpdateKeeps(d, c);
    OperationHasSecret(d);
    OperationHasSecret(n);
    match c {
      case OfPhase(p) =>
        AbortingOperation(d);
        PhaseLeavesWork(d, p);
      case OfOperation(o) =>
        OperationLowers(d, o);
      case OfResource(r) =>
        ResourceFrame(d, r);
        ResourceLeavesWork(d, r);
      case OfPlan(p) =>
        PlanClosed(d, p);
      case OfVision(v) =>
        VisionFrame(d, v);
        VisionLowers(d, v);
        LeftOf(d, n);
      case OfPipeline(p) =>
        PipelineFrame(d, p);
        LeftOf(d, n);
    }
  }

  lemma AbortingOperation(d: Document)
    requires Inv(d) && d.phase.Aborting?
    ensures d.operation.Some? ==> d.operation.value.kind.RemovePreparedSecret?
    ensures d.promotion == Promotion(false, false, false)
    ensures d.abort.Some? && d.abort.value.authorities == Remaining(d.authorities)
    ensures CleanGate(d.registered)
  {
    hide AuthoritiesOk;
    hide AuthorityStatesOk;
    hide PreparedSecretsOk;
    hide CleanGate;
    hide SuccessGate;
    hide AbortAuthoritiesOk;
    hide MilestonesOk;
    hide RegisteredOk;
    hide BaselineOk;
    hide FailedForwardOk;
    hide ForwardOk;
    hide RollbackOk;
    hide VisionJobsOk;
    hide RetirementsOk;
  }

  // ----- each kind of drain step is accepted -----

  lemma VisionChangeValid(d: Document, n: Document)
    requires Valid(d) && n == d.(visionJobs := n.visionJobs) && VisionJobsOk(n.visionJobs)
    ensures Valid(n)
  {
    hide AuthoritiesOk;
    hide AuthorityStatesOk;
    hide PreparedSecretsOk;
    hide MilestonesOk;
    hide AbortOk;
    hide VisionJobsOk;
    assert SameContext(d, n);
    AuthoritiesTransfer(d, n);
    StatesTransfer(d, n);
    assert SecretRefsOk(n.preparedSecrets) by { SecretsDistinct(d); }
    PreparedSecretsTransfer(d, n);
    assert MilestonesOk(n) by { MilestonesTransfer(d, n); }
    assert AbortOk(n) by { AbortTransfers(d, n); }
  }

  lemma StatesTransfer(d: Document, n: Document)
    requires n == d.(visionJobs := n.visionJobs, operation := n.operation) && AuthorityStatesOk(d)
    ensures AuthorityStatesOk(n)
  {
    hide IsRollbackAuthority;
    forall i | 0 <= i < |n.authorities|
      ensures AuthorityStateOk(n, n.authorities[i])
    {
      assert SameContext(d, n);
      RollbackAuthorityTransfers(d, n, n.authorities[i]);
      assert AuthorityStateOk(d, d.authorities[i]);
    }
  }

  lemma MilestonesTransfer(d: Document, n: Document)
    requires n == d.(visionJobs := n.visionJobs, operation := n.operation) && MilestonesOk(d)
    ensures MilestonesOk(n)
  {
  }

  lemma AbortTransfers(d: Document, n: Document)
    requires n == d.(visionJobs := n.visionJobs, operation := n.operation) && AbortOk(d)
    ensures AbortOk(n)
  {
    hide AbortAuthoritiesOk;
  }

  lemma RemovedJobsOk(jobs: seq<VisionJob>, i: nat)
    requires VisionJobsOk(jobs) && i < |jobs|
    ensures VisionJobsOk(jobs[i := jobs[i].(state := VisionRemoved, exitCode := Some(255))])
  {
    var next := jobs[i := jobs[i].(state := VisionRemoved, exitCode := Some(255))];
    forall a, b | 0 <= a < b < |next|
      ensures DistinctVisionJobs(next[a], next[b])
    {
      assert DistinctVisionJobs(jobs[a], jobs[b]);
    }
  }

  lemma VisionStepUpdates(d: Document, i: nat)
    requires d.phase.Aborting? && d.operation.None? && VisionJobsOk(d.visionJobs)
    requires i < |d.visionJobs| && !d.visionJobs[i].state.VisionRemoved?
    ensures AbortVisionRemoval(d, d.visionJobs[i].mode)
            == Written(d.(preparedSecrets := DropSecret(d.preparedSecrets, d.visionJobs[i].databaseSecret),
                          visionJobs := d.visionJobs[i :=
                                                     d.visionJobs[i].(state := VisionRemoved, exitCode := Some(255))]))
  {
    hide Sole;
    hide DropSecret;
    var jobs, mode := d.visionJobs, d.visionJobs[i].mode;
    assert forall j :: 0 <= j < i ==> DistinctVisionJobs(jobs[j], jobs[i]);
    assert forall j :: i < j < |jobs| ==> DistinctVisionJobs(jobs[i], jobs[j]);
    SoleIs(jobs, (j: VisionJob) => j.mode == mode, i);
  }

  lemma VisionStep(d: Document, i: nat)
    requires Inv(d) && d.phase.Aborting? && d.operation.None?
    requires i < |d.visionJobs| && !d.visionJobs[i].state.VisionRemoved?
    ensures var c := OfVision(CmdAbortVisionRemoval(d.visionJobs[i].mode));
            Update(d, c).Written? && Valid(Update(d, c).document) && Update(d, c).document.phase.Aborting?
            && Update(d, c).document.retirements == d.retirements && Update(d, c).document.visionJobs != d.visionJobs
  {
    hide AbortVisionRemoval;
    hide AuthoritiesOk;
    hide PreparedSecretsOk;
    hide PipelineSettled;
    VisionStepUpdates(d, i);
    RemovedJobsOk(d.visionJobs, i);
    var n := AbortVisionRemoval(d, d.visionJobs[i].mode).document;
    assert n.visionJobs[i] != d.visionJobs[i];
    hide VisionJobsOk;
    hide Valid;
    InvSecrets(d);
    var mid := d.(preparedSecrets := n.preparedSecrets);
    assert SecretRefsOk(n.preparedSecrets) by {
      if d.visionJobs[i].databaseSecret.Some? {
        WithoutKeepsDistinct(d.preparedSecrets, d.visionJobs[i].databaseSecret.value);
      }
    }
    FewerSecretsValid(d, mid);
    VisionChangeValid(mid, n);
  }

  lemma SecretStepUpdates(d: Document, id: string)
    requires d.phase.Aborting? && d.operation.None? && d.preparedSecrets != []
    requires SecretRefsOk(d.preparedSecrets)
    ensures IntentSecretRemoval(d, d.preparedSecrets[0].dockerSecretId, id)
            == Written(d.(operation := Some(Operation(id, RemovePreparedSecret, Aborting,
                                                      SecretRefIdentity(d.preparedSecrets[0])))))
    ensures Sole(d.preparedSecrets,
                 (ref: SecretRef) => SecretRefIdentity(ref) == SecretRefIdentity(d.preparedSecrets[0])).Some?
  {
    var only := Sole(d.preparedSecrets, (ref: SecretRef) => ref.dockerSecretId == d.preparedSecrets[0].dockerSecretId);
    assert only == Some(0);
    var same := Sole(d.preparedSecrets,
                     (ref: SecretRef) => SecretRefIdentity(ref) == SecretRefIdentity(d.preparedSecrets[0]));
    assert same == Some(0);
  }

  lemma AnnounceValid(d: Document, op: Operation)
    requires Valid(d) && d.operation.None? && OperationOk(d.(operation := Some(op)))
    ensures Valid(d.(operation := Some(op)))
  {
    hide AuthoritiesOk;
    hide AuthorityStatesOk;
    hide PreparedSecretsOk;
    hide MilestonesOk;
    hide AbortOk;
    hide OperationOk;
    hide SecretRefsOk;
    hide RegisteredOk;
    hide BaselineOk;
    hide FailedForwardOk;
    hide ForwardOk;
    hide RollbackOk;
    hide VisionJobsOk;
    hide RetirementsOk;
    var n := d.(operation := Some(op));
    assert SameContext(d, n);
    AuthoritiesTransfer(d, n);
    StatesTransfer(d, n);
    SecretsDistinct(d);
    PreparedSecretsTransfer(d, n);
    MilestonesTransfer(d, n);
    AbortTransfers(d, n);
  }

  lemma SecretStep(d: Document, id: string)
    requires Inv(d) && d.phase.Aborting? && d.operation.None? && d.preparedSecrets != []
    ensures var c := OfOperation(CmdIntentSecretRemoval(d.preparedSecrets[0].dockerSecretId, id));
            Update(d, c).Written? && Valid(Update(d, c).document) && Update(d, c).document.phase.Aborting?
            && Update(d, c).document.retirements == d.retirements
  {
    hide IntentSecretRemoval;
    hide Valid;
    hide PipelineSettled;
    InvSecrets(d);
    SecretStepUpdates(d, id);
    AnnounceValid(d, Operation(id, RemovePreparedSecret, Aborting, SecretRefIdentity(d.preparedSecrets[0])));
  }

  // ----- revoking an authority -----

  lemma RemainingUnfolds(authorities: seq<Authority>)
    requires authorities != []
    ensures var rest := Remaining(authorities[1..]);
            if authorities[0].state.Revoked? then Remaining(authorities) == rest
            else && |Remaining(authorities)| == 1 + |rest| && Remaining(authorities)[0] == authorities[0]
                 && forall k :: 0 < k < |Remaining(authorities)| ==> Remaining(authorities)[k] == rest[k - 1]
  {
  }

  lemma RemainingComesFrom(authorities: seq<Authority>, i: nat) returns (i': nat)
    requires i < |Remaining(authorities)|
    ensures i' < |authorities| && authorities[i'] == Remaining(authorities)[i]
  {
    RemainingMembers(authorities);
    assert Remaining(authorities)[i] in Remaining(authorities);
    i' :| 0 <= i' < |authorities| && authorities[i'] == Remaining(authorities)[i];
  }

  /** `Remaining` keeps the order of the authorities. */
  lemma {:induction false} RemainingIsSublist(authorities: seq<Authority>, i: nat, j: nat) returns (i': nat, j': nat)
    requires i < j < |Remaining(authorities)|
    ensures i' < j' < |authorities|
    ensures authorities[i'] == Remaining(authorities)[i] && authorities[j'] == Remaining(authorities)[j]
    decreases |authorities|
  {
    var rest := authorities[1..];
    RemainingUnfolds(authorities);
    hide Remaining;
    if authorities[0].state.Revoked? {
      i', j' := RemainingIsSublist(rest, i, j);
      i', j' := i' + 1, j' + 1;
    } else if i > 0 {
      i', j' := RemainingIsSublist(rest, i - 1, j - 1);
      i', j' := i' + 1, j' + 1;
    } else {
      i' := 0;
      j' := RemainingComesFrom(rest, j - 1);
      j' := j' + 1;
    }
  }

  lemma RemainingOk(authorities: seq<Authority>, commit: string)
    requires AbortAuthoritiesOk(authorities, commit)
    ensures AbortAuthoritiesOk(Remaining(authorities), commit)
  {
    hide AuthorityOk;
    var queue := Remaining(authorities);
    RemainingMembers(authorities);
    forall i | 0 <= i < |queue|
      ensures AuthorityOk(queue[i], commit, None)
    {
      assert queue[i] in authorities;
    }
    forall i, j | 0 <= i < j < |queue|
      ensures !SameAuthorityKey(queue[i], queue[j]) && queue[i].controlImage == queue[j].controlImage
    {
      var i', j' := RemainingIsSublist(authorities, i, j);
    }
  }

  lemma RevokeOk(authorities: seq<Authority>, i: nat, commit: string)
    requires AbortAuthoritiesOk(authorities, commit) && i < |authorities|
    ensures AbortAuthoritiesOk(Revoke(authorities, i), commit)
  {
    var next := Revoke(authorities, i);
    forall k | 0 <= k < |next|
      ensures AuthorityOk(next[k], commit, None)
    {
      assert AuthorityOk(authorities[k], commit, None);
    }
    forall a, b | 0 <= a < b < |next|
      ensures !SameAuthorityKey(next[a], next[b]) && next[a].controlImage == next[b].controlImage
    {
      assert !SameAuthorityKey(authorities[a], authorities[b])
          && authorities[a].controlImage == authorities[b].controlImage;
    }
  }

  /** While aborting no authority belongs to a rollback, so both readings of the rules agree. */
  lemma AbortingAuthorities(d: Document)
    requires d.phase.Aborting?
    ensures AuthoritiesOk(d) <==> AbortAuthoritiesOk(d.authorities, d.targetCommit)
  {
    hide AuthorityOk;
    assert forall a :: !IsRollbackAuthority(d, a);
    assert forall a :: AuthorityEntryOk(d, a) <==> AuthorityOk(a, d.targetCommit, None);
    assert forall a, b :: AuthorityPairOk(d, a, b) <==> !SameAuthorityKey(a, b) && a.controlImage == b.controlImage;
  }

  /** An unrevoked authority has exactly one place in the queue. */
  lemma QueuedOnce(authorities: seq<Authority>, i: nat) returns (q: nat)
    requires UniqueKeys(authorities) && i < |authorities| && !authorities[i].state.Revoked?
    ensures q < |Remaining(authorities)| && Remaining(authorities)[q] == authorities[i]
    ensures forall k ::
              (0 <= k < |Remaining(authorities)| && SameAuthorityKey(Remaining(authorities)[k], authorities[i])) ==>
                k == q
  {
    var a, queue := authorities[i], Remaining(authorities);
    RemainingMembers(authorities);
    assert a in queue;
    q :| 0 <= q < |queue| && queue[q] == a;
    forall k | 0 <= k < |queue| && SameAuthorityKey(queue[k], a)
      ensures k == q
    {
      if k < q {
        var k', q' := RemainingIsSublist(authorities, k, q);
      } else if q < k {
        var q', k' := RemainingIsSublist(authorities, q, k);
      }
    }
  }

  lemma AuthorityStepUpdates(d: Document, i: nat)
    requires d.phase.Aborting? && d.operation.None? && d.preparedSecrets == [] && UniqueKeys(d.authorities)
    requires d.abort.Some? && d.abort.value.authorities == Remaining(d.authorities)
    requires i < |d.authorities| && !d.authorities[i].state.Revoked?
    ensures var a := d.authorities[i];
            CompleteAbortAuthority(d, a.kind, a.service, a.generation)
            == Written(d.(authorities := Revoke(d.authorities, i),
                          abort := Some(d.abort.value.(authorities := Without(Remaining(d.authorities), a)))))
  {
    hide Remaining;
    hide Without;
    hide Sole;
    var a, queue := d.authorities[i], Remaining(d.authorities);
    var q := QueuedOnce(d.authorities, i);
    SoleIs(queue, (e: Authority) => HasKey(e, a.kind, a.service, a.generation), q);
    SoleIs(d.authorities, (e: Authority) => HasKey(e, a.kind, a.service, a.generation) && !e.state.Revoked?, i);
  }

  lemma AuthorityValid(d: Document, i: nat)
    requires Valid(d) && d.phase.Aborting? && d.operation.None? && d.preparedSecrets == [] && d.abort.Some?
    requires i < |d.authorities|
    ensures Valid(d.(authorities := Revoke(d.authorities, i),
                     abort := Some(d.abort.value.(authorities := Remaining(Revoke(d.authorities, i))))))
  {
    hide AuthoritiesOk;
    hide AbortAuthoritiesOk;
    hide RegisteredOk;
    hide BaselineOk;
    hide FailedForwardOk;
    hide ForwardOk;
    hide RollbackOk;
    hide VisionJobsOk;
    hide RetirementsOk;
    var n := d.(authorities := Revoke(d.authorities, i),
                abort := Some(d.abort.value.(authorities := Remaining(Revoke(d.authorities, i)))));
    AbortingAuthorities(d);
    AbortingAuthorities(n);
    RevokeOk(d.authorities, i, d.targetCommit);
    RemainingOk(n.authorities, n.targetCommit);
  }

  lemma AuthorityStep(d: Document, i: nat)
    requires Inv(d) && d.phase.Aborting? && d.operation.None? && d.preparedSecrets == []
    requires i < |d.authorities| && !d.authorities[i].state.Revoked?
    ensures var a := d.authorities[i];
            var c := OfOperation(CmdCompleteAbortAuthority(a.kind, a.service, a.generation));
            Update(d, c).Written? && Valid(Update(d, c).document) && Update(d, c).document.phase.Aborting?
            && Update(d, c).document.retirements == d.retirements
  {
    hide CompleteAbortAuthority;
    hide Valid;
    hide PipelineSettled;
    hide Remaining;
    hide Without;
    hide CleanGate;
    AbortingOperation(d);
    InvKeys(d);
    AuthorityStepUpdates(d, i);
    RemainingAfterRevoke(d.authorities, i);
    AuthorityValid(d, i);
  }

  // ----- the end -----

  lemma FinishValid(d: Document)
    requires Valid(d) && d.phase.Aborting? && d.operation.None? && d.preparedSecrets == []
    ensures Valid(d.(phase := Done, outcome := Some(Aborted)))
  {
    hide AuthoritiesOk;
    hide AbortAuthoritiesOk;
    hide RegisteredOk;
    hide BaselineOk;
    hide FailedForwardOk;
    hide ForwardOk;
    hide RollbackOk;
    hide VisionJobsOk;
    hide RetirementsOk;
    var n := d.(phase := Done, outcome := Some(Aborted));
    assert SameContext(d, n);
    AuthoritiesTransfer(d, n);
  }

  lemma {:induction false} NothingRemains(authorities: seq<Authority>)
    ensures Remaining(authorities) == [] <==> AllRevoked(authorities)
  {
    RemainingMembers(authorities);
    if Remaining(authorities) == [] {
      forall i | 0 <= i < |authorities|
        ensures authorities[i].state.Revoked?
      {
        assert authorities[i] in authorities;
      }
    } else {
      assert Remaining(authorities)[0] in Remaining(authorities);
    }
  }

  lemma FinishStep(d: Document)
    requires Inv(d) && d.phase.Aborting? && d.operation.None? && d.preparedSecrets == [] && d.retirements == []
    requires AllRevoked(d.authorities) && AllJobsRemoved(d.visionJobs)
    ensures Update(d, OfPhase(CmdFinishAbort)) == Written(d.(phase := Done, outcome := Some(Aborted)))
    ensures Valid(Update(d, OfPhase(CmdFinishAbort)).document)
  {
    hide Inv;
    hide Valid;
    hide CleanGate;
    hide SuccessGate;
    hide AllRevoked;
    hide AllJobsRemoved;
    AbortingOperation(d);
    NothingRemains(d.authorities);
    InvIsValid(d);
    FinishValid(d);
  }

  lemma InvIsValid(d: Document)
    requires Inv(d)
    ensures Valid(d)
  {
    hide Valid;
  }

  // ----- the whole drain -----

  predicate CleanlyAborted(d: Document) {
    && d.phase.Done? && d.outcome == Some(Aborted)
    && d.preparedSecrets == [] && AllRevoked(d.authorities) && AllJobsRemoved(d.visionJobs)
    && d.promotion == Promotion(false, false, false)
  }

  /** From every aborting journal with no queued retirement some drain command is accepted and lowers the work left. */
  lemma DrainStep(d: Document) returns (c: Command)
    requires Inv(d) && d.phase.Aborting? && d.retirements == []
    ensures Measured(d)
    ensures Update(d, c).Written? && Valid(Update(d, c).document) && Inv(Update(d, c).document)
    ensures CleanlyAborted(Update(d, c).document)
            || (Update(d, c).document.phase.Aborting? && Update(d, c).document.retirements == [])
    ensures Measured(Update(d, c).document) && WorkLeft(Update(d, c).document) < WorkLeft(d)
  {
    hide Inv;
    hide Valid;
    hide Update;
    if d.operation.Some? {
      c := Completion(d.operation.value);
      AbortingOperation(d);
      var ref := RemovalCompletes(d);
      CompletionWritten(d, ref);
    } else if !AllJobsRemoved(d.visionJobs) {
      var i :| 0 <= i < |d.visionJobs| && !d.visionJobs[i].state.VisionRemoved?;
      c := OfVision(CmdAbortVisionRemoval(d.visionJobs[i].mode));
      VisionStep(d, i);
    } else if d.preparedSecrets != [] {
      c := OfOperation(CmdIntentSecretRemoval(d.preparedSecrets[0].dockerSecretId, ""));
      SecretStep(d, "");
    } else if !AllRevoked(d.authorities) {
      var i :| 0 <= i < |d.authorities| && !d.authorities[i].state.Revoked?;
      c := OfOperation(CmdCompleteAbortAuthority(d.authorities[i].kind, d.authorities[i].service,
                                                 d.authorities[i].generation));
      AuthorityStep(d, i);
    } else {
      c := OfPhase(CmdFinishAbort);
      AbortingOperation(d);
      FinishStep(d);
    }
    AbortNeverRegresses(d, c);
    UpdateKeeps(d, c);
  }

  lemma CompletionWritten(d: Document, ref: SecretRef)
    requires d.operation.Some? && d.operation.value.kind.RemovePreparedSecret? && d.phase.Aborting?
    requires Apply(d, Completion(d.operation.value))
            == Some(d.(preparedSecrets := Without(d.preparedSecrets, ref), operation := None))
    ensures Update(d, Completion(d.operation.value)).Written?
    ensures Valid(Update(d, Completion(d.operation.value)).document)
    ensures Update(d, Completion(d.operation.value)).document
            == d.(preparedSecrets := Without(d.preparedSecrets, ref), operation := None)
  {
    hide Valid;
    hide CompleteSecretRemoval;
    assert !CompleteSecretRemoval(d, d.operation.value.id).Unchanged?;
  }

  /** Every abort without queued retirements can be driven to its end, with everything revoked and nothing promoted. */
  lemma {:induction false} AbortDrains(j: Journal) returns (submissions: seq<Submission>)
    requires Inv(j.document) && j.document.phase.Aborting? && j.document.retirements == []
    ensures CleanlyAborted(Run(j, submissions).document)
    ensures Measured(j.document) && |submissions| <= WorkLeft(j.document)
    decreases WorkLeft(j.document)
  {
    hide Inv;
    hide Valid;
    hide Update;
    var c := DrainStep(j.document);
    var next := Journal(j.revision + 1, Update(j.document, c).document);
    assert After(j, Submission(j.revision, c)) == next;
    if CleanlyAborted(next.document) {
      submissions := [Submission(j.revision, c)];
      assert submissions[1..] == [];
    } else {
      var rest := AbortDrains(next);
      submissions := [Submission(j.revision, c)] + rest;
      assert submissions[1..] == rest;
    }
  }
}
