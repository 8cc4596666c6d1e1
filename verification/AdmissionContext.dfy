/**
 When the validator's document-wide rules carry over from one document to another:
 they depend on the phase only through the rollback control plane and the
 authority-state rule.
 */
module AdmissionContext {
  import opened Common
  import opened AdmissionTypes
  import opened AdmissionValidator

  /** Same identities and plans, and the same rollback control plane. */
  predicate SameContext(d: Document, n: Document) {
    && n.transactionId == d.transactionId && n.targetCommit == d.targetCommit
    && n.baseline == d.baseline && n.failedForward == d.failedForward
    && n.forward == d.forward && n.rollback == d.rollback
    && RollbackControl(n) == RollbackControl(d)
  }

  lemma RollbackAuthorityTransfers(d: Document, n: Document, a: Authority)
    requires SameContext(d, n)
    ensures IsRollbackAuthority(n, a) == IsRollbackAuthority(d, a)
  {
    hide RollbackControl;
  }

  lemma AuthoritiesTransfer(d: Document, n: Document)
    requires SameContext(d, n) && n.authorities == d.authorities
    requires AuthoritiesOk(d)
    ensures AuthoritiesOk(n)
  {
    hide SameContext;
    hide IsRollbackAuthority;
    hide AuthorityOk;
    forall i | 0 <= i < |n.authorities|
      ensures AuthorityEntryOk(n, n.authorities[i])
    {
      EntryTransfers(d, n, n.authorities[i]);
    }
    forall i, j | 0 <= i < j < |n.authorities|
      ensures AuthorityPairOk(n, n.authorities[i], n.authorities[j])
    {
      RollbackAuthorityTransfers(d, n, n.authorities[i]);
      RollbackAuthorityTransfers(d, n, n.authorities[j]);
      assert AuthorityPairOk(d, d.authorities[i], d.authorities[j]);
    }
  }

  lemma EntryTransfers(d: Document, n: Document, a: Authority)
    requires SameContext(d, n)
    ensures AuthorityEntryOk(n, a) == AuthorityEntryOk(d, a)
  {
    hide IsRollbackAuthority;
    hide AuthorityOk;
    hide RollbackControl;
    RollbackAuthorityTransfers(d, n, a);
  }

  lemma BackedTransfers(d: Document, n: Document, ref: SecretRef)
    requires SameContext(d, n) && n.authorities == d.authorities
    ensures IsBacked(n, ref) == IsBacked(d, ref)
  {
    hide SameContext;
    hide IsRollbackAuthority;
    forall i | 0 <= i < |d.authorities|
      ensures Backs(n, d.authorities[i], ref) == Backs(d, d.authorities[i], ref)
    {
      RollbackAuthorityTransfers(d, n, d.authorities[i]);
    }
  }

  lemma RollbackWorkerSecretTransfers(d: Document, n: Document, ref: SecretRef)
    requires SameContext(d, n) && n.authorities == d.authorities
    ensures IsRollbackWorkerSecret(n, ref) == IsRollbackWorkerSecret(d, ref)
  {
    hide RollbackControl;
    hide IsRollbackAuthority;
    forall i | 0 <= i < |d.authorities|
      ensures IsRollbackAuthority(n, d.authorities[i]) == IsRollbackAuthority(d, d.authorities[i])
    {
      RollbackAuthorityTransfers(d, n, d.authorities[i]);
    }
  }

  lemma PreparedSecretTransfers(d: Document, n: Document, ref: SecretRef)
    requires SameContext(d, n) && n.authorities == d.authorities
    ensures PreparedSecretOk(n, ref) == PreparedSecretOk(d, ref)
  {
    hide RollbackControl;
    hide IsRollbackWorkerSecret;
    hide IsBacked;
    BackedTransfers(d, n, ref);
    RollbackWorkerSecretTransfers(d, n, ref);
  }

  /** Any sublist of the prepared secrets stays acceptable. */
  lemma PreparedSecretsTransfer(d: Document, n: Document)
    requires SameContext(d, n) && n.authorities == d.authorities
    requires PreparedSecretsOk(d) && SecretRefsOk(n.preparedSecrets)
    requires forall ref :: ref in n.preparedSecrets ==> ref in d.preparedSecrets
    ensures PreparedSecretsOk(n)
  {
    hide SameContext;
    hide PreparedSecretOk;
    hide SecretRefsOk;
    forall i | 0 <= i < |n.preparedSecrets|
      ensures PreparedSecretOk(n, n.preparedSecrets[i])
    {
      assert n.preparedSecrets[i] in d.preparedSecrets;
      PreparedSecretTransfers(d, n, n.preparedSecrets[i]);
    }
  }

  /** Past preparation, application and abort every authority must simply be provisioned. */
  predicate Settled(phase: Phase) {
    !(phase in {Preparing, ForwardApplying, Aborting, RollbackPreparing, Done})
  }

  lemma SettledContext(d: Document, n: Document)
    requires Settled(d.phase) && Settled(n.phase) && d.outcome.None? && n.outcome.None?
    requires n == d.(phase := n.phase, promotion := n.promotion, retiringOutcome := n.retiringOutcome,
                     operation := n.operation)
    ensures SameContext(d, n)
    ensures AuthorityStatesOk(n) == AuthorityStatesOk(d)
  {
    hide IsRollbackAuthority;
  }

  /** Between settled phases only the phase-local rules have to be checked again. */
  lemma SettledMove(d: Document, n: Document)
    requires Valid(d) && Settled(d.phase) && Settled(n.phase) && n.operation.None?
    requires n == d.(phase := n.phase, promotion := n.promotion, retiringOutcome := n.retiringOutcome,
                     operation := None)
    ensures Valid(n) <==> FlagsAndMilestones(n)
  {
    hide AuthoritiesOk;
    hide AuthorityStatesOk;
    hide PreparedSecretsOk;
    hide SameContext;
    hide MilestonesOk;
    hide BaselineOk;
    hide FailedForwardOk;
    hide ForwardOk;
    hide RollbackOk;
    hide RegisteredOk;
    hide VisionJobsOk;
    hide RetirementsOk;
    SettledContext(d, n);
    AuthoritiesTransfer(d, n);
    assert SecretRefsOk(n.preparedSecrets) by { SecretsDistinct(d); }
    PreparedSecretsTransfer(d, n);
  }

  lemma SecretsDistinct(d: Document)
    requires PreparedSecretsOk(d)
    ensures SecretRefsOk(d.preparedSecrets)
  {
  }

  predicate FlagsAndMilestones(n: Document) {
    && RetiringOk(n.phase, n.outcome, n.retiringOutcome)
    && MilestonesOk(n)
    && n.promotion == ExpectedPromotion(n.phase, n.outcome)
  }
}
