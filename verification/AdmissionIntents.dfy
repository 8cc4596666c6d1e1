/**
 Announced operations are crash-safe: once accepted they freeze the phase, no
 accepted command can make them impossible to complete, and completing a
 promotion gives the document a direct transition would have given.
 */
module AdmissionIntents {
  import opened Common
  import opened AdmissionTypes
  import opened AdmissionValidator
  import opened AdmissionContext
  import opened AdmissionCommands
  import opened AdmissionJournal
  import opened AdmissionInvariant

  /** The command that completes an operation. */
  function Completion(op: Operation): Command {
    if op.kind.RemovePreparedSecret? then OfOperation(CmdCompleteSecretRemoval(op.id))
    else OfPhase(CmdCompleteIntent(op.id))
  }

  // ----- a pending operation freezes the phase -----

  lemma PhaseCommandsFrozen(d: Document, c: PhaseCommand)
    requires d.operation.Some?
    ensures UpdatePhase(d, c).Written? ==>
            c == CmdCompleteIntent(d.operation.value.id) && !d.operation.value.kind.RemovePreparedSecret?
  {
    hide CleanGate;
    hide SuccessGate;
    hide LegacyFailureOk;
    hide LegacyAuthoritiesOk;
    hide LegacyWorkersOk;
    hide LegacyResumeOk;
  }

  lemma OperationCommandsFrozen(d: Document, c: OperationCommand)
    requires d.operation.Some?
    ensures UpdateOperation(d, c).Written? ==>
              c == CmdCompleteSecretRemoval(d.operation.value.id) && d.operation.value.kind.RemovePreparedSecret?
  {
    hide SuccessGate;
  }

  lemma OthersFrozen(d: Document, c: Command)
    requires !c.OfPhase? && !c.OfOperation? && Update(d, c).Written?
    ensures Update(d, c).document.operation == d.operation && Update(d, c).document.phase == d.phase
  {
    hide UpdateResource;
    hide UpdatePlan;
    hide UpdateVision;
    hide UpdatePipeline;
    match c {
      case OfResource(r) => ResourceFrame(d, r);
      case OfPlan(p) => PlanFrame(d, p);
      case OfVision(v) => VisionFrame(d, v);
      case OfPipeline(p) => PipelineFrame(d, p);
    }
  }

  /** Whatever is written while an operation is pending keeps it pending in the same phase, or completes it. */
  lemma PendingFrozen(d: Document, c: Command)
    requires d.operation.Some? && Update(d, c).Written?
    ensures c == Completion(d.operation.value)
            || (Update(d, c).document.operation == d.operation && Update(d, c).document.phase == d.phase)
  {
    hide UpdatePhase;
    hide UpdateOperation;
    hide UpdateResource;
    hide UpdatePlan;
    hide UpdateVision;
    hide UpdatePipeline;
    match c {
      case OfPhase(p) => PhaseCommandsFrozen(d, p);
      case OfOperation(o) => OperationCommandsFrozen(d, o);
      case _ => OthersFrozen(d, c);
    }
  }

  // ----- completing a promotion -----

  /** The document after a promotion. */
  function Promoted(d: Document, target: Phase): Document {
    d.(operation := None, phase := target, promotion := ExpectedPromotion(target, None))
  }

  predicate Promotes(kind: OperationKind) {
    !kind.RemovePreparedSecret?
  }

  lemma PromotionSetsPhase(d: Document, kind: OperationKind)
    requires Promotes(kind) && d.phase == IntentPhase(kind) && d.operation.None?
    requires d.promotion == ExpectedPromotion(d.phase, None)
    requires d.phase in FORWARD_MILESTONES ==> SuccessGate(d.registered)
    ensures SetPhase(d, IntentTarget(kind), None) == Some(Promoted(d, IntentTarget(kind)))
  {
    hide CleanGate;
    hide SuccessGate;
  }

  lemma PromotionMilestones(d: Document, kind: OperationKind)
    requires Promotes(kind) && d.phase == IntentPhase(kind) && d.outcome.None? && MilestonesOk(d)
    requires RetiringOk(d.phase, d.outcome, d.retiringOutcome)
    ensures FlagsAndMilestones(Promoted(d, IntentTarget(kind)))
  {
  }

  lemma PromotionValid(d: Document, kind: OperationKind)
    requires Inv(d) && Promotes(kind) && d.phase == IntentPhase(kind)
    ensures Valid(Promoted(d, IntentTarget(kind)))
  {
    hide AuthoritiesOk;
    hide AuthorityStatesOk;
    hide PreparedSecretsOk;
    hide MilestonesOk;
    hide FlagsAndMilestones;
    hide PipelineSettled;
    PromotionMilestones(d, kind);
    SettledMove(d, Promoted(d, IntentTarget(kind)));
  }

  lemma InvFacts(d: Document)
    requires Inv(d)
    ensures d.phase in FORWARD_MILESTONES ==> SuccessGate(d.registered)
    ensures d.promotion == ExpectedPromotion(d.phase, d.outcome)
    ensures d.phase.Done? <==> d.outcome.Some?
    ensures OperationOk(d)
  {
    hide SuccessGate;
    hide CleanGate;
    hide OperationOk;
  }

  /** A pending promotion can always be completed. */
  lemma PromotionCompletes(d: Document)
    requires Inv(d) && d.operation.Some? && Promotes(d.operation.value.kind)
    ensures Apply(d, Completion(d.operation.value)) == Some(Promoted(d, d.operation.value.targetPhase))
    ensures Valid(Promoted(d, d.operation.value.targetPhase))
  {
    hide Inv;
    hide Valid;
    hide SetPhase;
    hide SuccessGate;
    InvFacts(d);
    var op := d.operation.value;
    PromotionValid(d, op.kind);
    PromotionSetsPhase(d.(operation := None), op.kind);
  }

  /** Announcing and completing a promotion equals the direct transition. */
  lemma IntentEqualsTransition(d: Document, kind: OperationKind, identity: Identity, id: string)
    requires Inv(d) && Apply(d, OfOperation(CmdIntent(kind, identity, id))).Some?
    ensures var announced := Apply(d, OfOperation(CmdIntent(kind, identity, id))).value;
            && announced.operation == Some(Operation(id, kind, IntentTarget(kind), identity))
            && Apply(announced, OfPhase(CmdCompleteIntent(id))).Some?
            && Apply(announced, OfPhase(CmdCompleteIntent(id)))
                == Apply(d, OfPhase(CmdTransition(IntentTarget(kind), None)))
  {
    hide Inv;
    hide Valid;
    hide SetPhase;
    hide SuccessGate;
    InvFacts(d);
    var announced := Apply(d, OfOperation(CmdIntent(kind, identity, id))).value;
    assert announced == d.(operation := Some(Operation(id, kind, IntentTarget(kind), identity)));
    UpdateKeeps(d, OfOperation(CmdIntent(kind, identity, id)));
    PromotionCompletes(announced);
    PromotionSetsPhase(d, kind);
  }

  // ----- completing a secret removal -----

  lemma WithoutKeepsDistinct(refs: seq<SecretRef>, ref: SecretRef)
    requires SecretRefsOk(refs)
    ensures SecretRefsOk(Without(refs, ref))
  {
    var rest := Without(refs, ref);
    forall i, j | 0 <= i < j < |rest|
      ensures && rest[i].name != rest[j].name
              && rest[i].dockerSecretId != rest[j].dockerSecretId
              && (rest[i].service, rest[i].generation,
                  rest[i].purpose) != (rest[j].service, rest[j].generation, rest[j].purpose)
    {
      var i', j' := WithoutIsSublist(refs, ref, i, j);
    }
  }

  /** Dropping prepared secrets and the operation from a valid aborting document keeps it valid. */
  lemma FewerSecretsValid(d: Document, n: Document)
    requires Valid(d) && d.phase.Aborting?
    requires n == d.(preparedSecrets := n.preparedSecrets, operation := None)
    requires SecretRefsOk(n.preparedSecrets) && forall ref :: ref in n.preparedSecrets ==> ref in d.preparedSecrets
    ensures Valid(n)
  {
    hide AuthoritiesOk;
    hide PreparedSecretsOk;
    hide MilestonesOk;
    hide BaselineOk;
    hide FailedForwardOk;
    hide ForwardOk;
    hide RollbackOk;
    hide RegisteredOk;
    hide VisionJobsOk;
    hide RetirementsOk;
    hide AbortAuthoritiesOk;
    hide SecretRefsOk;
    assert SameContext(d, n);
    AuthoritiesTransfer(d, n);
    PreparedSecretsTransfer(d, n);
    assert AuthorityStatesOk(n);
    assert MilestonesOk(n) by { AbortingMilestones(d, n); }
  }

  lemma AbortingMilestones(d: Document, n: Document)
    requires MilestonesOk(d) && d.phase.Aborting?
    requires n == d.(preparedSecrets := n.preparedSecrets, operation := None)
    ensures MilestonesOk(n)
  {
  }

  predicate Removes(d: Document, op: Operation, ref: SecretRef) {
    op.identity == SecretRefIdentity(ref) && ref in d.preparedSecrets
  }

  lemma RemovalUpdates(d: Document) returns (ref: SecretRef)
    requires OperationOk(d) && d.operation.Some? && d.operation.value.kind.RemovePreparedSecret?
    requires forall i, j :: 0 <= i < j < |d.preparedSecrets| ==> d.preparedSecrets[i] != d.preparedSecrets[j]
    ensures Removes(d, d.operation.value, ref)
    ensures CompleteSecretRemoval(d, d.operation.value.id)
            == Written(d.(preparedSecrets := Without(d.preparedSecrets, ref), operation := None))
  {
    var op := d.operation.value;
    var only := Sole(d.preparedSecrets, (r: SecretRef) => SecretRefIdentity(r) == op.identity);
    ref := d.preparedSecrets[only.value];
    var named := Sole(d.preparedSecrets, (r: SecretRef) => NamesSecret(op.identity, r));
    assert NamesSecret(op.identity, ref);
    assert forall r: SecretRef :: NamesSecret(op.identity, r) <==> r == ref;
    assert named == Some(only.value);
  }

  /** A pending removal can always be completed, and drops exactly the announced secret. */
  lemma RemovalCompletes(d: Document) returns (ref: SecretRef)
    requires Inv(d) && d.operation.Some? && d.operation.value.kind.RemovePreparedSecret?
    ensures Removes(d, d.operation.value, ref)
    ensures Apply(d, Completion(d.operation.value))
            == Some(d.(preparedSecrets := Without(d.preparedSecrets, ref), operation := None))
  {
    hide Valid;
    hide PipelineSettled;
    hide CompleteSecretRemoval;
    hide SecretRefsOk;
    InvFacts(d);
    InvSecrets(d);
    ref := RemovalUpdates(d);
    WithoutKeepsDistinct(d.preparedSecrets, ref);
    FewerSecretsValid(d, d.(preparedSecrets := Without(d.preparedSecrets, ref), operation := None));
  }

  lemma InvSecrets(d: Document)
    requires Inv(d)
    ensures SecretRefsOk(d.preparedSecrets)
    ensures forall i, j :: 0 <= i < j < |d.preparedSecrets| ==> d.preparedSecrets[i] != d.preparedSecrets[j]
  {
  }

  // ----- over whole runs -----

  lemma CompletionAccepted(d: Document)
    requires Inv(d) && d.operation.Some?
    ensures Apply(d, Completion(d.operation.value)).Some?
  {
    hide Inv;
    hide Apply;
    if d.operation.value.kind.RemovePreparedSecret? {
      var ref := RemovalCompletes(d);
    } else {
      PromotionCompletes(d);
    }
  }

  /** After any submissions other than its own completion, an accepted operation is still pending, in the
      same phase, and completing it succeeds. */
  lemma {:induction false} IntentIsNeverStuck(j: Journal, submissions: seq<Submission>)
    requires Inv(j.document) && j.document.operation.Some?
    requires forall s :: s in submissions ==> s.command != Completion(j.document.operation.value)
    ensures Run(j, submissions).document.operation == j.document.operation
    ensures Run(j, submissions).document.phase == j.document.phase
    ensures Apply(Run(j, submissions).document, Completion(j.document.operation.value)).Some?
    decreases |submissions|
  {
    hide Inv;
    hide Apply;
    hide Update;
    hide Valid;
    if submissions == [] {
      CompletionAccepted(j.document);
    } else {
      var s := submissions[0];
      if Update(j.document, s.command).Written? {
        PendingFrozen(j.document, s.command);
      }
      AfterKeeps(j, s);
      IntentIsNeverStuck(After(j, s), submissions[1..]);
    }
  }
}
