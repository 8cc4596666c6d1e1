/**
 The rollback path. Allocating the attempt may bring the baseline's control plane back into
 play, and authorities provisioned for the forward then count as the rollback's: this is
 refused exactly when two of them serve one service or one of their secrets has another
 name. Once allocated, every rollback can be carried to its end.
 */
module AdmissionRollback {
  import opened Common
  import opened AdmissionTypes
  import opened AdmissionValidator
  import opened AdmissionContext
  import opened AdmissionCommands
  import opened AdmissionJournal
  import opened AdmissionInvariant
  import opened AdmissionNamespace
  import opened AdmissionRetire
  import opened AdmissionSteps
  import opened AdmissionFinish

  // ----- allocation -----

  function Allocated(d: Document): Document {
    d.(rollback := d.rollback.(attempt := 1, namespace := Some(AllocatedNamespace(d.transactionId)),
                               markerGeneration := Some(AllocatedMarker(d.transactionId))))
  }

  /** The rollback has chosen the control plane of the baseline. */
  predicate Reuses(d: Document) {
    d.rollback.control.Some? && d.rollback.control == d.baseline.control
  }

  /** An authority that the reused control plane claims for the rollback. */
  predicate Claimed(d: Document, a: Authority)
    requires Reuses(d)
  {
    && a.kind.RuntimeKind? && a.service in RUNTIME_SERVICES
    && a.controlImage == d.rollback.control.value.image && a.controlGeneration == d.rollback.control.value.generation
    && ServiceExisted(d.baseline.services, a.service) && ServiceExisted(d.failedForward.services, a.service)
    && !PlansWorker(d.forward.workers, a.service, a.generation)
  }

  /** The name a rollback worker's secret must have. */
  predicate NamedForRollback(ref: SecretRef) {
    || (ref.purpose == "database" && ref.name == "vp-wr-" + WorkerShortName(ref.service) + "-db-" + ref.generation)
    || (ref.purpose == "admission"
        && ref.name == "vp-wr-" + WorkerShortName(ref.service) + "-admission-" + ref.generation)
  }

  /** What a reused control plane demands of what is there already. */
  predicate ClaimsFit(d: Document)
    requires Reuses(d)
  {
    && (forall i, j :: 0 <= i < j < |d.authorities| && Claimed(d, d.authorities[i]) && Claimed(d, d.authorities[j]) ==>
          d.authorities[i].service != d.authorities[j].service)
    && (forall k, i :: 0 <= k < |d.preparedSecrets| && 0 <= i < |d.authorities| && Claimed(d, d.authorities[i])
                       && d.authorities[i].service == d.preparedSecrets[k].service
                       && d.authorities[i].generation == d.preparedSecrets[k].generation ==>
          NamedForRollback(d.preparedSecrets[k]))
  }

  /** A rollback that has not been allocated yet. */
  predicate Unallocated(d: Document) {
    d.phase.RollbackPreparing? && d.rollback.attempt == 0 && d.rollback.workers == [] && d.outcome.None?
    && d.baseline.captured && d.failedForward.captured
  }

  lemma AllocatedControl(d: Document)
    requires Unallocated(d)
    ensures RollbackControl(d).None?
    ensures RollbackControl(Allocated(d)) == if Reuses(d) then d.rollback.control else None
  {
    hide AllocatedNamespace;
  }

  lemma AllocatedClaims(d: Document, a: Authority)
    requires Unallocated(d)
    ensures !IsRollbackAuthority(d, a)
    ensures IsRollbackAuthority(Allocated(d), a) <==> Reuses(d) && Claimed(d, a)
  {
    AllocatedControl(d);
    hide RollbackControl;
    hide AllocatedNamespace;
    hide AllocatedMarker;
  }

  /** A claimed authority meets the rules of the control plane that claims it. */
  lemma AllocatedEntries(d: Document, a: Authority)
    requires Unallocated(d) && AuthorityEntryOk(d, a)
    ensures AuthorityEntryOk(Allocated(d), a)
  {
    AllocatedClaims(d, a);
    hide IsRollbackAuthority;
    hide AllocatedNamespace;
    hide AllocatedMarker;
  }

  lemma AllocatedAuthorities(d: Document)
    requires Unallocated(d) && AuthoritiesOk(d)
    ensures AuthoritiesOk(Allocated(d)) <==>
            (Reuses(d) ==>
               forall i, j ::
                 (0 <= i < j < |d.authorities| && Claimed(d, d.authorities[i]) && Claimed(d, d.authorities[j])) ==>
                   d.authorities[i].service != d.authorities[j].service)
  {
    var n := Allocated(d);
    forall i | 0 <= i < |d.authorities|
      ensures AuthorityEntryOk(n, d.authorities[i])
    {
      AllocatedEntries(d, d.authorities[i]);
    }
    forall i, j | 0 <= i < j < |d.authorities|
      ensures AuthorityPairOk(n, d.authorities[i], d.authorities[j]) <==>
              !(Reuses(d) && Claimed(d, d.authorities[i]) && Claimed(d, d.authorities[j])
                && d.authorities[i].service == d.authorities[j].service)
    {
      assert AuthorityPairOk(d, d.authorities[i], d.authorities[j]);
      AllocatedClaims(d, d.authorities[i]);
      AllocatedClaims(d, d.authorities[j]);
      hide IsRollbackAuthority;
      hide Claimed;
      hide AllocatedNamespace;
      hide AllocatedMarker;
    }
    hide AuthorityEntryOk;
    hide AuthorityPairOk;
    hide Claimed;
    hide AllocatedNamespace;
    hide AllocatedMarker;
  }

  /** An authority that backs a secret and is claimed. */
  predicate ClaimedFor(d: Document, a: Authority, ref: SecretRef) {
    Reuses(d) && Claimed(d, a) && a.service == ref.service && a.generation == ref.generation
  }

  lemma AllocatedBacking(d: Document, ref: SecretRef, a: Authority)
    requires Unallocated(d)
    ensures Backs(Allocated(d), a, ref) <==> Backs(d, a, ref) && !(Reuses(d) && Claimed(d, a))
  {
    AllocatedClaims(d, a);
    hide IsRollbackAuthority;
    hide Claimed;
  }

  lemma ClaimedBacks(d: Document, a: Authority, ref: SecretRef)
    requires Unallocated(d) && ClaimedFor(d, a, ref) && a.state.Provisioned?
    ensures Backs(d, a, ref) && !IsCutoverSecret(d, ref) && ref.service in RUNTIME_SERVICES
    ensures ref.service != MARKER_SERVICE
  {
    AllocatedClaims(d, a);
    hide IsRollbackAuthority;
    RuntimeIsNeither(ref.service);
  }

  lemma RuntimeIsNeither(service: string)
    requires service in RUNTIME_SERVICES
    ensures service != CONTROL_SERVICE && service != MARKER_SERVICE && service != "vision-cutover"
  {
    assert |CONTROL_SERVICE| == 17 && |MARKER_SERVICE| == 27 && |"vision-cutover"| == 14;
    assert |service| == 25 || |service| == 26 || |service| == 22;
  }

  lemma NoRollbackSecretYet(d: Document, ref: SecretRef)
    requires Unallocated(d)
    ensures !IsRollbackSecret(d, ref)
  {
    AllocatedControl(d);
    hide RollbackControl;
    hide IsRollbackWorkerSecret;
  }

  /** A claimed authority's secret counts as the rollback's exactly under the rollback's name. */
  lemma ClaimedSecret(d: Document, i: nat, ref: SecretRef)
    requires Unallocated(d) && i < |d.authorities| && ClaimedFor(d, d.authorities[i], ref)
    requires d.authorities[i].state.Provisioned?
    ensures IsRollbackSecret(Allocated(d), ref) <==> NamedForRollback(ref)
  {
    AllocatedControl(d);
    AllocatedClaims(d, d.authorities[i]);
    ClaimedBacks(d, d.authorities[i], ref);
    hide IsRollbackAuthority;
    hide RollbackControl;
    hide Claimed;
    hide AllocatedNamespace;
    hide AllocatedMarker;
    hide WorkerShortName;
  }

  lemma ClaimedCase(d: Document, i: nat, ref: SecretRef)
    requires Unallocated(d) && AuthoritiesOk(d) && i < |d.authorities| && d.authorities[i].state.Provisioned?
    requires ClaimedFor(d, d.authorities[i], ref)
    ensures PreparedSecretOk(Allocated(d), ref) <==> NamedForRollback(ref)
  {
    var n := Allocated(d);
    ClaimedBacks(d, d.authorities[i], ref);
    ClaimedSecret(d, i, ref);
    forall j | 0 <= j < |d.authorities|
      ensures !Backs(n, d.authorities[j], ref)
    {
      AllocatedBacking(d, ref, d.authorities[j]);
      if i < j {
        assert AuthorityPairOk(d, d.authorities[i], d.authorities[j]);
      } else if j < i {
        assert AuthorityPairOk(d, d.authorities[j], d.authorities[i]);
      }
    }
    hide Backs;
    hide IsRollbackSecret;
    hide Claimed;
    hide NamedForRollback;
    hide AllocatedNamespace;
    hide AllocatedMarker;
  }

  lemma UnclaimedCase(d: Document, ref: SecretRef)
    requires Unallocated(d) && PreparedSecretOk(d, ref)
    requires forall i :: 0 <= i < |d.authorities| ==> !ClaimedFor(d, d.authorities[i], ref)
    ensures PreparedSecretOk(Allocated(d), ref)
  {
    var n := Allocated(d);
    NoRollbackSecretYet(d, ref);
    hide IsRollbackSecret;
    forall j | 0 <= j < |d.authorities|
      ensures Backs(n, d.authorities[j], ref) <==> Backs(d, d.authorities[j], ref)
    {
      AllocatedBacking(d, ref, d.authorities[j]);
      assert !ClaimedFor(d, d.authorities[j], ref);
    }
    hide Backs;
    hide ClaimedFor;
    hide AllocatedNamespace;
    hide AllocatedMarker;
  }

  lemma AllocatedSecret(d: Document, ref: SecretRef)
    requires Unallocated(d) && AuthoritiesOk(d) && PreparedSecretOk(d, ref)
    requires forall i :: 0 <= i < |d.authorities| ==> d.authorities[i].state.Provisioned?
    ensures PreparedSecretOk(Allocated(d), ref) <==>
            forall i :: 0 <= i < |d.authorities| && ClaimedFor(d, d.authorities[i], ref) ==> NamedForRollback(ref)
  {
    hide PreparedSecretOk;
    hide NamedForRollback;
    hide ClaimedFor;
    hide AuthoritiesOk;
    if i :| 0 <= i < |d.authorities| && ClaimedFor(d, d.authorities[i], ref) {
      ClaimedCase(d, i, ref);
    } else {
      UnclaimedCase(d, ref);
    }
  }

  /** An allocation that fits or reuses nothing. */
  predicate MayAllocate(d: Document) {
    Reuses(d) ==> ClaimsFit(d)
  }

  lemma AllocatedSecrets(d: Document)
    requires Unallocated(d) && AuthoritiesOk(d) && PreparedSecretsOk(d)
    requires forall i :: 0 <= i < |d.authorities| ==> d.authorities[i].state.Provisioned?
    ensures PreparedSecretsOk(Allocated(d)) <==>
            forall k, i :: (&& 0 <= k < |d.preparedSecrets| && 0 <= i < |d.authorities|
                            && ClaimedFor(d, d.authorities[i], d.preparedSecrets[k])) ==>
              NamedForRollback(d.preparedSecrets[k])
  {
    forall k | 0 <= k < |d.preparedSecrets|
      ensures PreparedSecretOk(Allocated(d), d.preparedSecrets[k]) <==>
              forall i :: 0 <= i < |d.authorities| && ClaimedFor(d, d.authorities[i], d.preparedSecrets[k]) ==>
                NamedForRollback(d.preparedSecrets[k])
    {
      AllocatedSecret(d, d.preparedSecrets[k]);
    }
    hide PreparedSecretOk;
    hide NamedForRollback;
    hide ClaimedFor;
    hide AuthoritiesOk;
    hide SecretRefsOk;
    hide AllocatedNamespace;
    hide AllocatedMarker;
  }

  lemma PreparingRollback(d: Document)
    requires Inv(d) && d.phase.RollbackPreparing? && d.rollback.attempt == 0
    ensures Valid(d) && Unallocated(d) && d.operation.None?
    ensures forall i :: 0 <= i < |d.authorities| ==> d.authorities[i].state.Provisioned?
  {
    hide AuthoritiesOk;
    hide PreparedSecretsOk;
    hide VisionJobsOk;
    hide RetirementsOk;
    hide AllocatedNamespace;
    hide AllocatedMarker;
    assert RollbackControl(d).None?;
    hide RollbackControl;
  }

  lemma AllocatedStates(d: Document)
    requires Unallocated(d) && forall i :: 0 <= i < |d.authorities| ==> d.authorities[i].state.Provisioned?
    ensures AuthorityStatesOk(Allocated(d))
  {
    hide IsRollbackAuthority;
  }

  lemma AllocatedRollback(d: Document)
    requires RollbackOk(d.rollback) && TransactionIdOk(d.transactionId)
    ensures RollbackOk(Allocated(d).rollback)
  {
    AllocationFits(d.transactionId);
    hide AllocatedNamespace;
    hide AllocatedMarker;
    hide RollbackNamespaceOk;
    hide RollbackMarkerOk;
  }

  lemma AllocatedValid(d: Document)
    requires Valid(d) && Unallocated(d) && d.operation.None?
    ensures Valid(Allocated(d)) <==>
            AuthoritiesOk(Allocated(d)) && AuthorityStatesOk(Allocated(d)) && PreparedSecretsOk(Allocated(d))
  {
    AllocatedRollback(d);
    hide AllocatedNamespace;
    hide AllocatedMarker;
    hide AuthoritiesOk;
    hide AuthorityStatesOk;
    hide PreparedSecretsOk;
    hide RollbackOk;
    hide RegisteredOk;
    hide BaselineOk;
    hide FailedForwardOk;
    hide ForwardOk;
    hide VisionJobsOk;
    hide RetirementsOk;
    hide AbortAuthoritiesOk;
    hide RuntimeRedisOk;
    hide TransactionIdOk;
  }

  /**
   The attempt is accepted exactly when no baseline control plane is reused, or no two
   authorities it claims serve one service and every prepared secret of a claimed authority
   has the rollback's name for it.
   */
  lemma AllocationAccepted(d: Document)
    requires Inv(d) && d.phase.RollbackPreparing? && d.rollback.attempt == 0
    ensures Update(d, OfPlan(CmdAllocateRollback)) == Written(Allocated(d))
    ensures Valid(Allocated(d)) <==> MayAllocate(d)
  {
    hide Inv;
    hide Valid;
    hide Update;
    hide AuthoritiesOk;
    hide AuthorityStatesOk;
    hide PreparedSecretsOk;
    hide NamedForRollback;
    hide Claimed;
    hide AllocatedNamespace;
    hide AllocatedMarker;
    PreparingRollback(d);
    ValidAuthorities(d);
    AllocateIsPlan(d);
    AllocatedValid(d);
    AllocatedStates(d);
    AllocatedAuthorities(d);
    AllocatedSecrets(d);
  }

  lemma AllocateIsPlan(d: Document)
    requires d.phase.RollbackPreparing? && d.operation.None? && d.rollback.attempt == 0
    ensures Update(d, OfPlan(CmdAllocateRollback)) == Written(Allocated(d))
  {
    hide AllocatedNamespace;
    hide AllocatedMarker;
  }

  lemma ValidAuthorities(d: Document)
    requires Valid(d)
    ensures AuthoritiesOk(d) && PreparedSecretsOk(d)
  {
    hide AuthoritiesOk;
    hide PreparedSecretsOk;
  }

  // ----- provisioning what the rollback claims -----

  function Marked(d: Document, i: nat, state: AuthorityState): Document
    requires i < |d.authorities|
  {
    d.(authorities := d.authorities[i := d.authorities[i].(state := state)])
  }

  lemma MarkedContext(d: Document, i: nat, state: AuthorityState, a: Authority, b: Authority)
    requires i < |d.authorities| && b == a.(state := b.state)
    ensures SameContext(d, Marked(d, i, state))
    ensures IsRollbackAuthority(Marked(d, i, state), b) == IsRollbackAuthority(d, a)
  {
    var n := Marked(d, i, state);
    assert RollbackControl(n) == RollbackControl(d);
    hide RollbackControl;
  }

  lemma MarkedAuthorities(d: Document, i: nat, state: AuthorityState)
    requires i < |d.authorities| && AuthoritiesOk(d)
    ensures AuthoritiesOk(Marked(d, i, state))
  {
    hide IsRollbackAuthority;
    var n := Marked(d, i, state);
    forall j | 0 <= j < |n.authorities|
      ensures AuthorityEntryOk(n, n.authorities[j])
    {
      MarkedContext(d, i, state, d.authorities[j], n.authorities[j]);
      assert AuthorityEntryOk(d, d.authorities[j]);
    }
    forall j, k | 0 <= j < k < |n.authorities|
      ensures AuthorityPairOk(n, n.authorities[j], n.authorities[k])
    {
      MarkedContext(d, i, state, d.authorities[j], n.authorities[j]);
      MarkedContext(d, i, state, d.authorities[k], n.authorities[k]);
      assert AuthorityPairOk(d, d.authorities[j], d.authorities[k]);
    }
    hide AuthorityEntryOk;
    hide AuthorityPairOk;
  }

  lemma MarkedSecret(d: Document, i: nat, state: AuthorityState, ref: SecretRef)
    requires i < |d.authorities| && IsRollbackAuthority(d, d.authorities[i]) && !d.authorities[i].state.Provisioned?
    requires PreparedSecretOk(d, ref)
    ensures PreparedSecretOk(Marked(d, i, state), ref)
  {
    var n := Marked(d, i, state);
    forall j | 0 <= j < |d.authorities|
      ensures IsRollbackAuthority(n, n.authorities[j]) == IsRollbackAuthority(d, d.authorities[j])
    {
      MarkedContext(d, i, state, d.authorities[j], n.authorities[j]);
    }
    assert SameContext(d, n) by { MarkedContext(d, i, state, d.authorities[i], d.authorities[i]); }
    hide IsRollbackAuthority;
    hide RollbackControl;
    if IsRollbackSecret(d, ref) {
      MarkedWorkerSecret(d, n, i, state, ref);
    } else if IsBacked(d, ref) {
      var j :| 0 <= j < |d.authorities| && Backs(d, d.authorities[j], ref);
      assert Backs(n, n.authorities[j], ref);
    }
  }

  lemma MarkedWorkerSecret(d: Document, n: Document, i: nat, state: AuthorityState, ref: SecretRef)
    requires i < |d.authorities| && !d.authorities[i].state.Provisioned? && n == Marked(d, i, state)
    requires forall j :: 0 <= j < |d.authorities| ==>
            IsRollbackAuthority(n, n.authorities[j]) == IsRollbackAuthority(d, d.authorities[j])
    requires SameContext(d, n) && IsRollbackSecret(d, ref)
    ensures IsRollbackSecret(n, ref)
  {
    hide IsRollbackAuthority;
    hide RollbackControl;
    hide WorkerShortName;
    var workers := d.rollback.workers;
    if ref.service != MARKER_SERVICE && !exists k :: 0 <= k < |workers| && workers[k].service == ref.service {
      var j :| 0 <= j < |d.authorities| && IsRollbackAuthority(d, d.authorities[j])
               && d.authorities[j].service == ref.service && d.authorities[j].generation == ref.generation
               && d.authorities[j].state.Provisioned?;
      assert n.authorities[j] == d.authorities[j];
    }
  }

  lemma MarkedStates(d: Document, i: nat, state: AuthorityState)
    requires d.phase.RollbackPreparing? && i < |d.authorities| && IsRollbackAuthority(d, d.authorities[i])
    requires !state.Revoked?
    requires AuthorityStatesOk(d)
    ensures AuthorityStatesOk(Marked(d, i, state))
  {
    var n := Marked(d, i, state);
    forall j | 0 <= j < |n.authorities|
      ensures AuthorityStateOk(n, n.authorities[j])
    {
      MarkedContext(d, i, state, d.authorities[j], n.authorities[j]);
      assert AuthorityStateOk(d, d.authorities[j]);
      hide IsRollbackAuthority;
    }
    hide AuthorityStateOk;
  }

  lemma MarkedValid(d: Document, i: nat, state: AuthorityState)
    requires Valid(d) && d.phase.RollbackPreparing? && d.operation.None? && i < |d.authorities|
    requires IsRollbackAuthority(d, d.authorities[i]) && !d.authorities[i].state.Provisioned? && !state.Revoked?
    ensures Valid(Marked(d, i, state))
  {
    hide AuthoritiesOk;
    hide AuthorityStatesOk;
    hide PreparedSecretOk;
    hide SecretRefsOk;
    hide IsRollbackAuthority;
    hide RegisteredOk;
    hide BaselineOk;
    hide FailedForwardOk;
    hide ForwardOk;
    hide RollbackOk;
    hide VisionJobsOk;
    hide RetirementsOk;
    hide AllVerified;
    hide RuntimeRedisOk;
    hide TransactionIdOk;
    var n := Marked(d, i, state);
    MarkedAuthorities(d, i, state);
    MarkedStates(d, i, state);
    forall k | 0 <= k < |d.preparedSecrets|
      ensures PreparedSecretOk(n, d.preparedSecrets[k])
    {
      MarkedSecret(d, i, state, d.preparedSecrets[k]);
    }
  }

  /** The state one mark leads to. */
  function NextState(state: AuthorityState): AuthorityState {
    if state.Planned? then Provisioning else Provisioned
  }

  lemma MarkUpdates(d: Document, i: nat)
    requires d.phase.RollbackPreparing? && AuthoritiesOk(d) && i < |d.authorities|
    requires IsRollbackAuthority(d, d.authorities[i])
    requires (d.authorities[i].state.Planned? || d.authorities[i].state.Provisioning?)
    ensures var a := d.authorities[i];
            MarkAuthority(d, a.kind, a.service, a.generation, a.state.Provisioning?)
                == Written(Marked(d, i, NextState(a.state)))
  {
    hide IsRollbackAuthority;
    hide AuthorityEntryOk;
    hide Sole;
    var all, a := d.authorities, d.authorities[i];
    assert forall j :: 0 <= j < i ==> AuthorityPairOk(d, all[j], a);
    assert forall j :: i < j < |all| ==> AuthorityPairOk(d, a, all[j]);
    SoleIs(all, (b: Authority) => HasKey(b, a.kind, a.service, a.generation), i);
  }

  lemma MarkIsResource(d: Document, kind: AuthorityKind, service: string, generation: string, provisioned: bool)
    ensures Update(d, OfResource(CmdMarkAuthority(kind, service, generation, provisioned)))
            == MarkAuthority(d, kind, service, generation, provisioned)
  {
    hide MarkAuthority;
  }

  lemma MarkTakes(d: Document, i: nat) returns (c: Command)
    requires Valid(d) && d.phase.RollbackPreparing? && d.operation.None? && i < |d.authorities|
    requires IsRollbackAuthority(d, d.authorities[i])
    requires (d.authorities[i].state.Planned? || d.authorities[i].state.Provisioning?)
    ensures c.OfResource? && Takes(d, c, Marked(d, i, NextState(d.authorities[i].state)))
  {
    hide Valid;
    hide Update;
    hide IsRollbackAuthority;
    hide MarkAuthority;
    hide AuthoritiesOk;
    hide PreparedSecretsOk;
    var a := d.authorities[i];
    ValidAuthorities(d);
    MarkUpdates(d, i);
    MarkIsResource(d, a.kind, a.service, a.generation, a.state.Provisioning?);
    MarkedValid(d, i, NextState(a.state));
    c := OfResource(CmdMarkAuthority(a.kind, a.service, a.generation, a.state.Provisioning?));
  }

  /** Marks left until an authority is provisioned. */
  function MarksLeft(state: AuthorityState): nat {
    match state
    case Planned => 2
    case Provisioning => 1
    case _ => 0
  }

  /** Every authority the rollback claims can be provisioned. */
  lemma {:induction false} Provisions(d: Document, i: nat) returns (commands: seq<Command>, n: Document)
    requires Valid(d) && d.phase.RollbackPreparing? && d.operation.None? && i <= |d.authorities|
    requires forall k :: 0 <= k < i ==> d.authorities[k].state.Provisioned?
    ensures Valid(n) && Played(d, commands) == Some(n) && n == d.(authorities := n.authorities)
    ensures forall k :: 0 <= k < |n.authorities| ==> n.authorities[k].state.Provisioned?
    ensures forall k :: 0 <= k < |commands| ==> commands[k].OfResource?
    decreases |d.authorities| - i, if i < |d.authorities| then MarksLeft(d.authorities[i].state) else 0
  {
    hide Valid;
    hide Update;
    hide Played;
    hide IsRollbackAuthority;
    if i == |d.authorities| {
      NothingPlayed(d);
      commands, n := [], d;
    } else if d.authorities[i].state.Provisioned? {
      commands, n := Provisions(d, i + 1);
    } else {
      UnprovisionedIsClaimed(d, i);
      var c := MarkTakes(d, i);
      var m := Marked(d, i, NextState(d.authorities[i].state));
      NothingPlayed(d);
      PlayedMore(d, [], d, c, m);
      var rest;
      rest, n := Provisions(m, i);
      PlayedThen(d, [] + [c], m, rest);
      commands := [] + [c] + rest;
    }
  }

  lemma UnprovisionedIsClaimed(d: Document, i: nat)
    requires Valid(d) && d.phase.RollbackPreparing? && i < |d.authorities| && !d.authorities[i].state.Provisioned?
    ensures IsRollbackAuthority(d, d.authorities[i]) && !d.authorities[i].state.Revoked?
  {
    hide IsRollbackAuthority;
    assert AuthorityStateOk(d, d.authorities[i]);
  }
}
