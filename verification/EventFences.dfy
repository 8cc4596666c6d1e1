/**
 What a lease and a claim are worth. A transaction that sends an event works under the latest
 lease of its service and a standing claim until it ends; once the lease or the claim is over
 it is over for good, and no worker prepares or acknowledges anything under it; and an event
 that is prepared again is the one prepared before.
 */
module EventFences {
  import opened Common
  import opened EventEmission

  predicate InTransaction(pc: Pc) {
    pc.Loaded? || pc.Appended? || pc.Marked?
  }

  predicate Latest(s: State, lease: Lease) {
    lease.service in s.leases && s.leases[lease.service].epoch == lease.epoch
  }

  /** The transaction's row is under its process's lease, the latest one, with the claim standing. */
  predicate Backed(s: State, p: Proc) {
    InTransaction(p.pc) ==>
      && p.pc.emission in s.rows && Latest(s, p.lease)
      && s.rows[p.pc.emission].attestation in s.claims
      && s.claims[s.rows[p.pc.emission].attestation] == Claim(p.lease, Standing)
  }

  predicate AllBacked(s: State) {
    forall p :: p in s.procs ==> Backed(s, s.procs[p])
  }

  /** A registration waits for the transactions of the lease it replaces, and a claim for those that hold its row. */
  lemma WorldLeavesBacked(s: State, step: Step, p: ProcId)
    requires AllBacked(s) && OfWorld(step) && p in s.procs
    ensures p in Next(s, step).procs && Backed(Next(s, step), Next(s, step).procs[p])
  {
    ProcsMove(s, step, p);
    assert Backed(s, s.procs[p]);
    if InTransaction(s.procs[p].pc) {
      assert LocksRow(s.procs[p], s.procs[p].pc.emission);
      assert LeaseShared(s, s.procs[p].lease);
    }
    hide AllBacked;
    hide LeaseShared;
  }

  lemma ProcsLeaveBacked(s: State, step: Step, p: ProcId)
    requires AllBacked(s) && !OfWorld(step) && step.id != p && p in s.procs
    ensures p in Next(s, step).procs && Backed(Next(s, step), Next(s, step).procs[p])
  {
    ProcsMove(s, step, p);
    Grows(s, step);
    assert Backed(s, s.procs[p]);
    StartsLeaveClaims(s, step);
    hide Next;
    hide AllBacked;
  }

  lemma StartsLeaveClaims(s: State, step: Step)
    requires !OfWorld(step)
    ensures Next(s, step).leases == s.leases
    ensures forall a :: a in s.claims ==> a in Next(s, step).claims && Next(s, step).claims[a] == s.claims[a]
  {
    if !step.Start? {
      ProcsLeaveLeases(s, step);
      hide Next;
    }
  }

  lemma OwnBacked(s: State, step: Step)
    requires AllBacked(s) && !OfWorld(step) && step.id in Next(s, step).procs
    ensures Backed(Next(s, step), Next(s, step).procs[step.id])
  {
    hide PrepareRow;
    hide RowFree;
    if step.id in s.procs {
      assert Backed(s, s.procs[step.id]);
    }
    if step.Prepare? && step.id in s.procs && s.procs[step.id].role.Delivery? {
      PrepareMoves(s, step);
    }
    hide AllBacked;
  }

  lemma BackedStep(s: State, step: Step)
    requires AllBacked(s)
    ensures AllBacked(Next(s, step))
  {
    hide Backed;
    var n := Next(s, step);
    hide Next;
    forall p | p in n.procs
      ensures Backed(n, n.procs[p])
    {
      if !OfWorld(step) && step.id == p {
        OwnBacked(s, step);
      } else {
        ProcsMove(s, step, p);
        if OfWorld(step) {
          WorldLeavesBacked(s, step, p);
        } else {
          ProcsLeaveBacked(s, step, p);
        }
      }
    }
  }

  /** In every run an open transaction works under the latest lease of its service and a standing claim. */
  lemma {:induction false} TransactionsAreBacked(s: State, steps: seq<Step>)
    requires AllBacked(s)
    ensures AllBacked(Run(s, steps))
    decreases |steps|
  {
    hide AllBacked;
    hide Next;
    if steps != [] {
      BackedStep(s, steps[0]);
      TransactionsAreBacked(Next(s, steps[0]), steps[1..]);
    }
  }

  // ----- leases and claims end for good -----

  lemma {:induction false} OverStays(s: State, steps: seq<Step>, lease: Lease)
    requires Issued(s, lease) && !Current(s, lease)
    ensures Issued(Run(s, steps), lease) && !Current(Run(s, steps), lease)
    decreases |steps|
  {
    hide Next;
    hide Issued;
    hide Current;
    if steps != [] {
      LeasesMove(s, steps[0]);
      OverStays(Next(s, steps[0]), steps[1..], lease);
    }
  }

  /** A lease that lapses, or is replaced while no transaction works under it, is never current again. */
  lemma LeaseEndsForGood(s: State, lease: Lease, end: Step, steps: seq<Step>)
    requires Current(s, lease)
    requires end == Lapse(lease.service) || (end == Register(lease.service) && !LeaseShared(s, lease))
    ensures !Current(Run(s, [end] + steps), lease)
  {
    var n := Next(s, end);
    assert Issued(n, lease) && !Current(n, lease);
    assert ([end] + steps)[1..] == steps;
    OverStays(n, steps, lease);
    hide Next;
  }

  lemma {:induction false} EndedStays(s: State, steps: seq<Step>, a: AttestationId)
    requires a in s.claims && s.claims[a].standing.Ended?
    ensures a in Run(s, steps).claims && Run(s, steps).claims[a].standing.Ended?
    decreases |steps|
  {
    hide Next;
    if steps != [] {
      LeasesMove(s, steps[0]);
      EndedStays(Next(s, steps[0]), steps[1..], a);
    }
  }

  /** A claim that ends while nobody holds its row stays ended. */
  lemma ClaimEndsForGood(s: State, a: AttestationId, steps: seq<Step>)
    requires a in s.claims && ClaimFree(s, a)
    ensures var n := Run(s, [SetClaim(a, Ended)] + steps); a in n.claims && n.claims[a].standing.Ended?
  {
    var end := SetClaim(a, Ended);
    var n := Next(s, end);
    hide ClaimFree;
    assert a in n.claims && n.claims[a].standing.Ended?;
    assert ([end] + steps)[1..] == steps;
    EndedStays(n, steps, a);
    hide Next;
  }

  // ----- nothing is done under a lease or a claim that is over -----

  /** No worker may act for the attestation any more. */
  predicate Over(s: State, a: AttestationId) {
    && a in s.claims && Issued(s, s.claims[a].lease)
    && (!Current(s, s.claims[a].lease) || s.claims[a].standing.Ended?)
  }

  lemma OverKept(s: State, step: Step, a: AttestationId)
    requires Over(s, a)
    ensures Over(Next(s, step), a)
  {
    hide Next;
    LeasesMove(s, step);
  }

  lemma OverPreparesNothing(s: State, step: Step, a: AttestationId)
    requires Over(s, a) && RowOf(s, a) == {}
    ensures RowOf(Next(s, step), a) == {}
  {
    var n := Next(s, step);
    hide Next;
    hide RowFree;
    RowsMove(s, step);
    assert forall e :: e in s.rows && s.rows[e].attestation == a ==> e in RowOf(s, a);
  }

  lemma OverAcknowledgesNothing(s: State, step: Step, a: AttestationId)
    requires Over(s, a) && a !in s.acked && !step.ResolveRow?
    ensures a !in Next(s, step).acked
  {
    hide PrepareRow;
    hide RowFree;
    hide MayLoad;
    hide ClaimFree;
    hide LeaseShared;
    if step.Prepare? && step.id in s.procs && s.procs[step.id].role.Delivery? {
      PrepareMoves(s, step);
    }
  }

  /** Whether a process of the attestation's task is there. */
  predicate Delivers(s: State, p: ProcId, a: AttestationId) {
    p in s.procs && s.procs[p].role == Delivery(a)
  }

  lemma OverStartsNothing(s: State, step: Step, a: AttestationId, p: ProcId)
    requires Over(s, a) && !Delivers(s, p, a)
    ensures !Delivers(Next(s, step), p, a)
  {
    if step.Start? {
      hide Issued;
    } else {
      RolesStay(s, step, p);
      hide Next;
    }
  }

  lemma RolesStay(s: State, step: Step, p: ProcId)
    requires !step.Start?
    ensures p in Next(s, step).procs ==> p in s.procs && Next(s, step).procs[p].role == s.procs[p].role
  {
    hide PrepareRow;
    hide MayAct;
    hide RowFree;
    hide MayLoad;
    hide ClaimFree;
    hide LeaseShared;
    if step.Prepare? && step.id in s.procs && s.procs[step.id].role.Delivery? {
      PreparerKeepsRole(s, step);
    }
  }

  lemma PreparerKeepsRole(s: State, step: Step)
    requires step.Prepare? && step.id in s.procs && s.procs[step.id].role.Delivery?
    ensures var n := PrepareRow(s, step.id, s.procs[step.id].role.attestation, step.event, step.newId, step.reported);
            && n.procs.Keys == s.procs.Keys
            && forall p :: p in s.procs ==> n.procs[p].role == s.procs[p].role
  {
    hide MayAct;
    hide RowOf;
  }

  /**
   Once an attestation's lease or claim is over, no run starts a delivery or prepares an event
   for it, and no worker acknowledges its task.
   */
  lemma {:induction false} WorkersAreFenced(s: State, steps: seq<Step>, a: AttestationId)
    requires Over(s, a)
    ensures Over(Run(s, steps), a)
    ensures RowOf(s, a) == {} ==> RowOf(Run(s, steps), a) == {}
    ensures forall p :: Delivers(Run(s, steps), p, a) ==> Delivers(s, p, a)
    ensures a !in s.acked && (forall i :: 0 <= i < |steps| ==> !steps[i].ResolveRow?) ==> a !in Run(s, steps).acked
    decreases |steps|
  {
    hide Next;
    hide Over;
    hide RowOf;
    hide Delivers;
    if steps != [] {
      OverKept(s, steps[0], a);
      forall p | !Delivers(s, p, a)
        ensures !Delivers(Next(s, steps[0]), p, a)
      {
        OverStartsNothing(s, steps[0], a, p);
      }
      if RowOf(s, a) == {} {
        OverPreparesNothing(s, steps[0], a);
      }
      if a !in s.acked && !steps[0].ResolveRow? {
        OverAcknowledgesNothing(s, steps[0], a);
      }
      WorkersAreFenced(Next(s, steps[0]), steps[1..], a);
    }
  }

  // ----- preparing again -----

  /**
   A delivery whose preparation was not reported, or which gave up sending, prepares again:
   the same event under the same lease finds its row, and anything else changes nothing.
   */
  lemma PreparedOnce(s: State, p: ProcId, e: EmissionId, event: Event, newId: EmissionId)
    requires Sound(s) && p in s.procs && s.procs[p].role.Delivery? && s.procs[p].pc.Running? && e in s.rows
    requires s.rows[e].attestation == s.procs[p].role.attestation
    ensures var n := Next(s, Prepare(p, event, newId, true));
            && (n != s <==>
                  && event == s.rows[e].event && newId == e && s.rows[e].lease == s.procs[p].lease
                  && MayAct(s, s.procs[p].lease, s.rows[e].attestation) && s.rows[e].attestation !in s.acked)
            && (n != s ==>
                  && n == s.(procs := n.procs) && p in n.procs && n.procs == s.procs[p := n.procs[p]]
                  && n.procs[p] == Proc(s.procs[p].role, s.procs[p].lease, Sending(e), Some(event)))
  {
    OneRow(s, e);
    hide Sound;
    hide MayAct;
    hide RowOf;
    var n := Next(s, Prepare(p, event, newId, true));
    if n.procs != s.procs {
      assert n != s;
    }
    assert p in n.procs;
  }

  lemma OneRow(s: State, e: EmissionId)
    requires Sound(s) && e in s.rows
    ensures RowOf(s, s.rows[e].attestation) == {e}
  {
    hide ProcsOk;
    hide AckedOk;
    hide LeasesOk;
    hide Keyed;
  }
}
