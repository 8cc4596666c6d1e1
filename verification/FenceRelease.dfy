/**
 Giving up a lease. Once the row is marked released nothing is committed under its epoch
 any more, whatever transactions had read before; a lease whose renewal fails is closed and
 forgotten; and after either the next process can take the lead.
 */
module FenceRelease {
  import opened Common
  import opened LeaderAuthority
  import opened LeaderProtocol
  import opened QueueAuthority
  import opened ExecutionFence
  import opened FenceSafety
  import opened FenceProgress

  // ----- a released epoch is over -----

  /** The row has left this epoch behind or marks it released. */
  predicate Ended(row: Option<EpochRow>, epoch: nat) {
    row.Some? && (row.value.epoch > epoch || (row.value.epoch == epoch && row.value.released))
  }

  lemma EndedStays(l: Leadership, shared: bool, step: LeaderStep, epoch: nat)
    requires Ended(l.row, epoch)
    ensures Ended(LeaderNext(l, shared, step).row, epoch)
  {
  }

  /** The log grows by nothing, or by a commit of an open transaction with the rows as they stand. */
  lemma LogMoves(s: System, step: Step)
    ensures || Next(s, step).log == s.log
            || exists t :: t in s.txs && s.txs[t].phase.Ready? && Next(s, step).log == s.log + [CommitOf(s, s.txs[t])]
    ensures !step.OfLeader? ==> Next(s, step).leader.row == s.leader.row
  {
    hide LeaderNext;
    hide Resolve;
    hide LocksRespected;
    hide ItemFree;
    hide ChannelFree;
  }

  /** Every commit after the first ones is of a later epoch, or of a store without leadership. */
  predicate LaterCommits(log: seq<Commit>, from: nat, epoch: nat) {
    forall k :: from <= k < |log| && log[k].tx.authority.Some? ==> log[k].tx.authority.value.epoch > epoch
  }

  lemma EndedStep(s: System, step: Step, from: nat, epoch: nat)
    requires Sound(s) && Ended(s.leader.row, epoch) && LaterCommits(s.log, from, epoch)
    ensures Ended(Next(s, step).leader.row, epoch) && LaterCommits(Next(s, step).log, from, epoch)
    ensures s.log <= Next(s, step).log
  {
    LogMoves(s, step);
    if step.OfLeader? {
      EndedStays(s.leader, Shared(s), step.leaderStep, epoch);
    }
    hide Next;
    hide LeaderInv;
    hide LogOk;
    if t :| t in s.txs && s.txs[t].phase.Ready? && Next(s, step).log == s.log + [CommitOf(s, s.txs[t])] {
      assert TxOk(s, s.txs[t]);
      hide AllTxsOk;
    }
  }

  lemma {:induction false} EndedRun(s: System, steps: seq<Step>, from: nat, epoch: nat)
    requires Sound(s) && Ended(s.leader.row, epoch) && LaterCommits(s.log, from, epoch)
    ensures Ended(Run(s, steps).leader.row, epoch) && LaterCommits(Run(s, steps).log, from, epoch)
    ensures s.log <= Run(s, steps).log
    decreases |steps|
  {
    hide Sound;
    hide Next;
    hide Ended;
    hide LaterCommits;
    if steps != [] {
      StepKeeps(s, steps[0]);
      EndedStep(s, steps[0], from, epoch);
      EndedRun(Next(s, steps[0]), steps[1..], from, epoch);
    }
  }

  /** An open lease on a live session, with the row not shared by anybody. */
  predicate MayRelease(s: System, id: AttemptId) {
    InPhase(s.leader, id, Open) && s.leader.attempts[id].alive && !Shared(s)
  }

  lemma ReleaseEnds(s: System, id: AttemptId)
    requires Sound(s) && MayRelease(s, id)
    ensures HasEpoch(s.leader, id)
    ensures var n := Next(s, OfLeader(MarkReleased(id, false)));
            Ended(n.leader.row, EpochOf(s.leader, id)) && n.log == s.log && InPhase(n.leader, id, Closing)
  {
    hide AllTxsOk;
    hide LogOk;
    hide Exclusive;
  }

  /**
   Release is final. In every run, once an open lease has been marked released, no commit of
   any continuation carries its epoch or an earlier one, not even of a transaction that had
   read the authority before.
   */
  lemma ReleaseIsFinal(start: System, before: seq<Step>, id: AttemptId, after: seq<Step>)
    requires Initial(start) && MayRelease(Run(start, before), id)
    ensures var s := Run(start, before);
            var n := Run(s, [OfLeader(MarkReleased(id, false))] + after);
            && HasEpoch(s.leader, id) && s.log <= n.log && LaterCommits(n.log, |s.log|, EpochOf(s.leader, id))
  {
    assert Sound(start);
    RunKeeps(start, before);
    hide Sound;
    var s, release := Run(start, before), OfLeader(MarkReleased(id, false));
    ReleaseEnds(s, id);
    StepKeeps(s, release);
    hide Next;
    hide Ended;
    assert ([release] + after)[1..] == after;
    EndedRun(Next(s, release), after, |s.log|, EpochOf(s.leader, id));
  }

  // ----- renewal -----

  /** A heartbeat of the open lease moves the row's heartbeat time and nothing else of it, and the lease stays open. */
  lemma HeartbeatRenews(s: System, id: AttemptId, now: int)
    requires Sound(s) && MayRelease(s, id)
    ensures var n := Next(s, OfLeader(Heartbeat(id, now, false)));
            && s.leader.row.Some? && n.leader.row == Some(s.leader.row.value.(heartbeatAt := now))
            && InPhase(n.leader, id, Open) && n.leader.attempts[id].alive && n.leader.advisory == Some(id)
            && Renewed(s, n, id)
  {
    SoundLeader(s);
    hide Sound;
  }

  /** The lease, and the cache of its store where it still has this authority, carry the times of the row. */
  predicate Renewed(s: System, n: System, id: AttemptId)
    requires id in s.leader.attempts
  {
    var store := s.leader.attempts[id].store;
    && n.leader.row.Some? && id in n.leader.attempts && s.leader.attempts[id].authority.Some?
    && var row, a := n.leader.row.value, s.leader.attempts[id].authority.value;
    && n.leader.attempts[id].authority == Some(Authority(row.holder, row.epoch, row.acquiredAt, row.heartbeatAt))
    && (SameAuthority(CacheOf(s.leader, store).authority, a) ==>
          CacheOf(n.leader, store).authority == n.leader.attempts[id].authority)
  }

  /** A validation leaves the row alone and takes its times into lease and cache. */
  lemma ValidationRenews(s: System, id: AttemptId)
    requires Sound(s) && MayRelease(s, id)
    ensures var n := Next(s, OfLeader(Validate(id, false)));
            n.leader.row == s.leader.row && InPhase(n.leader, id, Open) && Renewed(s, n, id)
  {
    SoundLeader(s);
    hide Sound;
  }

  // ----- a lease that cannot be renewed -----

  /** A renewal or release of this lease that the database does not answer with its row. */
  predicate Unanswered(s: System, id: AttemptId, step: LeaderStep) {
    && InPhase(s.leader, id, Open)
    && (step.Heartbeat? || step.Validate? || step.MarkReleased?) && step.id == id
    && (step.fails || !s.leader.attempts[id].alive)
  }

  /** A lease that cannot be renewed is closed, the row left as it is, and then is cached nowhere and holds no lock. */
  lemma UnansweredCloses(s: System, id: AttemptId, step: LeaderStep)
    requires Sound(s) && Unanswered(s, id, step)
    ensures var n := Run(s, [OfLeader(step), OfLeader(ClearCache(id)), OfLeader(Unlock(id))]);
            && InPhase(n.leader, id, Closed) && n.leader.row == s.leader.row && n.leader.advisory != Some(id)
            && HasEpoch(s.leader, id)
            && forall store :: store in n.leader.caches ==>
                 !SameAuthority(n.leader.caches[store].authority, s.leader.attempts[id].authority.value)
  {
    var one, two, three := OfLeader(step), OfLeader(ClearCache(id)), OfLeader(Unlock(id));
    assert HasEpoch(s.leader, id) by { hide AllTxsOk; hide LogOk; hide Exclusive; }
    var n := Closes(s, id, step);
    RunAppend(s, [], one);
    RunAppend(s, [one], two);
    RunAppend(s, [one, two], three);
    assert [] + [one] == [one] && [one] + [two] == [one, two] && [one, two] + [three] == [one, two, three];
    RunKeeps(s, [one, two, three]);
    SoundLeader(n);
    hide Sound;
    forall store | store in n.leader.caches
      ensures !SameAuthority(n.leader.caches[store].authority, s.leader.attempts[id].authority.value)
    {
      ForgottenIsNotCached(n.leader, id, store);
    }
  }

  lemma SoundLeader(s: System)
    requires Sound(s)
    ensures LeaderInv(s.leader)
  {
    hide LeaderInv;
  }

  lemma Closes(s: System, id: AttemptId, step: LeaderStep) returns (n: System)
    requires Unanswered(s, id, step) && HasEpoch(s.leader, id)
    ensures n == Next(Next(Next(s, OfLeader(step)), OfLeader(ClearCache(id))), OfLeader(Unlock(id)))
    ensures InPhase(n.leader, id, Closed) && n.leader.row == s.leader.row && n.leader.advisory != Some(id)
    ensures n.leader.attempts[id].authority == s.leader.attempts[id].authority
  {
    var s1 := Next(s, OfLeader(step));
    assert InPhase(s1.leader, id, Closing) && s1.leader.row == s.leader.row;
    assert s1.leader.attempts[id].authority == s.leader.attempts[id].authority;
    var s2 := Next(s1, OfLeader(ClearCache(id)));
    assert InPhase(s2.leader, id, Forgotten) && s2.leader.row == s.leader.row;
    n := Next(s2, OfLeader(Unlock(id)));
  }

  // ----- a lock without an epoch -----

  /** An attempt that got the lock but no epoch gives the lock back and leaves the row alone. */
  lemma LockIsGivenBack(s: System, id: AttemptId)
    requires Sound(s) && s.leader.advisory == Some(id) && InPhase(s.leader, id, Locked)
    ensures var n := Next(s, OfLeader(GiveUp(id)));
            n.leader.advisory.None? && n.leader.row == s.leader.row && InPhase(n.leader, id, Failed)
  {
    hide Sound;
  }

  /** An epoch whose commit was not reported is nobody's, and the lock is free for the next one. */
  lemma UnreportedEpochIsNobodys(s: System, id: AttemptId, now: int)
    requires Sound(s) && s.leader.advisory == Some(id) && InPhase(s.leader, id, Locked) && !Shared(s)
    ensures var n := Next(s, OfLeader(WriteEpoch(id, now, false)));
            && n.leader.advisory.None? && n.leader.row.Some?
            && (s.leader.row.Some? ==> n.leader.row.value.epoch == s.leader.row.value.epoch + 1)
            && forall other :: HasEpoch(n.leader, other) ==> EpochOf(n.leader, other) < n.leader.row.value.epoch
  {
    SoundLeader(s);
    hide Sound;
    var n := Next(s, OfLeader(WriteEpoch(id, now, false)));
    forall other | HasEpoch(n.leader, other)
      ensures EpochOf(n.leader, other) < n.leader.row.value.epoch
    {
      assert HasEpoch(s.leader, other);
    }
  }

  // ----- stores that elect -----

  /**
   From the first attempt a store makes to lead, with none of its transactions under way
   unfenced, everything the store commits is fenced by the current, unreleased epoch.
   */
  lemma ElectingStoreIsFenced(start: System, before: seq<Step>, id: AttemptId, store: Store, holder: string,
                              after: seq<Step>)
    requires Initial(start)
    requires var s := Run(start, before);
             && id !in s.leader.attempts && holder != ""
             && forall t :: t in s.txs && s.txs[t].store == store ==> s.txs[t].phase.Started? || s.txs[t].configured
    ensures var s := Run(start, before);
            var n := Run(s, [OfLeader(StartAcquire(id, store, holder))] + after);
            forall k :: |s.log| <= k < |n.log| && n.log[k].tx.store == store ==>
              && n.log[k].tx.authority.Some? && n.log[k].row.Some? && !n.log[k].row.value.released
              && n.log[k].row.value.epoch == n.log[k].tx.authority.value.epoch
  {
    var s, elect := Run(start, before), OfLeader(StartAcquire(id, store, holder));
    var s1 := Next(s, elect);
    assert AlwaysFenced(s1, store, |s.log|);
    hide AlwaysFenced;
    hide Next;
    assert ([elect] + after)[1..] == after;
    FencedRun(s1, store, |s.log|, after);
    RunConcat(start, before, [elect] + after);
    FencingIsSafe(start, before + ([elect] + after));
    assert Run(s, [elect] + after) == Run(s1, after);
    var n := Run(s1, after);
    assert AlwaysFenced(n, store, |s.log|);
    forall k | |s.log| <= k < |n.log| && n.log[k].tx.store == store
      ensures n.log[k].tx.configured
    {
      FencedCommit(n, store, |s.log|, k);
    }
    hide Run;
  }

  lemma FencedCommit(s: System, store: Store, base: nat, k: nat)
    requires AlwaysFenced(s, store, base) && base <= k < |s.log| && s.log[k].tx.store == store
    ensures s.log[k].tx.configured
  {
  }

  // ----- the next leader -----

  /** While nobody has the row, the leader can step down and another process take over with the next epoch. */
  lemma LeadIsHandedOver(s: System, id: AttemptId, next: AttemptId, store: Store, holder: string, now: int)
    returns (steps: seq<Step>)
    requires Sound(s) && MayRelease(s, id) && s.txs == map[] && next !in s.leader.attempts && holder != ""
    ensures HasEpoch(s.leader, id)
    ensures var n := Run(s, steps);
            && SameData(s, n)
            && LedBy(n, next, store, Authority(holder, EpochOf(s.leader, id) + 1, now, now))
  {
    var down := StepsDown(s, id);
    var s1 := Run(s, down);
    hide Sound;
    hide Run;
    hide LedBy;
    var up := LeaderTakesOver(s1, next, store, holder, now);
    RunConcat(s, down, up);
    steps := down + up;
  }

  lemma StepsDown(s: System, id: AttemptId) returns (steps: seq<Step>)
    requires Sound(s) && MayRelease(s, id) && s.txs == map[]
    ensures HasEpoch(s.leader, id)
    ensures var n := Run(s, steps);
            && SameData(s, n) && Idle(n) && InPhase(n.leader, id, Closed)
            && n.leader.attempts.Keys == s.leader.attempts.Keys
            && n.leader.row.Some? && n.leader.row.value.epoch == EpochOf(s.leader, id)
  {
    var one, two, three := OfLeader(MarkReleased(id, false)), OfLeader(ClearCache(id)), OfLeader(Unlock(id));
    SoundLeader(s);
    ReleaseEnds(s, id);
    hide Sound;
    var s1 := Next(s, one);
    assert s1.leader.advisory == Some(id) && InPhase(s1.leader, id, Closing);
    var s2 := Next(s1, two);
    assert InPhase(s2.leader, id, Forgotten);
    RunAppend(s, [], one);
    RunAppend(s, [one], two);
    RunAppend(s, [one, two], three);
    assert [] + [one] == [one] && [one] + [two] == [one, two];
    steps := [one, two] + [three];
  }
}
