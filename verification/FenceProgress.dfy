/**
 Fencing does not stop work: whenever nothing is locked, a process can take the lead and a
 runnable queue item can be committed under the new epoch.
 */
module FenceProgress {
  import opened Common
  import opened LeaderAuthority
  import opened LeaderProtocol
  import opened QueueAuthority
  import opened ExecutionFence

  lemma {:induction false} RunAppend(s: System, steps: seq<Step>, step: Step)
    ensures Run(s, steps + [step]) == Next(Run(s, steps), step)
    decreases |steps|
  {
    hide Next;
    if steps == [] {
      assert [step][1..] == [];
      assert steps + [step] == [step];
    } else {
      assert (steps + [step])[1..] == steps[1..] + [step];
      RunAppend(Next(s, steps[0]), steps[1..], step);
    }
  }

  /** Nobody holds or shares anything. */
  predicate Idle(s: System) {
    s.leader.advisory.None? && s.txs == map[]
  }

  /** The system after a new leader has published epoch and cache. */
  predicate LedBy(s: System, id: AttemptId, store: Store, a: Authority) {
    && id in s.leader.attempts && s.leader.attempts[id].phase.Open? && s.leader.attempts[id].alive
    && RowGrants(s.leader.row, a) && CacheOf(s.leader, store) == Published(a)
  }

  predicate SameData(s: System, n: System) {
    n.items == s.items && n.channels == s.channels && n.tables == s.tables && n.txs == s.txs && n.log == s.log
  }

  lemma {:induction false} RunConcat(s: System, a: seq<Step>, b: seq<Step>)
    ensures Run(s, a + b) == Run(Run(s, a), b)
    decreases |a|
  {
    hide Next;
    if a == [] {
      assert a + b == b;
    } else {
      assert (a + b)[1..] == a[1..] + b;
      RunConcat(Next(s, a[0]), a[1..], b);
    }
  }

  lemma LeaderLocks(s: System, id: AttemptId, store: Store, holder: string) returns (steps: seq<Step>)
    requires Idle(s) && id !in s.leader.attempts && holder != ""
    ensures var n := Run(s, steps);
            && SameData(s, n) && n.leader.row == s.leader.row
            && id in n.leader.attempts && n.leader.attempts[id] == Attempt(store, holder, Locked, true, None)
  {
    var one, two := OfLeader(StartAcquire(id, store, holder)), OfLeader(TryLock(id));
    var s1 := Next(s, one);
    assert InPhase(s1.leader, id, Trying);
    RunAppend(s, [], one);
    RunAppend(s, [one], two);
    assert [] + [one] == [one];
    steps := [one] + [two];
  }

  lemma LeaderPublishes(s: System, id: AttemptId, store: Store, holder: string, now: int) returns (steps: seq<Step>)
    requires s.txs == map[]
    requires id in s.leader.attempts && s.leader.attempts[id] == Attempt(store, holder, Locked, true, None)
    ensures var n := Run(s, steps);
            && SameData(s, n)
            && LedBy(n, id, store, Authority(holder, if s.leader.row.Some? then s.leader.row.value.epoch + 1 else 1,
                                             now, now))
  {
    var three, four := OfLeader(WriteEpoch(id, now, true)), OfLeader(Publish(id));
    assert !Shared(s);
    var s3 := Next(s, three);
    assert InPhase(s3.leader, id, Written);
    RunAppend(s, [], three);
    RunAppend(s, [three], four);
    assert [] + [three] == [three];
    steps := [three] + [four];
  }

  /** Taking the lead: the epoch goes up by one. */
  lemma LeaderTakesOver(s: System, id: AttemptId, store: Store, holder: string, now: int) returns (steps: seq<Step>)
    requires Idle(s) && id !in s.leader.attempts && holder != ""
    ensures var n := Run(s, steps);
            && SameData(s, n)
            && LedBy(n, id, store, Authority(holder, if s.leader.row.Some? then s.leader.row.value.epoch + 1 else 1,
                                             now, now))
  {
    hide Run;
    hide LedBy;
    var lock := LeaderLocks(s, id, store, holder);
    var publish := LeaderPublishes(Run(s, lock), id, store, holder, now);
    RunConcat(s, lock, publish);
    steps := lock + publish;
  }

  /** A queue item whose lease, channel and authority are in order. */
  predicate Runnable(s: System, item: QueueItem, c: Id) {
    && item.id in s.items && LeaseExact(s.items[item.id], item)
    && Resolve(s.tables, item.kind, item.payload, item.channel) == Channel(c) && item.channel == Some(c)
    && c in s.channels && Executable(s.channels[c], RequiresOpenIntake(item.kind))
  }

  /** A transaction's own fields, and the rest of the system as it was. */
  predicate OnlyTx(s: System, n: System, t: TxId, tx: Tx) {
    && n.items == s.items && n.channels == s.channels && n.tables == s.tables && n.log == s.log
    && n.leader.row == s.leader.row && n.txs == map[t := tx]
  }

  lemma ItemIsFenced(s: System, id: AttemptId, store: Store, a: Authority, t: TxId, item: QueueItem)
    returns (steps: seq<Step>)
    requires s.txs == map[] && LedBy(s, id, store, a)
    ensures OnlyTx(s, Run(s, steps), t, Tx(store, QueuePlan(item), true, Some(a), None, Fenced))
  {
    var one := OfTx(t, Begin(store, QueuePlan(item)));
    var two := OfTx(t, Snapshot);
    var three := OfTx(t, AssertRow);
    var s1 := Next(s, one);
    var s2 := Next(s1, two);
    assert s2.txs == map[t := Tx(store, QueuePlan(item), true, None, None, Snapped(a))];
    var s3 := Next(s2, three);
    RunAppend(s, [], one);
    RunAppend(s, [one], two);
    RunAppend(s, [one, two], three);
    assert [] + [one] == [one] && [one] + [two] == [one, two];
    steps := [one, two] + [three];
  }

  lemma ItemTakesLocks(s: System, store: Store, a: Authority, t: TxId, item: QueueItem, c: Id)
    returns (steps: seq<Step>)
    requires s.txs == map[t := Tx(store, QueuePlan(item), true, Some(a), None, Fenced)] && Runnable(s, item, c)
    ensures OnlyTx(s, Run(s, steps), t, Tx(store, QueuePlan(item), true, Some(a), Some(s.tables), Ready(Some(c))))
  {
    hide Resolve;
    var four := OfTx(t, LockItem);
    var five := OfTx(t, ResolveChannel);
    var six := OfTx(t, LockChannel);
    var s4 := Next(s, four);
    assert s4.txs == map[t := Tx(store, QueuePlan(item), true, Some(a), None, Leased)];
    var s5 := Next(s4, five);
    assert s5.txs == map[t := Tx(store, QueuePlan(item), true, Some(a), Some(s.tables), Resolved(c))];
    var s6 := Next(s5, six);
    RunAppend(s, [], four);
    RunAppend(s, [four], five);
    RunAppend(s, [four, five], six);
    assert [] + [four] == [four] && [four] + [five] == [four, five];
    steps := [four, five] + [six];
  }

  /** The transaction of a runnable item reaches its dispatch. */
  lemma ItemBecomesReady(s: System, id: AttemptId, store: Store, a: Authority, t: TxId, item: QueueItem, c: Id)
    returns (steps: seq<Step>)
    requires s.txs == map[] && LedBy(s, id, store, a) && Runnable(s, item, c)
    ensures OnlyTx(s, Run(s, steps), t, Tx(store, QueuePlan(item), true, Some(a), Some(s.tables), Ready(Some(c))))
  {
    hide Run;
    hide Resolve;
    hide LedBy;
    var fence := ItemIsFenced(s, id, store, a, t, item);
    var locks := ItemTakesLocks(Run(s, fence), store, a, t, item, c);
    RunConcat(s, fence, locks);
    steps := fence + locks;
  }

  /** From every idle state a runnable item can be committed under a new epoch, and what it wrote takes effect. */
  lemma RunnableItemCommits(s: System, id: AttemptId, store: Store, holder: string, now: int, t: TxId, item: QueueItem,
                            c: Id,
                            items: map<Id, ItemRow>, channels: map<Id, ChannelRow>) returns (steps: seq<Step>)
    requires Idle(s) && id !in s.leader.attempts && holder != "" && Runnable(s, item, c)
    ensures var n := Run(s, steps);
            && |n.log| == |s.log| + 1 && n.log[..|s.log|] == s.log
            && n.log[|s.log|].tx.plan == QueuePlan(item) && n.log[|s.log|].tx.authority.Some?
            && n.log[|s.log|].tx.authority.value.epoch == (if s.leader.row.Some? then s.leader.row.value.epoch + 1
                                                           else 1)
            && n.items == items && n.channels == channels && n.txs == map[]
  {
    hide Run;
    hide Resolve;
    hide LedBy;
    var a := Authority(holder, if s.leader.row.Some? then s.leader.row.value.epoch + 1 else 1, now, now);
    var lead := LeaderTakesOver(s, id, store, holder, now);
    var s1 := Run(s, lead);
    var work := ItemBecomesReady(s1, id, store, a, t, item, c);
    var s2 := Run(s1, work);
    var last := OfTx(t, CommitTx(items, channels));
    RunConcat(s, lead, work);
    RunAppend(s, lead + work, last);
    steps := lead + work + [last];
    assert LocksRespected(s2, Some(t), items, channels);
    assert s2.txs - {t} == map[];
  }
}
