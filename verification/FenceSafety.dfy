/**
 Fencing safety over every interleaving: epochs are never shared by two leases, a fenced
 commit happens under the current unreleased epoch, with an exact queue lease and an
 executable channel, and the epochs of fenced commits never go back.
 */
module FenceSafety {
  import opened Common
  import opened LeaderAuthority
  import opened LeaderProtocol
  import opened QueueAuthority
  import opened ExecutionFence

  // ----- one transaction -----

  predicate EpochOk(row: Option<EpochRow>, tx: Tx) {
    && (tx.authority.Some? ==> RowGrants(row, tx.authority.value))
    && (tx.configured && !tx.phase.Started? && !tx.phase.Snapped? ==> tx.authority.Some?)
    && (tx.plan.LeaderPlan? && !tx.phase.Started? ==> tx.configured)
  }

  predicate ItemOk(items: map<Id, ItemRow>, tx: Tx) {
    tx.plan.QueuePlan? && HoldsItem(tx, tx.plan.item.id) ==>
      tx.plan.item.id in items && LeaseExact(items[tx.plan.item.id], tx.plan.item)
  }

  /** The channel in hand is the one the tables named and the item stores. */
  predicate ResolutionOk(tx: Tx) {
    match tx.phase
    case Resolved(c) => tx.plan.QueuePlan? && MatchesItem(tx, Some(c))
    case Ready(gate) =>
      (match tx.plan
       case LeaderPlan => gate.None?
       case ChannelPlan(c, _) => gate == Some(c)
       case QueuePlan(_) => MatchesItem(tx, gate))
    case _ => true
  }

  predicate MatchesItem(tx: Tx, gate: Option<Id>)
    requires tx.plan.QueuePlan?
  {
    var item := tx.plan.item;
    && tx.seen.Some?
    && var found := Resolve(tx.seen.value, item.kind, item.payload, item.channel);
       if gate.Some? then found == Channel(gate.value) && item.channel == gate else found.NoChannel?
  }

  predicate ChannelOk(channels: map<Id, ChannelRow>, tx: Tx) {
    tx.phase.Ready? && tx.phase.gate.Some? ==>
      tx.phase.gate.value in channels && Executable(channels[tx.phase.gate.value], NeedsOpen(tx.plan))
  }

  predicate TxOk(s: System, tx: Tx) {
    EpochOk(s.leader.row, tx) && ItemOk(s.items, tx) && ResolutionOk(tx) && ChannelOk(s.channels, tx)
  }

  // ----- the whole system -----

  predicate AllTxsOk(s: System) {
    forall t :: t in s.txs ==> TxOk(s, s.txs[t])
  }

  /** No two open transactions hold the same queue item or the same channel. */
  ghost predicate Exclusive(s: System) {
    && (forall t, u, id :: t in s.txs && u in s.txs && HoldsItem(s.txs[t], id) && HoldsItem(s.txs[u], id) ==> t == u)
    && (forall t, u, id :: t in s.txs && u in s.txs && HoldsChannel(s.txs[t], id) && HoldsChannel(s.txs[u], id) ==>
        t == u)
  }

  /**
   The channel an item acted for: the one it stores and the tables lead its payload to. Only a
   cleanup, or an alert that names and stores none, acts without one.
   */
  predicate ActsFor(item: QueueItem, tables: Tables, gate: Option<Id>) {
    if gate.Some? then item.channel == gate && LeadsTo(tables, item.kind, item.payload, item.channel, gate.value)
    else item.kind.CleanupExpired? || (item.kind.SendAlert? && item.payload.channel.Missing? && item.channel.None?)
  }

  /** What every commit must have had at the moment it happened, said of the rows themselves. */
  predicate CommitOk(c: Commit) {
    && c.tx.phase.Ready?
    && (c.tx.configured || c.tx.plan.LeaderPlan? ==> c.tx.authority.Some?)
    && (c.tx.authority.Some? ==>
          && c.row.Some? && !c.row.value.released
          && c.row.value.epoch == c.tx.authority.value.epoch && c.row.value.holder == c.tx.authority.value.holder)
    && (c.tx.plan.ChannelPlan? ==> c.tx.phase.gate == Some(c.tx.plan.channel))
    && (c.tx.plan.QueuePlan? ==>
          && c.item.Some? && c.item.value.running && c.tx.plan.item.running
          && c.item.value.lockedBy.Some? && c.item.value.lockedBy == c.tx.plan.item.lockedBy
          && c.item.value.lockedAt.Some? && c.item.value.lockedAt == c.tx.plan.item.lockedAt
          && c.tx.seen.Some? && ActsFor(c.tx.plan.item, c.tx.seen.value, c.tx.phase.gate))
    && (c.tx.phase.gate.Some? ==>
          && c.channel.Some? && c.channel.value.enabled && !c.channel.value.halted
          && (c.tx.plan.ChannelPlan? && c.tx.plan.open ==> !c.channel.value.intakePaused)
          && (c.tx.plan.QueuePlan? && (c.tx.plan.item.kind.AgentTick? || c.tx.plan.item.kind.IngestDiscovery?) ==>
                !c.channel.value.intakePaused))
  }

  predicate BelowRow(row: Option<EpochRow>, c: Commit) {
    c.tx.authority.Some? ==> row.Some? && c.tx.authority.value.epoch <= row.value.epoch
  }

  predicate LogOk(s: System) {
    && (forall i :: 0 <= i < |s.log| ==> CommitOk(s.log[i]) && BelowRow(s.leader.row, s.log[i]))
    && (forall i, j :: 0 <= i < j < |s.log| && s.log[i].tx.authority.Some? && s.log[j].tx.authority.Some? ==>
          s.log[i].tx.authority.value.epoch <= s.log[j].tx.authority.value.epoch)
  }

  ghost predicate Sound(s: System) {
    LeaderInv(s.leader) && AllTxsOk(s) && Exclusive(s) && LogOk(s)
  }

  lemma {:induction false} LeaderKeeps(s: System, step: LeaderStep)
    requires Sound(s)
    ensures Sound(Next(s, OfLeader(step)))
  {
    hide LeaderNext;
    hide LeaderInv;
    hide CommitOk;
    var n := Next(s, OfLeader(step));
    LeaderInvKept(s.leader, Shared(s), step);
    RowMoves(s.leader, Shared(s), step);
    forall t | t in n.txs
      ensures TxOk(n, n.txs[t])
    {
      assert TxOk(s, s.txs[t]);
      if SharesRow(s.txs[t]) {
        assert Shared(s);
      }
    }
  }

  lemma GoneKeeps(s: System, id: TxId)
    requires Sound(s)
    ensures Sound(Gone(s, id))
  {
    hide LeaderInv;
    hide CommitOk;
    hide TxOk;
    var n := Gone(s, id);
    forall t | t in n.txs
      ensures TxOk(n, n.txs[t])
    {
      SameRows(s, n, s.txs[t]);
    }
  }

  lemma SameRows(s: System, n: System, tx: Tx)
    requires n.leader.row == s.leader.row && n.items == s.items && n.channels == s.channels
    ensures TxOk(n, tx) <==> TxOk(s, tx)
  {
  }

  /** The transaction takes no lock that another one holds. */
  ghost predicate TakesFree(s: System, id: TxId, tx: Tx) {
    && (forall i :: HoldsItem(tx, i) ==> ItemFree(s, i, id))
    && (forall c :: HoldsChannel(tx, c) ==> ChannelFree(s, c, id))
  }

  lemma PutKeeps(s: System, id: TxId, tx: Tx)
    requires Sound(s) && TxOk(s, tx) && TakesFree(s, id, tx)
    ensures Sound(Put(s, id, tx))
  {
    hide LeaderInv;
    hide CommitOk;
    hide TxOk;
    hide HoldsItem;
    hide HoldsChannel;
    var n := Put(s, id, tx);
    forall t | t in n.txs
      ensures TxOk(n, n.txs[t])
    {
      SameRows(s, n, n.txs[t]);
    }
    assert forall t :: t in n.txs && t != id ==> t in s.txs && n.txs[t] == s.txs[t];
  }

  /** A transaction that keeps its locks keeps them exclusive. */
  lemma OwnLocks(s: System, id: TxId, i: Id)
    requires Sound(s) && id in s.txs
    ensures HoldsItem(s.txs[id], i) ==> ItemFree(s, i, id)
    ensures HoldsChannel(s.txs[id], i) ==> ChannelFree(s, i, id)
  {
    hide LeaderInv;
    hide LogOk;
    hide AllTxsOk;
    hide HoldsItem;
    hide HoldsChannel;
  }

  lemma CachesKeep(s: System, caches: map<Store, Cache>)
    requires Sound(s) && CachesOk(s.leader.(caches := caches))
    ensures Sound(s.(leader := s.leader.(caches := caches)))
  {
    hide CommitOk;
    hide TxOk;
    hide CachesOk;
    var n := s.(leader := s.leader.(caches := caches));
    assert LeaderInv(n.leader) by { assert forall id :: HasEpoch(n.leader, id) <==> HasEpoch(s.leader, id); }
    forall t | t in n.txs
      ensures TxOk(n, n.txs[t])
    {
      SameRows(s, n, s.txs[t]);
    }
  }

  lemma SnapshotKeeps(s: System, id: TxId)
    requires Sound(s) && id in s.txs && s.txs[id].phase.Started?
    ensures Sound(TakeSnapshot(s, id, s.txs[id]))
  {
    hide Sound;
    var tx := s.txs[id];
    OpenTx(s, id);
    var cache := CacheOf(s.leader, tx.store);
    GoneKeeps(s, id);
    if cache.configured && cache.authority.Some? {
      PutKeeps(s, id, tx.(configured := true, phase := Snapped(cache.authority.value)));
    } else if !cache.configured && !tx.plan.LeaderPlan? {
      PutKeeps(s, id, tx.(configured := false, phase := Fenced));
    }
  }

  lemma OpenTx(s: System, id: TxId)
    requires Sound(s) && id in s.txs
    ensures TxOk(s, s.txs[id]) && TakesFree(s, id, s.txs[id])
  {
    hide LeaderInv;
    hide LogOk;
    hide TxOk;
    hide HoldsItem;
    hide HoldsChannel;
    hide ItemFree;
    hide ChannelFree;
    forall i {
      OwnLocks(s, id, i);
    }
  }

  /** Refreshing or clearing one cache leaves every cached authority with its own lease. */
  lemma CacheMoves(l: Leadership, store: Store, expected: Authority, acquiredAt: int, heartbeatAt: int)
    requires CachesOk(l)
    ensures CachesOk(l.(caches := l.caches[store := Refreshed(CacheOf(l, store), expected, acquiredAt, heartbeatAt)]))
    ensures CachesOk(l.(caches := l.caches[store := Cleared(CacheOf(l, store), expected)]))
  {
    var refreshed := l.(caches := l.caches[store := Refreshed(CacheOf(l, store), expected, acquiredAt, heartbeatAt)]);
    var cleared := l.(caches := l.caches[store := Cleared(CacheOf(l, store), expected)]);
    forall x | x in refreshed.caches && refreshed.caches[x].authority.Some?
      ensures exists id :: CachedFrom(refreshed, x, id)
    {
      var id :| CachedFrom(l, x, id);
      assert CachedFrom(refreshed, x, id);
    }
    forall x | x in cleared.caches && cleared.caches[x].authority.Some?
      ensures exists id :: CachedFrom(cleared, x, id)
    {
      var id :| CachedFrom(l, x, id);
      assert CachedFrom(cleared, x, id);
    }
  }

  lemma SoundCaches(s: System)
    requires Sound(s)
    ensures CachesOk(s.leader)
  {
    hide CachesOk;
  }

  lemma ShareKeeps(s: System, id: TxId, expected: Authority)
    requires Sound(s) && id in s.txs && s.txs[id].phase == Snapped(expected)
    ensures Sound(ShareRow(s, id, s.txs[id], expected))
  {
    hide Sound;
    hide Refreshed;
    hide Cleared;
    var tx, l := s.txs[id], s.leader;
    OpenTx(s, id);
    SoundCaches(s);
    if RowGrants(l.row, expected) {
      CacheMoves(l, tx.store, expected, l.row.value.acquiredAt, l.row.value.heartbeatAt);
      var cache := Refreshed(CacheOf(l, tx.store), expected, l.row.value.acquiredAt, l.row.value.heartbeatAt);
      CachesKeep(s, l.caches[tx.store := cache]);
      PutKeeps(s.(leader := l.(caches := l.caches[tx.store := cache])), id,
               tx.(authority := Some(expected), phase := Fenced));
    } else {
      CacheMoves(l, tx.store, expected, 0, 0);
      var caches := l.caches[tx.store := Cleared(CacheOf(l, tx.store), expected)];
      CachesKeep(s, caches);
      GoneKeeps(s.(leader := l.(caches := caches)), id);
    }
  }

  lemma ItemKeeps(s: System, id: TxId)
    requires Sound(s) && id in s.txs && s.txs[id].phase.Fenced? && s.txs[id].plan.QueuePlan?
    ensures Sound(TakeItem(s, id, s.txs[id], s.txs[id].plan.item))
  {
    hide Sound;
    hide ItemFree;
    hide ChannelFree;
    var tx, item := s.txs[id], s.txs[id].plan.item;
    OpenTx(s, id);
    GoneKeeps(s, id);
    if HasLease(item) && item.id in s.items && ItemFree(s, item.id, id) && LeaseExact(s.items[item.id], item) {
      PutKeeps(s, id, tx.(phase := Leased));
    }
  }

  lemma ResolutionKeeps(s: System, id: TxId)
    requires Sound(s) && id in s.txs && s.txs[id].phase.Leased? && s.txs[id].plan.QueuePlan?
    ensures Sound(TakeResolution(s, id, s.txs[id], s.txs[id].plan.item))
  {
    hide Sound;
    hide ItemFree;
    hide ChannelFree;
    hide Resolve;
    var tx, item := s.txs[id], s.txs[id].plan.item;
    OpenTx(s, id);
    GoneKeeps(s, id);
    assert HoldsItem(tx, item.id);
    match Resolve(s.tables, item.kind, item.payload, item.channel) {
      case Invalid =>
      case NoChannel => PutKeeps(s, id, tx.(seen := Some(s.tables), phase := Ready(None)));
      case Channel(c) =>
        if item.channel == Some(c) {
          PutKeeps(s, id, tx.(seen := Some(s.tables), phase := Resolved(c)));
        }
    }
  }

  lemma ChannelKeeps(s: System, id: TxId, channel: Id)
    requires Sound(s) && id in s.txs
    requires s.txs[id].phase == Resolved(channel)
             || (s.txs[id].phase.Fenced? && s.txs[id].plan.ChannelPlan? && s.txs[id].plan.channel == channel)
    ensures Sound(TakeChannel(s, id, s.txs[id], channel))
  {
    hide Sound;
    hide ItemFree;
    hide ChannelFree;
    hide Resolve;
    var tx := s.txs[id];
    OpenTx(s, id);
    GoneKeeps(s, id);
    if channel in s.channels && ChannelFree(s, channel, id) && Executable(s.channels[channel], NeedsOpen(tx.plan)) {
      if tx.plan.QueuePlan? {
        assert HoldsItem(tx, tx.plan.item.id);
      }
      PutKeeps(s, id, tx.(phase := Ready(Some(channel))));
    }
  }

  /** Changed rows leave every other transaction with what it has locked. */
  lemma RowsChange(s: System, self: Option<TxId>, n: System, t: TxId)
    requires t in s.txs && Some(t) != self && TxOk(s, s.txs[t])
    requires n.leader == s.leader && LocksRespected(s, self, n.items, n.channels)
    ensures TxOk(n, s.txs[t])
  {
    hide MatchesItem;
    hide RowGrants;
    var tx := s.txs[t];
    if tx.plan.QueuePlan? && HoldsItem(tx, tx.plan.item.id) {
      assert At(n.items, Some(tx.plan.item.id)) == At(s.items, Some(tx.plan.item.id));
    }
    if tx.phase.Ready? && tx.phase.gate.Some? {
      assert At(n.channels, tx.phase.gate) == At(s.channels, tx.phase.gate);
    }
  }

  lemma CommitMeans(s: System, tx: Tx)
    requires TxOk(s, tx) && tx.phase.Ready?
    ensures CommitOk(CommitOf(s, tx))
    ensures tx.authority.Some? ==> s.leader.row.Some? && tx.authority.value.epoch == s.leader.row.value.epoch
  {
    hide Resolve;
    hide LeadsTo;
    if tx.plan.QueuePlan? {
      assert HoldsItem(tx, tx.plan.item.id);
      var item := tx.plan.item;
      ResolutionMeans(tx.seen.value, item.kind, item.payload, item.channel);
    }
  }

  lemma FinishKeeps(s: System, id: TxId, items: map<Id, ItemRow>, channels: map<Id, ChannelRow>)
    requires Sound(s) && id in s.txs && s.txs[id].phase.Ready?
    ensures Sound(Finish(s, id, s.txs[id], items, channels))
  {
    hide LeaderInv;
    hide CommitOk;
    hide TxOk;
    hide LocksRespected;
    hide HoldsItem;
    hide HoldsChannel;
    var tx := s.txs[id];
    CommitMeans(s, tx);
    if LocksRespected(s, Some(id), items, channels) {
      var n := Finish(s, id, tx, items, channels);
      forall t | t in n.txs
        ensures TxOk(n, n.txs[t])
      {
        RowsChange(s, Some(id), n, t);
      }
    }
  }

  lemma OutsideKeeps(s: System, items: map<Id, ItemRow>, channels: map<Id, ChannelRow>, tables: Tables)
    requires Sound(s)
    ensures Sound(Next(s, Outside(items, channels, tables)))
  {
    hide LeaderInv;
    hide CommitOk;
    hide TxOk;
    hide LocksRespected;
    hide HoldsItem;
    hide HoldsChannel;
    var n := Next(s, Outside(items, channels, tables));
    if LocksRespected(s, None, items, channels) {
      forall t | t in n.txs
        ensures TxOk(n, n.txs[t])
      {
        RowsChange(s, None, n, t);
      }
    }
  }

  lemma TxKeeps(s: System, id: TxId, step: TxStep)
    requires Sound(s)
    ensures Sound(TxNext(s, id, step))
  {
    hide Sound;
    hide TakeSnapshot;
    hide ShareRow;
    hide TakeItem;
    hide TakeResolution;
    hide TakeChannel;
    hide Finish;
    if step.Begin? {
      if id !in s.txs {
        PutKeeps(s, id, Tx(step.store, step.plan, false, None, None, Started));
      }
    } else if id in s.txs {
      var tx := s.txs[id];
      match step {
        case Snapshot => if tx.phase.Started? { SnapshotKeeps(s, id); }
        case AssertRow => if tx.phase.Snapped? { ShareKeeps(s, id, tx.phase.expected); }
        case Proceed =>
          if tx.phase.Fenced? && tx.plan.LeaderPlan? {
            OpenTx(s, id);
            PutKeeps(s, id, tx.(phase := Ready(None)));
          }
        case LockItem => if tx.phase.Fenced? && tx.plan.QueuePlan? { ItemKeeps(s, id); }
        case ResolveChannel => if tx.phase.Leased? && tx.plan.QueuePlan? { ResolutionKeeps(s, id); }
        case LockChannel =>
          if tx.phase.Fenced? && tx.plan.ChannelPlan? {
            ChannelKeeps(s, id, tx.plan.channel);
          } else if tx.phase.Resolved? {
            ChannelKeeps(s, id, tx.phase.channel);
          }
        case CommitTx(items, channels) => if tx.phase.Ready? { FinishKeeps(s, id, items, channels); }
        case Abort => GoneKeeps(s, id);
      }
    }
  }

  lemma StepKeeps(s: System, step: Step)
    requires Sound(s)
    ensures Sound(Next(s, step))
  {
    hide Sound;
    hide TxNext;
    hide LeaderNext;
    match step {
      case OfLeader(l) => LeaderKeeps(s, l);
      case OfTx(id, t) => TxKeeps(s, id, t);
      case Outside(items, channels, tables) => OutsideKeeps(s, items, channels, tables);
    }
  }

  lemma {:induction false} RunKeeps(s: System, steps: seq<Step>)
    requires Sound(s)
    ensures Sound(Run(s, steps))
    decreases |steps|
  {
    hide Sound;
    hide Next;
    if steps != [] {
      StepKeeps(s, steps[0]);
      RunKeeps(Next(s, steps[0]), steps[1..]);
    }
  }

  predicate IsLease(t: Attempt) {
    t.phase in {Open, Closing, Forgotten, Closed}
  }

  /**
   Fencing safety. In every run from any initial database: two leases never carry the
   same epoch; the one that holds the advisory lock and is still open is the current
   leader; a store caches only the authority of its own unclosed lease; no two open
   transactions hold the same item or channel; every commit had what its fence demands; and
   the epochs of the fenced commits never decrease.
   */
  lemma FencingIsSafe(start: System, steps: seq<Step>)
    requires Initial(start)
    ensures var s := Run(start, steps);
            && (forall i, j :: i in s.leader.attempts && j in s.leader.attempts && i != j
                               && IsLease(s.leader.attempts[i]) && IsLease(s.leader.attempts[j]) ==>
                  && s.leader.attempts[i].authority.Some? && s.leader.attempts[j].authority.Some?
                  && s.leader.attempts[i].authority.value.epoch != s.leader.attempts[j].authority.value.epoch)
            && (forall i :: i in s.leader.attempts && s.leader.attempts[i].phase.Open? && s.leader.attempts[i].alive ==>
                  s.leader.attempts[i].authority.Some? && RowShows(s.leader.row, s.leader.attempts[i].authority.value))
            && CachesOk(s.leader)
            && Exclusive(s)
            && (forall k :: 0 <= k < |s.log| ==> CommitOk(s.log[k]))
            && (forall i, j :: 0 <= i < j < |s.log| && s.log[i].tx.authority.Some? && s.log[j].tx.authority.Some? ==>
                  s.log[i].tx.authority.value.epoch <= s.log[j].tx.authority.value.epoch)
  {
    hide Run;
    hide CommitOk;
    hide TxOk;
    hide CachedFrom;
    assert Sound(start);
    RunKeeps(start, steps);
    var s := Run(start, steps);
    forall i, j | i in s.leader.attempts && j in s.leader.attempts && i != j
                  && IsLease(s.leader.attempts[i]) && IsLease(s.leader.attempts[j])
      ensures && s.leader.attempts[i].authority.Some? && s.leader.attempts[j].authority.Some?
              && s.leader.attempts[i].authority.value.epoch != s.leader.attempts[j].authority.value.epoch
    {
      assert HasEpoch(s.leader, i) && HasEpoch(s.leader, j);
      assert EpochOf(s.leader, i) != EpochOf(s.leader, j);
    }
  }

  // ----- stores configured for leadership -----

  /** The store is configured, its transactions have taken up the fence, and so had its commits from `base` on. */
  predicate AlwaysFenced(s: System, store: Store, base: nat) {
    && CacheOf(s.leader, store).configured
    && (forall t :: t in s.txs && s.txs[t].store == store && !s.txs[t].phase.Started? ==> s.txs[t].configured)
    && base <= |s.log|
    && (forall k :: base <= k < |s.log| && s.log[k].tx.store == store ==> s.log[k].tx.configured)
  }

  lemma FencedTxStep(s: System, store: Store, base: nat, id: TxId, step: TxStep)
    requires AlwaysFenced(s, store, base)
    ensures AlwaysFenced(TxNext(s, id, step), store, base)
  {
    hide Resolve;
    hide LocksRespected;
    hide ItemFree;
    hide ChannelFree;
    hide HasLease;
    hide LeaseExact;
    hide Executable;
    hide RowGrants;
  }

  lemma FencedStep(s: System, store: Store, base: nat, step: Step)
    requires AlwaysFenced(s, store, base)
    ensures AlwaysFenced(Next(s, step), store, base)
  {
    hide LeaderNext;
    hide TxNext;
    hide LocksRespected;
    match step {
      case OfLeader(l) => StaysConfigured(s.leader, Shared(s), l, store);
      case OfTx(id, t) => FencedTxStep(s, store, base, id, t);
      case Outside(items, channels, tables) =>
    }
  }

  lemma {:induction false} FencedRun(s: System, store: Store, base: nat, steps: seq<Step>)
    requires AlwaysFenced(s, store, base)
    ensures AlwaysFenced(Run(s, steps), store, base)
    decreases |steps|
  {
    hide AlwaysFenced;
    hide Next;
    if steps != [] {
      FencedStep(s, store, base, steps[0]);
      FencedRun(Next(s, steps[0]), store, base, steps[1..]);
    }
  }

  /** A store configured for leadership never commits anything outside the current, unreleased epoch. */
  lemma ConfiguredStoreIsFenced(start: System, store: Store, steps: seq<Step>)
    requires Initial(start) && CacheOf(start.leader, store).configured
    ensures var s := Run(start, steps);
            forall k :: 0 <= k < |s.log| && s.log[k].tx.store == store ==>
              && s.log[k].tx.authority.Some? && s.log[k].row.Some? && !s.log[k].row.value.released
              && s.log[k].row.value.epoch == s.log[k].tx.authority.value.epoch
  {
    hide Run;
    FencedRun(start, store, 0, steps);
    FencingIsSafe(start, steps);
  }
}
