/**
 Fenced execution transactions beside the leadership protocol. A transaction shares the
 epoch row, locks its queue item and its channel, and holds these locks until it commits
 or aborts; updates of a locked row wait. Every other process may act between its steps.
 */
module ExecutionFence {
  import opened Common
  import opened LeaderAuthority
  import opened LeaderProtocol
  import opened QueueAuthority

  type TxId = nat

  /** A queue item as the runner read it when it claimed it. */
  datatype QueueItem = QueueItem(
    id: Id, kind: Kind, payload: Payload, running: bool, lockedBy: Option<string>, lockedAt: Option<int>,
        channel: Option<Id>)

  datatype ItemRow = ItemRow(running: bool, lockedBy: Option<string>, lockedAt: Option<int>)

  datatype ChannelRow = ChannelRow(enabled: bool, halted: bool, intakePaused: bool)

  datatype Plan =
    | LeaderPlan
    | ChannelPlan(channel: Id, open: bool)
    | QueuePlan(item: QueueItem)

  datatype TxPhase =
    | Started
    | Snapped(expected: Authority)
    | Fenced
    | Leased
    | Resolved(channel: Id)
    | Ready(gate: Option<Id>)

  /** `seen` are the tables the channel was resolved from. */
  datatype Tx = Tx(store: Store, plan: Plan, configured: bool, authority: Option<Authority>, seen: Option<Tables>,
                   phase: TxPhase)

  /** A committed transaction with the rows as they stood at its commit. */
  datatype Commit = Commit(tx: Tx, row: Option<EpochRow>, item: Option<ItemRow>, channel: Option<ChannelRow>)

  datatype System = System(
    leader: Leadership,
    items: map<Id, ItemRow>,
    channels: map<Id, ChannelRow>,
    tables: Tables,
    txs: map<TxId, Tx>,
    log: seq<Commit>)

  // ----- what a transaction demands -----

  predicate HasLease(item: QueueItem) {
    item.running && item.lockedBy.Some? && item.lockedBy.value != "" && item.lockedAt.Some?
  }

  predicate LeaseExact(row: ItemRow, item: QueueItem) {
    HasLease(item) && row.running && row.lockedBy == item.lockedBy && row.lockedAt == item.lockedAt
  }

  predicate Executable(row: ChannelRow, open: bool) {
    row.enabled && !row.halted && (open ==> !row.intakePaused)
  }

  predicate NeedsOpen(plan: Plan) {
    match plan
    case LeaderPlan => false
    case ChannelPlan(_, open) => open
    case QueuePlan(item) => RequiresOpenIntake(item.kind)
  }

  // ----- locks -----

  predicate SharesRow(tx: Tx) {
    tx.authority.Some?
  }

  predicate HoldsItem(tx: Tx, id: Id) {
    tx.plan.QueuePlan? && tx.plan.item.id == id && (tx.phase.Leased? || tx.phase.Resolved? || tx.phase.Ready?)
  }

  predicate HoldsChannel(tx: Tx, id: Id) {
    tx.phase == Ready(Some(id))
  }

  predicate Shared(s: System) {
    exists t :: t in s.txs && SharesRow(s.txs[t])
  }

  predicate ItemFree(s: System, id: Id, self: TxId) {
    forall t :: t in s.txs && t != self ==> !HoldsItem(s.txs[t], id)
  }

  predicate ChannelFree(s: System, id: Id, self: TxId) {
    forall t :: t in s.txs && t != self ==> !HoldsChannel(s.txs[t], id)
  }

  // ----- steps of one transaction -----

  datatype TxStep =
    | Begin(store: Store, plan: Plan)
    | Snapshot
    | AssertRow
    | Proceed
    | LockItem
    | ResolveChannel
    | LockChannel
    | CommitTx(items: map<Id, ItemRow>, channels: map<Id, ChannelRow>)
    | Abort

  function Put(s: System, id: TxId, tx: Tx): System {
    s.(txs := s.txs[id := tx])
  }

  function Gone(s: System, id: TxId): System {
    s.(txs := s.txs - {id})
  }

  function TakeSnapshot(s: System, id: TxId, tx: Tx): System {
    var cache := CacheOf(s.leader, tx.store);
    if !cache.configured then
      if tx.plan.LeaderPlan? then Gone(s, id) else Put(s, id, tx.(configured := false, phase := Fenced))
    else if cache.authority.None? then Gone(s, id)
    else Put(s, id, tx.(configured := true, phase := Snapped(cache.authority.value)))
  }

  /** The shared read of the epoch row: it locks the row when it grants, and forgets the authority when it does not. */
  function ShareRow(s: System, id: TxId, tx: Tx, expected: Authority): System {
    var l := s.leader;
    if RowGrants(l.row, expected) then
      var cache := Refreshed(CacheOf(l, tx.store), expected, l.row.value.acquiredAt, l.row.value.heartbeatAt);
      Put(s.(leader := l.(caches := l.caches[tx.store := cache])), id,
          tx.(authority := Some(expected), phase := Fenced))
    else
      Gone(s.(leader := l.(caches := l.caches[tx.store := Cleared(CacheOf(l, tx.store), expected)])), id)
  }

  function TakeItem(s: System, id: TxId, tx: Tx, item: QueueItem): System {
    if !HasLease(item) || item.id !in s.items then Gone(s, id)
    else if !ItemFree(s, item.id, id) then s
    else if !LeaseExact(s.items[item.id], item) then Gone(s, id)
    else Put(s, id, tx.(phase := Leased))
  }

  function TakeResolution(s: System, id: TxId, tx: Tx, item: QueueItem): System {
    match Resolve(s.tables, item.kind, item.payload, item.channel)
    case Invalid => Gone(s, id)
    case NoChannel => Put(s, id, tx.(seen := Some(s.tables), phase := Ready(None)))
    case Channel(c) =>
      if item.channel != Some(c) then Gone(s, id) else Put(s, id, tx.(seen := Some(s.tables), phase := Resolved(c)))
  }

  function TakeChannel(s: System, id: TxId, tx: Tx, channel: Id): System {
    if channel !in s.channels then Gone(s, id)
    else if !ChannelFree(s, channel, id) then s
    else if !Executable(s.channels[channel], NeedsOpen(tx.plan)) then Gone(s, id)
    else Put(s, id, tx.(phase := Ready(Some(channel))))
  }

  function At<T>(m: map<Id, T>, id: Option<Id>): Option<T> {
    if id.Some? && id.value in m then Some(m[id.value]) else None
  }

  function CommitOf(s: System, tx: Tx): Commit {
    Commit(tx, s.leader.row,
           At(s.items, if tx.plan.QueuePlan? then Some(tx.plan.item.id) else None),
           At(s.channels, if tx.phase.Ready? then tx.phase.gate else None))
  }

  /** No row that some other transaction has locked is changed. */
  predicate LocksRespected(s: System, self: Option<TxId>, items: map<Id, ItemRow>, channels: map<Id, ChannelRow>) {
    && (forall t ::
          (&& t in s.txs && Some(t) != self
           && s.txs[t].plan.QueuePlan? && HoldsItem(s.txs[t], s.txs[t].plan.item.id)) ==>
            At(items, Some(s.txs[t].plan.item.id)) == At(s.items, Some(s.txs[t].plan.item.id)))
    && (forall t :: t in s.txs && Some(t) != self && s.txs[t].phase.Ready? && s.txs[t].phase.gate.Some? ==>
          At(channels, s.txs[t].phase.gate) == At(s.channels, s.txs[t].phase.gate))
  }

  function Finish(s: System, id: TxId, tx: Tx, items: map<Id, ItemRow>, channels: map<Id, ChannelRow>): System {
    if !LocksRespected(s, Some(id), items, channels) then s
    else Gone(s, id).(items := items, channels := channels, log := s.log + [CommitOf(s, tx)])
  }

  function TxNext(s: System, id: TxId, step: TxStep): System {
    if step.Begin? then
      if id in s.txs then s else Put(s, id, Tx(step.store, step.plan, false, None, None, Started))
    else if id !in s.txs then s
    else
      var tx := s.txs[id];
      match step
      case Snapshot => if tx.phase.Started? then TakeSnapshot(s, id, tx) else s
      case AssertRow => if tx.phase.Snapped? then ShareRow(s, id, tx, tx.phase.expected) else s
      case Proceed => if tx.phase.Fenced? && tx.plan.LeaderPlan? then Put(s, id, tx.(phase := Ready(None))) else s
      case LockItem => if tx.phase.Fenced? && tx.plan.QueuePlan? then TakeItem(s, id, tx, tx.plan.item) else s
      case ResolveChannel => if tx.phase.Leased? && tx.plan.QueuePlan? then TakeResolution(s, id, tx, tx.plan.item)
          else s
      case LockChannel =>
        if tx.phase.Fenced? && tx.plan.ChannelPlan? then TakeChannel(s, id, tx, tx.plan.channel)
        else if tx.phase.Resolved? then TakeChannel(s, id, tx, tx.phase.channel)
        else s
      case CommitTx(items, channels) => if tx.phase.Ready? then Finish(s, id, tx, items, channels) else s
      case Abort => Gone(s, id)
  }

  datatype Step =
    | OfLeader(leaderStep: LeaderStep)
    | OfTx(id: TxId, txStep: TxStep)
    | Outside(items: map<Id, ItemRow>, channels: map<Id, ChannelRow>, tables: Tables)

  /** One step of anybody. Outside is any committed change by other code; it waits for row locks too. */
  function Next(s: System, step: Step): System {
    match step
    case OfLeader(l) => s.(leader := LeaderNext(s.leader, Shared(s), l))
    case OfTx(id, t) => TxNext(s, id, t)
    case Outside(items, channels, tables) =>
      if LocksRespected(s, None, items, channels) then s.(items := items, channels := channels, tables := tables) else s
  }

  function Run(s: System, steps: seq<Step>): System
    decreases |steps|
  {
    if steps == [] then s else Run(Next(s, steps[0]), steps[1..])
  }

  /** Nothing has happened yet; the rows may hold anything, and stores may be configured but have led nothing. */
  predicate Initial(s: System) {
    && s.leader.advisory.None? && s.leader.attempts == map[] && s.txs == map[] && s.log == []
    && forall store :: store in s.leader.caches ==> s.leader.caches[store].authority.None?
  }
}
