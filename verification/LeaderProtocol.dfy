/**
 Leadership as interleaved steps: several processes try for the advisory lock, bump the
 epoch row, publish what they got, renew it and give it up; a session may be lost at any
 point. An attempt is one call of the acquiring procedure with its dedicated session, and
 becomes a lease when it publishes.
 */
module LeaderProtocol {
  import opened Common
  import opened LeaderAuthority

  type Store = nat
  type AttemptId = nat

  datatype EpochRow = EpochRow(epoch: nat, holder: string, acquiredAt: int, heartbeatAt: int, released: bool)

  datatype Phase =
    | Trying | Locked | Written      // acquiring
    | Open                           // a lease in use
    | Closing | Forgotten | Closed     // a lease being given up, in order
    | Failed

  datatype Attempt = Attempt(store: Store, holder: string, phase: Phase, alive: bool, authority: Option<Authority>)

  datatype Leadership = Leadership(
    row: Option<EpochRow>,
    advisory: Option<AttemptId>,
    caches: map<Store, Cache>,
    attempts: map<AttemptId, Attempt>)

  predicate RowIs(row: Option<EpochRow>, a: Authority) {
    row.Some? && row.value.epoch == a.epoch && row.value.holder == a.holder
  }

  /** The row a fenced transaction looks for. */
  predicate RowGrants(row: Option<EpochRow>, a: Authority) {
    RowIs(row, a) && !row.value.released
  }

  datatype LeaderStep =
    | StartAcquire(id: AttemptId, store: Store, holder: string)
    | TryLock(id: AttemptId)
    | WriteEpoch(id: AttemptId, now: int, reported: bool)
    | GiveUp(id: AttemptId)
    | Publish(id: AttemptId)
    | Heartbeat(id: AttemptId, now: int, fails: bool)
    | Validate(id: AttemptId, fails: bool)
    | MarkReleased(id: AttemptId, fails: bool)
    | ClearCache(id: AttemptId)
    | Unlock(id: AttemptId)
    | Lose(id: AttemptId)

  predicate InPhase(l: Leadership, id: AttemptId, phase: Phase) {
    id in l.attempts && l.attempts[id].phase == phase
  }

  function Free(advisory: Option<AttemptId>, id: AttemptId): Option<AttemptId> {
    if advisory == Some(id) then None else advisory
  }

  function CacheOf(l: Leadership, store: Store): Cache {
    if store in l.caches then l.caches[store] else Cache(false, None)
  }

  function Move(l: Leadership, id: AttemptId, phase: Phase): Leadership
    requires id in l.attempts
  {
    l.(attempts := l.attempts[id := l.attempts[id].(phase := phase)])
  }

  function Bumped(row: Option<EpochRow>, holder: string, now: int): EpochRow {
    EpochRow(if row.Some? then row.value.epoch + 1 else 1, holder, now, now, false)
  }

  function Start(l: Leadership, id: AttemptId, store: Store, holder: string): Leadership {
    if id in l.attempts || holder == "" then l
    else l.(caches := l.caches[store := Configured(CacheOf(l, store))],
            attempts := l.attempts[id := Attempt(store, holder, Trying, true, None)])
  }

  function Lock(l: Leadership, id: AttemptId): Leadership {
    if !InPhase(l, id, Trying) then l
    else if l.advisory.Some? || !l.attempts[id].alive then Move(l, id, Failed)
    else Move(l, id, Locked).(advisory := Some(id))
  }

  /** The upsert and its commit. Without a report the commit stands but the caller sees an error and unlocks. */
  function Write(l: Leadership, shared: bool, id: AttemptId, now: int, reported: bool): Leadership {
    if !InPhase(l, id, Locked) || !l.attempts[id].alive || shared then l
    else
      var row := Bumped(l.row, l.attempts[id].holder, now);
      if !reported then Move(l, id, Failed).(row := Some(row), advisory := Free(l.advisory, id))
      else
        var authority := Authority(row.holder, row.epoch, now, now);
        l.(row := Some(row), attempts :=
           l.attempts[id := l.attempts[id].(phase := Written, authority := Some(authority))])
  }

  function Abandon(l: Leadership, id: AttemptId): Leadership {
    if !InPhase(l, id, Locked) then l else Move(l, id, Failed).(advisory := Free(l.advisory, id))
  }

  function PublishLease(l: Leadership, id: AttemptId): Leadership {
    if !InPhase(l, id, Written) || l.attempts[id].authority.None? then l
    else Move(l, id, Open).(caches := l.caches[l.attempts[id].store := Published(l.attempts[id].authority.value)])
  }

  function Refresh(l: Leadership, id: AttemptId, acquiredAt: int, heartbeatAt: int): Leadership
    requires id in l.attempts && l.attempts[id].authority.Some?
  {
    var t := l.attempts[id];
    var a := t.authority.value;
    l.(attempts := l.attempts[id := t.(authority := Some(a.(acquiredAt := acquiredAt, heartbeatAt := heartbeatAt)))],
       caches := l.caches[t.store := Refreshed(CacheOf(l, t.store), a, acquiredAt, heartbeatAt)])
  }

  function Beat(l: Leadership, shared: bool, id: AttemptId, now: int, fails: bool): Leadership {
    if !InPhase(l, id, Open) || l.attempts[id].authority.None? then l
    else if fails || !l.attempts[id].alive || !RowIs(l.row, l.attempts[id].authority.value) then Move(l, id, Closing)
    else if shared then l
    else Refresh(l.(row := Some(l.row.value.(heartbeatAt := now))), id, l.row.value.acquiredAt, now)
  }

  function Confirm(l: Leadership, id: AttemptId, fails: bool): Leadership {
    if !InPhase(l, id, Open) || l.attempts[id].authority.None? then l
    else if fails || !l.attempts[id].alive
        || !RowGrants(l.row, l.attempts[id].authority.value) then Move(l, id, Closing)
    else Refresh(l, id, l.row.value.acquiredAt, l.row.value.heartbeatAt)
  }

  function Mark(l: Leadership, shared: bool, id: AttemptId, fails: bool): Leadership {
    if !InPhase(l, id, Open) || l.attempts[id].authority.None? then l
    else if fails || !l.attempts[id].alive
        || !RowGrants(l.row, l.attempts[id].authority.value) then Move(l, id, Closing)
    else if shared then l
    else Move(l, id, Closing).(row := Some(l.row.value.(released := true)))
  }

  function Forget(l: Leadership, id: AttemptId): Leadership {
    if !InPhase(l, id, Closing) || l.attempts[id].authority.None? then l
    else
      var store := l.attempts[id].store;
      Move(l, id, Forgotten).(caches := l.caches[store := Cleared(CacheOf(l, store), l.attempts[id].authority.value)])
  }

  function Close(l: Leadership, id: AttemptId): Leadership {
    if !InPhase(l, id, Forgotten) then l else Move(l, id, Closed).(advisory := Free(l.advisory, id))
  }

  function Drop(l: Leadership, id: AttemptId): Leadership {
    if id !in l.attempts then l
    else l.(attempts := l.attempts[id := l.attempts[id].(alive := false)], advisory := Free(l.advisory, id))
  }

  /** One leader step. While some open transaction shares the row, its updates wait. */
  function LeaderNext(l: Leadership, shared: bool, step: LeaderStep): Leadership {
    match step
    case StartAcquire(id, store, holder) => Start(l, id, store, holder)
    case TryLock(id) => Lock(l, id)
    case WriteEpoch(id, now, reported) => Write(l, shared, id, now, reported)
    case GiveUp(id) => Abandon(l, id)
    case Publish(id) => PublishLease(l, id)
    case Heartbeat(id, now, fails) => Beat(l, shared, id, now, fails)
    case Validate(id, fails) => Confirm(l, id, fails)
    case MarkReleased(id, fails) => Mark(l, shared, id, fails)
    case ClearCache(id) => Forget(l, id)
    case Unlock(id) => Close(l, id)
    case Lose(id) => Drop(l, id)
  }

  // ----- what leadership keeps -----

  predicate HasEpoch(l: Leadership, id: AttemptId) {
    id in l.attempts && l.attempts[id].authority.Some?
  }

  function EpochOf(l: Leadership, id: AttemptId): nat
    requires HasEpoch(l, id)
  {
    l.attempts[id].authority.value.epoch
  }

  ghost predicate EpochsBelowRow(l: Leadership) {
    forall id :: HasEpoch(l, id) ==> l.row.Some? && EpochOf(l, id) <= l.row.value.epoch
  }

  ghost predicate EpochsDistinct(l: Leadership) {
    forall i, j :: HasEpoch(l, i) && HasEpoch(l, j) && i != j ==> EpochOf(l, i) != EpochOf(l, j)
  }

  predicate HoldsLock(phase: Phase) {
    phase in {Locked, Written, Open, Closing, Forgotten}
  }

  /** The row carries exactly this authority, times included, and is not released. */
  predicate RowShows(row: Option<EpochRow>, a: Authority) {
    row == Some(EpochRow(a.epoch, a.holder, a.acquiredAt, a.heartbeatAt, false))
  }

  /** A store caches only the authority of one of its own leases that has not forgotten it. */
  ghost predicate CachesOk(l: Leadership) {
    forall store :: store in l.caches && l.caches[store].authority.Some? ==> exists id :: CachedFrom(l, store, id)
  }

  predicate CachedFrom(l: Leadership, store: Store, id: AttemptId) {
    && store in l.caches && l.caches[store].authority.Some?
    && id in l.attempts && l.attempts[id].store == store && l.attempts[id].phase in {Open, Closing}
    && SameAuthority(l.attempts[id].authority, l.caches[store].authority.value)
  }

  /** Whoever holds the advisory lock and has not begun to give it up owns the current, unreleased epoch. */
  predicate LockMeansCurrent(l: Leadership) {
    l.advisory.Some? ==>
      && l.advisory.value in l.attempts
      && var t := l.attempts[l.advisory.value];
         && HoldsLock(t.phase) && t.alive
         && (t.phase in {Written, Open} ==> t.authority.Some? && RowShows(l.row, t.authority.value))
  }

  predicate PhasesOk(l: Leadership) {
    forall id :: id in l.attempts ==>
      && (l.attempts[id].authority.Some? <==> l.attempts[id].phase in {Written, Open, Closing, Forgotten, Closed})
      && (HoldsLock(l.attempts[id].phase) && l.attempts[id].alive ==> l.advisory == Some(id))
      && l.attempts[id].holder != ""
      && (l.attempts[id].authority.Some? ==> l.attempts[id].authority.value.holder == l.attempts[id].holder)
  }

  ghost predicate LeaderInv(l: Leadership) {
    EpochsBelowRow(l) && EpochsDistinct(l) && LockMeansCurrent(l) && PhasesOk(l) && CachesOk(l)
  }

  /** Every epoch that is not the one just written was there before. */
  lemma EpochsCome(l: Leadership, shared: bool, step: LeaderStep, id: AttemptId)
    requires HasEpoch(LeaderNext(l, shared, step), id)
    ensures var n := LeaderNext(l, shared, step);
            || (HasEpoch(l, id) && EpochOf(n, id) == EpochOf(l, id))
            || (step.WriteEpoch? && step.id == id && n.row.Some? && EpochOf(n, id) == n.row.value.epoch
                && (l.row.Some? ==> l.row.value.epoch < n.row.value.epoch))
  {
    hide Cleared;
    hide Refreshed;
  }

  lemma EpochsKept(l: Leadership, shared: bool, step: LeaderStep)
    requires EpochsBelowRow(l) && EpochsDistinct(l)
    ensures EpochsBelowRow(LeaderNext(l, shared, step)) && EpochsDistinct(LeaderNext(l, shared, step))
  {
    hide LeaderNext;
    RowMoves(l, shared, step);
    forall id | HasEpoch(LeaderNext(l, shared, step), id) {
      EpochsCome(l, shared, step, id);
    }
  }

  predicate OfLease(step: LeaderStep) {
    step.Heartbeat? || step.Validate? || step.MarkReleased? || step.ClearCache? || step.Unlock?
  }

  lemma LockKeptAcquiring(l: Leadership, shared: bool, step: LeaderStep)
    requires LockMeansCurrent(l) && PhasesOk(l) && !OfLease(step)
    ensures LockMeansCurrent(LeaderNext(l, shared, step)) && PhasesOk(LeaderNext(l, shared, step))
  {
    hide Cleared;
    hide Refreshed;
  }

  lemma LockKeptRenewing(l: Leadership, shared: bool, step: LeaderStep)
    requires LockMeansCurrent(l) && PhasesOk(l) && (step.Heartbeat? || step.Validate?)
    ensures LockMeansCurrent(LeaderNext(l, shared, step)) && PhasesOk(LeaderNext(l, shared, step))
  {
    hide Refreshed;
  }

  lemma LockKeptEnding(l: Leadership, shared: bool, step: LeaderStep)
    requires LockMeansCurrent(l) && PhasesOk(l) && (step.MarkReleased? || step.ClearCache? || step.Unlock?)
    ensures LockMeansCurrent(LeaderNext(l, shared, step)) && PhasesOk(LeaderNext(l, shared, step))
  {
    hide Cleared;
  }

  /** Where a cached authority came from, one step earlier. */
  lemma CacheComes(l: Leadership, shared: bool, step: LeaderStep, store: Store, id: AttemptId)
    requires EpochsDistinct(l) && CachedFrom(l, store, id)
    ensures var n := LeaderNext(l, shared, step);
            store in n.caches && n.caches[store].authority.Some? ==>
              CachedFrom(n, store, id) || CachedFrom(n, store, step.id)
  {
    assert step.id != id && HasEpoch(l, step.id) && HasEpoch(l, id) ==> EpochOf(l, step.id) != EpochOf(l, id);
  }

  lemma CachesGrow(l: Leadership, shared: bool, step: LeaderStep, store: Store)
    requires store !in l.caches || l.caches[store].authority.None?
    ensures var n := LeaderNext(l, shared, step);
            store in n.caches && n.caches[store].authority.Some? ==> CachedFrom(n, store, step.id)
  {
  }

  lemma CachesKept(l: Leadership, shared: bool, step: LeaderStep)
    requires EpochsDistinct(l) && CachesOk(l)
    ensures CachesOk(LeaderNext(l, shared, step))
  {
    hide LeaderNext;
    hide CachedFrom;
    var n := LeaderNext(l, shared, step);
    forall store | store in n.caches && n.caches[store].authority.Some?
      ensures exists id :: CachedFrom(n, store, id)
    {
      if store in l.caches && l.caches[store].authority.Some? {
        var id :| CachedFrom(l, store, id);
        CacheComes(l, shared, step, store, id);
      } else {
        CachesGrow(l, shared, step, store);
      }
    }
  }

  /** A lease that has been given up is cached nowhere. */
  lemma ForgottenIsNotCached(l: Leadership, id: AttemptId, store: Store)
    requires LeaderInv(l) && id in l.attempts && l.attempts[id].phase in {Forgotten, Closed} && store in l.caches
    ensures l.attempts[id].authority.Some? && !SameAuthority(l.caches[store].authority, l.attempts[id].authority.value)
  {
    assert HasEpoch(l, id);
    if l.caches[store].authority.Some? {
      var other :| CachedFrom(l, store, other);
      assert HasEpoch(l, other) && EpochOf(l, other) != EpochOf(l, id);
    }
  }

  lemma LeaderInvKept(l: Leadership, shared: bool, step: LeaderStep)
    requires LeaderInv(l)
    ensures LeaderInv(LeaderNext(l, shared, step))
  {
    hide LeaderNext;
    EpochsKept(l, shared, step);
    CachesKept(l, shared, step);
    hide CachesOk;
    if step.Heartbeat? || step.Validate? {
      LockKeptRenewing(l, shared, step);
    } else if OfLease(step) {
      LockKeptEnding(l, shared, step);
    } else {
      LockKeptAcquiring(l, shared, step);
    }
  }

  /** The epoch only grows, and the row keeps its epoch, holder and release mark while it is shared. */
  lemma RowMoves(l: Leadership, shared: bool, step: LeaderStep)
    ensures var n := LeaderNext(l, shared, step);
            && (l.row.Some? ==> n.row.Some? && l.row.value.epoch <= n.row.value.epoch)
            && (shared && l.row.Some? ==>
                  && n.row.value.epoch == l.row.value.epoch && n.row.value.holder == l.row.value.holder
                  && n.row.value.released == l.row.value.released)
  {
  }

  /** A store once configured for leadership stays so. */
  lemma StaysConfigured(l: Leadership, shared: bool, step: LeaderStep, store: Store)
    requires CacheOf(l, store).configured
    ensures CacheOf(LeaderNext(l, shared, step), store).configured
  {
  }
}
