/**
 The cached leader authority of a store and the lease that maintains it.
 Both are updated in place under a mutex; every method is one critical section.
 */
module LeaderAuthority {
  import opened Common

  datatype Authority = Authority(holder: string, epoch: nat, acquiredAt: int, heartbeatAt: int)

  predicate SameAuthority(current: Option<Authority>, expected: Authority) {
    current.Some? && current.value.holder == expected.holder && current.value.epoch == expected.epoch
  }

  /** What a store believes about its leadership. */
  datatype Cache = Cache(configured: bool, authority: Option<Authority>)

  function Configured(c: Cache): Cache {
    c.(configured := true)
  }

  function Published(a: Authority): Cache {
    Cache(true, Some(a))
  }

  /** Refreshing moves the two times and nothing else, and only for the authority still cached. */
  function Refreshed(c: Cache, expected: Authority, acquiredAt: int, heartbeatAt: int): (r: Cache)
    ensures r.configured == c.configured && (r.authority.Some? <==> c.authority.Some?)
    ensures forall a: Authority :: SameAuthority(r.authority, a) <==> SameAuthority(c.authority, a)
    ensures SameAuthority(c.authority, expected) ==>
              r.authority == Some(Authority(expected.holder, expected.epoch, acquiredAt, heartbeatAt))
    ensures !SameAuthority(c.authority, expected) ==> r == c
  {
    if !SameAuthority(c.authority, expected) then c
    else c.(authority := Some(c.authority.value.(acquiredAt := acquiredAt, heartbeatAt := heartbeatAt)))
  }

  /** Clearing forgets exactly the expected authority; a newer one survives. */
  function Cleared(c: Cache, expected: Authority): (r: Cache)
    ensures r.configured == c.configured
    ensures !SameAuthority(r.authority, expected)
    ensures forall a: Authority :: SameAuthority(r.authority, a) <==>
            SameAuthority(c.authority, a) && !SameAuthority(Some(a), expected)
  {
    if SameAuthority(c.authority, expected) then c.(authority := None) else c
  }

  class LeaderState {
    var configured: bool
    var authority: Option<Authority>

    function View(): Cache
      reads this
    {
      Cache(configured, authority)
    }

    constructor ()
      ensures View() == Cache(false, None)
    {
      configured, authority := false, None;
    }

    method Configure()
      modifies this
      ensures View() == Configured(old(View()))
    {
      configured := true;
    }

    method Publish(a: Authority)
      modifies this
      ensures View() == Published(a)
    {
      configured := true;
      authority := Some(a);
    }

    method Refresh(expected: Authority, acquiredAt: int, heartbeatAt: int)
      modifies this
      ensures View() == Refreshed(old(View()), expected, acquiredAt, heartbeatAt)
    {
      if !SameAuthority(authority, expected) { return; }
      authority := Some(authority.value.(acquiredAt := acquiredAt, heartbeatAt := heartbeatAt));
    }

    method Clear(expected: Authority)
      modifies this
      ensures View() == Cleared(old(View()), expected)
    {
      if SameAuthority(authority, expected) {
        authority := None;
      }
    }
  }

  /** What the database answered on the lease's own session. */
  datatype Reply = Row(acquiredAt: int, heartbeatAt: int) | NoRow | Failure

  class LeaderLease {
    const state: LeaderState
    var open: bool
    var authority: Authority

    constructor (state: LeaderState, authority: Authority)
      ensures this.state == state && open && this.authority == authority
    {
      this.state := state;
      this.open := true;
      this.authority := authority;
    }

    /**
     Heartbeat and validation alike: an answering row refreshes lease and cache, and
     anything else ends the lease and takes its authority out of the cache. The epoch
     and the holder of a lease never change.
     */
    method Confirm(reply: Reply) returns (held: bool)
      modifies this, state
      ensures held <==> old(open) && reply.Row?
      ensures open <==> held
      ensures authority
              == if held then old(authority).(acquiredAt := reply.acquiredAt, heartbeatAt := reply.heartbeatAt)
                 else old(authority)
      ensures held ==> state.View() == Refreshed(old(state.View()), old(authority), reply.acquiredAt, reply.heartbeatAt)
      ensures old(open) && !held ==> state.View() == Cleared(old(state.View()), old(authority))
      ensures !old(open) ==> state.View() == old(state.View())
    {
      if !open { return false; }
      if !reply.Row? {
        state.Clear(authority);
        open := false;
        return false;
      }
      var before := authority;
      authority := authority.(acquiredAt := reply.acquiredAt, heartbeatAt := reply.heartbeatAt);
      state.Refresh(before, reply.acquiredAt, reply.heartbeatAt);
      return true;
    }

    /**
     Releasing closes the lease and clears its authority whatever the database answered; a
     second call does nothing.
     */
    method Release(marked: bool) returns (ok: bool)
      modifies this, state
      ensures !open && authority == old(authority)
      ensures ok <==> !old(open) || marked
      ensures state.View() == if old(open) then Cleared(old(state.View()), old(authority)) else old(state.View())
    {
      if !open { return true; }
      state.Clear(authority);
      open := false;
      return marked;
    }
  }
}
