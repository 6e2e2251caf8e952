/** The distributed lease of stream/lock.py: one Redis key per subreddit that
    holds an opaque ownership token and an expiry instant.

    The functions give the meaning of the three Redis operations, the class runs
    them as the manager does, and the run lemmas are about any interleaving of
    callers. Tokens are uuids: an acquisition never draws a token twice.
  */
module Lease {
  import opened Common

  type Subreddit = string
  type Token = nat

  datatype Lease = Lease(token: Token, expiry: real)
  type Leases = map<Subreddit, Lease>

  /** What GET sees: a key past its expiry no longer exists. */
  function Holder(leases: Leases, sub: Subreddit, now: real): Option<Token> {
    if sub in leases && now < leases[sub].expiry then Some(leases[sub].token) else None
  }

  predicate Owns(leases: Leases, sub: Subreddit, token: Token, now: real) {
    Holder(leases, sub, now) == Some(token)
  }

  /** SET key token NX EX ttl */
  function Acquired(leases: Leases, sub: Subreddit, token: Token, now: real, ttl: real): Leases {
    if Holder(leases, sub, now).None? then leases[sub := Lease(token, now + ttl)] else leases
  }

  /** The compare-and-expire script. */
  function Refreshed(leases: Leases, sub: Subreddit, token: Token, now: real, ttl: real): Leases {
    if Owns(leases, sub, token, now) then leases[sub := Lease(token, now + ttl)] else leases
  }

  /** The compare-and-delete script. */
  function Released(leases: Leases, sub: Subreddit, token: Token, now: real): Leases {
    if Owns(leases, sub, token, now) then leases - {sub} else leases
  }

  /** The three operations on the fields of the key: what they need, and how long a lease then lasts. */
  lemma LeaseKeys(leases: Leases, sub: Subreddit, token: Token, now: real, ttl: real, later: real)
    requires ttl > 0.0 && now <= later
    ensures var free := sub in leases ==> leases[sub].expiry <= now;
            var mine := sub in leases && now < leases[sub].expiry && leases[sub].token == token;
            var acquired, refreshed := Acquired(leases, sub, token, now, ttl), Refreshed(leases, sub, token, now, ttl);
            && (free ==> (Holder(acquired, sub, later) == if later < now + ttl then Some(token) else None))
            && (!free ==> acquired == leases)
            && (mine ==> (Holder(refreshed, sub, later) == if later < now + ttl then Some(token) else None))
            && (!mine ==> refreshed == leases)
            && Released(leases, sub, token, now) == (if mine then leases - {sub} else leases)
            && acquired - {sub} == refreshed - {sub} == leases - {sub}
  {
  }

  /** DistributedLockManager over the Redis keyspace; `now` is the server's clock
      at the moment the command runs. */
  class LockManager {
    var keys: Leases

    constructor ()
      ensures keys == map[]
    {
      keys := map[];
    }

    method Get(sub: Subreddit, now: real) returns (r: Option<Token>)
      ensures r == Holder(keys, sub, now)
    {
      if sub !in keys { return None; }
      if keys[sub].expiry <= now { return None; }
      return Some(keys[sub].token);
    }

    method AcquireLock(sub: Subreddit, newToken: Token, now: real, ttl: real) returns (r: Option<Token>)
      requires ttl > 0.0
      modifies this
      ensures keys == Acquired(old(keys), sub, newToken, now, ttl)
      ensures r == if sub in old(keys) && now < old(keys)[sub].expiry then None else Some(newToken)
      ensures r.Some? ==> Owns(keys, sub, newToken, now)
    {
      var holder := Get(sub, now);
      if holder.None? {
        keys := keys[sub := Lease(newToken, now + ttl)];
        return Some(newToken);
      }
      return None;
    }

    method RefreshLock(sub: Subreddit, token: Token, now: real, ttl: real) returns (ok: bool)
      requires ttl > 0.0
      modifies this
      ensures keys == Refreshed(old(keys), sub, token, now, ttl)
      ensures ok <==> sub in old(keys) && now < old(keys)[sub].expiry && old(keys)[sub].token == token
      ensures ok <==> Owns(keys, sub, token, now)
    {
      var holder := Get(sub, now);
      if holder == Some(token) {
        keys := keys[sub := keys[sub].(expiry := now + ttl)];
        return true;
      }
      return false;
    }

    method ReleaseLock(sub: Subreddit, token: Token, now: real) returns (ok: bool)
      modifies this
      ensures keys == Released(old(keys), sub, token, now)
      ensures ok <==> sub in old(keys) && now < old(keys)[sub].expiry && old(keys)[sub].token == token
      ensures !Owns(keys, sub, token, now)
    {
      var holder := Get(sub, now);
      if holder == Some(token) {
        keys := keys - {sub};
        return true;
      }
      return false;
    }
  }

  // ---------------------------------------------------------------------------
  // Runs: any callers, any tokens, any interleaving, a clock that never goes back
  // ---------------------------------------------------------------------------

  datatype Event =
    | Acquire(sub: Subreddit, token: Token, ttl: real)
    | Refresh(sub: Subreddit, token: Token, ttl: real)
    | Release(sub: Subreddit, token: Token)
    | Elapse(dt: real)

  datatype State = State(now: real, leases: Leases, issued: set<Token>) {
    predicate Owned(sub: Subreddit, token: Token) {
      Holder(leases, sub, now) == Some(token)
    }
  }

  /** A draw of an already issued token, or a clock that steps back, is no event. */
  function Step(st: State, e: Event): State {
    match e
    case Acquire(sub, token, ttl) =>
      if token in st.issued then st
      else st.(leases := Acquired(st.leases, sub, token, st.now, ttl), issued := st.issued + {token})
    case Refresh(sub, token, ttl) => st.(leases := Refreshed(st.leases, sub, token, st.now, ttl))
    case Release(sub, token) => st.(leases := Released(st.leases, sub, token, st.now))
    case Elapse(dt) => if dt < 0.0 then st else st.(now := st.now + dt)
  }

  function Exec(st: State, es: seq<Event>): State {
    if es == [] then st else Step(Exec(st, es[..|es| - 1]), es[|es| - 1])
  }

  /** Every stored token was issued, and no two keys hold the same one. */
  ghost predicate Valid(st: State) {
    && (forall s :: s in st.leases ==> st.leases[s].token in st.issued)
    && (forall s, t :: s in st.leases && t in st.leases && st.leases[s].token == st.leases[t].token ==> s == t)
  }

  lemma {:induction false} ExecValid(st: State, es: seq<Event>)
    requires Valid(st)
    ensures Valid(Exec(st, es)) && st.issued <= Exec(st, es).issued && st.now <= Exec(st, es).now
  {
    if es != [] {
      ExecValid(st, es[..|es| - 1]);
    }
  }

  lemma {:induction false} ExecSplit(st: State, a: seq<Event>, b: seq<Event>)
    ensures Exec(st, a + b) == Exec(Exec(st, a), b)
  {
    if b == [] {
      assert a + b == a;
    } else {
      assert (a + b)[..|a + b| - 1] == a + b[..|b| - 1];
      ExecSplit(st, a, b[..|b| - 1]);
    }
  }

  /** Once an issued token is not the live lease of `sub`, it never is again:
      expiry, release and whatever successors do are irreversible. */
  lemma {:induction false} StaleTokenStaysStale(st: State, es: seq<Event>, sub: Subreddit, token: Token)
    requires token in st.issued && !st.Owned(sub, token)
    ensures !Exec(st, es).Owned(sub, token)
    ensures token in Exec(st, es).issued
  {
    if es != [] {
      StaleTokenStaysStale(st, es[..|es| - 1], sub, token);
    }
  }

  /** The states of a run in which a token is the stored lease form one interval. */
  lemma OwnershipIsContiguous(st: State, es: seq<Event>, sub: Subreddit, token: Token, i: nat, j: nat, k: nat)
    requires i <= j <= k <= |es|
    requires Valid(st)
    requires Exec(st, es[..i]).Owned(sub, token) && Exec(st, es[..k]).Owned(sub, token)
    ensures Exec(st, es[..j]).Owned(sub, token)
  {
    ExecValid(st, es[..i]);
    assert es[..j] == es[..i] + es[i..j] && es[..k] == es[..j] + es[j..k];
    ExecSplit(st, es[..i], es[i..j]);
    ExecSplit(st, es[..j], es[j..k]);
    ExecValid(Exec(st, es[..i]), es[i..j]);
    if !Exec(st, es[..j]).Owned(sub, token) {
      StaleTokenStaysStale(Exec(st, es[..j]), es[j..k], sub, token);
    }
  }

  /** A token that was live under one subreddit is never live under another. */
  lemma TokenBelongsToOneSubreddit(st: State, es: seq<Event>, s: Subreddit, t: Subreddit, token: Token)
    requires Valid(st) && st.Owned(s, token) && Exec(st, es).Owned(t, token)
    ensures s == t
  {
    if s != t {
      StaleTokenStaysStale(st, es, t, token);
    }
  }

  /** A refresh or release that comes after the token lost its lease answers false
      and leaves every holder and every expiry alone, at any later point of any run. */
  lemma StaleCallsAreInert(st: State, es: seq<Event>, sub: Subreddit, token: Token, ttl: real)
    requires token in st.issued && !st.Owned(sub, token)
    ensures var later := Exec(st, es);
            && !Owns(later.leases, sub, token, later.now)
            && Refreshed(later.leases, sub, token, later.now, ttl) == later.leases
            && Released(later.leases, sub, token, later.now) == later.leases
  {
    StaleTokenStaysStale(st, es, sub, token);
  }

  /** What ends a lease: its own token's release, or the clock reaching the expiry it had by then. */
  predicate Ends(st: State, e: Event, sub: Subreddit, token: Token) {
    || e == Release(sub, token)
    || (e.Elapse? && e.dt >= 0.0 && sub in st.leases && st.now + e.dt >= st.leases[sub].expiry)
  }

  /** Nobody can take a live lease away: if a run loses it, then at a point where it was still
      held either its owner released it or it expired. */
  lemma {:induction false} OnlyOwnerOrTimeEndsLease(st: State, es: seq<Event>, sub: Subreddit, token: Token)
    returns (k: nat)
    requires Valid(st) && st.Owned(sub, token) && !Exec(st, es).Owned(sub, token)
    requires forall i :: 0 <= i < |es| && es[i].Refresh? ==> es[i].ttl > 0.0
    ensures k < |es| && Exec(st, es[..k]).Owned(sub, token) && Ends(Exec(st, es[..k]), es[k], sub, token)
  {
    var init := es[..|es| - 1];
    ExecValid(st, init);
    if Exec(st, init).Owned(sub, token) {
      k := |init|;
    } else {
      k := OnlyOwnerOrTimeEndsLease(st, init, sub, token);
      assert init[..k] == es[..k];
    }
  }
}
