/**
 The per-provider cache of signing keys, refetched on an unknown key id no sooner than a cooldown
 after the last refetch. Checking the cooldown, writing the keys and stamping the time are separate
 steps, so concurrent requests can overlap; the bound on refetches takes that into account.
 */
module Jwks {
  import opened Types
  import opened Sets

  datatype Jwk = Jwk(kid: Option<string>, material: nat)

  type JwkSet = seq<Jwk>

  // The first key of the set with this id.
  function FindKey(keys: JwkSet, kid: string): (r: Option<Jwk>)
    ensures r.Some? ==> exists i ::
      && 0 <= i < |keys| && r.value == keys[i] && keys[i].kid == Some(kid)
      && (forall j :: 0 <= j < i ==> keys[j].kid != Some(kid))
    ensures r.None? <==> forall k :: k in keys ==> k.kid != Some(kid)
  {
    if keys == [] then None
    else if keys[0].kid == Some(kid) then Some(keys[0])
    else FindKey(keys[1..], kid)
  }

  const JWKS_REFRESH_COOLDOWN_FLOOR_SECS: nat := 1

  function Cooldown(configured: nat): nat {
    if configured < JWKS_REFRESH_COOLDOWN_FLOOR_SECS then JWKS_REFRESH_COOLDOWN_FLOOR_SECS else configured
  }

  // ---- One request at a time ----

  datatype ResolveError = FetchFailed | KidNotFound

  class OidcProvider {
    var jwks: JwkSet
    var lastRefresh: nat
    const cooldown: nat

    constructor (jwks: JwkSet, now: nat, configured: nat)
      ensures this.jwks == jwks && this.lastRefresh == now && this.cooldown == Cooldown(configured)
      ensures cooldown >= 1 && cooldown >= configured && (configured >= 1 ==> cooldown == configured)
    {
      this.jwks, this.lastRefresh, this.cooldown := jwks, now, Cooldown(configured);
    }

    // `fetched` is what the endpoint would answer. A failed fetch leaves the stamp as it was.
    method RefreshJwks(now: nat, fetched: Option<JwkSet>) returns (ok: bool)
      modifies this
      ensures if now - old(lastRefresh) < cooldown then ok && jwks == old(jwks) && lastRefresh == old(lastRefresh)
              else if fetched.None? then !ok && jwks == old(jwks) && lastRefresh == old(lastRefresh)
              else ok && jwks == fetched.value && lastRefresh == now
    {
      if now - lastRefresh < cooldown {
        return true;
      }
      if fetched.None? {
        return false;
      }
      jwks := fetched.value;
      lastRefresh := now;
      return true;
    }

    // A cached key is returned without a fetch; an answer always comes from the cache as it is afterwards.
    method ResolveKey(kid: string, now: nat, fetched: Option<JwkSet>) returns (r: Result<Jwk, ResolveError>)
      modifies this
      ensures FindKey(old(jwks), kid).Some? ==> jwks == old(jwks) && lastRefresh == old(lastRefresh)
      ensures r.Ok? <==> FindKey(jwks, kid).Some?
      ensures r.Ok? ==> r.value.kid == Some(kid) && FindKey(jwks, kid) == Some(r.value)
      ensures FindKey(old(jwks), kid).None? ==>
        if now - old(lastRefresh) < cooldown || fetched.None? then jwks == old(jwks) && lastRefresh == old(lastRefresh)
        else jwks == fetched.value && lastRefresh == now
      ensures r == Err(FetchFailed) <==>
        FindKey(old(jwks), kid).None? && now - old(lastRefresh) >= cooldown && fetched.None?
    {
      var cached := FindKey(jwks, kid);
      if cached.Some? {
        return Ok(cached.value);
      }
      var ok := RefreshJwks(now, fetched);
      if !ok {
        return Err(FetchFailed);
      }
      var found := FindKey(jwks, kid);
      return if found.Some? then Ok(found.value) else Err(KidNotFound);
    }
  }

  // ---- Many requests at once ----

  datatype Status = Running | Written | Failed | Done(end: nat)

  // `peers` are the fetches in flight when this one started, itself included.
  datatype Fetch = Fetch(start: nat, peers: set<nat>, status: Status)

  datatype Cache = Cache(now: nat, last: nat, jwks: JwkSet, fetches: seq<Fetch>)

  // At most `limit` requests are in flight at any moment.
  datatype Setup = Setup(cooldown: nat, limit: nat)

  predicate Sane(u: Setup) { u.cooldown >= JWKS_REFRESH_COOLDOWN_FLOOR_SECS }

  datatype Event =
    | Tick(seconds: nat)
    | Refresh                          // a request that missed its key id checks the cooldown
    | Fail(i: nat)                     // the fetch fails, or its request is dropped
    | WriteKeys(i: nat, keys: JwkSet)
    | Stamp(i: nat)

  function InFlight(s: Cache): set<nat> {
    set i: nat | i < |s.fetches| && (s.fetches[i].status.Running? || s.fetches[i].status.Written?)
  }

  predicate Enabled(u: Setup, s: Cache, e: Event) {
    match e
    case Tick(_) => true
    case Refresh => |InFlight(s)| < u.limit
    case Fail(i) => i < |s.fetches| && (s.fetches[i].status.Running? || s.fetches[i].status.Written?)
    case WriteKeys(i, _) => i < |s.fetches| && s.fetches[i].status.Running?
    case Stamp(i) => i < |s.fetches| && s.fetches[i].status.Written?
  }

  function SetStatus(s: Cache, i: nat, status: Status): Cache
    requires i < |s.fetches|
  {
    s.(fetches := s.fetches[i := s.fetches[i].(status := status)])
  }

  function Apply(u: Setup, s: Cache, e: Event): Cache
    requires Enabled(u, s, e)
  {
    match e
    case Tick(seconds) => s.(now := s.now + seconds)
    case Refresh =>
      if s.now - s.last < u.cooldown then s
      else s.(fetches := s.fetches + [Fetch(s.now, InFlight(s) + {|s.fetches|}, Running)])
    case Fail(i) => SetStatus(s, i, Failed)
    case WriteKeys(i, keys) => SetStatus(s.(jwks := keys), i, Written)
    case Stamp(i) => SetStatus(s.(last := s.now), i, Done(s.now))
  }

  function Start(now: nat, jwks: JwkSet): Cache { Cache(now, now, jwks, []) }

  ghost predicate Reached(u: Setup, s: Cache, es: seq<Event>, t: Cache)
    decreases |es|
  {
    if es == [] then s == t else Enabled(u, s, es[0]) && Reached(u, Apply(u, s, es[0]), es[1..], t)
  }

  // ---- What every run keeps ----

  ghost predicate FetchOk(u: Setup, s: Cache, i: nat)
    requires i < |s.fetches|
  {
    var f := s.fetches[i];
    && f.start <= s.now && i in f.peers && |f.peers| <= u.limit
    && (f.status.Done? ==> f.start <= f.status.end <= s.last)
  }

  // An earlier fetch was in flight when a later one started, or had failed, or had ended a cooldown before.
  ghost predicate PairOk(u: Setup, s: Cache, i: nat, j: nat)
    requires i < j < |s.fetches|
  {
    var f, g := s.fetches[i], s.fetches[j];
    && f.start <= g.start
    && (if i in g.peers then f.status.Done? ==> g.start <= f.status.end
        else f.status.Failed? || (f.status.Done? && f.status.end + u.cooldown <= g.start))
  }

  ghost predicate Inv(u: Setup, s: Cache) {
    && s.last <= s.now
    && (forall i: nat {:trigger FetchOk(u, s, i)} :: i < |s.fetches| ==> FetchOk(u, s, i))
    && (forall i: nat, j: nat {:trigger PairOk(u, s, i, j)} :: i < j < |s.fetches| ==> PairOk(u, s, i, j))
  }

  lemma RefreshKeeps(u: Setup, s: Cache)
    requires Inv(u, s) && Enabled(u, s, Refresh)
    ensures Inv(u, Apply(u, s, Refresh))
  {
    var t, n := Apply(u, s, Refresh), |s.fetches|;
    forall i: nat {:trigger FetchOk(u, t, i)} | i < |t.fetches| ensures FetchOk(u, t, i) {
      if i < n { assert FetchOk(u, s, i); }
    }
    forall i: nat, j: nat {:trigger PairOk(u, t, i, j)} | i < j < |t.fetches| ensures PairOk(u, t, i, j) {
      assert FetchOk(u, s, i);
      if j < n { assert PairOk(u, s, i, j); }
    }
  }

  lemma StatusKeeps(u: Setup, s: Cache, e: Event, i: nat)
    requires Inv(u, s) && Enabled(u, s, e) && (e == Fail(i) || (e.WriteKeys? && e.i == i) || e == Stamp(i))
    ensures Inv(u, Apply(u, s, e))
  {
    var t := Apply(u, s, e);
    forall k: nat {:trigger FetchOk(u, t, k)} | k < |t.fetches| ensures FetchOk(u, t, k) {
      assert FetchOk(u, s, k);
    }
    forall k: nat, j: nat {:trigger PairOk(u, t, k, j)} | k < j < |t.fetches| ensures PairOk(u, t, k, j) {
      assert PairOk(u, s, k, j) && FetchOk(u, s, j);
    }
  }

  lemma TickKeeps(u: Setup, s: Cache, d: nat)
    requires Inv(u, s)
    ensures Inv(u, Apply(u, s, Tick(d)))
  {
    var t := Apply(u, s, Tick(d));
    forall k: nat {:trigger FetchOk(u, t, k)} | k < |t.fetches| ensures FetchOk(u, t, k) {
      assert FetchOk(u, s, k);
    }
    forall k: nat, j: nat {:trigger PairOk(u, t, k, j)} | k < j < |t.fetches| ensures PairOk(u, t, k, j) {
      assert PairOk(u, s, k, j);
    }
  }

  lemma {:induction false} RunKeeps(u: Setup, s: Cache, es: seq<Event>, t: Cache)
    requires Inv(u, s) && Reached(u, s, es, t)
    ensures Inv(u, t)
    decreases |es|
  {
    if es != [] {
      match es[0] {
        case Tick(d) => TickKeeps(u, s, d);
        case Refresh => RefreshKeeps(u, s);
        case Fail(i) => StatusKeeps(u, s, es[0], i);
        case WriteKeys(i, _) => StatusKeeps(u, s, es[0], i);
        case Stamp(i) => StatusKeeps(u, s, es[0], i);
      }
      RunKeeps(u, Apply(u, s, es[0]), es[1..], t);
    }
  }

  // ---- The bound on refetches ----

  // A state that some run from a freshly loaded cache reaches.
  ghost predicate Reachable(u: Setup, s: Cache) {
    exists now, jwks, es :: Reached(u, Start(now, jwks), es, s)
  }

  lemma ReachableInv(u: Setup, s: Cache)
    requires Reachable(u, s)
    ensures Inv(u, s)
  {
    var now, jwks, es :| Reached(u, Start(now, jwks), es, s);
    RunKeeps(u, Start(now, jwks), es, s);
  }

  // Two successful refetches that do not overlap in time are a cooldown apart.
  lemma ApartByCooldown(u: Setup, s: Cache, i: nat, j: nat)
    requires Reachable(u, s) && i < |s.fetches| && j < |s.fetches|
    requires s.fetches[i].status.Done? && s.fetches[j].status.Done?
    requires s.fetches[i].status.end < s.fetches[j].start
    ensures s.fetches[i].status.end + u.cooldown <= s.fetches[j].start
  {
    ReachableInv(u, s);
    assert FetchOk(u, s, i) && FetchOk(u, s, j);
    assert i < j ==> PairOk(u, s, i, j);
    assert j < i ==> PairOk(u, s, j, i);
  }

  // The fetches that started in [from, to) and have not failed: running, hung or successful.
  function Unfailed(s: Cache, from: nat, to: nat): set<nat> {
    set i: nat | i < |s.fetches| && !s.fetches[i].status.Failed? && from <= s.fetches[i].start < to
  }

  // All such fetches that start within one cooldown were in flight together when the last of them started.
  lemma OneCooldown(u: Setup, s: Cache, from: nat)
    requires Inv(u, s)
    ensures |Unfailed(s, from, from + u.cooldown)| <= u.limit
  {
    var a := Unfailed(s, from, from + u.cooldown);
    if a != {} {
      var j := HasGreatest(a);
      assert FetchOk(u, s, j);
      forall i | i in a ensures i in s.fetches[j].peers {
        if i < j { assert PairOk(u, s, i, j) && FetchOk(u, s, i); }
      }
      SubsetIsSmaller(a, s.fetches[j].peers);
    }
  }

  lemma Unroll(n: nat, x: nat)
    requires n > 0
    ensures n * x == x + (n - 1) * x
  {
  }

  lemma WindowsAdd(s: Cache, from: nat, mid: nat, to: nat)
    requires from <= mid <= to
    ensures |Unfailed(s, from, to)| <= |Unfailed(s, from, mid)| + |Unfailed(s, mid, to)|
  {
    var a, b := Unfailed(s, from, mid), Unfailed(s, mid, to);
    assert Unfailed(s, from, to) == a + b;
    assert |a + b| == |a| + |b| - |a * b|;
  }

  lemma {:induction false} Cooldowns(u: Setup, s: Cache, from: nat, n: nat)
    requires Inv(u, s)
    ensures |Unfailed(s, from, from + n * u.cooldown)| <= n * u.limit
    decreases n
  {
    if n == 0 {
      assert Unfailed(s, from, from + n * u.cooldown) == {};
    } else {
      Unroll(n, u.cooldown);
      Unroll(n, u.limit);
      OneCooldown(u, s, from);
      Cooldowns(u, s, from + u.cooldown, n - 1);
      WindowsAdd(s, from, from + u.cooldown, from + n * u.cooldown);
    }
  }

  // The number of cooldowns that cover a window of the given length.
  function Covering(u: Setup, window: nat): nat
    requires Sane(u)
  {
    (window + u.cooldown - 1) / u.cooldown
  }

  // With at most `limit` requests in flight, a window sees at most `limit` fetches start that do not
  // fail, however long they take, per cooldown that it takes to cover it.
  lemma FetchBound(u: Setup, s: Cache, from: nat, window: nat)
    requires Reachable(u, s) && Sane(u)
    ensures |Unfailed(s, from, from + window)| <= u.limit * Covering(u, window)
  {
    ReachableInv(u, s);
    var n := Covering(u, window);
    assert window <= n * u.cooldown;
    Cooldowns(u, s, from, n);
    SubsetIsSmaller(Unfailed(s, from, from + window), Unfailed(s, from, from + n * u.cooldown));
  }

  // So a window of a configured cooldown's length, or of one second, sees no more than `limit` of them:
  // the setting counts, and the floor stands in for a setting of zero.
  lemma ConfiguredFetchBound(configured: nat, limit: nat, s: Cache, from: nat)
    requires Reachable(Setup(Cooldown(configured), limit), s)
    ensures Sane(Setup(Cooldown(configured), limit))
    ensures |Unfailed(s, from, from + configured)| <= limit && |Unfailed(s, from, from + 1)| <= limit
  {
    var u := Setup(Cooldown(configured), limit);
    ReachableInv(u, s);
    OneCooldown(u, s, from);
    SubsetIsSmaller(Unfailed(s, from, from + configured), Unfailed(s, from, from + u.cooldown));
    SubsetIsSmaller(Unfailed(s, from, from + 1), Unfailed(s, from, from + u.cooldown));
  }

  // ---- All fetches, failed ones included ----

  function Started(s: Cache, from: nat, to: nat): set<nat> {
    set i: nat | i < |s.fetches| && from <= s.fetches[i].start < to
  }

  function Failures(s: Cache): set<nat> {
    set i: nat | i < |s.fetches| && s.fetches[i].status.Failed?
  }

  // Every failed fetch may cost one more, and that is all.
  lemma FailuresAddUp(u: Setup, s: Cache, from: nat, window: nat)
    requires Reachable(u, s) && Sane(u)
    ensures |Started(s, from, from + window)| <= u.limit * Covering(u, window) + |Failures(s)|
  {
    FetchBound(u, s, from, window);
    var a, b := Unfailed(s, from, from + window), Failures(s);
    SubsetIsSmaller(Started(s, from, from + window), a + b);
    assert |a + b| == |a| + |b| - |a * b|;
  }

  // ---- Building runs ----

  lemma {:induction false} ReachedOn(u: Setup, s: Cache, es: seq<Event>, t: Cache, e: Event)
    requires Reached(u, s, es, t) && Enabled(u, t, e)
    ensures Reached(u, s, es + [e], Apply(u, t, e))
    decreases |es|
  {
    if es == [] {
      assert Reached(u, Apply(u, s, e), [], Apply(u, t, e));
      assert (es + [e])[1..] == [];
    } else {
      assert (es + [e])[1..] == es[1..] + [e];
      ReachedOn(u, Apply(u, s, es[0]), es[1..], t, e);
    }
  }

  lemma ReachableOn(u: Setup, s: Cache, e: Event)
    requires Reachable(u, s) && Enabled(u, s, e)
    ensures Reachable(u, Apply(u, s, e))
  {
    var now, jwks, es :| Reached(u, Start(now, jwks), es, s);
    ReachedOn(u, Start(now, jwks), es, s, e);
  }

  // What the sequential `RefreshJwks` promises, said of two caches; outside the cooldown there was one fetch.
  ghost predicate Refreshed(u: Setup, s: Cache, t: Cache, fetched: Option<JwkSet>) {
    && t.now == s.now
    && (if s.now - s.last < u.cooldown || fetched.None? then t.jwks == s.jwks && t.last == s.last
        else t.jwks == fetched.value && t.last == s.now)
    && (if s.now - s.last < u.cooldown then t.fetches == s.fetches
        else
          var status := if fetched.None? then Failed else Done(s.now);
          t.fetches == s.fetches + [Fetch(s.now, InFlight(s) + {|s.fetches|}, status)])
  }

  // The sequential method is a run of these steps: the check, and then either nothing, or a failed
  // fetch, or new keys and a new stamp.
  lemma AloneIsARun(u: Setup, s: Cache, fetched: Option<JwkSet>)
    requires |InFlight(s)| < u.limit
    ensures exists es, t :: Reached(u, s, es, t) && Refreshed(u, s, t, fetched)
  {
    assert Reached(u, s, [], s);
    ReachedOn(u, s, [], s, Refresh);
    if s.now - s.last >= u.cooldown {
      if fetched.None? {
        FailsAlone(u, s, [] + [Refresh], Apply(u, s, Refresh));
      } else {
        FetchesAlone(u, s, [] + [Refresh], Apply(u, s, Refresh), fetched.value);
      }
    }
  }

  lemma FailsAlone(u: Setup, s: Cache, es: seq<Event>, s1: Cache)
    requires |InFlight(s)| < u.limit && s.now - s.last >= u.cooldown && s1 == Apply(u, s, Refresh)
    requires Reached(u, s, es, s1)
    ensures exists es, t :: Reached(u, s, es, t) && Refreshed(u, s, t, None)
  {
    var i := |s.fetches|;
    ReachedOn(u, s, es, s1, Fail(i));
    assert Refreshed(u, s, Apply(u, s1, Fail(i)), None);
  }

  lemma FetchesAlone(u: Setup, s: Cache, es: seq<Event>, s1: Cache, keys: JwkSet)
    requires |InFlight(s)| < u.limit && s.now - s.last >= u.cooldown && s1 == Apply(u, s, Refresh)
    requires Reached(u, s, es, s1)
    ensures exists es, t :: Reached(u, s, es, t) && Refreshed(u, s, t, Some(keys))
  {
    var i := |s.fetches|;
    ReachedOn(u, s, es, s1, WriteKeys(i, keys));
    var s2 := Apply(u, s1, WriteKeys(i, keys));
    ReachedOn(u, s, es + [WriteKeys(i, keys)], s2, Stamp(i));
    assert Refreshed(u, s, Apply(u, s2, Stamp(i)), Some(keys));
  }

  // ---- What the bound does not cover ----

  // n fetches, all failed, all started at the same moment, and nothing in flight.
  ghost predicate Storm(u: Setup, s: Cache, n: nat) {
    && s.now == u.cooldown && s.last == 0 && |s.fetches| == n
    && (forall i :: 0 <= i < n ==> s.fetches[i].status.Failed? && s.fetches[i].start == u.cooldown)
  }

  // A failed fetch does not stamp the time, so while an endpoint is down nothing limits how many
  // start: any number at one moment, even one at a time. The service's README.md:80 says that the
  // floor on the cooldown keeps the protection always on.
  lemma {:induction false} FailuresAreNotLimited(u: Setup, n: nat)
    requires u.limit >= 1
    ensures exists s :: Reachable(u, s) && Storm(u, s, n)
  {
    if n == 0 {
      CooldownPasses(u);
    } else {
      FailuresAreNotLimited(u, n - 1);
      var s :| Reachable(u, s) && Storm(u, s, n - 1);
      assert InFlight(s) == {};
      ReachableOn(u, s, Refresh);
      var t := Apply(u, s, Refresh);
      ReachableOn(u, t, Fail(n - 1));
      assert Storm(u, Apply(u, t, Fail(n - 1)), n);
    }
  }

  lemma CooldownPasses(u: Setup)
    ensures exists s :: Reachable(u, s) && Storm(u, s, 0) && Crowd(u, s, 0)
  {
    var s := Start(0, []);
    assert Reached(u, s, [], s);
    ReachableOn(u, s, Tick(u.cooldown));
    assert Storm(u, Apply(u, s, Tick(u.cooldown)), 0) && Crowd(u, Apply(u, s, Tick(u.cooldown)), 0);
  }

  // n fetches, all running, all started at the same moment.
  ghost predicate Crowd(u: Setup, s: Cache, n: nat) {
    && s.now == u.cooldown && s.last == 0 && |s.fetches| == n
    && (forall i :: 0 <= i < n ==> s.fetches[i].status.Running? && s.fetches[i].start == u.cooldown)
  }

  lemma {:induction false} Gathers(u: Setup, n: nat)
    requires n <= u.limit
    ensures exists s :: Reachable(u, s) && Crowd(u, s, n)
  {
    if n == 0 {
      CooldownPasses(u);
    } else {
      Gathers(u, n - 1);
      var s :| Reachable(u, s) && Crowd(u, s, n - 1);
      AreBelow(InFlight(s), n - 1);
      ReachableOn(u, s, Refresh);
      assert Crowd(u, Apply(u, s, Refresh), n);
    }
  }

  // One fetch too many: the bound for the first cooldown is broken after a single failure.
  ghost predicate Broken(u: Setup, s: Cache, k: nat, from: nat, window: nat)
    requires Sane(u)
  {
    Reachable(u, s) && |Failures(s)| <= k && |Started(s, from, from + window)| > u.limit * Covering(u, window)
  }

  lemma OneFailureBreaks(u: Setup)
    requires Sane(u) && u.limit >= 1
    ensures exists s :: Broken(u, s, 1, u.cooldown, 1)
  {
    Gathers(u, u.limit);
    var s :| Reachable(u, s) && Crowd(u, s, u.limit);
    ReachableOn(u, s, Fail(0));
    var t := Apply(u, s, Fail(0));
    OneLeaves(u, s, t);
    ReachableOn(u, t, Refresh);
    OneTooMany(u, Apply(u, t, Refresh));
  }

  lemma OneLeaves(u: Setup, s: Cache, t: Cache)
    requires u.limit >= 1 && Crowd(u, s, u.limit) && t == SetStatus(s, 0, Failed)
    ensures |InFlight(t)| < u.limit
  {
    AreBelow(InFlight(s), u.limit);
    SubsetIsSmaller(InFlight(t), InFlight(s) - {0});
  }

  lemma OneTooMany(u: Setup, s: Cache)
    requires Sane(u) && Reachable(u, s) && |s.fetches| == u.limit + 1
    requires forall i: nat :: i < |s.fetches| ==>
      s.fetches[i].start == u.cooldown && (s.fetches[i].status.Failed? <==> i == 0)
    ensures Broken(u, s, 1, u.cooldown, 1)
  {
    assert Failures(s) == {0};
    AreBelow(Started(s, u.cooldown, u.cooldown + 1), u.limit + 1);
    CoveringOne(u);
  }

  lemma CoveringOne(u: Setup)
    requires Sane(u)
    ensures Covering(u, 1) == 1
  {
  }

  // The bound holds for all fetches in every run with at most k failed ones, exactly when k is zero.
  lemma StartsAreBoundedExactly(u: Setup, k: nat)
    requires Sane(u) && u.limit >= 1
    ensures (forall s, from, window :: !Broken(u, s, k, from, window)) <==> k == 0
  {
    if k == 0 {
      forall s, from, window ensures !Broken(u, s, 0, from, window) {
        if Reachable(u, s) && |Failures(s)| == 0 { FailuresAddUp(u, s, from, window); }
      }
    } else {
      OneFailureBreaks(u);
      var s :| Broken(u, s, 1, u.cooldown, 1);
      assert Broken(u, s, k, u.cooldown, 1);
    }
  }
}
