/**
 Runs that break a promise: an innocent client revoked, a revoked family that comes back, an innocent
 retry that revokes. With them the conditions of the promises are exact. Deployments that align the
 retention with the refresh lifetime, as the chart asks, are below both of its bounds.
 */
module Counterexamples {
  import opened Types
  import opened Kv
  import opened Protocol
  import opened Retention
  import opened Safety
  import opened Retry
  import opened Sets

  const EMAIL := "a@b.c"

  function FirstRow(): RefreshToken { FreshRow(1, EMAIL, 1, 0) }

  function FirstEntry(): Entry<RefreshToken> { Entry(FirstRow(), 1, 0) }

  const LOGIN: Request := Request(Login, 1, 0, 0, true, 0, 0, Some(1), false, false, Pending, Ended(Issued(1)))

  // One client has logged in at time zero and holds token 1 of family 1.
  ghost predicate LoggedIn(c: Config, s: State) {
    && s.now == 0 && s.delivered == {1} && s.revocations == map[]
    && s.minted == map[1 := Claims(EMAIL, 1, 0, c.refreshTtl, 0)]
    && s.kv == Kv(map[1 := FirstEntry()], map[], 1)
    && FirstEntry() in s.written
    && s.requests == map[0 := LOGIN]
  }

  lemma LogsIn(c: Config)
    ensures exists s :: Reachable(c, s) && LoggedIn(c, s)
  {
    LeadsNowhere(c, INIT);
    LeadsOn(c, INIT, INIT, LogIn(0, EMAIL, 1, 1));
    var s1 := LogInStep(c, INIT, 0, EMAIL, 1, 1);
    Puts(c, INIT, s1, 0, Ack);
    var s2 := PutStep(s1, 0, Ack);
    Delivers(c, INIT, s2, 0);
    assert LoggedIn(c, DeliverStep(s2, 0));
  }

  // ---- A family revoked although its client did nothing wrong ----

  // The client presented its token in the last second in which it verifies, and its rotation,
  // w seconds later, has stored the successor.
  ghost predicate RotatingSlowly(c: Config, w: nat, s: State) {
    var at := c.refreshTtl + CLOCK_SKEW_LEEWAY_SECS;
    && s.now == at + w
    && 1 in s.kv.tokens && s.kv.tokens[1] == FirstEntry()
    && s.requests == map[0 := LOGIN, 1 := Request(Explicit, 1, at, at, true, at, at, Some(2), false, false, Pending,
                                                  Stored(FirstEntry(), FreshRow(2, EMAIL, 1, at)))]
  }

  ghost predicate ReadingLate(c: Config, s: State) {
    var at := c.refreshTtl + CLOCK_SKEW_LEEWAY_SECS;
    && s.now == at && s.minted.Keys == {1} && s.minted[1].sub == EMAIL
    && s.kv == Kv(map[1 := FirstEntry()], map[], 1)
    && s.requests == map[0 := LOGIN, 1 := Request(Explicit, 1, at, at, true, at, at, None, false, false, Pending,
                                                  Cleared(FirstEntry()))]
  }

  lemma ReadsLate(c: Config, s: State)
    requires Reachable(c, s) && LoggedIn(c, s)
    ensures exists t :: Reachable(c, t) && ReadingLate(c, t)
  {
    var at := c.refreshTtl + CLOCK_SKEW_LEEWAY_SECS;
    Waits(c, INIT, s, at);
    var s1 := Wait(s, at);
    Reads(c, INIT, s1, 1, Explicit, 1);
    assert ReadingLate(c, Reading(s1, 1, Explicit, 1));
  }

  lemma RotatesSlowly(c: Config, w: nat, s: State)
    requires Reachable(c, s) && LoggedIn(c, s)
    ensures exists t :: Reachable(c, t) && RotatingSlowly(c, w, t)
  {
    ReadsLate(c, s);
    var s2 :| Reachable(c, s2) && ReadingLate(c, s2);
    Stores(c, INIT, s2, 1, 2);
    var s3 :| Leads(c, INIT, s3) && HasStored(c, s2, s3, 1, 2);
    Waits(c, INIT, s3, w);
    assert RotatingSlowly(c, w, Wait(s3, w));
  }

  ghost predicate FalselyRevoked(w: nat, s: State) {
    CasWithin(w, s, 1) && 1 in s.revocations && !Earned(s, 1)
  }

  // One presentation of one token is neither a logout nor a double presentation.
  lemma OneTokenOnce(w: nat, s: State)
    requires s.requests.Keys == {0, 1} && s.requests[0].flow.Login? && s.requests[1].flow.Explicit?
    requires s.requests[0].casAt == s.requests[0].verifiedAt && s.requests[1].casAt == s.requests[1].verifiedAt + w
    requires 1 in s.revocations && !s.requests[0].applied && !s.requests[1].applied
    ensures FalselyRevoked(w, s)
  {
  }

  // Its row expires just before the compare-and-swap, which then takes the loss for reuse.
  lemma ExpiredRowRevokes(c: Config, w: nat)
    requires c.retention <= c.refreshTtl + CLOCK_SKEW_LEEWAY_SECS + w
    ensures exists s :: Reachable(c, s) && FalselyRevoked(w, s)
  {
    LogsIn(c);
    var s0 :| Reachable(c, s0) && LoggedIn(c, s0);
    RotatesSlowly(c, w, s0);
    var s1 :| Reachable(c, s1) && RotatingSlowly(c, w, s1);
    LeadsOn(c, INIT, s1, ExpireToken(1));
    var s2 := Apply(c, s1, ExpireToken(1));
    Conflicts(c, INIT, s2, 1);
    var s3 :| Leads(c, INIT, s3) && HasConflicted(s2, s3, 1);
    OneTokenOnce(w, s3);
  }

  // Families are revoked only when their clients earned it, in every run whose rotations take at
  // most w seconds from verification to compare-and-swap, exactly when the bucket outlasts the bound.
  lemma RevocationIsEarnedExactly(c: Config, w: nat)
    ensures (forall s, f :: Reachable(c, s) && CasWithin(w, s, f) && f in s.revocations ==> Earned(s, f))
            <==> c.retention > c.refreshTtl + CLOCK_SKEW_LEEWAY_SECS + w
  {
    if c.retention > c.refreshTtl + CLOCK_SKEW_LEEWAY_SECS + w {
      forall s, f | Reachable(c, s) && CasWithin(w, s, f) && f in s.revocations ensures Earned(s, f) {
        NoFalseRevocation(c, w, s, f);
      }
    } else {
      ExpiredRowRevokes(c, w);
    }
  }

  // ---- A revoked family that comes back ----

  const CHECKED: Request :=
    Request(Explicit, 1, 0, 0, true, 0, 0, None, false, false, Pending, Cleared(FirstEntry()))

  const GONE: Request :=
    Request(Logout, 1, 0, 0, true, 0, 0, None, false, true, Pending, Ended(LoggedOut))

  // While request 1 was rotating the client's token, request 2 logged out: family 1 is revoked at time zero.
  ghost predicate LoggedOutMidway(c: Config, s: State) {
    && s.now == 0 && s.delivered == {1} && s.revocations == map[1 := Revocation(0, 2)]
    && s.minted == map[1 := Claims(EMAIL, 1, 0, c.refreshTtl, 0)]
    && s.kv == Kv(map[1 := FirstEntry()], map[1 := Entry(RevokedFamily(0), 2, 0)], 2)
    && FirstEntry() in s.written
    && s.requests == map[0 := LOGIN, 1 := CHECKED, 2 := GONE]
  }

  lemma LogsOutMidway(c: Config, s: State)
    requires Reachable(c, s) && LoggedIn(c, s)
    ensures exists t :: Reachable(c, t) && LoggedOutMidway(c, t)
  {
    Reads(c, INIT, s, 1, Explicit, 1);
    var s1 := Reading(s, 1, Explicit, 1);
    Looks(c, INIT, s1, 2, Logout, 1);
    var s2 := Looking(s1, 2, Logout, 1);
    Revokes(c, INIT, s2, 2, Ack);
    assert LoggedOutMidway(c, RevokeStep(s2, 2, Ack));
  }

  function SecondEntry(d: Delays): Entry<RefreshToken> { Entry(FreshRow(2, EMAIL, 1, d.toSign), 3, d.toSign) }

  // All requests of all families are on time, and all their checks are answered.
  ghost predicate Impeccable(d: Delays, s: State) {
    forall r {:trigger s.requests[r]} :: r in s.requests ==> OnTime(d, s.requests[r]) && s.requests[r].readOk
  }

  lemma ImpeccableIsDisciplined(d: Delays, s: State, f: Uuid)
    requires Impeccable(d, s)
    ensures Prompt(d, s, f) && UnheardChecks(s, f) == {}
  {
  }

  // Request 1 signed its successor as late as it may, and its client got that successor.
  ghost predicate Belated(c: Config, d: Delays, s: State) {
    && s.now == d.toSign && s.delivered == {1, 2} && s.revocations == map[1 := Revocation(0, 2)]
    && s.minted.Keys == {1, 2} && s.minted[2] == Claims(EMAIL, 1, d.toSign, d.toSign + c.refreshTtl, 1)
    && 2 in s.kv.tokens && s.kv.tokens[2] == SecondEntry(d)
    && s.kv.tokens[2] in s.written
    && s.kv.revoked == map[1 := Entry(RevokedFamily(0), 2, 0)]
    && s.requests.Keys == {0, 1, 2} && Impeccable(d, s)
  }

  // Request 1 signed its successor as late as it may, and has stored it.
  ghost predicate BelatedlyStored(c: Config, d: Delays, s: State) {
    && s.now == d.toSign && s.delivered == {1} && s.revocations == map[1 := Revocation(0, 2)]
    && s.minted.Keys == {1, 2} && s.minted[2] == Claims(EMAIL, 1, d.toSign, d.toSign + c.refreshTtl, 1)
    && s.kv.tokens.Keys == {1, 2} && s.kv.tokens[1] == FirstEntry() && s.kv.tokens[2] == SecondEntry(d)
    && s.kv.revoked == map[1 := Entry(RevokedFamily(0), 2, 0)]
    && SecondEntry(d) in s.written
    && s.requests.Keys == {0, 1, 2} && s.requests[0] == LOGIN && s.requests[2] == GONE
    && s.requests[1] == CHECKED.(signedAt := d.toSign, mints := Some(2),
                                 phase := Stored(FirstEntry(), SecondEntry(d).value))
  }

  lemma HasStoredBelatedly(c: Config, d: Delays, s: State, t: State)
    requires LoggedOutMidway(c, s) && CanStore(Wait(s, d.toSign), 1) && HasStored(c, Wait(s, d.toSign), t, 1, 2)
    ensures BelatedlyStored(c, d, t)
  {
    assert SecondEntry(d) in t.written;
    assert t.kv.tokens == map[1 := FirstEntry(), 2 := SecondEntry(d)];
  }

  lemma StoresBelatedly(c: Config, d: Delays, s: State)
    requires LoggedOutMidway(c, s)
    ensures exists t :: Leads(c, s, t) && BelatedlyStored(c, d, t)
  {
    LeadsNowhere(c, s);
    Waits(c, s, s, d.toSign);
    var s1 := Wait(s, d.toSign);
    Stores(c, s, s1, 1, 2);
    var t :| Leads(c, s, t) && HasStored(c, s1, t, 1, 2);
    HasStoredBelatedly(c, d, s, t);
  }

  lemma BelatedInTime(d: Delays, s: State)
    requires s.requests.Keys == {0, 1, 2} && s.requests[0] == LOGIN && s.requests[2] == GONE
    requires s.requests[1] == CHECKED.(signedAt := d.toSign, casAt := d.toSign, mints := Some(2), applied := true,
                                       verdict := RotatedOk, phase := Ended(Issued(2)))
    ensures Impeccable(d, s)
  {
  }

  lemma RotatesBelatedly(c: Config, d: Delays, s: State)
    requires LoggedOutMidway(c, s)
    ensures exists t :: Leads(c, s, t) && Belated(c, d, t)
  {
    StoresBelatedly(c, d, s);
    var s1 :| Leads(c, s, s1) && BelatedlyStored(c, d, s1);
    Commits(c, s, s1, 1);
    var t :| Leads(c, s, t) && HasCommitted(s1, t, 1);
    BelatedInTime(d, t);
    assert Belated(c, d, t);
  }

  // The client presented that token in the last second in which it verifies, and the revocation
  // check is due as late as it may be.
  ghost predicate Late(c: Config, d: Delays, s: State) {
    var at := d.toSign + c.refreshTtl + CLOCK_SKEW_LEEWAY_SECS;
    && s.now == at + d.toCheck
    && s.minted.Keys == {1, 2} && s.minted[2].family == 1
    && 2 in s.kv.tokens && s.kv.tokens[2] == SecondEntry(d)
    && s.kv.revoked == map[1 := Entry(RevokedFamily(0), 2, 0)]
    && 3 in s.requests && Impeccable(d, s)
    && s.requests[3] == Request(Explicit, 2, at, at, true, at, at, None, false, false, Pending, Found(s.kv.tokens[2]))
  }

  lemma NewcomerInTime(d: Delays, s: State, t: State, r: nat)
    requires Impeccable(d, s) && r in t.requests && t.requests == s.requests[r := t.requests[r]]
    requires OnTime(d, t.requests[r]) && t.requests[r].readOk
    ensures Impeccable(d, t)
  {
  }

  lemma ComesLate(c: Config, d: Delays, s0: State, s: State)
    requires Leads(c, s0, s) && Belated(c, d, s)
    ensures exists t :: Leads(c, s0, t) && Late(c, d, t)
  {
    var ttl := c.refreshTtl + CLOCK_SKEW_LEEWAY_SECS;
    Waits(c, s0, s, ttl);
    var s1 := Wait(s, ttl);
    Looks(c, s0, s1, 3, Explicit, 2);
    var s2 := Looking(s1, 3, Explicit, 2);
    Waits(c, s0, s2, d.toCheck);
    NewcomerInTime(d, s, s2, 3);
    assert Late(c, d, Wait(s2, d.toCheck));
  }

  ghost predicate Slipped(d: Delays, s: State) {
    && CanStore(s, 3) && s.requests[3].flow.Explicit? && s.requests[3].jti == 2 && Impeccable(d, s)
    && s.requests[3].checkedAt == s.now
    && s.minted.Keys == {1, 2} && s.minted[2].family == 1
    && 2 in s.kv.tokens && s.kv.tokens[2] == s.requests[3].phase.held
  }

  // By then the marker may have expired, so the check finds nothing.
  lemma SlipsThrough(c: Config, d: Delays, s0: State, s: State)
    requires Leads(c, s0, s) && Late(c, d, s) && !LongEnough(c, d)
    ensures exists t :: Leads(c, s0, t) && Slipped(d, t)
  {
    LeadsOn(c, s0, s, ExpireMarker(1));
    var s1 := Apply(c, s, ExpireMarker(1));
    Checks(c, s0, s1, 3, Ack);
    assert Slipped(d, CheckStep(s1, 3, Ack));
  }

  lemma NobodyUnheard(c: Config, d: Delays, s: State, t: State)
    requires Reachable(c, s) && LoggedOutMidway(c, s) && Leads(c, s, t) && Impeccable(d, t)
    requires OfFamily(t, 3, 1) && GotCookies(t, 3)
    ensures RevivedBy(c, d, 0, s, t, 3, 1)
  {
    ImpeccableIsDisciplined(d, t, 1);
  }

  lemma GetsCookies(c: Config, d: Delays, s0: State, s: State)
    requires Reachable(c, s0) && LoggedOutMidway(c, s0) && Leads(c, s0, s) && Slipped(d, s)
    ensures exists t :: RevivedBy(c, d, 0, s0, t, 3, 1)
  {
    Stores(c, s0, s, 3, 3);
    var s1 :| Leads(c, s0, s1) && HasStored(c, s, s1, 3, 3);
    Commits(c, s0, s1, 3);
    var t :| Leads(c, s0, t) && HasCommitted(s1, t, 3);
    NewcomerInTime(d, s, t, 3);
    NobodyUnheard(c, d, s0, t);
  }

  // The request gets cookies for a family whose revocation was recorded long before it was presented.
  lemma ExpiredMarkerRevives(c: Config, d: Delays)
    requires !LongEnough(c, d)
    ensures exists s, t :: RevivedBy(c, d, 0, s, t, 3, 1)
  {
    LogsIn(c);
    var s0 :| Reachable(c, s0) && LoggedIn(c, s0);
    LogsOutMidway(c, s0);
    var s1 :| Reachable(c, s1) && LoggedOutMidway(c, s1);
    RotatesBelatedly(c, d, s1);
    var s2 :| Leads(c, s1, s2) && Belated(c, d, s2);
    ComesLate(c, d, s1, s2);
    var s3 :| Leads(c, s1, s3) && Late(c, d, s3);
    SlipsThrough(c, d, s1, s3);
    var s4 :| Leads(c, s1, s4) && Slipped(d, s4);
    GetsCookies(c, d, s1, s4);
  }

  // ---- A revoked family that comes back at once ----

  const UNHEARD: Request :=
    Request(Explicit, 1, 0, 0, false, 0, 0, None, false, false, Pending, Cleared(FirstEntry()))

  // Request 3 was presented after the logout, and its revocation check met a read error.
  ghost predicate CheckedInVain(c: Config, s: State) {
    && s.now == 0 && s.delivered == {1} && s.revocations == map[1 := Revocation(0, 2)]
    && s.minted == map[1 := Claims(EMAIL, 1, 0, c.refreshTtl, 0)]
    && s.kv.tokens == map[1 := FirstEntry()]
    && s.requests.Keys == {0, 1, 2, 3} && s.requests[0] == LOGIN && s.requests[1] == CHECKED
    && s.requests[2] == GONE && s.requests[3] == UNHEARD
  }

  lemma ChecksInVain(c: Config, s: State)
    requires LoggedOutMidway(c, s)
    ensures exists t :: Leads(c, s, t) && CheckedInVain(c, t)
  {
    LeadsNowhere(c, s);
    Looks(c, s, s, 3, Explicit, 1);
    var s1 := Looking(s, 3, Explicit, 1);
    Checks(c, s, s1, 3, NotApplied);
    assert CheckedInVain(c, CheckStep(s1, 3, NotApplied));
  }

  lemma OnlyOneUnheard(d: Delays, s: State)
    requires s.requests.Keys == {0, 1, 2, 3} && s.requests[3].checkedAt == s.requests[3].signedAt == 0
    requires s.requests[0] == LOGIN && s.requests[1] == CHECKED && s.requests[2] == GONE
    ensures Prompt(d, s, 1) && |UnheardChecks(s, 1)| <= 1
  {
    assert UnheardChecks(s, 1) <= {3};
    SubsetIsSmaller(UnheardChecks(s, 1), {3});
  }

  lemma RevivesUnheard(c: Config, d: Delays, s0: State, s: State)
    requires Reachable(c, s0) && LoggedOutMidway(c, s0) && Leads(c, s0, s) && CheckedInVain(c, s)
    ensures exists t :: RevivedBy(c, d, 1, s0, t, 3, 1)
  {
    Stores(c, s0, s, 3, 2);
    var s1 :| Leads(c, s0, s1) && HasStored(c, s, s1, 3, 2);
    Commits(c, s0, s1, 3);
    var t :| Leads(c, s0, t) && HasCommitted(s1, t, 3);
    OnlyOneUnheard(d, t);
    assert RevivedBy(c, d, 1, s0, t, 3, 1);
  }

  // However long entries are kept and however prompt the requests are, one unanswered check is enough.
  lemma UnansweredCheckRevives(c: Config, d: Delays)
    ensures exists s, t :: RevivedBy(c, d, 1, s, t, 3, 1)
  {
    LogsIn(c);
    var s0 :| Reachable(c, s0) && LoggedIn(c, s0);
    LogsOutMidway(c, s0);
    var s1 :| Reachable(c, s1) && LoggedOutMidway(c, s1);
    ChecksInVain(c, s1);
    var s2 :| Leads(c, s1, s2) && CheckedInVain(c, s2);
    RevivesUnheard(c, d, s1, s2);
  }

  // Revocation is final, in every run in which the requests of the family are prompt and at most k
  // of its checks since the revocation go unanswered, exactly when none does and the bucket outlasts
  // a token minted as late as possible and presented as late as possible.
  lemma RevocationIsFinalExactly(c: Config, d: Delays, k: nat)
    ensures (forall s, t, r, f :: !RevivedBy(c, d, k, s, t, r, f)) <==> LongEnough(c, d) && k == 0
  {
    if k > 0 {
      UnansweredCheckRevives(c, d);
      var s, t :| RevivedBy(c, d, 1, s, t, 3, 1);
      assert RevivedBy(c, d, k, s, t, 3, 1);
    } else if LongEnough(c, d) {
      forall s, t, r, f ensures !RevivedBy(c, d, 0, s, t, r, f) {
        if RevivedBy(c, d, 0, s, t, r, f) { NoneUnheard(t, f); RevocationIsFinal(c, d, s, t, r, f); }
      }
    } else {
      ExpiredMarkerRevives(c, d);
    }
  }

  // ---- An innocent retry that revokes ----

  // The client's rotation has stored its successor; no time has passed and nobody else did anything.
  ghost predicate AboutToSwap(c: Config, s: State) {
    && s.now == 0 && s.delivered == {1} && s.minted.Keys == {1, 2}
    && s.minted[1] == Claims(EMAIL, 1, 0, c.refreshTtl, 0)
    && s.kv.tokens == map[1 := FirstEntry(), 2 := Entry(FreshRow(2, EMAIL, 1, 0), 2, 0)] && s.kv.revoked == map[]
    && s.requests.Keys == {0, 1} && s.requests[1].jti == 1
    && s.requests[1].phase == Stored(FirstEntry(), FreshRow(2, EMAIL, 1, 0))
    && Rotatable(s, 1)
  }

  lemma GetsToTheSwap(c: Config)
    ensures exists s :: Reachable(c, s) && AboutToSwap(c, s)
  {
    LogsIn(c);
    var s0 :| Reachable(c, s0) && LoggedIn(c, s0);
    Reads(c, INIT, s0, 1, Explicit, 1);
    var s1 := Reading(s0, 1, Explicit, 1);
    Stores(c, INIT, s1, 1, 2);
    var s :| Leads(c, INIT, s) && HasStored(c, s1, s, 1, 2);
    ReachableInv(c, s0);
    CurrentRow(c, s0, 1);
    assert !UsedUp(s, 1);
    assert AboutToSwap(c, s);
  }

  ghost predicate AckLost(c: Config, s: State) {
    && Reachable(c, s) && s.now == 0 && 1 in s.delivered && UsedUp(s, 1)
    && s.minted.Keys == {1, 2} && s.minted[1] == Claims(EMAIL, 1, 0, c.refreshTtl, 0)
    && 1 in s.kv.tokens && s.kv.revoked == map[] && s.requests.Keys == {0, 1}
  }

  lemma LosesTheAck(c: Config, s: State)
    requires Reachable(c, s) && AboutToSwap(c, s)
    ensures AckLost(c, CasStep(s, 1, LostAck))
  {
    RetryAfterCasError(c, s, 1, LostAck);
    Swaps(c, INIT, s, 1, LostAck);
  }

  lemma RetryDooms(c: Config, s: State)
    requires AckLost(c, s)
    ensures exists t :: Leads(c, s, t) && Doomed(s, t, 2, 1)
  {
    UsedTokenDooms(c, s, 2, Explicit, 1, 3);
  }

  // One client presents its token, loses the acknowledgement of the compare-and-swap, and presents
  // the same token again as it still may.
  ghost predicate RetriesIntoRevocation(c: Config, s: State, t: State) {
    && Reachable(c, s) && Rotatable(s, 1) && Enabled(c, s, Cas(1, LostAck)) && s.requests[1].jti == 1
    && Leads(c, CasStep(s, 1, LostAck), t) && Doomed(CasStep(s, 1, LostAck), t, 2, 1)
  }

  // The service's README.md:83 calls that retry safe. In every deployment there is a run in which it
  // revokes the family.
  lemma LostAckDooms(c: Config)
    ensures exists s, t :: RetriesIntoRevocation(c, s, t)
  {
    GetsToTheSwap(c);
    var s :| Reachable(c, s) && AboutToSwap(c, s);
    LosesTheAck(c, s);
    var s1 := CasStep(s, 1, LostAck);
    RetryDooms(c, s1);
    var t :| Leads(c, s1, t) && Doomed(s1, t, 2, 1);
    assert RetriesIntoRevocation(c, s, t);
  }
}
