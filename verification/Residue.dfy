/** What is still handed out for a family after its revocation has been recorded. */
module Residue {
  import opened Types
  import opened Protocol
  import opened Invariant
  import opened Safety
  import opened Retention
  import opened Sets

  // The requests whose rotation of a token of family f returned Ok.
  ghost function Winners(s: State, f: Uuid): set<nat> {
    set r | r in s.requests && OfFamily(s, r, f) && s.requests[r].verdict.RotatedOk?
  }

  // The requests of family f between the revocation check and the compare-and-swap.
  ghost function InFlight(s: State, f: Uuid): set<nat> {
    set r | r in s.requests && OfFamily(s, r, f) && CanStillWin(s.requests[r])
  }

  ghost predicate CanStillWin(q: Request) {
    q.phase.Cleared? || q.phase.Signed? || q.phase.Stored?
  }

  ghost predicate Lost(s: State, r: nat) {
    r in s.requests && (s.requests[r].phase.Conflicted? || s.requests[r].phase.Ended?) && !s.requests[r].applied
  }

  lemma {:induction false} LosersStayLosers(c: Config, s: State, es: seq<Event>, r: nat)
    requires Legal(c, s, es) && Lost(s, r)
    ensures Lost(After(c, s, es), r)
    decreases |es|
  {
    if es != [] {
      StepKeepsLosers(c, s, es[0], r);
      LosersStayLosers(c, Apply(c, s, es[0]), es[1..], r);
    }
  }

  lemma CasKeepsLosers(s: State, q: nat, fault: Fault, r: nat)
    requires q in s.requests && s.requests[q].phase.Stored? && Lost(s, r)
    ensures Lost(CasStep(s, q, fault), r)
  {
  }

  lemma PutKeepsLosers(s: State, q: nat, fault: Fault, r: nat)
    requires q in s.requests && (s.requests[q].phase.Opening? || s.requests[q].phase.Signed?) && Lost(s, r)
    ensures Lost(PutStep(s, q, fault), r)
  {
  }

  lemma StepKeepsLosers(c: Config, s: State, e: Event, r: nat)
    requires Enabled(c, s, e) && Lost(s, r)
    ensures Lost(Apply(c, s, e), r)
  {
    match e
    case Put(q, fault) => PutKeepsLosers(s, q, fault, r);
    case Cas(q, fault) => CasKeepsLosers(s, q, fault, r);
    case _ =>
  }

  lemma GrowsOn(s: State, t: State, u: State)
    requires Grows(s, t) && Grows(t, u)
    ensures Grows(s, u)
  {
  }

  lemma {:induction false} RunGrows(c: Config, s: State, es: seq<Event>)
    requires Inv(c, s) && Legal(c, s, es)
    ensures Grows(s, After(c, s, es))
    decreases |es|
  {
    if es != [] {
      var t := Apply(c, s, es[0]);
      StepKeeps(c, s, es[0]);
      RunGrows(c, t, es[1..]);
      GrowsOn(s, t, After(c, t, es[1..]));
    }
  }

  lemma WinnerWasInside(c: Config, s: State, t: State, r: nat, f: Uuid)
    requires Inv(c, s) && Inv(c, t) && Grows(s, t) && r in Winners(t, f) && !Outside(s, r, f)
    ensures OfFamily(s, r, f) && (r in Winners(s, f) || r in InFlight(s, f) || Lost(s, r))
  {
    assert RequestOk(c, s, r) && RequestOk(c, t, r);
  }

  lemma LateWinnerWasInFlight(c: Config, d: Delays, s: State, t: State, r: nat, f: Uuid)
    requires LongEnough(c, d) && Reachable(c, s) && Leads(c, s, t) && Disciplined(d, t, f)
    requires f in s.revocations && r in Winners(t, f) && r !in Winners(s, f)
    ensures r in InFlight(s, f)
  {
    var es :| Legal(c, s, es) && After(c, s, es) == t;
    ReachableInv(c, s);
    RunKeeps(c, s, es);
    RunGrows(c, s, es);
    assert RequestOk(c, t, r);
    if Outside(s, r, f) { RevocationIsFinal(c, d, s, t, r, f); }
    WinnerWasInside(c, s, t, r, f);
    if Lost(s, r) { LosersStayLosers(c, s, es, r); }
  }

  // After a revocation, at most the requests that were then past the check can still rotate a
  // token of the family: the late successes are among them, so there are no more than those.
  lemma ResidueIsBounded(c: Config, d: Delays, s: State, t: State, f: Uuid)
    requires LongEnough(c, d) && Reachable(c, s) && Leads(c, s, t) && Disciplined(d, t, f) && f in s.revocations
    ensures Winners(t, f) - Winners(s, f) <= InFlight(s, f)
    ensures |Winners(t, f) - Winners(s, f)| <= |InFlight(s, f)|
  {
    forall r | r in Winners(t, f) - Winners(s, f) ensures r in InFlight(s, f) {
      LateWinnerWasInFlight(c, d, s, t, r, f);
    }
    SubsetIsSmaller(Winners(t, f) - Winners(s, f), InFlight(s, f));
  }

  // ---- Access tokens ----

  // No request of family f can sign.
  ghost predicate Drained(s: State, f: Uuid) {
    forall r {:trigger OfFamily(s, r, f)} :: OfFamily(s, r, f) ==> !s.requests[r].phase.Cleared?
  }

  ghost predicate NoNewAccess(s: State, t: State, f: Uuid) {
    forall a :: a in t.accessTokens && a.family == f ==> a in s.accessTokens
  }

  lemma CheckStaysDrained(c: Config, d: Delays, s: State, q: nat, fault: Fault, f: Uuid)
    requires Inv(c, s) && Closing(d, s, f) && Enabled(c, s, Check(q, fault))
    requires Disciplined(d, CheckStep(s, q, fault), f)
    requires LongEnough(c, d) && f in s.revocations && Drained(s, f)
    ensures Drained(CheckStep(s, q, fault), f)
  {
    var t := CheckStep(s, q, fault);
    forall r {:trigger OfFamily(t, r, f)} | OfFamily(t, r, f) ensures !t.requests[r].phase.Cleared? {
      assert OfFamily(s, r, f);
      if r == q { CheckRefuses(c, d, s, r, fault, f); }
    }
  }

  lemma SignStaysDrained(c: Config, s: State, q: nat, id: Uuid, f: Uuid)
    requires Inv(c, s) && Enabled(c, s, Sign(q, id)) && Drained(s, f)
    ensures Drained(SignStep(c, s, q, id), f) && NoNewAccess(s, SignStep(c, s, q, id), f)
  {
    var t := SignStep(c, s, q, id);
    SignedNow(c, s, q, id);
    assert OfFamily(s, q, s.minted[s.requests[q].jti].family);
    forall r {:trigger OfFamily(t, r, f)} | OfFamily(t, r, f) ensures !t.requests[r].phase.Cleared? {
      if r != q { assert RequestOk(c, s, r); assert OfFamily(s, r, f); }
    }
  }

  lemma LogInStaysDrained(c: Config, s: State, r: nat, email: string, id: Uuid, family: Uuid, f: Uuid)
    requires Inv(c, s) && Enabled(c, s, LogIn(r, email, id, family)) && f in s.revocations && Drained(s, f)
    ensures var t := LogInStep(c, s, r, email, id, family); Drained(t, f) && NoNewAccess(s, t, f)
  {
    var t := LogInStep(c, s, r, email, id, family);
    RevokedFamilyWasOpened(c, s, f);
    forall q {:trigger OfFamily(t, q, f)} | OfFamily(t, q, f) ensures !t.requests[q].phase.Cleared? {
      if q != r { assert RequestOk(c, s, q); assert OfFamily(s, q, f); }
    }
  }

  lemma OrdinaryStaysDrained(c: Config, s: State, t: State, f: Uuid)
    requires Inv(c, s) && Ordinary(s, t) && Drained(s, f)
    ensures Drained(t, f)
  {
    forall r {:trigger OfFamily(t, r, f)} | OfFamily(t, r, f) ensures !t.requests[r].phase.Cleared? {
      if r in s.requests { assert OfFamily(s, r, f); }
    }
  }

  lemma StepStaysDrained(c: Config, d: Delays, s: State, e: Event, f: Uuid)
    requires Inv(c, s) && Closing(d, s, f) && Enabled(c, s, e) && Disciplined(d, Apply(c, s, e), f) && LongEnough(c, d)
    requires f in s.revocations && Drained(s, f)
    ensures Drained(Apply(c, s, e), f) && NoNewAccess(s, Apply(c, s, e), f)
  {
    match e
    case LogIn(r, email, id, family) => LogInStaysDrained(c, s, r, email, id, family, f);
    case Check(r, fault) => CheckStaysDrained(c, d, s, r, fault, f);
    case Sign(r, id) => SignStaysDrained(c, s, r, id, f);
    case _ =>
      StepIsOrdinary(c, s, e);
      OrdinaryStaysDrained(c, s, Apply(c, s, e), f);
  }

  lemma {:induction false} RunStaysDrained(c: Config, d: Delays, s: State, es: seq<Event>, f: Uuid)
    requires Inv(c, s) && Closing(d, s, f) && Legal(c, s, es) && Disciplined(d, After(c, s, es), f) && LongEnough(c, d)
    requires f in s.revocations && Drained(s, f)
    ensures NoNewAccess(s, After(c, s, es), f)
    decreases |es|
  {
    if es != [] {
      var t := Apply(c, s, es[0]);
      StepKeeps(c, s, es[0]);
      RunWasDisciplined(c, d, t, es[1..], f);
      StepCloses(c, d, s, es[0], f);
      StepStaysDrained(c, d, s, es[0], f);
      RunStaysDrained(c, d, t, es[1..], f);
    }
  }

  // Once the requests past the check have signed or ended, at time s.now, every access token ever
  // minted for the family stops verifying one access lifetime (and the leeway) later.
  lemma AccessDiesOut(c: Config, d: Delays, s: State, t: State, f: Uuid, a: AccessGrant)
    requires LongEnough(c, d) && Reachable(c, s) && Leads(c, s, t) && Disciplined(d, t, f)
    requires f in s.revocations && Drained(s, f)
    requires a in t.accessTokens && a.family == f && t.now > s.now + c.accessTtl + CLOCK_SKEW_LEEWAY_SECS
    ensures !Unexpired(a.exp, t.now)
  {
    var es :| Legal(c, s, es) && After(c, s, es) == t;
    ReachableInv(c, s);
    RunWasDisciplined(c, d, s, es, f);
    DisciplinedIsClosing(c, d, s, f);
    RunStaysDrained(c, d, s, es, f);
    assert AccessOk(c, s, a);
  }

  // Every refresh token ever minted for a revoked family stops verifying one refresh lifetime, the
  // leeway and a signing delay after the revocation.
  lemma RefreshDiesOut(c: Config, d: Delays, s: State, f: Uuid, x: Uuid)
    requires LongEnough(c, d) && Reachable(c, s) && Disciplined(d, s, f) && f in s.revocations
    requires x in s.minted && s.minted[x].family == f
    requires s.now > s.revocations[f].at + d.toSign + c.refreshTtl + CLOCK_SKEW_LEEWAY_SECS
    ensures !Unexpired(s.minted[x].exp, s.now)
  {
    DisciplinedIsClosing(c, d, s, f);
    assert MintPredates(d, s, x, f) && MintOk(c, s, x);
  }

  // Every access token was signed together with a refresh token of its family.
  ghost predicate HasTwin(s: State, a: AccessGrant) {
    exists x :: x in s.minted && s.minted[x].family == a.family && s.minted[x].iat == a.iat
  }

  ghost predicate AllHaveTwins(s: State) {
    forall a :: a in s.accessTokens ==> HasTwin(s, a)
  }

  lemma TwinStays(s: State, t: State, a: AccessGrant)
    requires Grows(s, t) && HasTwin(s, a)
    ensures HasTwin(t, a)
  {
    var x :| x in s.minted && s.minted[x].family == a.family && s.minted[x].iat == a.iat;
    assert x in t.minted && t.minted[x] == s.minted[x];
  }

  lemma MintMakesTwins(c: Config, s: State, e: Event, a: AccessGrant)
    requires Inv(c, s) && Enabled(c, s, e) && a in Apply(c, s, e).accessTokens && a !in s.accessTokens
    ensures HasTwin(Apply(c, s, e), a)
  {
    var t := Apply(c, s, e);
    if e.LogIn? || e.Sign? { assert e.id in t.minted && t.minted[e.id].family == a.family; }
  }

  lemma StepKeepsTwins(c: Config, s: State, e: Event)
    requires Inv(c, s) && Enabled(c, s, e) && AllHaveTwins(s)
    ensures AllHaveTwins(Apply(c, s, e))
  {
    var t := Apply(c, s, e);
    StepKeeps(c, s, e);
    forall a | a in t.accessTokens ensures HasTwin(t, a) {
      if a in s.accessTokens { TwinStays(s, t, a); } else { MintMakesTwins(c, s, e, a); }
    }
  }

  lemma {:induction false} RunKeepsTwins(c: Config, s: State, es: seq<Event>)
    requires Inv(c, s) && Legal(c, s, es) && AllHaveTwins(s)
    ensures AllHaveTwins(After(c, s, es))
    decreases |es|
  {
    if es != [] {
      StepKeeps(c, s, es[0]);
      StepKeepsTwins(c, s, es[0]);
      RunKeepsTwins(c, Apply(c, s, es[0]), es[1..]);
    }
  }

  // Whether or not the requests past the check have finished, every access token ever minted for a
  // revoked family stops verifying one access lifetime, the leeway and a signing delay after the revocation.
  lemma AccessDiesWithItsFamily(c: Config, d: Delays, s: State, f: Uuid, a: AccessGrant)
    requires LongEnough(c, d) && Reachable(c, s) && Disciplined(d, s, f) && f in s.revocations
    requires a in s.accessTokens && a.family == f
    requires s.now > s.revocations[f].at + d.toSign + c.accessTtl + CLOCK_SKEW_LEEWAY_SECS
    ensures !Unexpired(a.exp, s.now)
  {
    var es :| Legal(c, INIT, es) && After(c, INIT, es) == s;
    InitOk(c);
    RunKeepsTwins(c, INIT, es);
    assert HasTwin(s, a);
    var x :| x in s.minted && s.minted[x].family == a.family && s.minted[x].iat == a.iat;
    DisciplinedIsClosing(c, d, s, f);
    assert MintPredates(d, s, x, f) && AccessOk(c, s, a);
  }
}
