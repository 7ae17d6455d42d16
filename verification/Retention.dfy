/**
 How long the bucket must keep its entries. Two promises hang on it: a family is revoked only when
 its client earned it, and a revoked family never gets cookies again. Each holds in every run
 exactly when the retention exceeds an explicit bound; at or below the bound a run breaks it.
 */
module Retention {
  import opened Types
  import opened Protocol
  import opened Invariant
  import opened Safety

  // Bounds on a request: from JWT verification to the revocation check, and from that check to the
  // signing of the successor.
  datatype Delays = Delays(toCheck: nat, toSign: nat)

  ghost predicate OnTime(d: Delays, q: Request) {
    && q.checkedAt <= q.verifiedAt + d.toCheck
    && q.signedAt <= q.checkedAt + d.toSign
  }

  ghost predicate OfFamily(s: State, r: nat, f: Uuid) {
    r in s.requests && s.requests[r].jti in s.minted && s.minted[s.requests[r].jti].family == f
  }

  ghost predicate Prompt(d: Delays, s: State, f: Uuid) {
    forall r {:trigger OfFamily(s, r, f)} :: OfFamily(s, r, f) ==> OnTime(d, s.requests[r])
  }

  // A bound on the requests of family f, from JWT verification to the compare-and-swap.
  ghost predicate CasWithin(w: nat, s: State, f: Uuid) {
    forall r {:trigger OfFamily(s, r, f)} ::
      OfFamily(s, r, f) ==> s.requests[r].casAt <= s.requests[r].verifiedAt + w
  }

  // Since the revocation of its family, this request's check met a read error, which the code
  // takes for "not revoked".
  ghost predicate Unheard(s: State, r: nat, f: Uuid)
    requires r in s.requests
  {
    !s.requests[r].readOk && f in s.revocations && s.requests[r].checkedAt >= s.revocations[f].at
  }

  ghost predicate ChecksAnswered(s: State, f: Uuid) {
    forall r {:trigger OfFamily(s, r, f)} :: OfFamily(s, r, f) ==> !Unheard(s, r, f)
  }

  // ---- Revocation is earned ----

  // A logout wrote the revocation, or a token of the family that one rotation used up was
  // presented to another.
  ghost predicate Earned(s: State, f: Uuid) {
    || (exists r :: OfFamily(s, r, f) && s.requests[r].flow.Logout? && s.requests[r].recorded)
    || (exists r1, r2 ::
          && OfFamily(s, r1, f) && OfFamily(s, r2, f)
          && s.requests[r1].jti == s.requests[r2].jti
          && s.requests[r1].applied && s.requests[r2].verdict.Reuse?)
  }

  // A rotation taken for reuse, whose row had reached the retention age before its compare-and-swap.
  ghost predicate Overslept(c: Config, s: State, r: nat) {
    && r in s.requests && s.requests[r].verdict.Reuse? && s.requests[r].jti in s.created
    && s.created[s.requests[r].jti].writtenAt + c.retention <= s.requests[r].casAt
  }

  // With no bound on anything: what else can have revoked a family is an expired row.
  lemma RevocationHasCause(c: Config, s: State, f: Uuid)
    requires Reachable(c, s) && f in s.revocations
    ensures Earned(s, f) || exists r :: OfFamily(s, r, f) && Overslept(c, s, r)
  {
    ReachableInv(c, s);
    assert RevocationOk(c, s, f);
    var r := s.revocations[f].request;
    assert OfFamily(s, r, f);
    if !s.requests[r].flow.Logout? && !Overslept(c, s, r) {
      assert RequestOk(c, s, r);
      var x := s.requests[r].jti;
      assert SpentOk(s, x);
      var winner := s.minted[s.spent[x].value.replacedBy.value].owner;
      assert OfFamily(s, winner, f);
    }
  }

  lemma SleepIsBounded(c: Config, w: nat, s: State, r: nat, f: Uuid)
    requires Inv(c, s) && CasWithin(w, s, f) && OfFamily(s, r, f) && !s.requests[r].flow.Login?
    requires s.requests[r].verdict.Reuse? && c.retention > c.refreshTtl + CLOCK_SKEW_LEEWAY_SECS + w
    ensures !Overslept(c, s, r)
  {
    assert RequestOk(c, s, r);
    var x := s.requests[r].jti;
    assert MintOk(c, s, x) && (x in s.created ==> CreatedOk(c, s, x));
  }

  // A client that presents each token once and never logs out is never revoked.
  lemma NoFalseRevocation(c: Config, w: nat, s: State, f: Uuid)
    requires Reachable(c, s) && CasWithin(w, s, f) && f in s.revocations
    requires c.retention > c.refreshTtl + CLOCK_SKEW_LEEWAY_SECS + w
    ensures Earned(s, f)
  {
    ReachableInv(c, s);
    assert RevocationOk(c, s, f);
    var r := s.revocations[f].request;
    assert OfFamily(s, r, f);
    if !s.requests[r].flow.Logout? {
      SleepIsBounded(c, w, s, r, f);
      assert RequestOk(c, s, r);
      var x := s.requests[r].jti;
      assert SpentOk(s, x);
      var winner := s.minted[s.spent[x].value.replacedBy.value].owner;
      assert OfFamily(s, winner, f);
    }
  }

  // ---- Revocation is final ----

  ghost predicate Disciplined(d: Delays, s: State, f: Uuid) {
    Prompt(d, s, f) && ChecksAnswered(s, f)
  }

  // What keeps a revoked family closed: its tokens all predate the revocation, up to a signing delay,
  // and so do the checks of the requests that may still sign one.
  ghost predicate MintPredates(d: Delays, s: State, x: Uuid, f: Uuid)
    requires x in s.minted
  {
    s.minted[x].family == f && f in s.revocations ==> s.minted[x].iat <= s.revocations[f].at + d.toSign
  }

  ghost predicate CheckPredates(s: State, r: nat, f: Uuid)
    requires r in s.requests
  {
    OfFamily(s, r, f) && s.requests[r].phase.Cleared? && f in s.revocations ==>
      s.requests[r].checkedAt <= s.revocations[f].at
  }

  ghost predicate Closing(d: Delays, s: State, f: Uuid) {
    && (forall x {:trigger MintPredates(d, s, x, f)} :: x in s.minted ==> MintPredates(d, s, x, f))
    && (forall r {:trigger CheckPredates(s, r, f)} :: r in s.requests ==> CheckPredates(s, r, f))
  }

  ghost predicate LongEnough(c: Config, d: Delays) {
    c.retention > c.refreshTtl + CLOCK_SKEW_LEEWAY_SECS + d.toCheck + d.toSign
  }

  // A revocation check of a revoked family that reads the bucket refuses, even if the marker may have expired.
  lemma CheckRefuses(c: Config, d: Delays, s: State, r: nat, fault: Fault, f: Uuid)
    requires Inv(c, s) && Closing(d, s, f) && Enabled(c, s, Check(r, fault))
    requires Disciplined(d, CheckStep(s, r, fault), f)
    requires OfFamily(s, r, f) && f in s.revocations
    requires LongEnough(c, d)
    ensures CheckStep(s, r, fault).requests[r].phase == Ended(Refused)
  {
    var q, t := s.requests[r], CheckStep(s, r, fault);
    assert RequestOk(c, s, r) && RevocationOk(c, s, f) && MintPredates(d, s, q.jti, f) && MintOk(c, s, q.jti);
    HeldRow(c, s, q.jti, q.phase.held);
    assert OfFamily(t, r, f);
    assert t.requests[r].readOk && t.requests[r].checkedAt <= t.requests[r].verifiedAt + d.toCheck;
  }

  // Tokens and requests that an event leaves alone stay within the bound.
  lemma ClosingGrows(c: Config, d: Delays, s: State, t: State, f: Uuid)
    requires Inv(c, s) && Closing(d, s, f) && Grows(s, t)
    requires f in t.revocations && f !in s.revocations ==> t.revocations[f].at >= s.now
    requires forall x {:trigger MintPredates(d, t, x, f)} :: x in t.minted && x !in s.minted ==>
      MintPredates(d, t, x, f)
    requires forall r {:trigger CheckPredates(t, r, f)} ::
      r in t.requests && (r !in s.requests || s.requests[r] != t.requests[r]) ==> CheckPredates(t, r, f)
    ensures Closing(d, t, f)
  {
    forall x {:trigger MintPredates(d, t, x, f)} | x in t.minted ensures MintPredates(d, t, x, f) {
      if x in s.minted { assert MintPredates(d, s, x, f) && MintOk(c, s, x); }
    }
    forall r {:trigger CheckPredates(t, r, f)} | r in t.requests ensures CheckPredates(t, r, f) {
      if r in s.requests && s.requests[r] == t.requests[r] {
        assert CheckPredates(s, r, f) && RequestOk(c, s, r);
      }
    }
  }

  lemma RevokeCloses(c: Config, d: Delays, s: State, r: nat, fault: Fault, f: Uuid)
    requires Inv(c, s) && Closing(d, s, f) && Enabled(c, s, Revoke(r, fault))
    ensures Closing(d, RevokeStep(s, r, fault), f)
  {
    RevokeKeeps(c, s, r, fault);
    ClosingGrows(c, d, s, RevokeStep(s, r, fault), f);
  }

  lemma SignCloses(c: Config, d: Delays, s: State, r: nat, id: Uuid, f: Uuid)
    requires Inv(c, s) && Closing(d, s, f) && Enabled(c, s, Sign(r, id)) && Disciplined(d, SignStep(c, s, r, id), f)
    ensures Closing(d, SignStep(c, s, r, id), f)
  {
    var t := SignStep(c, s, r, id);
    SignKeeps(c, s, r, id);
    SignedNow(c, s, r, id);
    assert CheckPredates(s, r, f);
    assert OfFamily(s, r, f) ==> OfFamily(t, r, f) && OnTime(d, t.requests[r]);
    ClosingGrows(c, d, s, t, f);
  }

  lemma RevokedFamilyWasOpened(c: Config, s: State, f: Uuid)
    requires Inv(c, s)
    ensures f in s.revocations ==> f in s.families
  {
    if f in s.revocations {
      assert RevocationOk(c, s, f);
      assert MintOk(c, s, s.requests[s.revocations[f].request].jti);
    }
  }

  lemma LogInCloses(c: Config, d: Delays, s: State, r: nat, email: string, id: Uuid, family: Uuid, f: Uuid)
    requires Inv(c, s) && Closing(d, s, f) && Enabled(c, s, LogIn(r, email, id, family))
    ensures Closing(d, LogInStep(c, s, r, email, id, family), f)
  {
    LogInKeeps(c, s, r, email, id, family);
    RevokedFamilyWasOpened(c, s, family);
    ClosingGrows(c, d, s, LogInStep(c, s, r, email, id, family), f);
  }

  lemma CheckCloses(c: Config, d: Delays, s: State, r: nat, fault: Fault, f: Uuid)
    requires Inv(c, s) && Closing(d, s, f) && Enabled(c, s, Check(r, fault))
    requires Disciplined(d, CheckStep(s, r, fault), f)
    requires LongEnough(c, d)
    ensures Closing(d, CheckStep(s, r, fault), f)
  {
    CheckKeeps(c, s, r, fault);
    assert RequestOk(c, s, r);
    if OfFamily(s, r, f) && f in s.revocations { CheckRefuses(c, d, s, r, fault, f); }
    ClosingGrows(c, d, s, CheckStep(s, r, fault), f);
  }

  // How a request may change in an event that neither checks nor signs.
  ghost predicate Advances(q: Request, p: Request) {
    || p == q
    || (&& p.mints == q.mints && p.jti == q.jti && !p.phase.Cleared?
        && p.verifiedAt == q.verifiedAt && p.checkedAt == q.checkedAt && p.readOk == q.readOk
        && p.signedAt == q.signedAt && (p.casAt == q.casAt || q.phase.Stored?)
        && (p.phase.Ended? || (q.phase.Presented? && p.phase.Found?)
            || !(q.phase.Presented? || q.phase.Found? || q.phase.Ended?)))
  }

  // Which holds of every event but LogIn, Check and Sign.
  ghost predicate Ordinary(s: State, t: State) {
    && t.minted == s.minted
    && (forall r {:trigger t.requests[r]} :: r in t.requests ==>
          if r in s.requests then Advances(s.requests[r], t.requests[r])
          else t.requests[r].mints.None? && (t.requests[r].phase.Presented? || t.requests[r].phase.Ended?))
  }

  lemma AdvanceIsOrdinary(s: State, t: State, r: nat)
    requires r in s.requests && r in t.requests && t.requests == s.requests[r := t.requests[r]]
    requires t.minted == s.minted && Advances(s.requests[r], t.requests[r])
    ensures Ordinary(s, t)
  {
  }

  lemma PutIsOrdinary(s: State, r: nat, fault: Fault)
    requires r in s.requests && (s.requests[r].phase.Opening? || s.requests[r].phase.Signed?)
    ensures Ordinary(s, PutStep(s, r, fault)) && PutStep(s, r, fault).revocations == s.revocations
  {
  }

  lemma CasIsOrdinary(s: State, r: nat, fault: Fault)
    requires r in s.requests && s.requests[r].phase.Stored?
    ensures Ordinary(s, CasStep(s, r, fault)) && CasStep(s, r, fault).revocations == s.revocations
  {
    AdvanceIsOrdinary(s, CasStep(s, r, fault), r);
  }

  lemma RevokeIsOrdinary(s: State, r: nat, fault: Fault)
    requires r in s.requests && RevocationTarget(s.requests[r]).Some?
    ensures Ordinary(s, RevokeStep(s, r, fault))
  {
  }

  lemma StepIsOrdinary(c: Config, s: State, e: Event)
    requires Enabled(c, s, e) && !e.LogIn? && !e.Check? && !e.Sign?
    ensures Ordinary(s, Apply(c, s, e)) && (!e.Revoke? ==> Apply(c, s, e).revocations == s.revocations)
  {
    match e
    case Put(r, fault) => PutIsOrdinary(s, r, fault);
    case Cas(r, fault) => CasIsOrdinary(s, r, fault);
    case Revoke(r, fault) => RevokeIsOrdinary(s, r, fault);
    case _ =>
  }

  lemma OrdinaryCloses(c: Config, d: Delays, s: State, t: State, f: Uuid)
    requires Inv(c, s) && Closing(d, s, f) && Grows(s, t) && Ordinary(s, t) && t.revocations == s.revocations
    ensures Closing(d, t, f)
  {
    ClosingGrows(c, d, s, t, f);
  }

  lemma OrdinaryStepCloses(c: Config, d: Delays, s: State, e: Event, f: Uuid)
    requires Inv(c, s) && Closing(d, s, f) && Enabled(c, s, e) && !e.LogIn? && !e.Check? && !e.Sign? && !e.Revoke?
    ensures Closing(d, Apply(c, s, e), f)
  {
    StepKeeps(c, s, e);
    StepIsOrdinary(c, s, e);
    OrdinaryCloses(c, d, s, Apply(c, s, e), f);
  }

  lemma StepCloses(c: Config, d: Delays, s: State, e: Event, f: Uuid)
    requires Inv(c, s) && Closing(d, s, f) && Enabled(c, s, e) && Disciplined(d, Apply(c, s, e), f) && LongEnough(c, d)
    ensures Closing(d, Apply(c, s, e), f)
  {
    match e
    case LogIn(r, email, id, family) => LogInCloses(c, d, s, r, email, id, family, f);
    case Check(r, fault) => CheckCloses(c, d, s, r, fault, f);
    case Sign(r, id) => SignCloses(c, d, s, r, id, f);
    case Revoke(r, fault) => RevokeCloses(c, d, s, r, fault, f);
    case _ => OrdinaryStepCloses(c, d, s, e, f);
  }

  // A request of family f that has not passed the revocation check.
  ghost predicate Outside(s: State, r: nat, f: Uuid) {
    OfFamily(s, r, f) ==>
      && s.requests[r].mints.None?
      && (s.requests[r].phase.Presented? || s.requests[r].phase.Found? || s.requests[r].phase.Ended?)
  }

  lemma OrdinaryStaysOutside(c: Config, s: State, t: State, r: nat, f: Uuid)
    requires Inv(c, s) && Ordinary(s, t) && Outside(s, r, f)
    ensures Outside(t, r, f)
  {
    if r in s.requests { assert RequestOk(c, s, r); }
  }

  lemma CheckStaysOutside(c: Config, d: Delays, s: State, q: nat, fault: Fault, r: nat, f: Uuid)
    requires Inv(c, s) && Closing(d, s, f) && Enabled(c, s, Check(q, fault))
    requires Disciplined(d, CheckStep(s, q, fault), f)
    requires LongEnough(c, d) && f in s.revocations && Outside(s, r, f)
    ensures Outside(CheckStep(s, q, fault), r, f)
  {
    if q == r && OfFamily(s, r, f) { CheckRefuses(c, d, s, r, fault, f); }
  }

  lemma LogInStaysOutside(c: Config, s: State, e: Event, r: nat, f: Uuid)
    requires Inv(c, s) && Enabled(c, s, e) && e.LogIn? && f in s.revocations && Outside(s, r, f)
    ensures Outside(Apply(c, s, e), r, f)
  {
    RevokedFamilyWasOpened(c, s, f);
    if r in s.requests { assert RequestOk(c, s, r); }
  }

  lemma SignStaysOutside(c: Config, s: State, q: nat, id: Uuid, r: nat, f: Uuid)
    requires Inv(c, s) && Enabled(c, s, Sign(q, id)) && Outside(s, r, f)
    ensures Outside(SignStep(c, s, q, id), r, f)
  {
    if r in s.requests { assert RequestOk(c, s, r); }
  }

  lemma StepStaysOutside(c: Config, d: Delays, s: State, e: Event, r: nat, f: Uuid)
    requires Inv(c, s) && Closing(d, s, f) && Enabled(c, s, e) && Disciplined(d, Apply(c, s, e), f) && LongEnough(c, d)
    requires f in s.revocations && Outside(s, r, f)
    ensures Outside(Apply(c, s, e), r, f)
  {
    match e
    case Check(q, fault) => CheckStaysOutside(c, d, s, q, fault, r, f);
    case LogIn(_, _, _, _) => LogInStaysOutside(c, s, e, r, f);
    case Sign(q, id) => SignStaysOutside(c, s, q, id, r, f);
    case _ =>
      StepIsOrdinary(c, s, e);
      OrdinaryStaysOutside(c, s, Apply(c, s, e), r, f);
  }

  lemma OrdinaryWasDisciplined(d: Delays, s: State, t: State, f: Uuid)
    requires Ordinary(s, t) && Grows(s, t) && Disciplined(d, t, f)
    ensures Disciplined(d, s, f)
  {
    forall r {:trigger OfFamily(s, r, f)} | OfFamily(s, r, f) ensures OnTime(d, s.requests[r]) && !Unheard(s, r, f) {
      assert OfFamily(t, r, f) && Advances(s.requests[r], t.requests[r]);
    }
  }

  lemma EarlyStepWasDisciplined(c: Config, d: Delays, s: State, e: Event, f: Uuid)
    requires Inv(c, s) && Enabled(c, s, e) && Disciplined(d, Apply(c, s, e), f) && (e.LogIn? || e.Check? || e.Sign?)
    ensures Disciplined(d, s, f)
  {
    var t := Apply(c, s, e);
    forall r {:trigger OfFamily(s, r, f)} | OfFamily(s, r, f) ensures OnTime(d, s.requests[r]) && !Unheard(s, r, f) {
      assert RequestOk(c, s, r) && OfFamily(t, r, f);
    }
  }

  // Discipline is a matter of the past: a disciplined state was reached through disciplined ones.
  lemma StepWasDisciplined(c: Config, d: Delays, s: State, e: Event, f: Uuid)
    requires Inv(c, s) && Enabled(c, s, e) && Disciplined(d, Apply(c, s, e), f)
    ensures Disciplined(d, s, f)
  {
    if e.LogIn? || e.Check? || e.Sign? {
      EarlyStepWasDisciplined(c, d, s, e, f);
    } else {
      StepKeeps(c, s, e);
      StepIsOrdinary(c, s, e);
      OrdinaryWasDisciplined(d, s, Apply(c, s, e), f);
    }
  }

  lemma {:induction false} RunWasDisciplined(c: Config, d: Delays, s: State, es: seq<Event>, f: Uuid)
    requires Inv(c, s) && Legal(c, s, es) && Disciplined(d, After(c, s, es), f)
    ensures Disciplined(d, s, f)
    decreases |es|
  {
    if es != [] {
      StepKeeps(c, s, es[0]);
      RunWasDisciplined(c, d, Apply(c, s, es[0]), es[1..], f);
      StepWasDisciplined(c, d, s, es[0], f);
    }
  }

  lemma {:induction false} RunCloses(c: Config, d: Delays, s: State, es: seq<Event>, f: Uuid)
    requires Inv(c, s) && Closing(d, s, f) && Legal(c, s, es) && Disciplined(d, After(c, s, es), f) && LongEnough(c, d)
    ensures Closing(d, After(c, s, es), f)
    decreases |es|
  {
    if es != [] {
      var t := Apply(c, s, es[0]);
      StepKeeps(c, s, es[0]);
      RunWasDisciplined(c, d, t, es[1..], f);
      StepCloses(c, d, s, es[0], f);
      RunCloses(c, d, t, es[1..], f);
    }
  }

  lemma {:induction false} RunStaysOutside(c: Config, d: Delays, s: State, es: seq<Event>, r: nat, f: Uuid)
    requires Inv(c, s) && Closing(d, s, f) && Legal(c, s, es) && Disciplined(d, After(c, s, es), f) && LongEnough(c, d)
    requires f in s.revocations && Outside(s, r, f)
    ensures Outside(After(c, s, es), r, f)
    decreases |es|
  {
    if es != [] {
      var t := Apply(c, s, es[0]);
      StepKeeps(c, s, es[0]);
      RunWasDisciplined(c, d, t, es[1..], f);
      StepCloses(c, d, s, es[0], f);
      StepStaysOutside(c, d, s, es[0], r, f);
      RunStaysOutside(c, d, t, es[1..], r, f);
    }
  }

  lemma DisciplinedIsClosing(c: Config, d: Delays, s: State, f: Uuid)
    requires Reachable(c, s) && Disciplined(d, s, f) && LongEnough(c, d)
    ensures Inv(c, s) && Closing(d, s, f)
  {
    var es :| Legal(c, INIT, es) && After(c, INIT, es) == s;
    InitOk(c);
    ReachableInv(c, s);
    RunCloses(c, d, INIT, es, f);
  }

  ghost predicate GotCookies(s: State, r: nat) {
    r in s.requests && s.requests[r].phase.Ended? && s.requests[r].phase.outcome.Issued?
  }

  ghost function UnheardChecks(s: State, f: Uuid): set<nat> {
    set r | r in s.requests && OfFamily(s, r, f) && Unheard(s, r, f)
  }

  // From a state in which family f is revoked to a later one in which request r, of that family
  // and not past the check at the first, has got cookies. The requests of the family were prompt,
  // and at most k of its checks since the revocation went unanswered.
  ghost predicate RevivedBy(c: Config, d: Delays, k: nat, s: State, t: State, r: nat, f: Uuid) {
    && Reachable(c, s) && Leads(c, s, t) && Prompt(d, t, f) && |UnheardChecks(t, f)| <= k
    && f in s.revocations && Outside(s, r, f) && OfFamily(t, r, f) && GotCookies(t, r)
  }

  lemma NoneUnheard(s: State, f: Uuid)
    ensures |UnheardChecks(s, f)| == 0 <==> ChecksAnswered(s, f)
  {
    forall r | OfFamily(s, r, f) ensures Unheard(s, r, f) <==> r in UnheardChecks(s, f) {
    }
  }

  lemma CookiesNeedTheCheck(c: Config, s: State, r: nat, f: Uuid)
    requires Inv(c, s) && OfFamily(s, r, f) && GotCookies(s, r)
    ensures !Outside(s, r, f)
  {
    assert RequestOk(c, s, r);
  }

  // No request that had not passed the check when the revocation was recorded ever gets cookies,
  // however long the run goes on and even after the marker has expired.
  lemma RevocationIsFinal(c: Config, d: Delays, s: State, t: State, r: nat, f: Uuid)
    requires LongEnough(c, d) && Reachable(c, s) && Leads(c, s, t) && Disciplined(d, t, f)
    requires f in s.revocations && Outside(s, r, f)
    ensures Outside(t, r, f) && !(OfFamily(t, r, f) && GotCookies(t, r))
  {
    var es :| Legal(c, s, es) && After(c, s, es) == t;
    ReachableInv(c, s);
    RunWasDisciplined(c, d, s, es, f);
    DisciplinedIsClosing(c, d, s, f);
    RunStaysOutside(c, d, s, es, r, f);
    RunKeeps(c, s, es);
    if OfFamily(t, r, f) && GotCookies(t, r) { CookiesNeedTheCheck(c, t, r, f); }
  }
}
