/** Each handler's work on the store, run alone, is one run of the protocol from the request to its response. */
module AttemptRun {
  import opened Types
  import opened Kv
  import opened UuidText
  import opened Protocol
  import opened Invariant
  import opened Safety
  import opened Retry
  import opened SequentialRun
  import opened Jwt
  import opened Handlers
  import opened Sessions
  import Store = RefreshStore

  // The text is the signed refresh JWT of token x.
  ghost predicate Carries(jwt: JwtService, token: string, s: State, x: Uuid) {
    && IsUuid(x) && x in s.minted && token in jwt.signed
    && jwt.signed[token] == Payload(s.minted[x].sub, Some(Hyphenated(x)), s.minted[x].iat, s.minted[x].exp)
  }

  // How the request of the run ended, for each way an attempt can end.
  ghost predicate Answers(p: Phase, a: Attempted, id: Uuid) {
    match a
    case Success => p == Ended(Issued(id))
    case LookupFailed => p == Ended(StoreFailed)
    case RotationFailed => p == Ended(StoreFailed)
    case SigningFailed => p == Ended(Abandoned)
    case ReuseFound => p == Ended(ReuseDetected)
    case _ => p == Ended(Refused)
  }

  ghost predicate AttemptRuns(c: Config, s: State, kv: Kv, r: nat, a: Attempted, id: Uuid) {
    exists t :: Leads(c, s, t) && t.kv == kv && r in t.requests && Answers(t.requests[r].phase, a, id)
  }

  // From a signed request to its response.
  lemma RotationRuns(c: Config, s0: State, s: State, r: nat, faults: seq<Fault>)
    requires Inv(c, s) && Leads(c, s0, s) && r in s.requests && s.requests[r].phase.Signed?
    ensures var q := s.requests[r];
      var (w, result) := Store.Rotated(WorldOf(s, faults), q.phase.held.value, q.phase.held.revision,
                                       q.phase.successor);
      AttemptRuns(c, s0, w.kv, r, Handlers.Verdict(result), q.phase.successor.id)
  {
    var q := s.requests[r];
    var (w, result) := Store.Rotated(WorldOf(s, faults), q.phase.held.value, q.phase.held.revision, q.phase.successor);
    RotateIsARun(c, s, r, faults);
    var t :| Leads(c, s, t) && t.kv == w.kv && t.now == s.now && r in t.requests
      && EndedAs(t.requests[r], q.phase.successor, result);
    LeadsThrough(c, s0, s, t);
    if result.Ok? {
      Delivers(c, s0, t, r);
      assert Answers(DeliverStep(t, r).requests[r].phase, Success, q.phase.successor.id);
    } else {
      assert Answers(t.requests[r].phase, Handlers.Verdict(result), q.phase.successor.id);
    }
  }

  // From a passed revocation check to the response.
  lemma ClearedRuns(c: Config, s0: State, s: State, r: nat, faults: seq<Fault>, id: Uuid)
    requires Inv(c, s) && Leads(c, s0, s) && r in s.requests && s.requests[r].phase.Cleared?
    requires id !in s.minted && s.requests[r].jti in s.minted
    ensures var q := s.requests[r];
      var held := q.phase.held;
      var row := FreshRow(id, s.minted[q.jti].sub, held.value.familyId, s.now);
      var (w, result) := Store.Rotated(WorldOf(s, faults), held.value, held.revision, row);
      AttemptRuns(c, s0, w.kv, r, Handlers.Verdict(result), id)
  {
    Signs(c, s0, s, r, id);
    SignKeeps(c, s, r, id);
    var t := SignStep(c, s, r, id);
    assert WorldOf(t, faults) == WorldOf(s, faults);
    RotationRuns(c, s0, t, r, faults);
  }

  // From a found row to the response.
  lemma RowRuns(c: Config, s0: State, s: State, r: nat, faults: seq<Fault>, env: Env)
    requires Inv(c, s) && Leads(c, s0, s) && r in s.requests && s.requests[r].phase.Found?
    requires !s.requests[r].flow.Logout? && env.id !in s.minted && s.requests[r].jti in s.minted
    ensures var q := s.requests[r];
      var (w, a) := AttemptRow(WorldOf(s, faults), q.phase.held, s.minted[q.jti].sub, env);
      AttemptRuns(c, s0, w.kv, r, a, env.id)
  {
    var q, fate := s.requests[r], Store.Fate(faults);
    Checks(c, s0, s, r, fate);
    CheckKeeps(c, s, r, fate);
    var t := CheckStep(s, r, fate);
    if t.requests[r].phase.Ended? {
      assert Answers(t.requests[r].phase, FamilyRevoked, env.id);
    } else if !env.signs {
      LeadsOn(c, s0, t, Crash(r));
      assert Answers(Apply(c, t, Crash(r)).requests[r].phase, SigningFailed, env.id);
    } else {
      assert WorldOf(t, Store.Rest(faults)) == Store.SaysRevoked(WorldOf(s, faults), q.phase.held.value.familyId).0;
      ClearedRuns(c, s0, t, r, Store.Rest(faults), env.id);
    }
  }

  lemma NoRowRuns(c: Config, s0: State, s: State, r: nat, fate: Fault, id: Uuid)
    requires Leads(c, s0, s) && r in s.requests && s.requests[r].phase.Presented?
    ensures AttemptRuns(c, s0, s.kv, r, if fate.Ack? then UnknownToken else LookupFailed, id)
  {
    LeadsOn(c, s0, s, Lookup(r, fate, None));
    assert Answers(LookupStep(s, r, fate, None).requests[r].phase,
                   if fate.Ack? then UnknownToken else LookupFailed, id);
  }

  lemma LookupRuns(c: Config, s0: State, s: State, r: nat, faults: seq<Fault>, env: Env)
    requires Inv(c, s) && Leads(c, s0, s) && r in s.requests && s.requests[r].phase.Presented?
    requires !s.requests[r].flow.Logout? && env.id !in s.minted && s.requests[r].jti in s.minted
    requires Store.Fate(faults).Ack? && s.requests[r].jti in s.kv.tokens
    ensures var x := s.requests[r].jti;
      var (w, a) := AttemptRow(WorldOf(s, Store.Rest(faults)), s.kv.tokens[x], s.minted[x].sub, env);
      AttemptRuns(c, s0, w.kv, r, a, env.id)
  {
    var x := s.requests[r].jti;
    var version := Some(s.kv.tokens[x]);
    CurrentRow(c, s, x);
    LeadsOn(c, s0, s, Lookup(r, Ack, version));
    LookupKeeps(c, s, r, Ack, version);
    var t := LookupStep(s, r, Ack, version);
    assert WorldOf(t, Store.Rest(faults)) == WorldOf(s, Store.Rest(faults));
    RowRuns(c, s0, t, r, Store.Rest(faults), env);
  }

  // From a presented token that verifies to the response.
  lemma PresentedRuns(c: Config, s0: State, s: State, r: nat, faults: seq<Fault>, env: Env)
    requires Inv(c, s) && Leads(c, s0, s) && r in s.requests && s.requests[r].phase.Presented?
    requires !s.requests[r].flow.Logout? && env.id !in s.minted && s.requests[r].jti in s.minted
    ensures var x := s.requests[r].jti;
      var (w, found) := Store.Found(WorldOf(s, faults), x);
      if found.Err? then AttemptRuns(c, s0, s.kv, r, LookupFailed, env.id)
      else if found.value.None? then AttemptRuns(c, s0, s.kv, r, UnknownToken, env.id)
      else
        var (w1, a) := AttemptRow(w, found.value.value, s.minted[x].sub, env);
        AttemptRuns(c, s0, w1.kv, r, a, env.id)
  {
    if Store.Fate(faults).Ack? && s.requests[r].jti in s.kv.tokens {
      LookupRuns(c, s0, s, r, faults, env);
    } else {
      NoRowRuns(c, s0, s, r, Store.Fate(faults), env.id);
    }
  }

  // Both handlers perform `Attempt`, so each of them is this run of the protocol.
  lemma AttemptIsARun(c: Config, s: State, r: nat, flow: Flow, x: Uuid, jwt: JwtService, token: string, env: Env,
                      faults: seq<Fault>)
    requires Reachable(c, s) && r !in s.requests && (flow.Explicit? || flow.Silent?)
    requires x in s.delivered && Carries(jwt, token, s, x) && env.id !in s.minted
    ensures var (w, a) := Attempt(WorldOf(s, faults), jwt, token, env);
      AttemptRuns(c, s, w.kv, r, a, env.id)
  {
    ReachableInv(c, s);
    UuidRoundTrip(x);
    LeadsNowhere(c, s);
    LeadsOn(c, s, s, Present(r, flow, x));
    var t := PresentStep(s, r, flow, x);
    if t.requests[r].phase.Ended? {
      assert Answers(t.requests[r].phase, TokenExpired, env.id);
    } else {
      PresentKeeps(c, s, r, flow, x);
      assert WorldOf(t, faults) == WorldOf(s, faults);
      PresentedRuns(c, s, t, r, faults, env);
    }
  }

  // Some run from s ends with this bucket, with the family open under this email, and with this answer.
  ghost predicate LoginRuns(c: Config, s: State, kv: Kv, r: nat, email: string, family: Uuid, id: Uuid, ok: bool) {
    exists t ::
      && Leads(c, s, t) && t.kv == kv && family in t.families && t.families[family] == Opened(email, id)
      && r in t.requests && t.requests[r].phase == Ended(if ok then Issued(id) else StoreFailed)
  }

  lemma OpeningRuns(c: Config, s0: State, s: State, r: nat, email: string, family: Uuid, id: Uuid, faults: seq<Fault>)
    requires Leads(c, s0, s) && family in s.families && s.families[family] == Opened(email, id)
    requires r in s.requests && s.requests[r].phase == Opening(FreshRow(id, email, family, s.now))
    ensures var (w, stored) := Store.Stored(WorldOf(s, faults), FreshRow(id, email, family, s.now));
      LoginRuns(c, s0, w.kv, r, email, family, id, stored.Ok?)
  {
    var fate := Store.Fate(faults);
    Puts(c, s0, s, r, fate);
    var t := PutStep(s, r, fate);
    if fate.Ack? {
      Delivers(c, s0, t, r);
      assert DeliverStep(t, r).requests[r].phase == Ended(Issued(id));
    } else {
      assert t.requests[r].phase == Ended(StoreFailed);
    }
  }

  // A login that passed its checks is the run that opens a family, under the email that was verified.
  lemma LoginIsARun(c: Config, s: State, r: nat, grantType: Option<string>, idToken: Option<string>,
                    verified: Option<string>, family: Uuid, id: Uuid, faults: seq<Fault>)
    requires Reachable(c, s) && r !in s.requests && id !in s.minted && family !in s.families
    requires LoginEmail(grantType, idToken, verified).Ok?
    ensures var email := LoginEmail(grantType, idToken, verified).value;
      var (w, stored) := Store.Stored(WorldOf(s, faults), FreshRow(id, email, family, s.now));
      verified.Some? && LoginRuns(c, s, w.kv, r, verified.value, family, id, stored.Ok?)
  {
    LeadsNowhere(c, s);
    LeadsOn(c, s, s, LogIn(r, verified.value, id, family));
    OpeningRuns(c, s, LogInStep(c, s, r, verified.value, id, family), r, verified.value, family, id, faults);
  }

  // Some run from s ends with this bucket and the logout over.
  ghost predicate LogoutRuns(c: Config, s: State, kv: Kv, r: nat) {
    exists t :: Leads(c, s, t) && t.kv == kv && r in t.requests && t.requests[r].phase.Ended?
  }

  lemma FoundLogoutRuns(c: Config, s0: State, s: State, r: nat, faults: seq<Fault>)
    requires Leads(c, s0, s) && r in s.requests && s.requests[r].phase.Found? && s.requests[r].flow.Logout?
    ensures LogoutRuns(c, s0, Store.Revoked(WorldOf(s, faults), s.requests[r].phase.held.value.familyId).0.kv, r)
  {
    Revokes(c, s0, s, r, Store.Fate(faults));
    var t := RevokeStep(s, r, Store.Fate(faults));
    assert t.requests[r].phase.Ended?;
  }

  lemma PresentedLogoutRuns(c: Config, s0: State, s: State, r: nat, faults: seq<Fault>)
    requires Inv(c, s) && Leads(c, s0, s) && r in s.requests && s.requests[r].phase.Presented?
    requires s.requests[r].flow.Logout?
    ensures var (w, found) := Store.Found(WorldOf(s, faults), s.requests[r].jti);
      var w1 := if found.Ok? && found.value.Some? then Store.Revoked(w, found.value.value.value.familyId).0 else w;
      LogoutRuns(c, s0, w1.kv, r)
  {
    if Store.Fate(faults).Ack? && s.requests[r].jti in s.kv.tokens {
      RowLogoutRuns(c, s0, s, r, Store.Rest(faults));
    } else {
      NoRowLogoutRuns(c, s0, s, r, Store.Fate(faults));
    }
  }

  lemma RowLogoutRuns(c: Config, s0: State, s: State, r: nat, faults: seq<Fault>)
    requires Inv(c, s) && Leads(c, s0, s) && r in s.requests && s.requests[r].phase.Presented?
    requires s.requests[r].flow.Logout?
    requires s.requests[r].jti in s.kv.tokens
    ensures LogoutRuns(c, s0, Store.Revoked(WorldOf(s, faults), s.kv.tokens[s.requests[r].jti].value.familyId).0.kv, r)
  {
    var version := Some(s.kv.tokens[s.requests[r].jti]);
    CurrentRow(c, s, s.requests[r].jti);
    LeadsOn(c, s0, s, Lookup(r, Ack, version));
    var t := LookupStep(s, r, Ack, version);
    assert WorldOf(t, faults) == WorldOf(s, faults);
    FoundLogoutRuns(c, s0, t, r, faults);
  }

  lemma NoRowLogoutRuns(c: Config, s0: State, s: State, r: nat, fate: Fault)
    requires Leads(c, s0, s) && r in s.requests && s.requests[r].phase.Presented?
    ensures LogoutRuns(c, s0, s.kv, r)
  {
    LeadsOn(c, s0, s, Lookup(r, fate, None));
    assert LookupStep(s, r, fate, None).requests[r].phase.Ended?;
  }

  lemma LogoutIsARun(c: Config, s: State, r: nat, x: Uuid, jwt: JwtService, token: string, faults: seq<Fault>)
    requires Reachable(c, s) && r !in s.requests && x in s.delivered && Carries(jwt, token, s, x)
    ensures LogoutRuns(c, s, AfterLogout(WorldOf(s, faults), jwt, token).kv, r)
  {
    ReachableInv(c, s);
    UuidRoundTrip(x);
    LeadsNowhere(c, s);
    LeadsOn(c, s, s, Present(r, Logout, x));
    var t := PresentStep(s, r, Logout, x);
    if t.requests[r].phase.Ended? {
      assert AfterLogout(WorldOf(s, faults), jwt, token).kv == t.kv;
    } else {
      PresentKeeps(c, s, r, Logout, x);
      assert WorldOf(t, faults) == WorldOf(s, faults);
      PresentedLogoutRuns(c, s, t, r, faults);
    }
  }

  // A logout whose two store operations succeed leaves the family of its token revoked.
  lemma LogoutRevokes(s: State, x: Uuid, jwt: JwtService, token: string, faults: seq<Fault>)
    requires Carries(jwt, token, s, x) && x in s.kv.tokens && Unexpired(s.minted[x].exp, s.now)
    ensures Store.Fate(faults).Ack? && !Store.Fate(Store.Rest(faults)).NotApplied? ==>
      s.kv.tokens[x].value.familyId in AfterLogout(WorldOf(s, faults), jwt, token).kv.revoked
  {
    UuidRoundTrip(x);
  }
}
