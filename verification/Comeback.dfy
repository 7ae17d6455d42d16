/**
 A client that comes back with a token, and what the handlers' attempt answers when nothing disturbs it.
 */
module Comeback {
  import opened Types
  import opened UuidText
  import opened Protocol
  import opened Invariant
  import opened Safety
  import opened Retention
  import opened Residue
  import opened Retry
  import opened SequentialRun
  import opened Jwt
  import opened Handlers
  import opened AttemptRun

  // The client presents the text of a token it was handed out; what the attempt creates is fresh.
  ghost predicate Presents(s: State, x: Uuid, jwt: JwtService, token: string, env: Env) {
    x in s.delivered && Carries(jwt, token, s, x) && IsUuid(env.id) && env.id !in s.minted && env.signs
  }

  // An undisturbed attempt succeeds exactly for rotatable tokens, and cries reuse exactly for used ones
  // that could otherwise be rotated.
  lemma AttemptAnswersExactly(c: Config, s: State, x: Uuid, jwt: JwtService, token: string, env: Env)
    requires Reachable(c, s) && Presents(s, x, jwt, token, env)
    ensures var a := Attempt(WorldOf(s, []), jwt, token, env).1;
      && (a == Success <==> Rotatable(s, x))
      && (a == ReuseFound <==>
            && UsedUp(s, x) && x in s.kv.tokens
            && Unexpired(s.minted[x].exp, s.now) && s.minted[x].family !in s.kv.revoked)
  {
    ReachableInv(c, s);
    UuidRoundTrip(x);
    FreshIsUnused(c, s, env.id);
    if x in s.kv.tokens { CurrentRow(c, s, x); }
  }

  // A success marks the row used and stores its successor, unused, in the same family and with the same email.
  lemma SuccessRotates(c: Config, s: State, x: Uuid, jwt: JwtService, token: string, env: Env)
    requires Reachable(c, s) && Presents(s, x, jwt, token, env) && Rotatable(s, x)
    ensures var kv, m := Attempt(WorldOf(s, []), jwt, token, env).0.kv, s.minted[x];
      && kv.revoked == s.kv.revoked && kv.tokens.Keys == s.kv.tokens.Keys + {env.id}
      && kv.tokens[env.id].value == RefreshToken(env.id, m.sub, m.family, None, None, s.now)
      && kv.tokens[x].value == s.kv.tokens[x].value.(usedAt := Some(s.now), replacedBy := Some(env.id))
      && (forall y :: y in s.kv.tokens && y != x ==> kv.tokens[y] == s.kv.tokens[y])
  {
    ReachableInv(c, s);
    UuidRoundTrip(x);
    FreshIsUnused(c, s, env.id);
    CurrentRow(c, s, x);
  }

  // Whatever crashes, failures, stale reads, waits and other requests come between, the client of a
  // token that nothing spoiled comes back and succeeds: its attempt does, and so does a request of the protocol.
  lemma LaterAttemptSucceeds(c: Config, s: State, es: seq<Event>, r: nat, flow: Flow, x: Uuid,
                             jwt: JwtService, token: string, env: Env)
    requires Reachable(c, s) && Rotatable(s, x) && Legal(c, s, es) && Spares(c, s, es, x)
    requires Presents(After(c, s, es), x, jwt, token, env)
    requires r !in After(c, s, es).requests && (flow.Explicit? || flow.Silent?)
    ensures var t := After(c, s, es);
      var (w, a) := Attempt(WorldOf(t, []), jwt, token, env);
      a == Success && AttemptRuns(c, t, w.kv, r, Success, env.id)
  {
    var t := After(c, s, es);
    SparedStaysRotatable(c, s, es, x);
    RunContinues(c, INIT, s, es);
    AttemptAnswersExactly(c, t, x, jwt, token, env);
    AttemptIsARun(c, t, r, flow, x, jwt, token, env, []);
  }

  // The attempt with a used token, in a family not yet revoked, revokes the family.
  lemma UsedTokenRevokes(c: Config, s: State, x: Uuid, jwt: JwtService, token: string, env: Env)
    requires Reachable(c, s) && Presents(s, x, jwt, token, env)
    requires UsedUp(s, x) && x in s.kv.tokens && Unexpired(s.minted[x].exp, s.now)
    ensures var kv, f := Attempt(WorldOf(s, []), jwt, token, env).0.kv, s.minted[x].family;
      && kv.tokens == s.kv.tokens && f in kv.revoked
      && (f !in s.kv.revoked ==> kv.revoked[f].value == RevokedFamily(s.now))
  {
    ReachableInv(c, s);
    UuidRoundTrip(x);
    CurrentRow(c, s, x);
  }

  // Once a row is used, no later request that presents its token ever has its write applied, is told
  // that it rotated, or gets cookies, in any continuation and under any faults.
  lemma UsedNeverRotatesAgain(c: Config, s: State, t: State, x: Uuid, r: nat)
    requires Reachable(c, s) && UsedUp(s, x) && Leads(c, s, t)
    requires r in t.requests && r !in s.requests && t.requests[r].jti == x
    ensures !t.requests[r].applied && !t.requests[r].verdict.RotatedOk? && !GotCookies(t, r)
  {
    var es :| Legal(c, s, es) && After(c, s, es) == t;
    ReachableInv(c, s);
    RunKeeps(c, s, es);
    RunGrows(c, s, es);
    UsedUpIsSpent(c, s, x);
    LateRequestLoses(c, s, t, x, r);
  }

  lemma LateRequestLoses(c: Config, s: State, t: State, x: Uuid, r: nat)
    requires Inv(c, s) && Inv(c, t) && Grows(s, t) && x in s.spent
    requires r in t.requests && r !in s.requests && t.requests[r].jti == x
    ensures !t.requests[r].applied && !t.requests[r].verdict.RotatedOk? && !GotCookies(t, r)
  {
    assert SpentOk(s, x) && CreatedOk(c, s, x) && MintOk(c, s, x);
    assert RequestOk(c, t, r);
  }

  // So a lost acknowledgement of the compare-and-swap loses the token for good.
  lemma LostAckLosesTheToken(c: Config, s: State, q: nat, t: State, r: nat)
    requires Reachable(c, s) && Enabled(c, s, Cas(q, LostAck)) && Rotatable(s, s.requests[q].jti)
    requires Leads(c, CasStep(s, q, LostAck), t)
    requires r in t.requests && r !in s.requests && t.requests[r].jti == s.requests[q].jti
    ensures !GotCookies(t, r)
  {
    var s1 := CasStep(s, q, LostAck);
    Swaps(c, INIT, s, q, LostAck);
    RetryAfterCasError(c, s, q, LostAck);
    UsedNeverRotatesAgain(c, s1, t, s.requests[q].jti, r);
  }
}
