/**
 How long the access verifier goes on accepting what was signed for a revoked family. It asks for no
 claim that a refresh token lacks, so it accepts refresh tokens too.
 */
module AccessLifetime {
  import opened Types
  import opened UuidText
  import opened Protocol
  import opened Retention
  import opened Residue
  import opened Jwt
  import opened AttemptRun
  import opened Counterexamples

  ghost predicate CarriesAccess(jwt: JwtService, token: string, a: AccessGrant) {
    token in jwt.signed && jwt.signed[token] == Payload(a.sub, None, a.iat, a.exp)
  }

  // The text is a signed token of family f, of either kind.
  ghost predicate SignedFor(jwt: JwtService, token: string, s: State, f: Uuid) {
    || (exists x :: Carries(jwt, token, s, x) && s.minted[x].family == f)
    || (exists a :: a in s.accessTokens && a.family == f && CarriesAccess(jwt, token, a))
  }

  function Longer(c: Config): nat {
    if c.accessTtl > c.refreshTtl then c.accessTtl else c.refreshTtl
  }

  // Nothing signed for a revoked family passes once the longer lifetime, the leeway and a signing
  // delay are over.
  lemma AccessVerifierForgets(c: Config, d: Delays, s: State, f: Uuid, jwt: JwtService, token: string)
    requires LongEnough(c, d) && Reachable(c, s) && Disciplined(d, s, f) && f in s.revocations
    requires SignedFor(jwt, token, s, f) && VerifyAccessToken(jwt, token, s.now).Ok?
    ensures s.now <= s.revocations[f].at + d.toSign + Longer(c) + CLOCK_SKEW_LEEWAY_SECS
  {
    if s.now > s.revocations[f].at + d.toSign + Longer(c) + CLOCK_SKEW_LEEWAY_SECS {
      if x :| Carries(jwt, token, s, x) && s.minted[x].family == f {
        RefreshDiesOut(c, d, s, f, x);
      } else {
        var a :| a in s.accessTokens && a.family == f && CarriesAccess(jwt, token, a);
        AccessDiesWithItsFamily(c, d, s, f, a);
      }
    }
  }

  // The verifier still accepts something of a family revoked longer ago than an access token lives.
  ghost predicate Lingers(c: Config, d: Delays, s: State, f: Uuid, jwt: JwtService, token: string) {
    && Reachable(c, s) && Disciplined(d, s, f) && f in s.revocations
    && SignedFor(jwt, token, s, f) && VerifyAccessToken(jwt, token, s.now).Ok?
    && s.now > s.revocations[f].at + d.toSign + c.accessTtl + CLOCK_SKEW_LEEWAY_SECS
  }

  // A client got token 2 while its family was being revoked, and shows it in its last second.
  lemma TokenTwoOutlives(c: Config, d: Delays)
    requires c.refreshTtl > c.accessTtl
    ensures exists s, jwt, token :: Lingers(c, d, s, 1, jwt, token) && Carries(jwt, token, s, 2) && 2 in s.delivered
  {
    LogsIn(c);
    var s0 :| Reachable(c, s0) && LoggedIn(c, s0);
    LogsOutMidway(c, s0);
    var s1 :| Reachable(c, s1) && LoggedOutMidway(c, s1);
    RotatesBelatedly(c, d, s1);
    var s2 :| Leads(c, s1, s2) && Belated(c, d, s2);
    LeadsThrough(c, INIT, s1, s2);
    Waits(c, INIT, s2, c.refreshTtl + CLOCK_SKEW_LEEWAY_SECS);
    var s := Wait(s2, c.refreshTtl + CLOCK_SKEW_LEEWAY_SECS);
    ShowsTokenTwo(c, d, s2, s);
  }

  lemma ShowsTokenTwo(c: Config, d: Delays, s0: State, s: State)
    requires Belated(c, d, s0) && Reachable(c, s) && c.refreshTtl > c.accessTtl
    requires s == Wait(s0, c.refreshTtl + CLOCK_SKEW_LEEWAY_SECS)
    ensures exists jwt, token :: Lingers(c, d, s, 1, jwt, token) && Carries(jwt, token, s, 2) && 2 in s.delivered
  {
    var m := s.minted[2];
    var jwt := JwtService(c.accessTtl, c.refreshTtl, map["jwt" := Payload(m.sub, Some(Hyphenated(2)), m.iat, m.exp)]);
    ImpeccableIsDisciplined(d, s, 1);
    NoneUnheard(s, 1);
    TwoIsUuid();
    assert Carries(jwt, "jwt", s, 2);
    assert Lingers(c, d, s, 1, jwt, "jwt");
  }

  lemma TwoIsUuid()
    ensures IsUuid(2)
  {
    Pow16Grows(32);
  }

  // Given the retention that revocation needs to be final, everything the verifier accepts for a
  // revoked family dies out with its access tokens exactly when refresh tokens live no longer.
  lemma AccessEndsInTimeExactly(c: Config, d: Delays)
    requires LongEnough(c, d)
    ensures (forall s, f, jwt, token :: !Lingers(c, d, s, f, jwt, token)) <==> c.refreshTtl <= c.accessTtl
  {
    if c.refreshTtl <= c.accessTtl {
      forall s, f, jwt, token ensures !Lingers(c, d, s, f, jwt, token) {
        if Lingers(c, d, s, f, jwt, token) { AccessVerifierForgets(c, d, s, f, jwt, token); }
      }
    } else {
      TokenTwoOutlives(c, d);
    }
  }
}
