/**
 Signed tokens. Signatures are ideal: a text decodes exactly when this service signed it, and then
 to what was signed. What is left is which claims a verifier asks for, and until when.
 */
module Jwt {
  import opened Types
  import opened UuidText

  // The claims inside a signed text; only a refresh token has a jti.
  datatype Payload = Payload(sub: string, jti: Option<string>, iat: nat, exp: nat)

  datatype AccessClaims = AccessClaims(sub: string, iat: nat, exp: nat)

  datatype RefreshClaims = RefreshClaims(sub: string, jti: string, iat: nat, exp: nat)

  datatype JwtError = Expired | Invalid

  // `signed` holds what was signed so far with this service's key and issuer.
  datatype JwtService = JwtService(accessTtl: nat, refreshTtl: nat, signed: map<string, Payload>)

  function SignAccessToken(jwt: JwtService, token: string, email: string, now: nat): JwtService {
    jwt.(signed := jwt.signed[token := Payload(email, None, now, now + jwt.accessTtl)])
  }

  function SignRefreshToken(jwt: JwtService, token: string, email: string, id: Uuid, now: nat): JwtService {
    jwt.(signed := jwt.signed[token := Payload(email, Some(Hyphenated(id)), now, now + jwt.refreshTtl)])
  }

  function VerifyAccessToken(jwt: JwtService, token: string, now: nat): Result<AccessClaims, JwtError> {
    if token !in jwt.signed then Err(Invalid)
    else
      var p := jwt.signed[token];
      if Unexpired(p.exp, now) then Ok(AccessClaims(p.sub, p.iat, p.exp)) else Err(Expired)
  }

  // A missing claim is reported before the expiry is looked at.
  function VerifyRefreshToken(jwt: JwtService, token: string, now: nat): Result<RefreshClaims, JwtError> {
    if token !in jwt.signed || jwt.signed[token].jti.None? then Err(Invalid)
    else
      var p := jwt.signed[token];
      if Unexpired(p.exp, now) then Ok(RefreshClaims(p.sub, p.jti.value, p.iat, p.exp)) else Err(Expired)
  }

  // A refresh token gives back its email and id until its lifetime and the leeway are over, and is expired after.
  lemma SignThenVerify(jwt: JwtService, token: string, email: string, id: Uuid, now: nat, later: nat)
    requires IsUuid(id)
    ensures var v := VerifyRefreshToken(SignRefreshToken(jwt, token, email, id, now), token, later);
      if later <= now + jwt.refreshTtl + 5 then v.Ok? && v.value.sub == email && ParseUuid(v.value.jti) == Some(id)
      else v == Err(Expired)
  {
    UuidRoundTrip(id);
  }

  // An access token verifies as one until its lifetime and the leeway are over, and never as a refresh token.
  lemma AccessVerifies(jwt: JwtService, token: string, email: string, now: nat, later: nat)
    ensures var signed := SignAccessToken(jwt, token, email, now);
      && VerifyAccessToken(signed, token, later) ==
           (if later <= now + jwt.accessTtl + 5 then Ok(AccessClaims(email, now, now + jwt.accessTtl))
            else Err(Expired))
      && VerifyRefreshToken(signed, token, later) == Err(Invalid)
  {
  }

  // A refresh token has every claim that the access verifier asks for, so it passes there too, for
  // the whole refresh lifetime.
  lemma RefreshVerifiesAsAccess(jwt: JwtService, token: string, email: string, id: Uuid, now: nat, later: nat)
    ensures VerifyAccessToken(SignRefreshToken(jwt, token, email, id, now), token, later).Ok?
        <==> later <= now + jwt.refreshTtl + 5
  {
  }

  // The text is a signed refresh token with this id that has not outlived its expiry by more than 5 seconds.
  ghost predicate Live(jwt: JwtService, token: string, now: nat, id: Uuid) {
    && token in jwt.signed && jwt.signed[token].jti.Some? && ParseUuid(jwt.signed[token].jti.value) == Some(id)
    && now <= jwt.signed[token].exp + 5
  }

  // A text that was never signed passes neither verifier, and signing other texts does not change that
  // or anything else about it.
  lemma OnlySignedPasses(jwt: JwtService, token: string, other: string, email: string, id: Uuid, now: nat, later: nat)
    requires token != other
    ensures token !in jwt.signed ==>
      VerifyAccessToken(jwt, token, later) == Err(Invalid) && VerifyRefreshToken(jwt, token, later) == Err(Invalid)
    ensures var j := SignRefreshToken(SignAccessToken(jwt, other, email, now), other, email, id, now);
      && VerifyAccessToken(j, token, later) == VerifyAccessToken(jwt, token, later)
      && VerifyRefreshToken(j, token, later) == VerifyRefreshToken(jwt, token, later)
  {
  }
}
