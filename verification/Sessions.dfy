/** Opening a session and ending one: the handlers of /auth/token and /auth/logout. */
module Sessions {
  import opened Types
  import opened UuidText
  import opened RefreshStore
  import opened Cookie
  import opened Jwt
  import opened Handlers
  import Protocol

  // ---- /auth/token ----

  predicate AsksToLogIn(grantType: Option<string>, idToken: Option<string>) {
    grantType == Some("id_token") && idToken.Some? && idToken.value != ""
  }

  // The email a request may log in with, given what the provider's check of its id_token answers.
  function LoginEmail(grantType: Option<string>, idToken: Option<string>, verified: Option<string>)
    : (r: Result<string, AppError>)
    ensures r.Ok? <==> AsksToLogIn(grantType, idToken) && verified.Some? && verified.value != ""
    ensures r.Ok? ==> Some(r.value) == verified
    ensures r == Err(Unauthorized) <==> AsksToLogIn(grantType, idToken) && verified.None?
    ensures r != Err(Internal)
  {
    if grantType.None? || grantType.value != "id_token" then Err(Validation)
    else if idToken.None? || idToken.value == "" then Err(Validation)
    else if verified.None? then Err(Unauthorized)
    else if verified.value == "" then Err(Validation)
    else Ok(verified.value)
  }

  method HandleToken(store: RefreshTokenStore, g: CookieConfig, grantType: Option<string>, idToken: Option<string>,
                     verified: Option<string>, family: Uuid, env: Env) returns (r: Result<Response, AppError>)
    requires store.Valid() && IsUuid(env.id) && IsUuid(family)
    modifies store
    ensures store.Valid()
    ensures match LoginEmail(grantType, idToken, verified)
      case Err(error) => store.View() == old(store.View()) && r == Err(error)
      case Ok(email) =>
        if !env.signs then store.View() == old(store.View()) && r == Err(Internal)
        else
          var (w, stored) := Stored(old(store.View()), Protocol.FreshRow(env.id, email, family, old(store.clock)));
          store.View() == w && r == if stored.Ok? then Ok(Response(200, TokenCookies(g, env))) else Err(Internal)
    ensures r.Ok? ==>
      && AsksToLogIn(grantType, idToken) && verified.Some? && verified.value != "" && env.signs
      && r == Ok(Response(200, [BuildAccessCookie(env.access, g), BuildRefreshCookie(env.refresh, g)]))
      && env.id in store.kv.tokens
      && store.kv.tokens[env.id].value == RefreshToken(env.id, verified.value, family, None, None, old(store.clock))
      && store.kv.tokens == old(store.kv.tokens)[env.id := store.kv.tokens[env.id]]
      && store.kv.revoked == old(store.kv.revoked)
    ensures r == Err(Unauthorized) <==> AsksToLogIn(grantType, idToken) && verified.None?
    ensures r == Err(Validation) <==> !AsksToLogIn(grantType, idToken) || verified == Some("")
  {
    if grantType.None? || grantType.value != "id_token" {
      return Err(Validation);
    }
    if idToken.None? || idToken.value == "" {
      return Err(Validation);
    }
    if verified.None? {
      return Err(Unauthorized);
    }
    if verified.value == "" {
      return Err(Validation);
    }
    if !env.signs {
      return Err(Internal);
    }
    var row := RefreshToken(env.id, verified.value, family, None, None, store.clock);
    var stored := store.Store(row);
    if stored.Err? {
      return Err(Internal);
    }
    var setCookies := [BuildAccessCookie(env.access, g)];
    setCookies := setCookies + [BuildRefreshCookie(env.refresh, g)];
    assert setCookies == TokenCookies(g, env);
    return Ok(Response(200, setCookies));
  }

  // The outer handler: 400 for a malformed request or an empty email, 401 for an id_token that does
  // not verify, 500 for what fails inside, and no cookies with any of them.
  method TokenHandler(store: RefreshTokenStore, g: CookieConfig, grantType: Option<string>, idToken: Option<string>,
                      verified: Option<string>, family: Uuid, env: Env) returns (response: Response)
    requires store.Valid() && IsUuid(env.id) && IsUuid(family)
    modifies store
    ensures store.Valid()
    ensures response.status == 401 <==> AsksToLogIn(grantType, idToken) && verified.None?
    ensures response.status == 400 <==> !AsksToLogIn(grantType, idToken) || verified == Some("")
    ensures response.status == 200 || (response.status in {400, 401, 500} && response.setCookies == [])
    ensures response.status in {400, 401} ==> store.View() == old(store.View())
    ensures response.status == 200 ==>
      && verified.Some? && verified.value != ""
      && response.setCookies == [BuildAccessCookie(env.access, g), BuildRefreshCookie(env.refresh, g)]
      && env.id in store.kv.tokens
      && store.kv.tokens[env.id].value == RefreshToken(env.id, verified.value, family, None, None, old(store.clock))
  {
    var r := HandleToken(store, g, grantType, idToken, verified, family, env);
    match r
    case Ok(ok) => response := ok;
    case Err(error) => response := Response(StatusOf(error), []);
  }

  // ---- /auth/logout ----

  // Every failure on the way leaves the rest undone; a failed revocation is not reported.
  function AfterLogout(w: World, jwt: JwtService, token: string): World {
    match VerifyRefreshToken(jwt, token, w.now)
    case Err(_) => w
    case Ok(claims) =>
      match ParseUuid(claims.jti)
      case None => w
      case Some(id) =>
        var (w1, found) := Found(w, id);
        if found.Ok? && found.value.Some? then Revoked(w1, found.value.value.value.familyId).0 else w1
  }

  // Exactly the marker of the presented row's family is written, exactly when the text is a live refresh
  // token, the lookup finds its row, and the write is applied.
  lemma LogoutActsExactly(w: World, jwt: JwtService, token: string, id: Uuid)
    requires Live(jwt, token, w.now, id)
    ensures var kv := AfterLogout(w, jwt, token).kv;
      if Fate(w.faults).Ack? && id in w.kv.tokens && !Fate(Rest(w.faults)).NotApplied? then
        var f := w.kv.tokens[id].value.familyId;
        && kv.tokens == w.kv.tokens && kv.revoked.Keys == w.kv.revoked.Keys + {f}
        && kv.revoked[f].value == RevokedFamily(w.now)
        && forall h :: h in w.kv.revoked && h != f ==> kv.revoked[h] == w.kv.revoked[h]
      else kv == w.kv
  {
  }

  lemma StrangerLogsNobodyOut(w: World, jwt: JwtService, token: string)
    requires forall id :: !Live(jwt, token, w.now, id)
    ensures AfterLogout(w, jwt, token) == w
  {
    if token in jwt.signed && jwt.signed[token].jti.Some? && ParseUuid(jwt.signed[token].jti.value).Some? {
      assert !Live(jwt, token, w.now, ParseUuid(jwt.signed[token].jti.value).value);
    }
  }

  method LogoutHandler(store: RefreshTokenStore, jwt: JwtService, g: CookieConfig, cookies: seq<string>)
    returns (response: Response)
    requires store.Valid()
    modifies store
    ensures store.Valid()
    ensures response == Response(200, ClearCookies(g))
    ensures match ExtractRefreshCookie(cookies, g)
      case None => store.View() == old(store.View())
      case Some(token) => store.View() == AfterLogout(old(store.View()), jwt, token)
  {
    var presented := ExtractRefreshCookie(cookies, g);
    if presented.Some? {
      var verified := VerifyRefreshToken(jwt, presented.value, store.clock);
      if verified.Ok? {
        var jti := ParseUuid(verified.value.jti);
        ParsedIsUuid(verified.value.jti);
        if jti.Some? {
          var found := store.FindById(jti.value);
          if found.Ok? && found.value.Some? {
            var _ := store.RevokeFamily(found.value.value.value.familyId);
          }
        }
      }
    }
    response := Response(200, [BuildClearAccessCookie(g)]);
    response := response.(setCookies := response.setCookies + [BuildClearRefreshCookie(g)]);
  }
}
