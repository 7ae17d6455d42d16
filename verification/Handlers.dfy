/**
 The two HTTP paths that rotate a refresh token. Each is written out as its handler is; both are
 proved to perform the same attempt on the store and to differ in the response alone.
 */
module Handlers {
  import opened Types
  import opened Kv
  import opened UuidText
  import opened RefreshStore
  import opened Cookie
  import opened Text
  import opened Jwt
  import Protocol
  import Bearer

  // ---- One rotation attempt ----

  // What the environment supplies: a fresh id, the texts of the signed tokens, and whether signing works.
  datatype Env = Env(id: Uuid, access: string, refresh: string, signs: bool)

  datatype Attempted =
    | Success
    | TokenExpired | TokenInvalid | UnknownToken | FamilyRevoked
    | LookupFailed | SigningFailed | RotationFailed
    | ReuseFound

  function Verdict(r: Result<(), RotationError>): Attempted {
    match r
    case Ok(_) => Success
    case Err(ReuseOf(_)) => ReuseFound
    case Err(StoreFailure(_)) => RotationFailed
  }

  function Attempt(w: World, jwt: JwtService, token: string, env: Env): (World, Attempted) {
    match VerifyRefreshToken(jwt, token, w.now)
    case Err(Expired) => (w, TokenExpired)
    case Err(Invalid) => (w, TokenInvalid)
    case Ok(claims) =>
      match ParseUuid(claims.jti)
      case None => (w, TokenInvalid)
      case Some(id) =>
        var (w1, found) := Found(w, id);
        if found.Err? then (w1, LookupFailed)
        else if found.value.None? then (w1, UnknownToken)
        else AttemptRow(w1, found.value.value, claims.sub, env)
  }

  function AttemptRow(w: World, held: Entry<RefreshToken>, email: string, env: Env): (World, Attempted) {
    var (w1, revoked) := SaysRevoked(w, held.value.familyId);
    if revoked then (w1, FamilyRevoked)
    else if !env.signs then (w1, SigningFailed)
    else
      var row := Protocol.FreshRow(env.id, email, held.value.familyId, w.now);
      var (w2, r) := Rotated(w1, held.value, held.revision, row);
      (w2, Verdict(r))
  }

  // ---- Responses ----

  // Status and Set-Cookie headers, in order.
  datatype Response = Response(status: nat, setCookies: seq<string>)

  datatype AppError = Unauthorized | Validation | Internal

  function StatusOf(error: AppError): nat {
    match error
    case Unauthorized => 401
    case Validation => 400
    case Internal => 500
  }

  function TokenCookies(g: CookieConfig, env: Env): seq<string> {
    [BuildAccessCookie(env.access, g), BuildRefreshCookie(env.refresh, g)]
  }

  function ClearCookies(g: CookieConfig): seq<string> {
    [BuildClearAccessCookie(g), BuildClearRefreshCookie(g)]
  }

  function ExplicitResponse(a: Attempted, g: CookieConfig, env: Env): Response {
    match a
    case Success => Response(200, TokenCookies(g, env))
    case LookupFailed => Response(500, [])
    case SigningFailed => Response(500, [])
    case RotationFailed => Response(500, [])
    case _ => Response(401, ClearCookies(g))
  }

  function SilentResponse(a: Attempted, g: CookieConfig, env: Env): Response {
    Response(200, if a.Success? then TokenCookies(g, env) else ClearCookies(g))
  }

  // ---- /auth/refresh ----

  // A non-empty token in the body wins over the cookie.
  function ResolveRefreshToken(body: Option<string>, cookies: seq<string>, g: CookieConfig): Option<string> {
    if body.Some? && body.value != "" then body else ExtractRefreshCookie(cookies, g)
  }

  method HandleRefresh(store: RefreshTokenStore, jwt: JwtService, g: CookieConfig, body: Option<string>,
                       cookies: seq<string>, env: Env) returns (r: Result<Response, AppError>)
    requires store.Valid() && IsUuid(env.id)
    modifies store
    ensures store.Valid()
    ensures match ResolveRefreshToken(body, cookies, g)
      case None => store.View() == old(store.View()) && r == Ok(Response(200, []))
      case Some(token) =>
        var (w, a) := Attempt(old(store.View()), jwt, token, env);
        store.View() == w &&
        (if a.Success? then r == Ok(Response(200, TokenCookies(g, env)))
         else if a.LookupFailed? || a.SigningFailed? || a.RotationFailed? then r == Err(Internal)
         else r == Err(Unauthorized))
  {
    var presented := ResolveRefreshToken(body, cookies, g);
    if presented.None? {
      return Ok(Response(200, []));
    }
    var verified := VerifyRefreshToken(jwt, presented.value, store.clock);
    if verified.Err? {
      return Err(Unauthorized);
    }
    var claims := verified.value;
    var jti := ParseUuid(claims.jti);
    ParsedIsUuid(claims.jti);
    if jti.None? {
      return Err(Unauthorized);
    }
    var found := store.FindById(jti.value);
    if found.Err? {
      return Err(Internal);
    }
    if found.value.None? {
      return Err(Unauthorized);
    }
    var held := found.value.value;
    var revoked := store.IsFamilyRevoked(held.value.familyId);
    if revoked {
      return Err(Unauthorized);
    }
    if !env.signs {
      return Err(Internal);
    }
    var row := RefreshToken(env.id, claims.sub, held.value.familyId, None, None, store.clock);
    var rotated := store.Rotate(held.value, held.revision, row);
    match rotated
    case Err(ReuseOf(_)) => return Err(Unauthorized);
    case Err(StoreFailure(_)) => return Err(Internal);
    case Ok(_) =>
      var setCookies := [BuildAccessCookie(env.access, g)];
      setCookies := setCookies + [BuildRefreshCookie(env.refresh, g)];
      assert setCookies == TokenCookies(g, env);
      return Ok(Response(200, setCookies));
  }

  // The outer handler: a 401 clears both cookies.
  method RefreshHandler(store: RefreshTokenStore, jwt: JwtService, g: CookieConfig, body: Option<string>,
                        cookies: seq<string>, env: Env) returns (response: Response)
    requires store.Valid() && IsUuid(env.id)
    modifies store
    ensures store.Valid()
    ensures match ResolveRefreshToken(body, cookies, g)
      case None => store.View() == old(store.View()) && response == Response(200, [])
      case Some(token) =>
        var (w, a) := Attempt(old(store.View()), jwt, token, env);
        store.View() == w && response == ExplicitResponse(a, g, env)
  {
    var r := HandleRefresh(store, jwt, g, body, cookies, env);
    match r
    case Ok(ok) => response := ok;
    case Err(error) =>
      response := Response(StatusOf(error), []);
      if response.status == 401 {
        response := response.(setCookies := [BuildClearAccessCookie(g)]);
        response := response.(setCookies := response.setCookies + [BuildClearRefreshCookie(g)]);
      }
  }

  // ---- The silent path of /auth/check ----

  function SilentlyRefreshed(w: World, jwt: JwtService, g: CookieConfig, cookies: seq<string>, env: Env)
    : (World, Response)
  {
    match ExtractRefreshCookie(cookies, g)
    case None => (w, Response(200, [BuildClearAccessCookie(g)]))
    case Some(token) =>
      var (w1, a) := Attempt(w, jwt, token, env);
      (w1, SilentResponse(a, g, env))
  }

  method ClearCookiesResponse(g: CookieConfig) returns (response: Response)
    ensures response == Response(200, ClearCookies(g))
    ensures forall jar, now :: Tidy(jar) ==>
      KeepAll(jar, response.setCookies, now) == jar - {AccessCookieName(g), RefreshCookieName(g)}
  {
    response := Response(200, [BuildClearAccessCookie(g)]);
    response := response.(setCookies := response.setCookies + [BuildClearRefreshCookie(g)]);
    forall jar, now | Tidy(jar)
      ensures KeepAll(jar, ClearCookies(g), now) == jar - {AccessCookieName(g), RefreshCookieName(g)}
    {
      ClearForgets(jar, g, now);
    }
  }

  method SilentRefresh(store: RefreshTokenStore, jwt: JwtService, g: CookieConfig, cookies: seq<string>, env: Env)
    returns (response: Response)
    requires store.Valid() && IsUuid(env.id)
    modifies store
    ensures store.Valid()
    ensures match ExtractRefreshCookie(cookies, g)
      case None => store.View() == old(store.View()) && response == Response(200, [BuildClearAccessCookie(g)])
      case Some(token) =>
        var (w, a) := Attempt(old(store.View()), jwt, token, env);
        store.View() == w && response == SilentResponse(a, g, env)
  {
    var presented := ExtractRefreshCookie(cookies, g);
    if presented.None? {
      return Response(200, [BuildClearAccessCookie(g)]);
    }
    response := ClearCookiesResponse(g);
    var verified := VerifyRefreshToken(jwt, presented.value, store.clock);
    if verified.Err? {
      return;
    }
    var claims := verified.value;
    var jti := ParseUuid(claims.jti);
    ParsedIsUuid(claims.jti);
    if jti.None? {
      return;
    }
    var found := store.FindById(jti.value);
    if found.Err? || found.value.None? {
      return;
    }
    var held := found.value.value;
    var revoked := store.IsFamilyRevoked(held.value.familyId);
    if revoked || !env.signs {
      return;
    }
    var row := RefreshToken(env.id, claims.sub, held.value.familyId, None, None, store.clock);
    var rotated := store.Rotate(held.value, held.revision, row);
    if rotated.Err? {
      return;
    }
    response := Response(200, [BuildAccessCookie(env.access, g)]);
    response := response.(setCookies := response.setCookies + [BuildRefreshCookie(env.refresh, g)]);
  }

  // ---- /auth/check ----

  // Only an access token that is no more than expired starts a silent refresh.
  predicate TakesSilentPath(jwt: JwtService, g: CookieConfig, silent: bool, cookies: seq<string>, now: nat) {
    var access := ExtractAccessCookie(cookies, g);
    silent && access.Some? && VerifyAccessToken(jwt, access.value, now) == Err(Expired)
  }

  // The text was signed by this service and has not outlived its expiry by more than 5 seconds.
  predicate Passes(jwt: JwtService, token: string, now: nat) {
    token in jwt.signed && now <= jwt.signed[token].exp + 5
  }

  // What the reader of the bearer index works with; `up` says whether its lookup gets through.
  datatype BearerIndex = BearerIndex(w: Bearer.World, h: Bearer.Hash, sealKey: nat, up: bool)

  // The header value without its scheme, which is optional and in any case.
  function BearerToken(value: string): string {
    if |value| >= 7 && Lower(value[..7]) == "bearer " then value[7..] else value
  }

  // The response, and the entry that its identity headers name.
  function BearerAnswer(index: BearerIndex, value: string): (Response, Option<Bearer.BearerEntry>) {
    if !index.up then (Response(502, []), None)
    else
      match Bearer.Resolve(index.w, index.h, index.sealKey, BearerToken(value))
      case Some(entry) => (Response(200, []), Some(entry))
      case None => (Response(401, []), None)
  }

  // After any sequence of successful puts and deletes, a bearer is accepted under any spelling of the
  // scheme exactly when its token was put and not deleted since, and the last entry put is named.
  lemma PublishedIsAccepted(index: BearerIndex, es: seq<Bearer.Event>, scheme: string, token: string)
    requires index.up && Lower(scheme) == "bearer " && |scheme| == 7 && Bearer.CollisionFree(index.h)
    requires index.w == Bearer.World(map[], map[]) && Bearer.Legal(index.h, index.sealKey, index.w, es)
    requires forall e :: e in es ==> Bearer.Succeeds(e)
    ensures var after := index.(w := Bearer.After(index.h, index.sealKey, index.w, es));
      var m := Bearer.AllRecorded(map[], es);
      BearerAnswer(after, scheme + token) ==
        if token in m then (Response(200, []), Some(m[token])) else (Response(401, []), None)
  {
    var none: map<string, Bearer.BearerEntry> := map[];
    assert Bearer.Agrees(index.h, index.sealKey, index.w, none) && Bearer.AllSealed(index.w);
    Bearer.IndexAgreesWithMap(index.h, index.sealKey, index.w, none, es);
    assert (scheme + token)[..7] == scheme && (scheme + token)[7..] == token;
  }

  // With the lookup down nothing is accepted; otherwise, whatever others wrote into the bucket, a bearer
  // is accepted only with an entry that was sealed for its very token under the service's key.
  lemma AcceptedWasSealed(index: BearerIndex, es: seq<Bearer.Event>, value: string)
    requires Bearer.CollisionFree(index.h) && Bearer.Legal(index.h, index.sealKey, Bearer.World(map[], map[]), es)
    requires index.w == Bearer.After(index.h, index.sealKey, Bearer.World(map[], map[]), es)
    ensures var (response, actor) := BearerAnswer(index, value);
      && (response.status == 502 <==> !index.up)
      && (response.status == 200 <==> actor.Some?)
      && (response.status == 401 <==> index.up && actor.None?)
      && (response.status == 200 ==>
            index.up && exists e :: e in es && Bearer.Seals(e, index.sealKey, BearerToken(value), actor.value))
  {
    var (response, actor) := BearerAnswer(index, value);
    if actor.Some? {
      Bearer.ResolvedWasSealed(index.h, index.sealKey, es, BearerToken(value), actor.value);
    }
  }

  // The scheme is taken off once, in any case; a value without it is the token.
  lemma SchemeIsOptional(scheme: string, token: string)
    requires |scheme| == 7 && Lower(scheme) == "bearer "
    ensures BearerToken(scheme + token) == token
    ensures Lower(if |token| < 7 then token else token[..7]) != "bearer " ==> BearerToken(token) == token
  {
    assert (scheme + token)[..7] == scheme && (scheme + token)[7..] == token;
  }

  method HandleBearer(index: BearerIndex, value: string)
    returns (response: Response, actor: Option<Bearer.BearerEntry>)
    ensures (response, actor) == BearerAnswer(index, value)
    ensures response.setCookies == [] && (response.status == 502 <==> !index.up)
    ensures index.up ==> actor == Bearer.Resolve(index.w, index.h, index.sealKey, BearerToken(value))
    ensures (response.status == 200 <==> actor.Some?) && (response.status == 401 <==> index.up && actor.None?)
  {
    var token := value;
    if |value| >= 7 && Lower(value[..7]) == "bearer " {
      token := value[7..];
    }
    if !index.up {
      return Response(502, []), None;
    }
    actor := Bearer.Resolve(index.w, index.h, index.sealKey, token);
    response := Response(if actor.Some? then 200 else 401, []);
  }

  method HandleJwtCookie(store: RefreshTokenStore, jwt: JwtService, g: CookieConfig, silent: bool, token: string,
                         cookies: seq<string>, env: Env) returns (response: Response)
    requires store.Valid() && IsUuid(env.id) && ExtractAccessCookie(cookies, g) == Some(token)
    modifies store
    ensures store.Valid()
    ensures TakesSilentPath(jwt, g, silent, cookies, old(store.clock))
        <==> silent && token in jwt.signed && !Passes(jwt, token, old(store.clock))
    ensures if TakesSilentPath(jwt, g, silent, cookies, old(store.clock))
      then (store.View(), response) == SilentlyRefreshed(old(store.View()), jwt, g, cookies, env)
      else store.View() == old(store.View())
    ensures Passes(jwt, token, old(store.clock)) ==> response == Response(200, [])
    ensures !silent && !Passes(jwt, token, old(store.clock)) ==> response == Response(401, [])
    ensures silent && token !in jwt.signed ==>
      && response.status == 200
      && forall jar, now :: Tidy(jar) ==>
           KeepAll(jar, response.setCookies, now) == jar - {AccessCookieName(g), RefreshCookieName(g)}
  {
    var verified := VerifyAccessToken(jwt, token, store.clock);
    match verified
    case Ok(_) => return Response(200, []);
    case Err(Expired) =>
      if silent {
        response := SilentRefresh(store, jwt, g, cookies, env);
      } else {
        return Response(401, []);
      }
    case Err(Invalid) =>
      if silent {
        response := ClearCookiesResponse(g);
      } else {
        return Response(401, []);
      }
  }

  // An access cookie decides alone; without one, a readable Authorization header does. `actor` is what
  // the response's identity headers name.
  method AuthCheckHandler(store: RefreshTokenStore, jwt: JwtService, index: BearerIndex, g: CookieConfig, silent: bool,
                          cookies: seq<string>, authorization: Option<string>, env: Env)
    returns (response: Response, actor: Option<Bearer.BearerEntry>)
    requires store.Valid() && IsUuid(env.id)
    modifies store
    ensures store.Valid()
    ensures if TakesSilentPath(jwt, g, silent, cookies, old(store.clock))
      then (store.View(), response) == SilentlyRefreshed(old(store.View()), jwt, g, cookies, env) && actor == None
      else store.View() == old(store.View())
    ensures match ExtractAccessCookie(cookies, g)
      case Some(token) =>
        && actor == None
        && (TakesSilentPath(jwt, g, silent, cookies, old(store.clock)) <==>
              silent && token in jwt.signed && !Passes(jwt, token, old(store.clock)))
        && (Passes(jwt, token, old(store.clock)) ==> response == Response(200, []))
        && (!silent && !Passes(jwt, token, old(store.clock)) ==> response == Response(401, []))
        && (silent && token !in jwt.signed ==>
              && response.status == 200
              && forall jar, now :: Tidy(jar) ==>
                   KeepAll(jar, response.setCookies, now) == jar - {AccessCookieName(g), RefreshCookieName(g)})
      case None =>
        && response.setCookies == []
        && if authorization.Some? && AllVisible(authorization.value) then
             && (response.status == 502 <==> !index.up)
             && (response.status == 200 <==> actor.Some?)
             && (response.status == 401 <==> index.up && actor.None?)
             && (index.up ==>
                   actor == Bearer.Resolve(index.w, index.h, index.sealKey, BearerToken(authorization.value)))
           else response.status == 200 && actor == None
  {
    var access := ExtractAccessCookie(cookies, g);
    if access.Some? {
      response := HandleJwtCookie(store, jwt, g, silent, access.value, cookies, env);
      return response, None;
    }
    if authorization.Some? && AllVisible(authorization.value) {
      response, actor := HandleBearer(index, authorization.value);
      return;
    }
    return Response(200, []), None;
  }

  // ---- The client's side ----

  // After a success on either path the browser presents exactly the two new tokens.
  lemma SuccessReachesTheClient(jar: Jar, g: CookieConfig, env: Env, now: nat, later: nat, order: seq<string>)
    requires Tidy(jar) && Portable(env.access) && Portable(env.refresh) && now <= later
    requires Lists(order, KeepAll(jar, ExplicitResponse(Success, g, env).setCookies, now), later)
    ensures ExplicitResponse(Success, g, env) == SilentResponse(Success, g, env)
    ensures var h := CookieHeader(order, KeepAll(jar, ExplicitResponse(Success, g, env).setCookies, now));
      var plain := Audible(jar, g, env.access, env.refresh, now, later);
      && ExtractAccessCookie(h, g) == (if plain && later < now + g.accessMaxAge then Some(env.access) else None)
      && ExtractRefreshCookie(h, g) == (if plain && later < now + g.refreshMaxAge then Some(env.refresh) else None)
  {
    CookieRoundTrip(jar, g, env.access, env.refresh, now, later, order);
  }

  // After a refusal both paths make the browser forget both tokens; after a store or signing error
  // only the explicit path leaves them alone. The service's README.md:83 says that the client retries
  // in that case, which the silent path makes impossible.
  lemma OnlyTheExplicitPathKeepsTheToken(jar: Jar, g: CookieConfig, env: Env, a: Attempted, now: nat, later: nat,
                                         order: seq<string>)
    requires Tidy(jar) && !a.Success?
    requires Lists(order, KeepAll(jar, SilentResponse(a, g, env).setCookies, now), later)
    ensures var j := KeepAll(jar, SilentResponse(a, g, env).setCookies, now);
      && j == jar - {AccessCookieName(g), RefreshCookieName(g)}
      && ExtractAccessCookie(CookieHeader(order, j), g) == None
      && ExtractRefreshCookie(CookieHeader(order, j), g) == None
    ensures var j := KeepAll(jar, ExplicitResponse(a, g, env).setCookies, now);
      if a.LookupFailed? || a.SigningFailed? || a.RotationFailed? then j == jar
      else j == jar - {AccessCookieName(g), RefreshCookieName(g)}
  {
    ClearRoundTrip(jar, g, now, later, order);
  }

  // The service's README.md:63 promises a silent refresh once the access token has expired. The access
  // cookie is kept for the token's lifetime, and the leeway runs 5 seconds longer, so a browser still
  // sends an expired token only in the seconds by which its cookies arrived later than those 5.
  lemma SilentPathNeedsALateDelivery(jar: Jar, g: CookieConfig, jwt: JwtService, env: Env, email: string,
                                     signedAt: nat, keptAt: nat, later: nat, order: seq<string>)
    requires Tidy(jar) && Portable(env.access) && Portable(env.refresh) && keptAt <= later
    requires g.accessMaxAge == jwt.accessTtl
    requires Lists(order, KeepAll(jar, TokenCookies(g, env), keptAt), later)
    ensures var h := CookieHeader(order, KeepAll(jar, TokenCookies(g, env), keptAt));
      var signed := SignAccessToken(jwt, env.access, email, signedAt);
      && (TakesSilentPath(signed, g, true, h, later) <==>
            Audible(jar, g, env.access, env.refresh, keptAt, later)
            && signedAt + jwt.accessTtl + 5 < later < keptAt + jwt.accessTtl)
      && (keptAt <= signedAt + 6 ==> !TakesSilentPath(signed, g, true, h, later))
  {
    CookieRoundTrip(jar, g, env.access, env.refresh, keptAt, later, order);
  }
}
