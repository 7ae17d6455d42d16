/**
 A browser that comes back in time, over and over: the cookies of each response carry the next request.
 Each turn goes through the jar, the extractor, the verifier, the store and the printer.
 */
module Chain {
  import opened Types
  import opened UuidText
  import opened RefreshStore
  import opened Cookie
  import opened Jwt
  import opened Handlers
  import Protocol

  // The service with both tokens of a response signed.
  function SignedPair(jwt: JwtService, env: Env, email: string, now: nat): JwtService {
    SignRefreshToken(SignAccessToken(jwt, env.access, email, now), env.refresh, email, env.id, now)
  }

  // The text is a refresh token that verifies, of an unused row in a family that is not revoked.
  ghost predicate Fit(w: World, jwt: JwtService, token: string, id: Uuid) {
    && IsUuid(id) && token in jwt.signed && jwt.signed[token].jti == Some(Hyphenated(id))
    && Unexpired(jwt.signed[token].exp, w.now)
    && id in w.kv.tokens && w.kv.tokens[id].value.id == id && w.kv.tokens[id].value.usedAt.None?
    && w.kv.tokens[id].value.familyId !in w.kv.revoked
  }

  lemma FitSucceeds(w: World, jwt: JwtService, token: string, id: Uuid, env: Env)
    requires Fit(w, jwt, token, id) && w.faults == []
    requires IsUuid(env.id) && env.id !in w.kv.tokens && env.signs
    ensures var (w1, a) := Attempt(w, jwt, token, env);
      && a == Success && w1.now == w.now && w1.faults == []
      && Fit(w1, SignedPair(jwt, env, jwt.signed[token].sub, w.now), env.refresh, env.id)
  {
    UuidRoundTrip(id);
  }

  // The client's next visit: after how long, in which order it lists its cookies, and what is new.
  datatype Turn = Turn(wait: nat, order: seq<string>, env: Env)

  datatype Session = Session(w: World, jwt: JwtService, jar: Jar)

  // What the response to an attempt leaves with the service and in the jar.
  function Answered(s: Session, g: CookieConfig, token: string, env: Env, w: World, a: Attempted): Session {
    var jwt := if a.Success? && token in s.jwt.signed
      then SignedPair(s.jwt, env, s.jwt.signed[token].sub, w.now) else s.jwt;
    Session(w, jwt, KeepAll(s.jar, ExplicitResponse(a, g, env).setCookies, w.now))
  }

  // A visit to /auth/refresh at the session's time, and the response put back into the jar.
  function Visited(s: Session, g: CookieConfig, presented: Option<string>, env: Env): (Session, Option<Attempted>) {
    match presented
    case None => (s, None)
    case Some(token) =>
      var (w, a) := Attempt(s.w, s.jwt, token, env);
      (Answered(s, g, token, env, w, a), Some(a))
  }

  function Waited(s: Session, wait: nat): Session {
    s.(w := s.w.(now := s.w.now + wait))
  }

  // The visit that the cookies of the jar make.
  function Turned(s: Session, g: CookieConfig, turn: Turn): (Session, Option<Attempted>)
    requires forall n :: n in turn.order ==> n in s.jar
  {
    Visited(Waited(s, turn.wait), g, ResolveRefreshToken(None, CookieHeader(turn.order, s.jar), g), turn.env)
  }

  // The client comes back within the lifetime, all its cookies are visible text, no store operation
  // fails, and what is new is fresh.
  ghost predicate Fair(s: Session, g: CookieConfig, turn: Turn) {
    && turn.wait < g.refreshMaxAge
    && Lists(turn.order, s.jar, s.w.now + turn.wait) && Plain(s.jar, s.w.now + turn.wait)
    && s.w.faults == [] && IsUuid(turn.env.id) && turn.env.id !in s.w.kv.tokens && turn.env.signs
    && Portable(turn.env.access) && Portable(turn.env.refresh)
  }

  // Just after a response the jar holds the token that the service takes next.
  ghost predicate Usable(s: Session, g: CookieConfig, token: string, id: Uuid) {
    && Fit(s.w, s.jwt, token, id) && s.jwt.signed[token].exp == s.w.now + s.jwt.refreshTtl
    && Tidy(s.jar) && RefreshCookieName(g) in s.jar
    && s.jar[RefreshCookieName(g)] == Kept(token, Some(s.w.now + g.refreshMaxAge))
  }

  lemma SendsTheToken(s: Session, g: CookieConfig, turn: Turn, token: string, id: Uuid)
    requires Usable(s, g, token, id) && Fair(s, g, turn)
    ensures ResolveRefreshToken(None, CookieHeader(turn.order, s.jar), g) == Some(token)
  {
    NamesArePlain(g);
    ExtractReadsTheJar(turn.order, s.jar, s.w.now + turn.wait, RefreshCookieName(g));
  }

  lemma JarTakesTheToken(jar: Jar, g: CookieConfig, env: Env, now: nat)
    requires Tidy(jar) && Portable(env.access) && Portable(env.refresh) && g.refreshMaxAge > 0
    ensures var j := KeepAll(jar, TokenCookies(g, env), now);
      Tidy(j) && RefreshCookieName(g) in j && j[RefreshCookieName(g)] == Kept(env.refresh, Some(now + g.refreshMaxAge))
  {
    KeepsBoth(jar, g, env.access, g.accessMaxAge, env.refresh, g.refreshMaxAge, now);
  }

  lemma AnswerIsUsable(s: Session, g: CookieConfig, token: string, env: Env, w: World)
    requires Tidy(s.jar) && Portable(env.access) && Portable(env.refresh) && g.refreshMaxAge > 0
    requires token in s.jwt.signed
    requires Fit(w, SignedPair(s.jwt, env, s.jwt.signed[token].sub, w.now), env.refresh, env.id)
    ensures Usable(Answered(s, g, token, env, w, Success), g, env.refresh, env.id)
  {
    JarTakesTheToken(s.jar, g, env, w.now);
  }

  lemma VisitSucceeds(s: Session, g: CookieConfig, token: string, id: Uuid, env: Env)
    requires Fit(s.w, s.jwt, token, id) && Tidy(s.jar) && s.w.faults == [] && g.refreshMaxAge > 0
    requires IsUuid(env.id) && env.id !in s.w.kv.tokens && env.signs && Portable(env.access) && Portable(env.refresh)
    ensures var (t, a) := Visited(s, g, Some(token), env);
      a == Some(Success) && Usable(t, g, env.refresh, env.id) && t.jwt.refreshTtl == s.jwt.refreshTtl
  {
    FitSucceeds(s.w, s.jwt, token, id, env);
    AnswerIsUsable(s, g, token, env, Attempt(s.w, s.jwt, token, env).0);
  }

  lemma TurnSucceeds(s: Session, g: CookieConfig, turn: Turn, token: string, id: Uuid)
    requires Usable(s, g, token, id) && Fair(s, g, turn) && g.refreshMaxAge == s.jwt.refreshTtl
    ensures var (t, a) := Turned(s, g, turn);
      a == Some(Success) && Usable(t, g, turn.env.refresh, turn.env.id) && t.jwt.refreshTtl == s.jwt.refreshTtl
  {
    SendsTheToken(s, g, turn, token, id);
    VisitSucceeds(Waited(s, turn.wait), g, token, id, turn.env);
  }

  ghost predicate AllFair(s: Session, g: CookieConfig, turns: seq<Turn>)
    decreases |turns|
  {
    turns == [] || (Fair(s, g, turns[0]) && AllFair(Turned(s, g, turns[0]).0, g, turns[1..]))
  }

  ghost predicate AllSucceed(s: Session, g: CookieConfig, turns: seq<Turn>)
    requires AllFair(s, g, turns)
    decreases |turns|
  {
    turns == [] ||
    (var (t, a) := Turned(s, g, turns[0]); a == Some(Success) && AllSucceed(t, g, turns[1..]))
  }

  // A client that is left alone and comes back in time stays logged in for as many turns as it likes.
  lemma {:induction false} ChainHolds(s: Session, g: CookieConfig, turns: seq<Turn>, token: string, id: Uuid)
    requires Usable(s, g, token, id) && AllFair(s, g, turns) && g.refreshMaxAge == s.jwt.refreshTtl
    ensures AllSucceed(s, g, turns)
    decreases |turns|
  {
    if turns != [] {
      TurnSucceeds(s, g, turns[0], token, id);
      ChainHolds(Turned(s, g, turns[0]).0, g, turns[1..], turns[0].env.refresh, turns[0].env.id);
    }
  }

  lemma LoginFits(w: World, jwt: JwtService, email: string, family: Uuid, env: Env)
    requires IsUuid(env.id) && family !in w.kv.revoked && w.faults == []
    ensures var w1 := Stored(w, Protocol.FreshRow(env.id, email, family, w.now)).0;
      Fit(w1, SignedPair(jwt, env, email, w.now), env.refresh, env.id) && w1.now == w.now
  {
  }

  // Which a login starts.
  lemma LoginStartsAChain(w: World, jwt: JwtService, g: CookieConfig, jar: Jar, email: string, family: Uuid, env: Env)
    requires IsUuid(env.id) && family !in w.kv.revoked && w.faults == [] && Tidy(jar)
    requires Portable(env.access) && Portable(env.refresh) && g.refreshMaxAge > 0
    ensures var w1 := Stored(w, Protocol.FreshRow(env.id, email, family, w.now)).0;
      var s := Session(w1, SignedPair(jwt, env, email, w.now), KeepAll(jar, TokenCookies(g, env), w.now));
      Usable(s, g, env.refresh, env.id)
  {
    LoginFits(w, jwt, email, family, env);
    JarTakesTheToken(jar, g, env, w.now);
  }
}
