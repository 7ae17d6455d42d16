/**
 What a refresh attempt answers, cause by cause and in terms of HTTP: statuses, cookies and rows, for
 every store, every text and every fate of its operations.
 */
module HttpAnswers {
  import opened Types
  import opened Kv
  import opened UuidText
  import opened RefreshStore
  import opened Cookie
  import opened Jwt
  import opened Handlers

  // Rows sit under their own ids, and the attempt's new id is unused.
  ghost predicate Ready(w: World, env: Env) {
    env.id !in w.kv.tokens && forall id :: id in w.kv.tokens ==> w.kv.tokens[id].value.id == id
  }

  // Cookies are handed out only for a live refresh token whose row is stored unused in a family that was
  // not found revoked; the row is then used up by a stored, unused successor of the same family.
  lemma SuccessIsEarned(w: World, jwt: JwtService, token: string, env: Env)
    requires Ready(w, env) && Attempt(w, jwt, token, env).1 == Success
    ensures token in jwt.signed && jwt.signed[token].jti.Some?
    ensures var kv := Attempt(w, jwt, token, env).0.kv;
      exists id ::
        && Live(jwt, token, w.now, id) && id in w.kv.tokens && id in kv.tokens && env.id in kv.tokens
        && var row := w.kv.tokens[id].value;
        && row.usedAt.None? && (Fate(Rest(w.faults)).Ack? ==> row.familyId !in w.kv.revoked)
        && kv.tokens[id].value == row.(usedAt := Some(w.now), replacedBy := Some(env.id))
        && kv.tokens[env.id].value
             == RefreshToken(env.id, jwt.signed[token].sub, row.familyId, None, None, w.now)
  {
    var id := ParseUuid(jwt.signed[token].jti.value).value;
    assert Live(jwt, token, w.now, id);
  }

  // Any other text (never signed, an access token, expired, or with an id that is no UUID) gets no cookies
  // and changes nothing, and both paths make the browser forget what it holds.
  lemma StrangerGetsNothing(w: World, jwt: JwtService, g: CookieConfig, token: string, env: Env, jar: Jar, now: nat)
    requires (forall id :: !Live(jwt, token, w.now, id)) && Tidy(jar)
    ensures var (w1, a) := Attempt(w, jwt, token, env);
      && w1 == w
      && ExplicitResponse(a, g, env).status == 401 && SilentResponse(a, g, env).status == 200
      && KeepAll(jar, ExplicitResponse(a, g, env).setCookies, now)
           == jar - {AccessCookieName(g), RefreshCookieName(g)}
      && KeepAll(jar, SilentResponse(a, g, env).setCookies, now)
           == jar - {AccessCookieName(g), RefreshCookieName(g)}
  {
    StrangerIsRefused(w, jwt, token, env);
    ClearForgets(jar, g, now);
  }

  lemma StrangerIsRefused(w: World, jwt: JwtService, token: string, env: Env)
    requires forall id :: !Live(jwt, token, w.now, id)
    ensures Attempt(w, jwt, token, env).0 == w
    ensures Attempt(w, jwt, token, env).1 in {TokenExpired, TokenInvalid}
  {
    if token in jwt.signed && jwt.signed[token].jti.Some? && ParseUuid(jwt.signed[token].jti.value).Some? {
      assert !Live(jwt, token, w.now, ParseUuid(jwt.signed[token].jti.value).value);
    }
  }

  function Refusal(g: CookieConfig): Response {
    Response(401, [BuildClearAccessCookie(g), BuildClearRefreshCookie(g)])
  }

  // The answer once the row is known to be unused and its family not revoked: both writes have to succeed.
  lemma UnusedRowAnswers(w: World, g: CookieConfig, held: Entry<RefreshToken>, email: string, env: Env)
    requires held.value.id in w.kv.tokens && w.kv.tokens[held.value.id] == held && env.id !in w.kv.tokens
    requires held.value.usedAt.None? && env.signs && !(Fate(w.faults).Ack? && held.value.familyId in w.kv.revoked)
    ensures var (w1, a) := AttemptRow(w, held, email, env);
      var answer, faults := ExplicitResponse(a, g, env), Rest(w.faults);
      if !Fate(faults).Ack? || !Fate(Rest(faults)).Ack? then
        answer == Response(500, []) && w1.kv.revoked == w.kv.revoked
      else answer == Response(200, [BuildAccessCookie(env.access, g), BuildRefreshCookie(env.refresh, g)])
  {
  }

  // The answer when it is not so: nothing is stored.
  lemma OtherRowAnswers(w: World, g: CookieConfig, held: Entry<RefreshToken>, email: string, env: Env)
    ensures var (w1, a) := AttemptRow(w, held, email, env);
      var answer, faults := ExplicitResponse(a, g, env), Rest(w.faults);
      if Fate(w.faults).Ack? && held.value.familyId in w.kv.revoked then answer == Refusal(g) && w1.kv == w.kv
      else if !env.signs then answer == Response(500, []) && w1.kv == w.kv
      else held.value.usedAt.Some? ==>
        && answer == Refusal(g) && w1.kv.tokens == w.kv.tokens
        && if Fate(faults).NotApplied? then w1.kv == w.kv else held.value.familyId in w1.kv.revoked
  {
  }

  // The explicit answer to a live token: 500 and no cookies when an operation it needs fails, 401 and
  // the clearing pair when the token is refused, else 200 and the new pair. A failure before the writes,
  // or a refusal without reuse, changes nothing.
  lemma AnswersByCause(w: World, jwt: JwtService, g: CookieConfig, token: string, id: Uuid, env: Env)
    requires Ready(w, env) && Live(jwt, token, w.now, id)
    ensures var (w1, a) := Attempt(w, jwt, token, env);
      var answer := ExplicitResponse(a, g, env);
      if !Fate(w.faults).Ack? then answer == Response(500, []) && w1.kv == w.kv
      else if id !in w.kv.tokens then answer == Refusal(g) && w1.kv == w.kv
      else
        var row, faults := w.kv.tokens[id].value, Rest(w.faults);
        if Fate(faults).Ack? && row.familyId in w.kv.revoked then answer == Refusal(g) && w1.kv == w.kv
        else if !env.signs then answer == Response(500, []) && w1.kv == w.kv
        else if row.usedAt.Some? then
          && answer == Refusal(g) && w1.kv.tokens == w.kv.tokens
          && if Fate(Rest(faults)).NotApplied? then w1.kv == w.kv else row.familyId in w1.kv.revoked
        else if !Fate(Rest(faults)).Ack? || !Fate(Rest(Rest(faults))).Ack? then
          answer == Response(500, []) && w1.kv.revoked == w.kv.revoked
        else answer == Response(200, [BuildAccessCookie(env.access, g), BuildRefreshCookie(env.refresh, g)])
  {
    if Fate(w.faults).Ack? && id in w.kv.tokens {
      var held, w1, email := w.kv.tokens[id], Found(w, id).0, jwt.signed[token].sub;
      OtherRowAnswers(w1, g, held, email, env);
      if held.value.usedAt.None? && env.signs && !(Fate(w1.faults).Ack? && held.value.familyId in w1.kv.revoked) {
        UnusedRowAnswers(w1, g, held, email, env);
      }
    }
  }

  // The silent answer is 200 in any case, with the new pair exactly when the explicit one has it and
  // the clearing pair otherwise.
  lemma SilentAnswers(g: CookieConfig, env: Env, a: Attempted)
    ensures SilentResponse(a, g, env) == Response(200,
      if ExplicitResponse(a, g, env).status == 200
      then [BuildAccessCookie(env.access, g), BuildRefreshCookie(env.refresh, g)]
      else [BuildClearAccessCookie(g), BuildClearRefreshCookie(g)])
  {
  }

  // A non-empty token in the body counts, whatever the jar sends; without one the jar's does.
  lemma BodyWins(order: seq<string>, jar: Jar, now: nat, g: CookieConfig, text: string)
    requires Tidy(jar) && Lists(order, jar, now) && Plain(jar, now)
    ensures var h, r := CookieHeader(order, jar), RefreshCookieName(g);
      var kept := if r in jar && Sendable(jar[r], now) then Some(jar[r].value) else None;
      && ResolveRefreshToken(Some(text), h, g) == (if text != "" then Some(text) else kept)
      && ResolveRefreshToken(None, h, g) == kept
  {
    NamesArePlain(g);
    ExtractReadsTheJar(order, jar, now, RefreshCookieName(g));
  }
}
