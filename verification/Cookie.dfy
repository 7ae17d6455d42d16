/**
 The cookies that carry the tokens, printed and extracted by the service and kept by a browser.
 The jar follows RFC 6265: parsing a Set-Cookie string (section 5.2), Max-Age (5.2.2), storing (5.3)
 and printing the Cookie header (5.4), for the one host and path the service uses.
 */
module Cookie {
  import opened Types
  import opened Text

  // ---- The service ----

  datatype CookieConfig = CookieConfig(secure: bool, refreshMaxAge: nat, accessMaxAge: nat)

  function RefreshCookieName(g: CookieConfig): string {
    if g.secure then "__Host-refresh_token" else "refresh_token"
  }

  function AccessCookieName(g: CookieConfig): string {
    if g.secure then "__Host-access_token" else "access_token"
  }

  // A part, the separator, and what follows. Every attribute starts with its blank.
  function Then(part: string, rest: string): string {
    part + ";" + rest
  }

  function BuildCookie(name: string, value: string, maxAge: nat, secure: bool): string {
    var tail := Then(" SameSite=Strict", Then(" Path=/", " Max-Age=" + Decimal(maxAge)));
    Then(name + "=" + value, Then(" HttpOnly", if secure then Then(" Secure", tail) else tail))
  }

  function BuildAccessCookie(token: string, g: CookieConfig): string {
    BuildCookie(AccessCookieName(g), token, g.accessMaxAge, g.secure)
  }

  function BuildClearAccessCookie(g: CookieConfig): string {
    BuildCookie(AccessCookieName(g), "", 0, g.secure)
  }

  function BuildRefreshCookie(token: string, g: CookieConfig): string {
    BuildCookie(RefreshCookieName(g), token, g.refreshMaxAge, g.secure)
  }

  function BuildClearRefreshCookie(g: CookieConfig): string {
    BuildCookie(RefreshCookieName(g), "", 0, g.secure)
  }

  function StripPrefix(s: string, prefix: string): Option<string> {
    if prefix <= s then Some(s[|prefix|..]) else None
  }

  // The first part that has the prefix once trimmed, without it.
  function FindPrefixed(parts: seq<string>, prefix: string): Option<string> {
    if parts == [] then None
    else
      var v := StripPrefix(Trim(parts[0]), prefix);
      if v.Some? then v else FindPrefixed(parts[1..], prefix)
  }

  // `cookies` are the values of the request's Cookie headers; only the first is looked at.
  function ExtractCookie(cookies: seq<string>, name: string): Option<string> {
    if cookies == [] || !AllVisible(cookies[0]) then None
    else FindPrefixed(Split(cookies[0], ';'), name + "=")
  }

  function ExtractAccessCookie(cookies: seq<string>, g: CookieConfig): Option<string> {
    ExtractCookie(cookies, AccessCookieName(g))
  }

  function ExtractRefreshCookie(cookies: seq<string>, g: CookieConfig): Option<string> {
    ExtractCookie(cookies, RefreshCookieName(g))
  }

  // ---- The browser ----

  datatype SetCookie = SetCookie(name: string, value: string, maxAge: Option<int>)

  function Lower(s: string): string {
    seq(|s|, i requires 0 <= i < |s| => if 'A' <= s[i] <= 'Z' then s[i] + (32 as char) else s[i])
  }

  // Section 5.2.2: ignored unless it is an optional minus sign followed by digits.
  function MaxAgeValue(v: string): Option<int> {
    if v != "" && AllDigits(v) then Some(DecimalValue(v) as int)
    else if |v| > 1 && v[0] == '-' && AllDigits(v[1..]) then Some(-(DecimalValue(v[1..]) as int))
    else None
  }

  // Section 5.2: the name, in lower case, and the value of one attribute.
  function AttributeOf(s: string): (string, string) {
    var i := UpTo(s, '=');
    (Lower(Trim(s[..i])), if i < |s| then Trim(s[i + 1..]) else "")
  }

  // What one attribute says about Max-Age; every other attribute is skipped.
  function MaxAgeOf(attribute: string): Option<int> {
    var (name, value) := AttributeOf(attribute);
    if name == "max-age" then MaxAgeValue(value) else None
  }

  // The last Max-Age attribute counts (section 5.3).
  function LastMaxAge(attributes: seq<string>): Option<int> {
    if attributes == [] then None
    else
      var v := LastMaxAge(attributes[1..]);
      if v.Some? then v else MaxAgeOf(attributes[0])
  }

  // Section 5.2: None when the whole string is ignored.
  function ParseSetCookie(s: string): Option<SetCookie> {
    var parts := Split(s, ';');
    var pair := parts[0];
    var i := UpTo(pair, '=');
    if i == |pair| || Trim(pair[..i]) == "" then None
    else Some(SetCookie(Trim(pair[..i]), Trim(pair[i + 1..]), LastMaxAge(parts[1..])))
  }

  datatype Kept = Kept(value: string, expires: Option<nat>)

  type Jar = map<string, Kept>

  // Section 5.3: replace the cookie of that name, or evict it when it is expired on arrival.
  function Keep(jar: Jar, s: string, now: nat): Jar {
    var parsed := ParseSetCookie(s);
    if parsed.None? then jar
    else
      var c := parsed.value;
      match c.maxAge
      case None => jar[c.name := Kept(c.value, None)]
      case Some(delta) =>
        if delta <= 0 then jar - {c.name} else jar[c.name := Kept(c.value, Some(now + delta))]
  }

  function KeepAll(jar: Jar, headers: seq<string>, now: nat): Jar
    decreases |headers|
  {
    if headers == [] then jar else KeepAll(Keep(jar, headers[0], now), headers[1..], now)
  }

  predicate Sendable(k: Kept, now: nat) {
    k.expires.None? || now < k.expires.value
  }

  // An order in which the browser may list the cookies it sends.
  ghost predicate Lists(order: seq<string>, jar: Jar, now: nat) {
    && (forall i, j :: 0 <= i < j < |order| ==> order[i] != order[j])
    && (forall n :: n in order <==> n in jar && Sendable(jar[n], now))
  }

  function CookiePairs(order: seq<string>, jar: Jar): string
    requires order != [] && forall n :: n in order ==> n in jar
  {
    var pair := order[0] + "=" + jar[order[0]].value;
    if |order| == 1 then pair else pair + "; " + CookiePairs(order[1..], jar)
  }

  // Section 5.4: one Cookie header, or none when there is nothing to send.
  function CookieHeader(order: seq<string>, jar: Jar): seq<string>
    requires forall n :: n in order ==> n in jar
  {
    if order == [] then [] else [CookiePairs(order, jar)]
  }

  // ---- Reading a built cookie ----

  // A value that survives the trip: no separator inside, no blank at either end.
  predicate Portable(v: string) {
    ';' !in v && Trimmed(v)
  }

  predicate PlainName(n: string) {
    n != "" && ';' !in n && '=' !in n && Trimmed(n)
  }

  lemma TrimOfTrimmed(s: string)
    requires Trimmed(s)
    ensures Trim(s) == s && Trim(" " + s) == s
  {
    assert (" " + s)[1..] == s;
  }

  lemma NamesArePlain(g: CookieConfig)
    ensures PlainName(RefreshCookieName(g)) && PlainName(AccessCookieName(g))
      && RefreshCookieName(g) != AccessCookieName(g)
  {
    assert RefreshCookieName(g)[|RefreshCookieName(g)| - 7] == 'h';
    assert AccessCookieName(g)[|AccessCookieName(g)| - 7] == 's';
  }

  // The attributes that `BuildCookie` writes, as the parser splits them.
  function Attributes(maxAge: nat, secure: bool): seq<string> {
    if secure then [" HttpOnly", " Secure", " SameSite=Strict", " Path=/", " Max-Age=" + Decimal(maxAge)]
    else [" HttpOnly", " SameSite=Strict", " Path=/", " Max-Age=" + Decimal(maxAge)]
  }

  lemma SplitThen(part: string, rest: string)
    requires ';' !in part
    ensures Split(Then(part, rest), ';') == [part] + Split(rest, ';')
  {
    SplitFirst(part, ';', rest);
  }

  lemma SplitTail(maxAge: nat)
    ensures Split(Then(" SameSite=Strict", Then(" Path=/", " Max-Age=" + Decimal(maxAge))), ';')
         == [" SameSite=Strict", " Path=/", " Max-Age=" + Decimal(maxAge)]
  {
    SplitNone(" Max-Age=" + Decimal(maxAge), ';');
    SplitThen(" Path=/", " Max-Age=" + Decimal(maxAge));
    SplitThen(" SameSite=Strict", Then(" Path=/", " Max-Age=" + Decimal(maxAge)));
  }

  lemma SplitBuilt(name: string, value: string, maxAge: nat, secure: bool)
    requires PlainName(name) && Portable(value)
    ensures Split(BuildCookie(name, value, maxAge, secure), ';') == [name + "=" + value] + Attributes(maxAge, secure)
  {
    var tail := Then(" SameSite=Strict", Then(" Path=/", " Max-Age=" + Decimal(maxAge)));
    SplitTail(maxAge);
    var rest := if secure then Then(" Secure", tail) else tail;
    if secure { SplitThen(" Secure", tail); }
    SplitThen(" HttpOnly", rest);
    SplitThen(name + "=" + value, Then(" HttpOnly", rest));
  }

  // ---- Parsing it in the browser ----

  lemma FlagAttribute(name: string)
    requires Trimmed(name) && '=' !in name
    ensures AttributeOf(" " + name) == (Lower(name), "")
  {
    TrimOfTrimmed(name);
    var s := " " + name;
    assert UpTo(s, '=') == |s|;
    assert s[..|s|] == s;
  }

  lemma ValueAttribute(name: string, value: string)
    requires Trimmed(name) && '=' !in name && Trimmed(value)
    ensures AttributeOf(" " + name + "=" + value) == (Lower(name), value)
  {
    TrimOfTrimmed(name);
    TrimOfTrimmed(value);
    var s := " " + name + "=" + value;
    UpToFirst(" " + name, '=', value);
    assert s[..|name| + 1] == " " + name && s[|name| + 2..] == value;
  }

  lemma HttpOnlyAttribute()
    ensures AttributeOf(" HttpOnly") == ("httponly", "")
  {
    FlagAttribute("HttpOnly");
    assert " " + "HttpOnly" == " HttpOnly";
    assert Lower("HttpOnly") == "httponly";
  }

  lemma SecureAttribute()
    ensures AttributeOf(" Secure") == ("secure", "")
  {
    FlagAttribute("Secure");
    assert " " + "Secure" == " Secure";
    assert Lower("Secure") == "secure";
  }

  lemma SameSiteAttribute()
    ensures AttributeOf(" SameSite=Strict") == ("samesite", "Strict")
  {
    ValueAttribute("SameSite", "Strict");
    assert " " + "SameSite" + "=" + "Strict" == " SameSite=Strict";
    assert Lower("SameSite") == "samesite";
  }

  lemma PathAttribute()
    ensures AttributeOf(" Path=/") == ("path", "/")
  {
    ValueAttribute("Path", "/");
    assert " " + "Path" + "=" + "/" == " Path=/";
    assert Lower("Path") == "path";
  }

  lemma MaxAgeAttribute(maxAge: nat)
    ensures AttributeOf(" Max-Age=" + Decimal(maxAge)) == ("max-age", Decimal(maxAge))
  {
    ValueAttribute("Max-Age", Decimal(maxAge));
    assert " " + "Max-Age" + "=" + Decimal(maxAge) == " Max-Age=" + Decimal(maxAge);
    assert Lower("Max-Age") == "max-age";
  }

  lemma MaxAgeOfMaxAge(n: nat)
    ensures MaxAgeOf(" Max-Age=" + Decimal(n)) == Some(n as int)
  {
    MaxAgeAttribute(n);
    DecimalRoundTrip(n);
  }

  lemma {:induction false} LastAttributeWins(front: seq<string>, last: string)
    requires MaxAgeOf(last).Some?
    ensures LastMaxAge(front + [last]) == MaxAgeOf(last)
  {
    if front == [] {
      assert [last][1..] == [];
      assert front + [last] == [last];
    } else {
      assert (front + [last])[1..] == front[1..] + [last];
      LastAttributeWins(front[1..], last);
    }
  }

  lemma AttributesSayMaxAge(maxAge: nat, secure: bool)
    ensures LastMaxAge(Attributes(maxAge, secure)) == Some(maxAge as int)
  {
    MaxAgeOfMaxAge(maxAge);
    var all := Attributes(maxAge, secure);
    LastAttributeWins(all[..|all| - 1], " Max-Age=" + Decimal(maxAge));
    assert all == all[..|all| - 1] + [" Max-Age=" + Decimal(maxAge)];
  }

  // What the service prints is what the browser understands.
  lemma ParseOfBuilt(name: string, value: string, maxAge: nat, secure: bool)
    requires PlainName(name) && Portable(value)
    ensures ParseSetCookie(BuildCookie(name, value, maxAge, secure))
         == Some(SetCookie(name, value, Some(maxAge as int)))
  {
    SplitBuilt(name, value, maxAge, secure);
    var pair := name + "=" + value;
    UpToFirst(name, '=', value);
    assert pair[..|name|] == name && pair[|name| + 1..] == value;
    TrimOfTrimmed(name);
    TrimOfTrimmed(value);
    AttributesSayMaxAge(maxAge, secure);
    assert ([pair] + Attributes(maxAge, secure))[1..] == Attributes(maxAge, secure);
  }

  // ---- The attributes ----

  function AttributeSet(parts: seq<string>): set<(string, string)> {
    set p | p in parts :: AttributeOf(p)
  }

  // All attributes of a Set-Cookie string, Max-Age included.
  function AttributesOf(s: string): set<(string, string)> {
    AttributeSet(Split(s, ';')[1..])
  }

  lemma FourAttributes(a: string, b: string, c: string, d: string)
    ensures AttributeSet([a, b, c, d]) == {AttributeOf(a), AttributeOf(b), AttributeOf(c), AttributeOf(d)}
  {
    assert forall p :: p in [a, b, c, d] <==> p in {a, b, c, d};
  }

  lemma FiveAttributes(a: string, b: string, c: string, d: string, e: string)
    ensures AttributeSet([a, b, c, d, e])
         == {AttributeOf(a), AttributeOf(b), AttributeOf(c), AttributeOf(d), AttributeOf(e)}
  {
    assert forall p :: p in [a, b, c, d, e] <==> p in {a, b, c, d, e};
  }

  // Every cookie the service sets is HttpOnly and SameSite=Strict, for the whole host and no other
  // domain, and Secure exactly in a secure deployment.
  lemma BuiltAttributes(name: string, value: string, maxAge: nat, secure: bool)
    requires PlainName(name) && Portable(value)
    ensures AttributesOf(BuildCookie(name, value, maxAge, secure)) ==
      if secure then
        {("httponly", ""), ("secure", ""), ("samesite", "Strict"), ("path", "/"), ("max-age", Decimal(maxAge))}
      else {("httponly", ""), ("samesite", "Strict"), ("path", "/"), ("max-age", Decimal(maxAge))}
  {
    SplitBuilt(name, value, maxAge, secure);
    assert ([name + "=" + value] + Attributes(maxAge, secure))[1..] == Attributes(maxAge, secure);
    AttributesMean(maxAge, secure);
  }

  lemma AttributesMean(maxAge: nat, secure: bool)
    ensures AttributeSet(Attributes(maxAge, secure)) ==
      if secure then
        {("httponly", ""), ("secure", ""), ("samesite", "Strict"), ("path", "/"), ("max-age", Decimal(maxAge))}
      else {("httponly", ""), ("samesite", "Strict"), ("path", "/"), ("max-age", Decimal(maxAge))}
  {
    HttpOnlyAttribute();
    SecureAttribute();
    SameSiteAttribute();
    PathAttribute();
    MaxAgeAttribute(maxAge);
    if secure {
      FiveAttributes(" HttpOnly", " Secure", " SameSite=Strict", " Path=/", " Max-Age=" + Decimal(maxAge));
    } else {
      FourAttributes(" HttpOnly", " SameSite=Strict", " Path=/", " Max-Age=" + Decimal(maxAge));
    }
  }

  // A browser keeps a `__Host-` cookie only if it is Secure, for the path / and without a Domain (RFC
  // 6265bis, section 4.1.3.2).
  ghost predicate AllowsHostPrefix(attributes: set<(string, string)>) {
    ("secure", "") in attributes && ("path", "/") in attributes && forall d :: ("domain", d) !in attributes
  }

  lemma PrefixMarksSecure(g: CookieConfig, name: string)
    requires name in {AccessCookieName(g), RefreshCookieName(g)}
    ensures "__Host-" <= name <==> g.secure
  {
    if g.secure {
      assert name == "__Host-" + name[7..];
    } else {
      assert name[0] != '_';
    }
  }

  lemma SecureAllowsPrefix(age: string)
    ensures AllowsHostPrefix(
      {("httponly", ""), ("secure", ""), ("samesite", "Strict"), ("path", "/"), ("max-age", age)})
  {
    assert "domain"[0] != "secure"[0] && |"domain"| == 6;
    assert |"httponly"| == 8 && |"samesite"| == 8 && |"path"| == 4 && |"max-age"| == 7;
  }

  lemma InsecureForbidsPrefix(age: string)
    ensures !AllowsHostPrefix({("httponly", ""), ("samesite", "Strict"), ("path", "/"), ("max-age", age)})
  {
    assert |"secure"| == 6 && |"httponly"| == 8 && |"samesite"| == 8 && |"path"| == 4 && |"max-age"| == 7;
  }

  // The service's cookies use that prefix exactly where a browser allows it.
  lemma HostPrefixIsAllowed(g: CookieConfig, name: string, value: string, maxAge: nat)
    requires Portable(value) && name in {AccessCookieName(g), RefreshCookieName(g)}
    ensures "__Host-" <= name <==> AllowsHostPrefix(AttributesOf(BuildCookie(name, value, maxAge, g.secure)))
  {
    NamesArePlain(g);
    PrefixMarksSecure(g, name);
    BuiltAttributes(name, value, maxAge, g.secure);
    if g.secure { SecureAllowsPrefix(Decimal(maxAge)); } else { InsecureForbidsPrefix(Decimal(maxAge)); }
  }

  // ---- The jar ----

  // Whatever a server sends, the jar holds only names and values that print and split cleanly.
  ghost predicate Tidy(jar: Jar) {
    forall n :: n in jar ==> PlainName(n) && Portable(jar[n].value)
  }

  lemma KeepTidy(jar: Jar, s: string, now: nat)
    requires Tidy(jar)
    ensures Tidy(Keep(jar, s, now))
  {
    var pair := Split(s, ';')[0];
    PartsLackSeparator(s, ';');
    assert ';' !in pair;
    var i := UpTo(pair, '=');
    TrimTrims(pair[..i]);
    if i < |pair| { TrimTrims(pair[i + 1..]); }
  }

  lemma {:induction false} AnyJarIsTidy(headers: seq<string>, now: nat, jar: Jar)
    requires Tidy(jar)
    ensures Tidy(KeepAll(jar, headers, now))
    decreases |headers|
  {
    if headers != [] {
      KeepTidy(jar, headers[0], now);
      AnyJarIsTidy(headers[1..], now, Keep(jar, headers[0], now));
    }
  }

  // ---- Extracting from the Cookie header ----

  lemma PairPrefix(n: string, v: string, name: string)
    requires PlainName(n) && PlainName(name)
    ensures StripPrefix(n + "=" + v, name + "=") == if n == name then Some(v) else None
  {
    var pair, prefix := n + "=" + v, name + "=";
    UpToFirst(n, '=', v);
    if prefix <= pair {
      assert pair == name + "=" + pair[|prefix|..];
      UpToFirst(name, '=', pair[|prefix|..]);
      assert pair[..|n|] == n && pair[..|name|] == name;
      assert n == name && pair[|prefix|..] == v;
    }
  }

  // The parts of a Cookie header: each but the first follows a blank.
  function PairParts(order: seq<string>, jar: Jar, lead: string): seq<string>
    requires forall n :: n in order ==> n in jar
  {
    if order == [] then [] else [lead + (order[0] + "=" + jar[order[0]].value)] + PairParts(order[1..], jar, " ")
  }

  lemma {:induction false} SplitPairs(order: seq<string>, jar: Jar, lead: string)
    requires order != [] && Tidy(jar) && (forall n :: n in order ==> n in jar) && ';' !in lead
    ensures Split(lead + CookiePairs(order, jar), ';') == PairParts(order, jar, lead)
    decreases |order|
  {
    var pair := order[0] + "=" + jar[order[0]].value;
    if |order| == 1 {
      SplitNone(lead + pair, ';');
    } else {
      var rest := CookiePairs(order[1..], jar);
      assert lead + CookiePairs(order, jar) == (lead + pair) + ";" + (" " + rest);
      SplitFirst(lead + pair, ';', " " + rest);
      SplitPairs(order[1..], jar, " ");
    }
  }

  lemma {:induction false} FindInParts(order: seq<string>, jar: Jar, lead: string, name: string)
    requires Tidy(jar) && (forall n :: n in order ==> n in jar) && (lead == "" || lead == " ") && PlainName(name)
    ensures FindPrefixed(PairParts(order, jar, lead), name + "=") ==
      if name in order then Some(jar[name].value) else None
    decreases |order|
  {
    if order != [] {
      var n, v := order[0], jar[order[0]].value;
      var parts := PairParts(order, jar, lead);
      assert parts[1..] == PairParts(order[1..], jar, " ");
      TrimOfTrimmed(n + "=" + v);
      assert "" + (n + "=" + v) == n + "=" + v;
      PairPrefix(n, v, name);
      FindInParts(order[1..], jar, " ", name);
    }
  }

  // Every cookie that the browser would send is visible text, in name and value.
  ghost predicate Plain(jar: Jar, now: nat) {
    forall n :: n in jar && Sendable(jar[n], now) ==> AllVisible(n) && AllVisible(jar[n].value)
  }

  lemma VisibleParts(a: string, b: string)
    ensures AllVisible(a + b) <==> AllVisible(a) && AllVisible(b)
  {
    assert forall i :: 0 <= i < |a| ==> (a + b)[i] == a[i];
    assert forall i :: 0 <= i < |b| ==> (a + b)[|a| + i] == b[i];
  }

  lemma VisiblePair(n: string, v: string)
    ensures AllVisible(n + "=" + v) <==> AllVisible(n) && AllVisible(v)
  {
    VisibleParts(n, "=");
    VisibleParts(n + "=", v);
  }

  lemma {:induction false} VisiblePairs(order: seq<string>, jar: Jar)
    requires order != [] && forall n :: n in order ==> n in jar
    ensures AllVisible(CookiePairs(order, jar))
        <==> forall n :: n in order ==> AllVisible(n) && AllVisible(jar[n].value)
    decreases |order|
  {
    var n := order[0];
    var pair := n + "=" + jar[n].value;
    VisiblePair(n, jar[n].value);
    if |order| > 1 {
      VisiblePairs(order[1..], jar);
      VisibleParts(pair + "; ", CookiePairs(order[1..], jar));
      VisibleParts(pair, "; ");
      assert forall m :: m in order <==> m == n || m in order[1..];
    } else {
      assert order == [n];
    }
  }

  lemma PlainHeader(order: seq<string>, jar: Jar, now: nat)
    requires Lists(order, jar, now)
    ensures order != [] ==> (AllVisible(CookiePairs(order, jar)) <==> Plain(jar, now))
  {
    if order != [] { VisiblePairs(order, jar); }
  }

  // From the header a browser sends, in any order, the extractor reads exactly what the jar holds, and
  // nothing at all as soon as any cookie of the jar, whatever its name, is not visible text.
  lemma ExtractReadsTheJar(order: seq<string>, jar: Jar, now: nat, name: string)
    requires Tidy(jar) && Lists(order, jar, now) && PlainName(name)
    ensures ExtractCookie(CookieHeader(order, jar), name) ==
      if name in jar && Sendable(jar[name], now) && Plain(jar, now) then Some(jar[name].value) else None
  {
    PlainHeader(order, jar, now);
    if order != [] && Plain(jar, now) {
      SplitPairs(order, jar, "");
      assert "" + CookiePairs(order, jar) == CookiePairs(order, jar);
      FindInParts(order, jar, "", name);
    }
  }

  // Of several Cookie headers the first counts, and of several cookies of one name the first.
  lemma FirstOneCounts(name: string, value: string, rest: string, more: seq<string>)
    requires PlainName(name) && Portable(value)
    ensures ExtractCookie([name + "=" + value + ";" + rest] + more, name)
         == if AllVisible(name + "=" + value + ";" + rest) then Some(value) else None
  {
    var pair := name + "=" + value;
    SplitFirst(pair, ';', rest);
    assert ([pair + ";" + rest] + more)[0] == pair + ";" + rest;
    TrimOfTrimmed(pair);
    PairPrefix(name, value, name);
  }

  // ---- The round trip ----

  lemma KeepTwo(jar: Jar, a: string, b: string, now: nat)
    ensures KeepAll(jar, [a, b], now) == Keep(Keep(jar, a, now), b, now)
  {
    assert [a, b][1..] == [b];
    assert KeepAll(Keep(jar, a, now), [b], now) == KeepAll(Keep(Keep(jar, a, now), b, now), [b][1..], now);
  }

  // The jar after two headers that parse to the given names, values and ages.
  ghost predicate KeptBoth(jar: Jar, j: Jar, a: string, access: string, accessAge: nat, r: string, refresh: string,
                           refreshAge: nat, now: nat) {
    && Tidy(j)
    && (if accessAge == 0 then a !in j else a in j && j[a] == Kept(access, Some(now + accessAge)))
    && (if refreshAge == 0 then r !in j else r in j && j[r] == Kept(refresh, Some(now + refreshAge)))
    && j - {a, r} == jar - {a, r}
  }

  // The jar after one cookie of the given name, value and age.
  function Settled(jar: Jar, n: string, value: string, age: nat, now: nat): Jar {
    if age == 0 then jar - {n} else jar[n := Kept(value, Some(now + age))]
  }

  lemma KeepsOne(jar: Jar, s: string, n: string, value: string, age: nat, now: nat)
    requires ParseSetCookie(s) == Some(SetCookie(n, value, Some(age as int)))
    ensures Keep(jar, s, now) == Settled(jar, n, value, age, now)
  {
  }

  lemma SettledElsewhere(jar: Jar, n: string, value: string, age: nat, now: nat, names: set<string>)
    requires n in names
    ensures Settled(jar, n, value, age, now) - names == jar - names
  {
  }

  lemma KeepsParsed(jar: Jar, sa: string, sr: string, a: string, access: string, accessAge: nat,
                    r: string, refresh: string, refreshAge: nat, now: nat)
    requires Tidy(jar) && a != r
    requires ParseSetCookie(sa) == Some(SetCookie(a, access, Some(accessAge as int)))
    requires ParseSetCookie(sr) == Some(SetCookie(r, refresh, Some(refreshAge as int)))
    ensures KeptBoth(jar, KeepAll(jar, [sa, sr], now), a, access, accessAge, r, refresh, refreshAge, now)
  {
    AnyJarIsTidy([sa, sr], now, jar);
    KeepTwo(jar, sa, sr, now);
    KeepsOne(jar, sa, a, access, accessAge, now);
    var j := Settled(jar, a, access, accessAge, now);
    KeepsOne(j, sr, r, refresh, refreshAge, now);
    SettledElsewhere(jar, a, access, accessAge, now, {a, r});
    SettledElsewhere(j, r, refresh, refreshAge, now, {a, r});
  }

  lemma KeepsBoth(jar: Jar, g: CookieConfig, access: string, accessAge: nat,
                  refresh: string, refreshAge: nat, now: nat)
    requires Portable(access) && Portable(refresh) && Tidy(jar)
    ensures var a, r := AccessCookieName(g), RefreshCookieName(g);
      var headers := [BuildCookie(a, access, accessAge, g.secure), BuildCookie(r, refresh, refreshAge, g.secure)];
      KeptBoth(jar, KeepAll(jar, headers, now), a, access, accessAge, r, refresh, refreshAge, now)
  {
    var a, r := AccessCookieName(g), RefreshCookieName(g);
    NamesArePlain(g);
    ParseOfBuilt(a, access, accessAge, g.secure);
    ParseOfBuilt(r, refresh, refreshAge, g.secure);
    KeepsParsed(jar, BuildCookie(a, access, accessAge, g.secure), BuildCookie(r, refresh, refreshAge, g.secure),
                a, access, accessAge, r, refresh, refreshAge, now);
  }

  // What must be visible text for the service to read any cookie at `later`: the other cookies of
  // the jar, and each token while it is kept.
  ghost predicate Audible(jar: Jar, g: CookieConfig, access: string, refresh: string, now: nat, later: nat) {
    && Plain(jar - {AccessCookieName(g), RefreshCookieName(g)}, later)
    && (later < now + g.accessMaxAge ==> AllVisible(access))
    && (later < now + g.refreshMaxAge ==> AllVisible(refresh))
  }

  lemma NamesAreVisible(g: CookieConfig)
    ensures AllVisible(AccessCookieName(g)) && AllVisible(RefreshCookieName(g))
  {
  }

  lemma PlainElsewhere(jar: Jar, names: set<string>, now: nat)
    ensures Plain(jar, now) <==>
      (&& Plain(jar - names, now)
       && forall n :: n in names && n in jar && Sendable(jar[n], now) ==> AllVisible(n) && AllVisible(jar[n].value))
  {
    var rest := jar - names;
    assert forall n :: n in rest <==> n in jar && n !in names;
    assert forall n :: n in rest ==> rest[n] == jar[n];
  }

  lemma PlainAfterKeeping(jar: Jar, j: Jar, g: CookieConfig, access: string, refresh: string, now: nat, later: nat)
    requires now <= later
    requires KeptBoth(jar, j, AccessCookieName(g), access, g.accessMaxAge,
                      RefreshCookieName(g), refresh, g.refreshMaxAge, now)
    ensures Plain(j, later) <==> Audible(jar, g, access, refresh, now, later)
  {
    NamesAreVisible(g);
    PlainElsewhere(j, {AccessCookieName(g), RefreshCookieName(g)}, later);
  }

  // The tokens come back exactly for as long as their Max-Age runs (a lifetime of zero is never
  // kept), whatever else the jar holds and in whatever order it lists its cookies, provided only
  // that what it sends is visible text; otherwise neither comes back.
  lemma CookieRoundTrip(jar: Jar, g: CookieConfig, access: string, refresh: string, now: nat, later: nat,
                        order: seq<string>)
    requires Tidy(jar) && Portable(access) && Portable(refresh) && now <= later
    requires Lists(order, KeepAll(jar, [BuildAccessCookie(access, g), BuildRefreshCookie(refresh, g)], now), later)
    ensures var j := KeepAll(jar, [BuildAccessCookie(access, g), BuildRefreshCookie(refresh, g)], now);
      var h, plain := CookieHeader(order, j), Audible(jar, g, access, refresh, now, later);
      && ExtractAccessCookie(h, g) == (if plain && later < now + g.accessMaxAge then Some(access) else None)
      && ExtractRefreshCookie(h, g) == (if plain && later < now + g.refreshMaxAge then Some(refresh) else None)
  {
    KeepsBoth(jar, g, access, g.accessMaxAge, refresh, g.refreshMaxAge, now);
    NamesArePlain(g);
    var j := KeepAll(jar, [BuildAccessCookie(access, g), BuildRefreshCookie(refresh, g)], now);
    PlainAfterKeeping(jar, j, g, access, refresh, now, later);
    ExtractReadsTheJar(order, j, later, AccessCookieName(g));
    ExtractReadsTheJar(order, j, later, RefreshCookieName(g));
  }

  // One cookie of somebody else with an accent in its value silences both tokens.
  lemma OneForeignCookieSilences(g: CookieConfig, access: string, refresh: string, now: nat, later: nat,
                                 order: seq<string>)
    requires Portable(access) && Portable(refresh) && now <= later
    requires Lists(order, KeepAll(map["city" := Kept("Orl\U{E9}ans", None)],
                                  [BuildAccessCookie(access, g), BuildRefreshCookie(refresh, g)], now), later)
    ensures var j := KeepAll(map["city" := Kept("Orl\U{E9}ans", None)],
                             [BuildAccessCookie(access, g), BuildRefreshCookie(refresh, g)], now);
      ExtractAccessCookie(CookieHeader(order, j), g) == None && ExtractRefreshCookie(CookieHeader(order, j), g) == None
  {
    var jar: Jar := map["city" := Kept("Orl\U{E9}ans", None)];
    var rest := jar - {AccessCookieName(g), RefreshCookieName(g)};
    CityIsElsewhere(g);
    assert "city" in rest && rest["city"].value[3] == '\U{E9}';
    assert !Plain(rest, later);
    CookieRoundTrip(jar, g, access, refresh, now, later, order);
  }

  lemma CityIsElsewhere(g: CookieConfig)
    ensures "city" !in {AccessCookieName(g), RefreshCookieName(g)}
    ensures Tidy(map["city" := Kept("Orl\U{E9}ans", None)])
  {
    assert |AccessCookieName(g)| > 4 && |RefreshCookieName(g)| > 4;
  }

  // The clearing cookies take the two tokens out of the jar and touch no other cookie.
  lemma ClearForgets(jar: Jar, g: CookieConfig, now: nat)
    requires Tidy(jar)
    ensures KeepAll(jar, [BuildClearAccessCookie(g), BuildClearRefreshCookie(g)], now)
         == jar - {AccessCookieName(g), RefreshCookieName(g)}
    ensures Tidy(jar - {AccessCookieName(g), RefreshCookieName(g)})
  {
    var a, r := AccessCookieName(g), RefreshCookieName(g);
    NamesArePlain(g);
    ParseOfBuilt(a, "", 0, g.secure);
    ParseOfBuilt(r, "", 0, g.secure);
    ForgetsTwo(jar, BuildClearAccessCookie(g), BuildClearRefreshCookie(g), a, r, now);
  }

  lemma ForgetsTwo(jar: Jar, sa: string, sr: string, a: string, r: string, now: nat)
    requires ParseSetCookie(sa) == Some(SetCookie(a, "", Some(0)))
    requires ParseSetCookie(sr) == Some(SetCookie(r, "", Some(0)))
    ensures KeepAll(jar, [sa, sr], now) == jar - {a, r}
  {
    KeepTwo(jar, sa, sr, now);
    assert jar - {a} - {r} == jar - {a, r};
  }

  // After the clearing cookies neither token comes back, and no other cookie is touched.
  lemma ClearRoundTrip(jar: Jar, g: CookieConfig, now: nat, later: nat, order: seq<string>)
    requires Tidy(jar)
    requires Lists(order, KeepAll(jar, [BuildClearAccessCookie(g), BuildClearRefreshCookie(g)], now), later)
    ensures var j := KeepAll(jar, [BuildClearAccessCookie(g), BuildClearRefreshCookie(g)], now);
      && j == jar - {AccessCookieName(g), RefreshCookieName(g)}
      && ExtractAccessCookie(CookieHeader(order, j), g) == None
      && ExtractRefreshCookie(CookieHeader(order, j), g) == None
  {
    ClearForgets(jar, g, now);
    NamesArePlain(g);
    var j := jar - {AccessCookieName(g), RefreshCookieName(g)};
    ExtractReadsTheJar(order, j, later, AccessCookieName(g));
    ExtractReadsTheJar(order, j, later, RefreshCookieName(g));
  }
}
