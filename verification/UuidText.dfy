/** The text form of a UUID: 32 lower-case hexadecimal digits in groups of 8, 4, 4, 4 and 12. */
module UuidText {
  import opened Types

  function Pow16(w: nat): nat {
    if w == 0 then 1 else 16 * Pow16(w - 1)
  }

  lemma {:induction false} Pow16Grows(w: nat)
    ensures Pow16(w) > w
  {
    if w > 0 { Pow16Grows(w - 1); }
  }

  // A UUID has 128 bits.
  predicate IsUuid(id: Uuid) {
    id < Pow16(32)
  }

  function HexDigit(d: nat): char
    requires d < 16
  {
    if d < 10 then '0' + d as char else 'a' + (d - 10) as char
  }

  function HexDigitValue(c: char): Option<nat> {
    if '0' <= c <= '9' then Some(c as nat - '0' as nat)
    else if 'a' <= c <= 'f' then Some(c as nat - 'a' as nat + 10)
    else None
  }

  // The w lowest hexadecimal digits of n.
  function Hex(n: nat, w: nat): (s: string)
    ensures |s| == w
  {
    if w == 0 then "" else Hex(n / 16, w - 1) + [HexDigit(n % 16)]
  }

  function HexValue(s: string): Option<nat> {
    if s == "" then Some(0)
    else
      var front, d := HexValue(s[..|s| - 1]), HexDigitValue(s[|s| - 1]);
      if front.Some? && d.Some? then Some(16 * front.value + d.value) else None
  }

  lemma {:induction false} HexRoundTrip(n: nat, w: nat)
    requires n < Pow16(w)
    ensures HexValue(Hex(n, w)) == Some(n)
  {
    if w > 0 {
      HexRoundTrip(n / 16, w - 1);
      assert Hex(n, w)[..w - 1] == Hex(n / 16, w - 1);
    }
  }

  function Hyphenated(id: Uuid): string {
    var h := Hex(id, 32);
    h[..8] + "-" + h[8..12] + "-" + h[12..16] + "-" + h[16..20] + "-" + h[20..]
  }

  // Reading the canonical form (`Uuid::parse_str` also takes other spellings, which nothing here prints).
  function ParseUuid(s: string): Option<Uuid> {
    if |s| == 36 && s[8] == '-' && s[13] == '-' && s[18] == '-' && s[23] == '-'
    then HexValue(s[..8] + s[9..13] + s[14..18] + s[19..23] + s[24..])
    else None
  }

  lemma GroupsSplit(a: string, b: string, c: string, d: string, e: string)
    requires |a| == 8 && |b| == |c| == |d| == 4 && |e| == 12
    ensures var s := a + "-" + b + "-" + c + "-" + d + "-" + e;
      && |s| == 36 && s[8] == '-' && s[13] == '-' && s[18] == '-' && s[23] == '-'
      && s[..8] == a && s[9..13] == b && s[14..18] == c && s[19..23] == d && s[24..] == e
  {
  }

  lemma UuidRoundTrip(id: Uuid)
    requires IsUuid(id)
    ensures ParseUuid(Hyphenated(id)) == Some(id)
  {
    var h := Hex(id, 32);
    GroupsSplit(h[..8], h[8..12], h[12..16], h[16..20], h[20..]);
    assert h[..8] + h[8..12] + h[12..16] + h[16..20] + h[20..] == h;
    HexRoundTrip(id, 32);
  }

  lemma {:induction false} HexValueFits(s: string)
    ensures HexValue(s).Some? ==> HexValue(s).value < Pow16(|s|)
  {
    if s != "" { HexValueFits(s[..|s| - 1]); }
  }

  lemma ParsedIsUuid(s: string)
    ensures ParseUuid(s).Some? ==> IsUuid(ParseUuid(s).value)
  {
    if |s| == 36 { HexValueFits(s[..8] + s[9..13] + s[14..18] + s[19..23] + s[24..]); }
  }

  lemma {:induction false} HexIsLowerCase(n: nat, w: nat)
    ensures forall i :: 0 <= i < w ==> '0' <= Hex(n, w)[i] <= '9' || 'a' <= Hex(n, w)[i] <= 'f'
  {
    if w > 0 { HexIsLowerCase(n / 16, w - 1); }
  }

  // The text of an id is a row of lower-case hexadecimal digits with hyphens at the four standard places.
  lemma HyphenatedShape(id: Uuid)
    ensures var s := Hyphenated(id);
      && |s| == 36
      && forall i :: 0 <= i < 36 ==>
           if i in {8, 13, 18, 23} then s[i] == '-' else '0' <= s[i] <= '9' || 'a' <= s[i] <= 'f'
  {
    HexIsLowerCase(id, 32);
  }
}
