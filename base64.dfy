/**
 * Base64 as in RFC 4648: the standard alphabet with '=' padding (section 4), which is what
 * `encodeBase64` of the Deno standard library produces, and the URL- and filename-safe alphabet
 * without padding (section 5), which PKCE requires.
 */
module Base64 {
  import opened Common
  import opened Strings

  /** The character for a 6-bit value: A-Z, a-z, 0-9, then '+' '/' (standard) or '-' '_' (URL-safe). */
  function SextetChar(v: nat, urlSafe: bool): char
    requires v < 64
  {
    if v < 26 then ('A' as int + v) as char
    else if v < 52 then ('a' as int + (v - 26)) as char
    else if v < 62 then ('0' as int + (v - 52)) as char
    else if v == 62 then (if urlSafe then '-' else '+')
    else (if urlSafe then '_' else '/')
  }

  /** The 6-bit value a URL-safe alphabet character stands for. */
  function SextetValue(c: char): Option<nat> {
    if 'A' <= c <= 'Z' then Some(c as int - 'A' as int)
    else if 'a' <= c <= 'z' then Some(c as int - 'a' as int + 26)
    else if '0' <= c <= '9' then Some(c as int - '0' as int + 52)
    else if c == '-' then Some(62)
    else if c == '_' then Some(63)
    else None
  }

  predicate IsUrlSafeChar(c: char) {
    ('A' <= c <= 'Z') || ('a' <= c <= 'z') || ('0' <= c <= '9') || c == '-' || c == '_'
  }

  /** The 6-bit values of a final group of one to three octets (two to four values, zero bits appended). */
  function GroupSextets(g: seq<byte>): (vs: seq<nat>)
    requires 1 <= |g| <= 3
    ensures |vs| == |g| + 1 && forall i :: 0 <= i < |vs| ==> vs[i] < 64
  {
    var x0 := g[0] as int;
    var x1 := if |g| > 1 then g[1] as int else 0;
    var x2 := if |g| > 2 then g[2] as int else 0;
    [x0 / 4, (x0 % 4) * 16 + x1 / 16, (x1 % 16) * 4 + x2 / 64, x2 % 64][..|g| + 1]
  }

  function Chars(vs: seq<nat>, urlSafe: bool): (s: string)
    requires forall i :: 0 <= i < |vs| ==> vs[i] < 64
    ensures |s| == |vs| && forall i :: 0 <= i < |vs| ==> s[i] == SextetChar(vs[i], urlSafe)
  {
    if vs == [] then "" else [SextetChar(vs[0], urlSafe)] + Chars(vs[1..], urlSafe)
  }

  /** Every three octets become four characters; a final one or two octets become two or three, padded with '=' when `pad`. */
  function Encode(b: seq<byte>, urlSafe: bool, pad: bool): string
    decreases |b|
  {
    if |b| == 0 then ""
    else
      var g := if |b| >= 3 then 3 else |b|;
      Chars(GroupSextets(b[..g]), urlSafe) + (if pad then seq(3 - g, _ => '=') else "") + Encode(b[g..], urlSafe, pad)
  }

  /** `encodeBase64`: RFC 4648 section 4, padded. */
  function EncodeStandard(b: seq<byte>): string {
    Encode(b, false, true)
  }

  /** RFC 4648 section 5 without padding ("base64url" of RFC 7636 appendix A). */
  function EncodeUrl(b: seq<byte>): string {
    Encode(b, true, false)
  }

  /** The `.replace(/\+/g, '-').replace(/\//g, '_').replace(/=/g, '')` chain applied to an encoding. */
  function ToUrlSafe(s: string): string {
    RemoveAll(ReplaceAll(ReplaceAll(s, '+', '-'), '/', '_'), '=')
  }

  /** The three octets packed in four 6-bit values. */
  function Octets(v0: nat, v1: nat, v2: nat, v3: nat): seq<byte>
    requires v0 < 64 && v1 < 64 && v2 < 64 && v3 < 64
  {
    [(v0 * 4 + v1 / 16) as byte, ((v1 % 16) * 16 + v2 / 4) as byte, ((v2 % 4) * 64 + v3) as byte]
  }

  /** The octets of a group of two to four URL-safe characters (the inverse of `GroupSextets`). */
  function DecodeGroup(cs: string): Option<seq<byte>>
    requires 2 <= |cs| <= 4
  {
    var v0, v1 := SextetValue(cs[0]), SextetValue(cs[1]);
    var v2 := if |cs| > 2 then SextetValue(cs[2]) else Some(0);
    var v3 := if |cs| > 3 then SextetValue(cs[3]) else Some(0);
    if v0.None? || v1.None? || v2.None? || v3.None? then None
    else if v0.value >= 64 || v1.value >= 64 || v2.value >= 64 || v3.value >= 64 then None
    else Some(Octets(v0.value, v1.value, v2.value, v3.value)[..|cs| - 1])
  }

  /** Decodes an unpadded URL-safe encoding; None for a character outside the alphabet or a dangling single character. */
  function DecodeUrl(s: string): Option<seq<byte>>
    decreases |s|
  {
    if |s| == 0 then Some([])
    else if |s| == 1 then None
    else
      var g := if |s| >= 4 then 4 else |s|;
      var head := DecodeGroup(s[..g]);
      var rest := DecodeUrl(s[g..]);
      if head.None? || rest.None? then None else Some(head.value + rest.value)
  }

  lemma SextetRoundTrip(v: nat)
    requires v < 64
    ensures SextetValue(SextetChar(v, true)) == Some(v)
    ensures IsUrlSafeChar(SextetChar(v, true))
    ensures ToUrlSafe([SextetChar(v, false)]) == [SextetChar(v, true)]
  {
    var c := SextetChar(v, false);
    assert ReplaceAll([c], '+', '-') == [if c == '+' then '-' else c];
    var c1 := if c == '+' then '-' else c;
    assert ReplaceAll([c1], '/', '_') == [if c1 == '/' then '_' else c1];
    var c2 := if c1 == '/' then '_' else c1;
    assert RemoveAll([c2], '=') == [c2] by {
      assert [c2][1..] == [];
    }
  }

  /** Whatever the input, the transform leaves no '+', '/' or '=' behind. */
  lemma ToUrlSafeClean(s: string)
    ensures var r := ToUrlSafe(s);
      '+' !in r && '/' !in r && '=' !in r
  {
    var a := ReplaceAll(s, '+', '-');
    var b := ReplaceAll(a, '/', '_');
    assert '+' !in a by {
      forall i | 0 <= i < |a| ensures a[i] != '+' { }
    }
    assert '+' !in b && '/' !in b by {
      forall i | 0 <= i < |b| ensures b[i] != '+' && b[i] != '/' {
        assert a[i] != '+';
      }
    }
  }

  lemma ToUrlSafeConcat(a: string, b: string)
    ensures ToUrlSafe(a + b) == ToUrlSafe(a) + ToUrlSafe(b)
  {
    ReplaceAllConcat(a, b, '+', '-');
    ReplaceAllConcat(ReplaceAll(a, '+', '-'), ReplaceAll(b, '+', '-'), '/', '_');
    RemoveAllConcat(ReplaceAll(ReplaceAll(a, '+', '-'), '/', '_'), ReplaceAll(ReplaceAll(b, '+', '-'), '/', '_'), '=');
  }

  lemma {:induction false} ToUrlSafeChars(vs: seq<nat>)
    requires forall i :: 0 <= i < |vs| ==> vs[i] < 64
    ensures ToUrlSafe(Chars(vs, false)) == Chars(vs, true)
    decreases |vs|
  {
    if vs != [] {
      ToUrlSafeConcat([SextetChar(vs[0], false)], Chars(vs[1..], false));
      SextetRoundTrip(vs[0]);
      ToUrlSafeChars(vs[1..]);
    }
  }

  lemma PaddingRemoved(n: nat)
    ensures ToUrlSafe(seq(n, _ => '=')) == ""
  {
    if n > 0 {
      assert seq(n, _ => '=') == ['='] + seq(n - 1, _ => '=');
      ToUrlSafeConcat(['='], seq(n - 1, _ => '='));
      PaddingRemoved(n - 1);
    }
  }

  /** Stripping the padding and swapping '+' '/' for '-' '_' turns the standard encoding into the URL-safe one. */
  lemma {:induction false} UrlSafeOfStandard(b: seq<byte>)
    ensures ToUrlSafe(EncodeStandard(b)) == EncodeUrl(b)
    decreases |b|
  {
    if |b| > 0 {
      var g := if |b| >= 3 then 3 else |b|;
      var vs := GroupSextets(b[..g]);
      var padding := seq(3 - g, _ => '=');
      ToUrlSafeConcat(Chars(vs, false) + padding, EncodeStandard(b[g..]));
      ToUrlSafeConcat(Chars(vs, false), padding);
      ToUrlSafeChars(vs);
      PaddingRemoved(3 - g);
      UrlSafeOfStandard(b[g..]);
      assert EncodeUrl(b) == Chars(vs, true) + "" + EncodeUrl(b[g..]);
    }
  }

  /** Padded output has length 4 * ceil(n / 3); unpadded output drops the padding, so 32 octets give 43 characters. */
  lemma {:induction false} EncodedLength(b: seq<byte>)
    ensures |EncodeStandard(b)| == 4 * ((|b| + 2) / 3)
    ensures |EncodeUrl(b)| == 4 * (|b| / 3) + (if |b| % 3 == 0 then 0 else |b| % 3 + 1)
    decreases |b|
  {
    if |b| > 0 {
      var g := if |b| >= 3 then 3 else |b|;
      EncodedLength(b[g..]);
    }
  }

  /** The URL-safe encoding uses only A-Z, a-z, 0-9, '-' and '_'. */
  lemma {:induction false} UrlAlphabetOnly(b: seq<byte>)
    ensures forall i :: 0 <= i < |EncodeUrl(b)| ==> IsUrlSafeChar(EncodeUrl(b)[i])
    decreases |b|
  {
    if |b| > 0 {
      var g := if |b| >= 3 then 3 else |b|;
      var vs := GroupSextets(b[..g]);
      forall i | 0 <= i < |vs| ensures IsUrlSafeChar(Chars(vs, true)[i]) {
        SextetRoundTrip(vs[i]);
      }
      UrlAlphabetOnly(b[g..]);
      assert EncodeUrl(b) == Chars(vs, true) + EncodeUrl(b[g..]);
    }
  }

  /** The sextets of a group read back as its octets. */
  lemma GroupArithmetic(x0: int, x1: int, x2: int)
    requires 0 <= x0 < 256 && 0 <= x1 < 256 && 0 <= x2 < 256
    ensures var v0, v1 := x0 / 4, (x0 % 4) * 16 + x1 / 16;
      var v2, v3 := (x1 % 16) * 4 + x2 / 64, x2 % 64;
      && v0 * 4 + v1 / 16 == x0
      && (v1 % 16) * 16 + v2 / 4 == x1
      && (v2 % 4) * 64 + v3 == x2
  {
    var v1 := (x0 % 4) * 16 + x1 / 16;
    var v2 := (x1 % 16) * 4 + x2 / 64;
    assert v1 / 16 == x0 % 4 && v1 % 16 == x1 / 16;
    assert v2 / 4 == x1 % 16 && v2 % 4 == x2 / 64;
  }

  lemma GroupRoundTrip(g: seq<byte>)
    requires 1 <= |g| <= 3
    ensures DecodeGroup(Chars(GroupSextets(g), true)) == Some(g)
  {
    var vs := GroupSextets(g);
    var cs := Chars(vs, true);
    forall i | 0 <= i < |vs| ensures SextetValue(cs[i]) == Some(vs[i]) {
      SextetRoundTrip(vs[i]);
    }
    var x1 := if |g| > 1 then g[1] as int else 0;
    var x2 := if |g| > 2 then g[2] as int else 0;
    GroupArithmetic(g[0] as int, x1, x2);
    var v2: nat := if |g| > 1 then vs[2] else 0;
    var v3: nat := if |g| > 2 then vs[3] else 0;
    assert v2 == (x1 % 16) * 4 + x2 / 64 || |g| == 1;
    var o := Octets(vs[0], vs[1], v2, v3);
    assert DecodeGroup(cs) == Some(o[..|g|]);
    assert o[0] == g[0];
    assert |g| > 1 ==> o[1] == g[1];
    assert |g| > 2 ==> o[2] == g[2];
    assert forall i :: 0 <= i < |g| ==> o[..|g|][i] == g[i];
    assert o[..|g|] == g;
    assert cs == Chars(GroupSextets(g), true);
  }

  /** Decoding the URL-safe encoding gives back the octets: the encoding loses nothing. */
  lemma {:induction false} DecodeEncodeUrl(b: seq<byte>)
    ensures DecodeUrl(EncodeUrl(b)) == Some(b)
    decreases |b|
  {
    if |b| > 0 {
      var g := if |b| >= 3 then 3 else |b|;
      var vs := GroupSextets(b[..g]);
      var s := EncodeUrl(b);
      assert s == Chars(vs, true) + EncodeUrl(b[g..]);
      assert s[..g + 1] == Chars(vs, true);
      assert s[g + 1..] == EncodeUrl(b[g..]);
      GroupRoundTrip(b[..g]);
      DecodeEncodeUrl(b[g..]);
      if g < 3 {
        EncodedLength(b[g..]);
      }
      assert b == b[..g] + b[g..];
    }
  }
}
