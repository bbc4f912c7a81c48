/**
 * The application/x-www-form-urlencoded serializer behind `URLSearchParams.toString()` (WHATWG URL
 * Standard, section 5.2): names and values are UTF-8 encoded, octets of the set * - . 0-9 A-Z _ a-z
 * are kept, a space becomes '+', every other octet becomes '%' and two upper-case hex digits;
 * pairs are written name=value and joined with '&'.  The parser (section 5.1) is the partner:
 * split on '&', drop empty pieces, split at the first '=', turn '+' into a space and percent-decode.
 */
module FormUrlEncoded {
  import opened Common
  import opened Strings
  import Utf8

  predicate KeptOctet(b: byte) {
    b == 0x2A || b == 0x2D || b == 0x2E || (0x30 <= b <= 0x39) || (0x41 <= b <= 0x5A) || b == 0x5F || (0x61 <= b <= 0x7A)
  }

  function HexDigit(n: nat): char
    requires n < 16
  {
    if n < 10 then ('0' as int + n) as char else ('A' as int + (n - 10)) as char
  }

  function HexValue(c: char): Option<nat> {
    if '0' <= c <= '9' then Some(c as int - '0' as int)
    else if 'A' <= c <= 'F' then Some(c as int - 'A' as int + 10)
    else if 'a' <= c <= 'f' then Some(c as int - 'a' as int + 10)
    else None
  }

  function EncodeOctet(b: byte): string {
    if b == 0x20 then "+"
    else if KeptOctet(b) then [b as int as char]
    else ['%', HexDigit(b as int / 16), HexDigit(b as int % 16)]
  }

  function EncodeOctets(bs: seq<byte>): string {
    if bs == [] then "" else EncodeOctet(bs[0]) + EncodeOctets(bs[1..])
  }

  /** One name or value as the serializer writes it. */
  function EncodeComponent(s: string): string {
    EncodeOctets(Utf8.Encode(s))
  }

  function PairText(p: (string, string)): string {
    EncodeComponent(p.0) + "=" + EncodeComponent(p.1)
  }

  function PairTexts(ps: seq<(string, string)>): (r: seq<string>)
    ensures |r| == |ps| && forall i :: 0 <= i < |ps| ==> r[i] == PairText(ps[i])
  {
    if ps == [] then [] else [PairText(ps[0])] + PairTexts(ps[1..])
  }

  /** `new URLSearchParams(pairs).toString()`: the pairs in order. */
  function Serialize(ps: seq<(string, string)>): string {
    Join(PairTexts(ps), '&')
  }

  /** The names and values as UTF-8 octets: what a parser of `Serialize(ps)` must recover. */
  function EncodedPairs(ps: seq<(string, string)>): (r: seq<(seq<byte>, seq<byte>)>)
    ensures |r| == |ps| && forall i :: 0 <= i < |ps| ==> r[i] == (Utf8.Encode(ps[i].0), Utf8.Encode(ps[i].1))
  {
    if ps == [] then [] else [(Utf8.Encode(ps[0].0), Utf8.Encode(ps[0].1))] + EncodedPairs(ps[1..])
  }

  /** Percent-decoding with '+' read as a space; a '%' not followed by two hex digits is kept as it is. */
  function PercentDecode(s: string): seq<byte>
    decreases |s|
  {
    if s == [] then []
    else if s[0] == '+' then [0x20 as byte] + PercentDecode(s[1..])
    else if s[0] == '%' && |s| >= 3 && HexValue(s[1]).Some? && HexValue(s[2]).Some? then
      [(HexValue(s[1]).value * 16 + HexValue(s[2]).value) as byte] + PercentDecode(s[3..])
    else Utf8.EncodeChar(s[0]) + PercentDecode(s[1..])
  }

  /** One '&'-separated piece: the name before the first '=', the value after it (empty when there is none). */
  function ParsePiece(piece: string): (seq<byte>, seq<byte>) {
    match FirstIndex(piece, '=')
    case None => (PercentDecode(piece), [])
    case Some(i) => (PercentDecode(piece[..i]), PercentDecode(piece[i + 1..]))
  }

  function ParsePieces(pieces: seq<string>): seq<(seq<byte>, seq<byte>)> {
    if pieces == [] then []
    else if pieces[0] == "" then ParsePieces(pieces[1..])
    else [ParsePiece(pieces[0])] + ParsePieces(pieces[1..])
  }

  /** The parser's name/value octet pairs, before their UTF-8 decoding. */
  function Parse(q: string): seq<(seq<byte>, seq<byte>)> {
    ParsePieces(Split(q, '&'))
  }

  lemma HexRoundTrip(n: nat)
    requires n < 16
    ensures HexValue(HexDigit(n)) == Some(n)
  {
  }

  /** No serialized component contains a separator, so pieces and pairs split back where they were joined. */
  lemma {:induction false} EncodeOctetsNoSeparators(bs: seq<byte>)
    ensures '&' !in EncodeOctets(bs) && '=' !in EncodeOctets(bs)
    decreases |bs|
  {
    if bs != [] {
      EncodeOctetsNoSeparators(bs[1..]);
      var b := bs[0] as int;
      if b != 0x20 && !KeptOctet(bs[0]) {
        assert '&' != HexDigit(b / 16) && '&' != HexDigit(b % 16);
      }
    }
  }

  lemma DecodeOctet(b: byte, rest: string)
    ensures PercentDecode(EncodeOctet(b) + rest) == [b] + PercentDecode(rest)
  {
    var s := EncodeOctet(b) + rest;
    if b == 0x20 {
      assert s[1..] == rest;
    } else if KeptOctet(b) {
      assert s[0] == b as int as char && s[1..] == rest;
    } else {
      HexRoundTrip(b as int / 16);
      HexRoundTrip(b as int % 16);
      assert s[3..] == rest;
    }
  }

  /** Percent-decoding undoes the serializer's escaping: the octets come back unchanged. */
  lemma {:induction false} DecodeEncodeOctets(bs: seq<byte>)
    ensures PercentDecode(EncodeOctets(bs)) == bs
    decreases |bs|
  {
    if bs != [] {
      DecodeOctet(bs[0], EncodeOctets(bs[1..]));
      DecodeEncodeOctets(bs[1..]);
    }
  }

  lemma ParsePairText(p: (string, string))
    ensures PairText(p) != ""
    ensures ParsePiece(PairText(p)) == (Utf8.Encode(p.0), Utf8.Encode(p.1))
    ensures '&' !in PairText(p)
  {
    var n, v := EncodeComponent(p.0), EncodeComponent(p.1);
    EncodeOctetsNoSeparators(Utf8.Encode(p.0));
    EncodeOctetsNoSeparators(Utf8.Encode(p.1));
    FirstIndexAfter(n, '=', v);
    assert PairText(p) == n + ['='] + v;
    assert (n + ['='] + v)[..|n|] == n;
    assert (n + ['='] + v)[|n| + 1..] == v;
    DecodeEncodeOctets(Utf8.Encode(p.0));
    DecodeEncodeOctets(Utf8.Encode(p.1));
  }

  lemma {:induction false} ParsePiecesPairs(ps: seq<(string, string)>)
    ensures ParsePieces(PairTexts(ps)) == EncodedPairs(ps)
    decreases |ps|
  {
    if ps != [] {
      ParsePairText(ps[0]);
      ParsePiecesPairs(ps[1..]);
    }
  }

  /**
   * Parsing a serialized list gives back every name and value, in order, as the UTF-8 octets
   * of the original strings.
   */
  lemma ParseSerialize(ps: seq<(string, string)>)
    ensures Parse(Serialize(ps)) == EncodedPairs(ps)
  {
    var pieces := PairTexts(ps);
    forall i | 0 <= i < |ps| ensures '&' !in pieces[i] {
      ParsePairText(ps[i]);
    }
    if ps == [] {
      assert Split("", '&') == [""];
    } else {
      SplitJoin(pieces, '&');
    }
    ParsePiecesPairs(ps);
  }
}
