/**
 * Percent-encoding as the gateway uses it: `encodeURIComponent` for tokens
 * and path segments, and the `application/x-www-form-urlencoded` serialiser
 * behind `URLSearchParams.toString()` for query strings. Both write each
 * character either as itself or as the `%XX` triplets (upper-case hex) of its
 * UTF-8 bytes (RFC 3629); the form serialiser writes a space as `+`.
 * Decoders are given alongside so that the encodings can be shown reversible.
 */
module Uri {
  import opened Wrappers
  import Strings

  type Byte = b: int | 0 <= b < 256

  /** `Component` is `encodeURIComponent`; `Form` is the URLSearchParams serialiser. */
  datatype Mode = Component | Form

  predicate IsAlnum(c: char) {
    ('0' <= c <= '9') || ('A' <= c <= 'Z') || ('a' <= c <= 'z')
  }

  /** Characters written as themselves. */
  predicate Keeps(mode: Mode, c: char) {
    match mode
    case Component =>
      IsAlnum(c) || c == '-' || c == '_' || c == '.' || c == '!' || c == '~'
      || c == '*' || c == '\'' || c == '(' || c == ')'
    case Form =>
      IsAlnum(c) || c == '*' || c == '-' || c == '.' || c == '_'
  }

  predicate IsUpperHex(c: char) {
    ('0' <= c <= '9') || ('A' <= c <= 'F')
  }

  function HexDigit(d: int): (c: char)
    requires 0 <= d < 16
    ensures IsUpperHex(c)
  {
    if d < 10 then ('0' as int + d) as char else ('A' as int + d - 10) as char
  }

  function HexValue(c: char): (r: Option<int>)
    ensures r.Some? ==> 0 <= r.value < 16
  {
    if '0' <= c <= '9' then Some(c as int - '0' as int)
    else if 'A' <= c <= 'F' then Some(c as int - 'A' as int + 10)
    else if 'a' <= c <= 'f' then Some(c as int - 'a' as int + 10)
    else None
  }

  function HexPair(hi: char, lo: char): Option<Byte> {
    match (HexValue(hi), HexValue(lo))
    case (Some(h), Some(l)) => Some(h * 16 + l)
    case _ => None
  }

  predicate IsContinuation(b: Byte) {
    0x80 <= b < 0xC0
  }

  /** The UTF-8 bytes of one Unicode scalar value. */
  function Utf8(c: char): (bs: seq<Byte>)
    ensures 1 <= |bs| <= 4
  {
    var cp := c as int;
    if cp < 0x80 then [cp]
    else if cp < 0x800 then [0xC0 + cp / 64, 0x80 + cp % 64]
    else if cp < 0x10000 then [0xE0 + cp / 4096, 0x80 + (cp / 64) % 64, 0x80 + cp % 64]
    else [0xF0 + cp / 262144, 0x80 + (cp / 4096) % 64, 0x80 + (cp / 64) % 64, 0x80 + cp % 64]
  }

  /** The number of bytes a UTF-8 sequence starting with `lead` has; 0 for a byte that cannot lead. */
  function Utf8Width(lead: Byte): nat {
    if lead < 0x80 then 1
    else if 0xC0 <= lead < 0xE0 then 2
    else if 0xE0 <= lead < 0xF0 then 3
    else if 0xF0 <= lead < 0xF8 then 4
    else 0
  }

  /** The scalar value a complete, shortest-form UTF-8 sequence stands for. */
  function Utf8Decode(bs: seq<Byte>): Option<char> {
    if |bs| == 1 && bs[0] < 0x80 then
      Some(bs[0] as char)
    else if |bs| == 2 && Utf8Width(bs[0]) == 2 && IsContinuation(bs[1]) then
      var cp := (bs[0] as int - 0xC0) * 64 + (bs[1] as int - 0x80);
      if cp >= 0x80 then Some(cp as char) else None
    else if |bs| == 3 && Utf8Width(bs[0]) == 3 && IsContinuation(bs[1]) && IsContinuation(bs[2]) then
      var cp := (bs[0] as int - 0xE0) * 4096 + (bs[1] as int - 0x80) * 64 + (bs[2] as int - 0x80);
      if cp >= 0x800 && !(0xD800 <= cp < 0xE000) then Some(cp as char) else None
    else if |bs| == 4 && Utf8Width(bs[0]) == 4 && IsContinuation(bs[1]) && IsContinuation(bs[2])
      && IsContinuation(bs[3]) then
      var cp := (bs[0] as int - 0xF0) * 262144 + (bs[1] as int - 0x80) * 4096
        + (bs[2] as int - 0x80) * 64 + (bs[3] as int - 0x80);
      if 0x10000 <= cp <= 0x10FFFF then Some(cp as char) else None
    else None
  }

  function Triplet(b: Byte): string {
    ['%', HexDigit(b / 16), HexDigit(b % 16)]
  }

  /** The `%XX` triplets of a byte string. */
  function Triplets(bs: seq<Byte>): (s: string)
    ensures |s| == 3 * |bs|
  {
    if |bs| == 0 then [] else Triplet(bs[0]) + Triplets(bs[1..])
  }

  function EncodeChar(mode: Mode, c: char): string {
    if Keeps(mode, c) then [c]
    else if mode == Form && c == ' ' then "+"
    else Triplets(Utf8(c))
  }

  /** Percent-encodes `s` character by character. */
  function Encode(mode: Mode, s: string): string {
    if |s| == 0 then [] else EncodeChar(mode, s[0]) + Encode(mode, s[1..])
  }

  /** `encodeURIComponent(s)`. */
  function EncodeComponent(s: string): string {
    Encode(Component, s)
  }

  /** Reads `n` `%XX` triplets from the front of `s`. */
  function ReadTriplets(s: string, n: nat): Option<seq<Byte>>
    requires 3 * n <= |s|
  {
    if n == 0 then Some([])
    else if s[0] != '%' then None
    else match (HexPair(s[1], s[2]), ReadTriplets(s[3..], n - 1))
      case (Some(b), Some(bs)) => Some([b] + bs)
      case _ => None
  }

  function Prepend(c: char, r: Option<string>): Option<string> {
    if r.None? then None else Some([c] + r.value)
  }

  /** The inverse of `Encode(mode, ·)`: `None` for malformed escapes. */
  function Decode(mode: Mode, s: string): Option<string>
    decreases |s|
  {
    if |s| == 0 then Some([])
    else if s[0] == '%' then
      if |s| < 3 then None
      else match HexPair(s[1], s[2])
        case None => None
        case Some(lead) =>
          var n := Utf8Width(lead);
          if n == 0 || |s| < 3 * n then None
          else match ReadTriplets(s, n)
            case None => None
            case Some(bs) =>
              match Utf8Decode(bs)
              case None => None
              case Some(c) => Prepend(c, Decode(mode, s[3 * n..]))
    else if mode == Form && s[0] == '+' then Prepend(' ', Decode(mode, s[1..]))
    else Prepend(s[0], Decode(mode, s[1..]))
  }

  lemma HexPairOfTriplet(b: Byte)
    ensures HexPair(Triplet(b)[1], Triplet(b)[2]) == Some(b)
  {
  }

  lemma {:induction false} ReadTripletsOf(bs: seq<Byte>, rest: string)
    ensures ReadTriplets(Triplets(bs) + rest, |bs|) == Some(bs)
  {
    if |bs| > 0 {
      var s := Triplets(bs) + rest;
      assert s[..3] == Triplet(bs[0]);
      assert s[0] == '%' && s[1] == Triplet(bs[0])[1] && s[2] == Triplet(bs[0])[2];
      assert s[3..] == Triplets(bs[1..]) + rest;
      HexPairOfTriplet(bs[0]);
      assert HexPair(s[1], s[2]) == Some(bs[0]);
      ReadTripletsOf(bs[1..], rest);
      assert ReadTriplets(s[3..], |bs| - 1) == Some(bs[1..]);
      assert [bs[0]] + bs[1..] == bs;
    }
  }

  lemma Div4096(x: int)
    requires 0 <= x
    ensures x / 4096 == (x / 64) / 64
    ensures x == (x / 4096) * 4096 + ((x / 64) % 64) * 64 + x % 64
  {
    var q := x / 64;
    assert x == q * 64 + x % 64;
    assert q == (q / 64) * 64 + q % 64;
  }

  lemma Div262144(x: int)
    requires 0 <= x
    ensures x / 262144 == (x / 4096) / 64
    ensures x == (x / 262144) * 262144 + ((x / 4096) % 64) * 4096 + ((x / 64) % 64) * 64 + x % 64
  {
    Div4096(x);
    var q := x / 4096;
    assert q == (q / 64) * 64 + q % 64;
  }

  /** UTF-8 decoding inverts UTF-8 encoding, and the lead byte announces the length. */
  lemma Utf8RoundTrip(c: char)
    ensures Utf8Width(Utf8(c)[0]) == |Utf8(c)|
    ensures Utf8Decode(Utf8(c)) == Some(c)
  {
    var cp := c as int;
    if cp < 0x80 {
    } else if cp < 0x800 {
    } else if cp < 0x10000 {
      Div4096(cp);
    } else {
      Div262144(cp);
      Div4096(cp);
    }
  }

  lemma DecodeEncodeChar(mode: Mode, c: char, rest: string)
    ensures Decode(mode, EncodeChar(mode, c) + rest) == Prepend(c, Decode(mode, rest))
  {
    var s := EncodeChar(mode, c) + rest;
    if Keeps(mode, c) {
      assert s[1..] == rest;
    } else if mode == Form && c == ' ' {
      assert s[1..] == rest;
    } else {
      var bs := Utf8(c);
      var n := |bs|;
      assert Triplets(bs)[..3] == Triplet(bs[0]);
      assert s[..3] == Triplet(bs[0]);
      HexPairOfTriplet(bs[0]);
      Utf8RoundTrip(c);
      ReadTripletsOf(bs, rest);
      assert s[3 * n..] == rest;
    }
  }

  /** Decoding an encoding gives back the original string. */
  lemma {:induction false} DecodeEncode(mode: Mode, s: string)
    ensures Decode(mode, Encode(mode, s)) == Some(s)
  {
    if |s| > 0 {
      DecodeEncodeChar(mode, s[0], Encode(mode, s[1..]));
      DecodeEncode(mode, s[1..]);
      assert [s[0]] + s[1..] == s;
    }
  }

  /** `encodeURIComponent` is injective: distinct strings never share an encoding. */
  lemma EncodeComponentInjective(s: string, t: string)
    requires EncodeComponent(s) == EncodeComponent(t)
    ensures s == t
  {
    DecodeEncode(Component, s);
    DecodeEncode(Component, t);
  }

  lemma {:induction false} TripletsAvoid(bs: seq<Byte>, d: char)
    requires d != '%' && !IsUpperHex(d)
    ensures d !in Triplets(bs)
  {
    if |bs| > 0 {
      TripletsAvoid(bs[1..], d);
    }
  }

  /** An encoding contains a character only if the encoder may write it: kept, `%`, a hex digit, or `+` for a space. */
  lemma {:induction false} EncodeAvoids(mode: Mode, s: string, d: char)
    requires !Keeps(mode, d) && d != '%' && d != '+' && !IsUpperHex(d)
    ensures d !in Encode(mode, s)
  {
    if |s| > 0 {
      TripletsAvoid(Utf8(s[0]), d);
      EncodeAvoids(mode, s[1..], d);
    }
  }

  /** One `name=value` pair of a query string. */
  function QueryPair(p: (string, string)): string {
    Encode(Form, p.0) + "=" + Encode(Form, p.1)
  }

  /** The `name=value` segments of the pairs, in order. */
  function QueryPairs(pairs: seq<(string, string)>): (segs: seq<string>)
    ensures |segs| == |pairs|
  {
    if |pairs| == 0 then [] else [QueryPair(pairs[0])] + QueryPairs(pairs[1..])
  }

  /** Joins segments with `&` between them. */
  function JoinSegments(segs: seq<string>): string {
    if |segs| == 0 then ""
    else if |segs| == 1 then segs[0]
    else segs[0] + "&" + JoinSegments(segs[1..])
  }

  /** Cuts a query at every `&`; there is always at least one segment. */
  function SplitSegments(q: string): (segs: seq<string>)
    ensures |segs| >= 1
    decreases |q|
  {
    var k := Strings.IndexOf(q, '&');
    if k == -1 then [q] else [q[..k]] + SplitSegments(q[k + 1..])
  }

  /** `new URLSearchParams(pairs).toString()`. */
  function SerializeQuery(pairs: seq<(string, string)>): string {
    JoinSegments(QueryPairs(pairs))
  }

  /** Splits one `name=value` segment at its first `=` and decodes both sides. */
  function ParseSegment(segment: string): Option<(string, string)> {
    var e := Strings.IndexOf(segment, '=');
    var name := if e == -1 then segment else segment[..e];
    var value := if e == -1 then [] else segment[e + 1..];
    match (Decode(Form, name), Decode(Form, value))
    case (Some(n), Some(v)) => Some((n, v))
    case _ => None
  }

  /** Prepends the pair of a non-empty segment to the pairs parsed after it; empty segments are skipped. */
  function ConsSegment(segment: string, rest: Option<seq<(string, string)>>): Option<seq<(string, string)>> {
    if segment == [] then rest
    else match (ParseSegment(segment), rest)
      case (Some(p), Some(ps)) => Some([p] + ps)
      case _ => None
  }

  /** Parses the segments in order; `None` when one of them does not decode. */
  function ParseSegments(segs: seq<string>): Option<seq<(string, string)>> {
    if |segs| == 0 then Some([]) else ConsSegment(segs[0], ParseSegments(segs[1..]))
  }

  /** Parses a query string into its pairs, as `new URLSearchParams(q)` does for well-formed input. */
  function ParseQuery(q: string): Option<seq<(string, string)>> {
    ParseSegments(SplitSegments(q))
  }

  lemma QueryPairParts(p: (string, string))
    ensures '&' !in QueryPair(p)
    ensures QueryPair(p) != []
    ensures ParseSegment(QueryPair(p)) == Some(p)
  {
    var seg := QueryPair(p);
    EncodeAvoids(Form, p.0, '&');
    EncodeAvoids(Form, p.1, '&');
    EncodeAvoids(Form, p.0, '=');
    Strings.IndexOfSplit(Encode(Form, p.0), '=', Encode(Form, p.1));
    DecodeEncode(Form, p.0);
    DecodeEncode(Form, p.1);
    var e := |Encode(Form, p.0)|;
    assert seg[e] == '=';
    assert seg[..e] == Encode(Form, p.0);
    assert seg[e + 1..] == Encode(Form, p.1);
  }

  /** Cutting joined segments at `&` gives them back when none of them contains `&`. */
  lemma {:induction false} SplitJoin(segs: seq<string>)
    requires |segs| >= 1
    requires forall i :: 0 <= i < |segs| ==> '&' !in segs[i]
    ensures SplitSegments(JoinSegments(segs)) == segs
  {
    if |segs| == 1 {
      assert Strings.IndexOf(segs[0], '&') == -1;
    } else {
      var head, tail := segs[0], JoinSegments(segs[1..]);
      var q := head + "&" + tail;
      Strings.IndexOfSplit(head, '&', tail);
      assert q[..|head|] == head;
      assert q[|head| + 1..] == tail;
      SplitJoin(segs[1..]);
      assert [head] + segs[1..] == segs;
    }
  }

  /** The segments of pairs parse back to the pairs. */
  lemma {:induction false} ParseQueryPairs(pairs: seq<(string, string)>)
    ensures ParseSegments(QueryPairs(pairs)) == Some(pairs)
  {
    if |pairs| > 0 {
      QueryPairParts(pairs[0]);
      ParseQueryPairs(pairs[1..]);
      assert QueryPairs(pairs)[1..] == QueryPairs(pairs[1..]);
      assert [pairs[0]] + pairs[1..] == pairs;
    }
  }

  lemma {:induction false} QueryPairsAvoid(pairs: seq<(string, string)>)
    ensures forall i :: 0 <= i < |pairs| ==> '&' !in QueryPairs(pairs)[i]
  {
    if |pairs| > 0 {
      QueryPairParts(pairs[0]);
      QueryPairsAvoid(pairs[1..]);
      forall i | 1 <= i < |pairs|
        ensures '&' !in QueryPairs(pairs)[i]
      {
        assert QueryPairs(pairs)[i] == QueryPairs(pairs[1..])[i - 1];
      }
    }
  }

  /** Parsing a serialised query gives back exactly the pairs, in order. */
  lemma ParseSerializeQuery(pairs: seq<(string, string)>)
    ensures ParseQuery(SerializeQuery(pairs)) == Some(pairs)
  {
    if |pairs| == 0 {
      assert ParseQuery("") == Some([]);
    } else {
      QueryPairsAvoid(pairs);
      SplitJoin(QueryPairs(pairs));
      ParseQueryPairs(pairs);
    }
  }

  /** A query serialises to the empty string exactly when it has no pairs; otherwise it parses back. */
  lemma SerializeQueryEmptyIff(pairs: seq<(string, string)>)
    ensures pairs == [] <==> SerializeQuery(pairs) == ""
    ensures ParseQuery(SerializeQuery(pairs)) == Some(pairs)
  {
    ParseSerializeQuery(pairs);
    if SerializeQuery(pairs) == "" {
      assert ParseQuery("") == Some([]);
    }
  }
}
