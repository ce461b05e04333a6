/**
 * The application/x-www-form-urlencoded serializer behind `URLSearchParams`'
 * `toString`, which the payment-initiation handler uses to build the query
 * it sends to the gateway; and the matching parser, as the gateway reads it.
 */
module FormEncoding {
  import opened Wrappers
  import opened Text

  /** An upper-case hexadecimal digit. */
  function HexDigit(d: nat): (c: char)
    requires d < 16
    ensures Unreserved(c)
  {
    if d < 10 then ('0' as int + d) as char else ('A' as int + d - 10) as char
  }

  /** Characters the serializer leaves as they are. */
  predicate Unreserved(c: char)
  {
    ('a' <= c <= 'z') || ('A' <= c <= 'Z') || ('0' <= c <= '9')
    || c == '*' || c == '-' || c == '.' || c == '_'
  }

  predicate IsAscii(s: string)
  {
    forall k :: 0 <= k < |s| ==> (s[k] as int) < 128
  }

  /** The UTF-8 bytes of one character. */
  function Utf8(c: char): (bs: seq<nat>)
    ensures 1 <= |bs| <= 4
    ensures forall k :: 0 <= k < |bs| ==> bs[k] < 256
    ensures (c as int) < 128 ==> bs == [c as int]
  {
    var cp := c as int;
    if cp < 0x80 then [cp]
    else if cp < 0x800 then [0xC0 + cp / 64, 0x80 + cp % 64]
    else if cp < 0x10000 then [0xE0 + cp / 4096, 0x80 + (cp / 64) % 64, 0x80 + cp % 64]
    else [0xF0 + cp / 262144, 0x80 + (cp / 4096) % 64, 0x80 + (cp / 64) % 64, 0x80 + cp % 64]
  }

  /** `%XY` for every byte, with upper-case hexadecimal digits. */
  function PercentBytes(bs: seq<nat>): (r: string)
    requires forall k :: 0 <= k < |bs| ==> bs[k] < 256
    ensures forall k :: 0 <= k < |r| ==> r[k] == '%' || Unreserved(r[k])
  {
    if bs == [] then ""
    else ['%', HexDigit(bs[0] / 16), HexDigit(bs[0] % 16)] + PercentBytes(bs[1..])
  }

  function EncodeChar(c: char): (r: string)
    ensures forall k :: 0 <= k < |r| ==> r[k] == '%' || r[k] == '+' || Unreserved(r[k])
  {
    if Unreserved(c) then [c]
    else if c == ' ' then "+"
    else PercentBytes(Utf8(c))
  }

  /** The serializer applied to one name or value. */
  function Encode(s: string): (r: string)
  {
    if s == [] then "" else EncodeChar(s[0]) + Encode(s[1..])
  }

  /** Encoded text holds only unreserved characters, `+` and `%`; so never `&` or `=`. */
  lemma {:induction false} EncodeAlphabet(s: string)
    ensures forall k :: 0 <= k < |Encode(s)| ==>
      var c := Encode(s)[k]; c == '%' || c == '+' || Unreserved(c)
    ensures '&' !in Encode(s) && '=' !in Encode(s)
  {
    if s != [] {
      EncodeAlphabet(s[1..]);
      var e := EncodeChar(s[0]);
      forall k | 0 <= k < |Encode(s)|
        ensures var c := Encode(s)[k]; c == '%' || c == '+' || Unreserved(c)
      {
        if k >= |e| { assert Encode(s)[k] == Encode(s[1..])[k - |e|]; }
      }
    }
  }

  predicate IsHex(c: char)
  {
    ('0' <= c <= '9') || ('A' <= c <= 'F') || ('a' <= c <= 'f')
  }

  function HexValue(c: char): (v: nat)
    requires IsHex(c)
    ensures v < 16
  {
    if '0' <= c <= '9' then c as int - '0' as int
    else if 'A' <= c <= 'F' then c as int - 'A' as int + 10
    else c as int - 'a' as int + 10
  }

  /** The parser's percent-decoding: `+` is a space and `%XY` one byte. */
  function Decode(s: string): string
  {
    if s == [] then ""
    else if s[0] == '+' then " " + Decode(s[1..])
    else if s[0] == '%' && |s| >= 3 && IsHex(s[1]) && IsHex(s[2]) then
      [(16 * HexValue(s[1]) + HexValue(s[2])) as char] + Decode(s[3..])
    else [s[0]] + Decode(s[1..])
  }

  lemma HexDigitValue(d: nat)
    requires d < 16
    ensures IsHex(HexDigit(d)) && HexValue(HexDigit(d)) == d
  {
  }

  lemma DecodeEncodeChar(c: char, t: string)
    requires (c as int) < 128
    ensures Decode(EncodeChar(c) + t) == [c] + Decode(t)
  {
    if Unreserved(c) || c == ' ' {
      assert (EncodeChar(c) + t)[1..] == t;
    } else {
      var b := c as int;
      var hi, lo := HexDigit(b / 16), HexDigit(b % 16);
      HexDigitValue(b / 16);
      HexDigitValue(b % 16);
      assert Utf8(c) == [b];
      assert [b][1..] == [];
      assert PercentBytes([b]) == ['%', hi, lo] + PercentBytes([]);
      assert EncodeChar(c) == ['%', hi, lo];
      var s := ['%', hi, lo] + t;
      assert s[1] == hi && s[2] == lo && s[3..] == t;
      assert (16 * HexValue(hi) + HexValue(lo)) as char == c;
    }
  }

  /** Decoding undoes encoding, for ASCII text. */
  lemma {:induction false} DecodeEncode(s: string)
    requires IsAscii(s)
    ensures Decode(Encode(s)) == s
  {
    if s != [] {
      assert IsAscii(s[1..]);
      DecodeEncode(s[1..]);
      DecodeEncodeChar(s[0], Encode(s[1..]));
      assert [s[0]] + s[1..] == s;
    }
  }

  /** `name=value` */
  function Piece(p: (string, string)): string
  {
    Encode(p.0) + "=" + Encode(p.1)
  }

  function Pieces(pairs: seq<(string, string)>): (r: seq<string>)
    ensures |r| == |pairs|
    ensures forall k :: 0 <= k < |pairs| ==> r[k] == Piece(pairs[k])
  {
    seq(|pairs|, k requires 0 <= k < |pairs| => Piece(pairs[k]))
  }

  /** `new URLSearchParams(pairs).toString()` */
  function Serialize(pairs: seq<(string, string)>): string
  {
    Join(Pieces(pairs), '&')
  }

  /** Splits at the first `c`; without one, the second half is empty. */
  function SplitFirst(s: string, c: char): (string, string)
  {
    if s == [] then ("", "")
    else if s[0] == c then ("", s[1..])
    else
      var rest := SplitFirst(s[1..], c);
      ([s[0]] + rest.0, rest.1)
  }

  lemma {:induction false} SplitFirstAt(a: string, c: char, b: string)
    requires c !in a
    ensures SplitFirst(a + [c] + b, c) == (a, b)
  {
    if a == [] {
      assert a + [c] + b == [c] + b;
      assert ([c] + b)[1..] == b;
    } else {
      SplitFirstAt(a[1..], c, b);
      assert (a + [c] + b)[1..] == a[1..] + [c] + b;
      assert [a[0]] + a[1..] == a;
    }
  }

  function ParsePiece(piece: string): (string, string)
  {
    var nv := SplitFirst(piece, '=');
    (Decode(nv.0), Decode(nv.1))
  }

  /** The name/value list a receiver reads from a query string. */
  function ParseQuery(q: string): seq<(string, string)>
  {
    var ps := Split(q, '&');
    seq(|ps|, k requires 0 <= k < |ps| => ParsePiece(ps[k]))
  }

  /** The query reads back as the very pairs it was built from, when names and values are ASCII. */
  lemma ParseSerialize(pairs: seq<(string, string)>)
    requires |pairs| >= 1
    requires forall k :: 0 <= k < |pairs| ==> IsAscii(pairs[k].0) && IsAscii(pairs[k].1)
    ensures ParseQuery(Serialize(pairs)) == pairs
  {
    var ps := Pieces(pairs);
    forall k | 0 <= k < |ps| ensures '&' !in ps[k] && ParsePiece(ps[k]) == pairs[k] {
      EncodeAlphabet(pairs[k].0);
      EncodeAlphabet(pairs[k].1);
      assert ps[k] == Encode(pairs[k].0) + ['='] + Encode(pairs[k].1);
      SplitFirstAt(Encode(pairs[k].0), '=', Encode(pairs[k].1));
      DecodeEncode(pairs[k].0);
      DecodeEncode(pairs[k].1);
    }
    SplitJoin(ps, '&');
  }

  /** The value of the first pair with the given name, as `URLSearchParams.get` finds it. */
  function Lookup(pairs: seq<(string, string)>, name: string): (r: Option<string>)
    ensures r.Some? <==> exists k :: 0 <= k < |pairs| && pairs[k].0 == name
  {
    if pairs == [] then None
    else if pairs[0].0 == name then Some(pairs[0].1)
    else
      var r := Lookup(pairs[1..], name);
      assert forall k :: 1 <= k < |pairs| ==> pairs[k] == pairs[1..][k - 1];
      r
  }

  /** Lookup finds the first pair with the name. */
  lemma {:induction false} LookupAt(pairs: seq<(string, string)>, name: string, k: nat)
    requires k < |pairs| && pairs[k].0 == name
    requires forall j :: 0 <= j < k ==> pairs[j].0 != name
    ensures Lookup(pairs, name) == Some(pairs[k].1)
    decreases k
  {
    if k > 0 {
      LookupAt(pairs[1..], name, k - 1);
    }
  }

  /** Names that start with different letters differ: enough to find a pair among a few fixed names. */
  lemma LookupByInitial(pairs: seq<(string, string)>, name: string, k: nat)
    requires k < |pairs| && pairs[k].0 == name && name != ""
    requires forall j :: 0 <= j < k ==> pairs[j].0 != "" && pairs[j].0[0] != name[0]
    ensures Lookup(pairs, name) == Some(pairs[k].1)
  {
    LookupAt(pairs, name, k);
  }
}
