/**
 Base64 with padding (section 4 of RFC 4648), the storage form of bodies that
 are not valid UTF-8.  As in Go's standard decoder, carriage returns and line
 feeds in the input are skipped.
 */
module Base64 {
  import opened Wrappers

  type sextet = x: int | 0 <= x < 64

  /** Table 1 of RFC 4648. */
  function Symbol(v: sextet): char {
    if v < 26 then 'A' + (v as char)
    else if v < 52 then 'a' + ((v - 26) as char)
    else if v < 62 then '0' + ((v - 52) as char)
    else if v == 62 then '+'
    else '/'
  }

  predicate IsSymbol(c: char) {
    'A' <= c <= 'Z' || 'a' <= c <= 'z' || '0' <= c <= '9' || c == '+' || c == '/'
  }

  function ValueOf(c: char): sextet
    requires IsSymbol(c)
  {
    if 'A' <= c <= 'Z' then (c - 'A') as int
    else if 'a' <= c <= 'z' then (c - 'a') as int + 26
    else if '0' <= c <= '9' then (c - '0') as int + 52
    else if c == '+' then 62
    else 63
  }

  lemma SymbolRoundTrip(v: sextet)
    ensures IsSymbol(Symbol(v)) && ValueOf(Symbol(v)) == v && Symbol(v) != '='
  {
  }

  function Encode(b: seq<byte>): string {
    if |b| == 0 then ""
    else if |b| == 1 then
      [Symbol(b[0] / 4), Symbol(b[0] % 4 * 16), '=', '=']
    else if |b| == 2 then
      [Symbol(b[0] / 4), Symbol(b[0] % 4 * 16 + b[1] / 16), Symbol(b[1] % 16 * 4), '=']
    else
      [Symbol(b[0] / 4), Symbol(b[0] % 4 * 16 + b[1] / 16),
       Symbol(b[1] % 16 * 4 + b[2] / 64), Symbol(b[2] % 64)] + Encode(b[3..])
  }

  const ALPHABET :=
    "ABCDEFGHIJKLM" + "NOPQRSTUVWXYZ" + "abcdefghijklm" + "nopqrstuvwxyz" + "0123456789" + "+/"

  lemma SymbolIs(v: sextet)
    ensures Symbol(v) == ALPHABET[v]
  {
  }

  /** Three octets, as one number of 24 bits, are written as its four digits of six bits each. */
  lemma {:induction false} EncodedGroup(b: seq<byte>, i: nat, n: nat)
    requires 3 * i + 3 <= |b|
    requires n == (b[3 * i] as int * 256 + b[3 * i + 1]) * 256 + b[3 * i + 2]
    ensures 4 * i + 4 <= |Encode(b)|
    ensures Encode(b)[4 * i..4 * i + 4]
         == [Symbol(n / 262144), Symbol(n / 4096 % 64), Symbol(n / 64 % 64), Symbol(n % 64)]
    decreases i
  {
    hide Symbol;
    if i > 0 {
      EncodedGroup(b[3..], i - 1, n);
      assert Encode(b)[4 * i..4 * i + 4] == Encode(b[3..])[4 * (i - 1)..4 * (i - 1) + 4];
    } else {
      var x, y, z := b[0], b[1], b[2];
      SextetsOf(n, x / 4, x % 4 * 16 + y / 16, y % 16 * 4 + z / 64, z % 64);
    }
  }

  lemma SextetsOf(n: nat, v0: sextet, v1: sextet, v2: sextet, v3: sextet)
    requires n == 262144 * v0 + 4096 * v1 + 64 * v2 + v3
    ensures n / 262144 == v0 && n / 4096 % 64 == v1 && n / 64 % 64 == v2 && n % 64 == v3
  {
    assert n / 64 == 4096 * v0 + 64 * v1 + v2;
    assert n / 4096 == 64 * v0 + v1;
  }

  /** Two octets left over are written as if a zero followed, with '=' for the symbol only that would fill. */
  lemma {:induction false} EndOfTwo(b: seq<byte>)
    requires |b| % 3 == 2
    ensures var full := Encode(b + [0]); |full| >= 4 && Encode(b) == full[..|full| - 1] + "="
    decreases |b|
  {
    hide Symbol;
    if |b| > 2 {
      EndOfTwo(b[3..]);
      assert (b + [0])[3..] == b[3..] + [0];
    } else {
      assert (b + [0])[3..] == [];
    }
  }

  /** One octet left over is written as if two zeros followed, with '=' for the symbols only those would fill. */
  lemma {:induction false} EndOfOne(b: seq<byte>)
    requires |b| % 3 == 1
    ensures var full := Encode(b + [0, 0]); |full| >= 4 && Encode(b) == full[..|full| - 2] + "=="
    decreases |b|
  {
    hide Symbol;
    if |b| > 2 {
      EndOfOne(b[3..]);
      assert (b + [0, 0])[3..] == b[3..] + [0, 0];
    } else {
      assert (b + [0, 0])[3..] == [];
    }
  }

  function SkipLineBreaks(s: string): string {
    if s == "" then ""
    else if s[0] == '\n' || s[0] == '\r' then SkipLineBreaks(s[1..])
    else [s[0]] + SkipLineBreaks(s[1..])
  }

  /** The three octets of a group of four sextets. */
  function Octets(v0: sextet, v1: sextet, v2: sextet, v3: sextet): seq<byte> {
    [v0 * 4 + v1 / 16, v1 % 16 * 16 + v2 / 4, v2 % 4 * 64 + v3]
  }

  predicate AllSymbols(s: string) {
    forall i :: 0 <= i < |s| ==> IsSymbol(s[i])
  }

  /** The octets of four symbols. */
  function Group(s: string): seq<byte>
    requires |s| == 4 && AllSymbols(s)
  {
    Octets(ValueOf(s[0]), ValueOf(s[1]), ValueOf(s[2]), ValueOf(s[3]))
  }

  /** Groups of four symbols; '=' is allowed only as padding of the last group. */
  function DecodeQuads(s: string): Option<seq<byte>> {
    if s == "" then Some([])
    else if |s| < 4 then None
    else if |s| == 4 && s[3] == '=' then DecodePadded(s)
    else if !AllSymbols(s[..4]) then None
    else
      match DecodeQuads(s[4..])
      case None => None
      case Some(tail) => Some(Group(s[..4]) + tail)
  }

  /** A last group that stands for one or two octets. */
  function DecodePadded(s: string): Option<seq<byte>>
    requires |s| == 4
  {
    if s[2] == '=' then
      if AllSymbols(s[..2]) then Some(Octets(ValueOf(s[0]), ValueOf(s[1]), 0, 0)[..1]) else None
    else
      if AllSymbols(s[..3]) then Some(Octets(ValueOf(s[0]), ValueOf(s[1]), ValueOf(s[2]), 0)[..2]) else None
  }

  function Decode(s: string): Option<seq<byte>> {
    DecodeQuads(SkipLineBreaks(s))
  }

  /** Splitting 24 bits into sextets and joining them again. */
  lemma SextetsRejoin(x: byte, y: byte, z: byte)
    ensures x / 4 * 4 + (x % 4 * 16 + y / 16) / 16 == x
    ensures (x % 4 * 16 + y / 16) % 16 * 16 + (y % 16 * 4 + z / 64) / 4 == y
    ensures (y % 16 * 4 + z / 64) % 4 * 64 + z % 64 == z
  {
  }

  /** The symbols of a group decode to its octets. */
  lemma GroupRoundTrip(s: string, v0: sextet, v1: sextet, v2: sextet, v3: sextet)
    requires s == [Symbol(v0), Symbol(v1), Symbol(v2), Symbol(v3)]
    ensures AllSymbols(s) && Group(s) == Octets(v0, v1, v2, v3)
  {
    hide Symbol, IsSymbol, ValueOf, Octets;
    SymbolRoundTrip(v0);
    SymbolRoundTrip(v1);
    SymbolRoundTrip(v2);
    SymbolRoundTrip(v3);
  }

  lemma DecodeFullGroup(s: string, v0: sextet, v1: sextet, v2: sextet, v3: sextet)
    requires |s| >= 4 && s[..4] == [Symbol(v0), Symbol(v1), Symbol(v2), Symbol(v3)]
    requires DecodeQuads(s[4..]).Some?
    ensures DecodeQuads(s) == Some(Octets(v0, v1, v2, v3) + DecodeQuads(s[4..]).value)
  {
    hide Symbol, IsSymbol, ValueOf, Octets, Group, AllSymbols, DecodePadded;
    GroupRoundTrip(s[..4], v0, v1, v2, v3);
    SymbolRoundTrip(v3);
    assert s[3] == s[..4][3];
  }

  lemma DecodeOneOctet(s: string, v0: sextet, v1: sextet)
    requires s == [Symbol(v0), Symbol(v1), '=', '=']
    ensures DecodeQuads(s) == Some(Octets(v0, v1, 0, 0)[..1])
  {
    hide Symbol, IsSymbol, ValueOf, Octets;
    SymbolRoundTrip(v0);
    SymbolRoundTrip(v1);
  }

  lemma DecodeTwoOctets(s: string, v0: sextet, v1: sextet, v2: sextet)
    requires s == [Symbol(v0), Symbol(v1), Symbol(v2), '=']
    ensures DecodeQuads(s) == Some(Octets(v0, v1, v2, 0)[..2])
  {
    hide Symbol, IsSymbol, ValueOf, Octets;
    SymbolRoundTrip(v0);
    SymbolRoundTrip(v1);
    SymbolRoundTrip(v2);
  }

  lemma RoundTripOne(x: byte)
    ensures DecodeQuads(Encode([x])) == Some([x])
  {
    hide Symbol, DecodeQuads;
    SextetsRejoin(x, 0, 0);
    DecodeOneOctet(Encode([x]), x / 4, x % 4 * 16);
    assert Octets(x / 4, x % 4 * 16, 0, 0)[..1] == [x];
  }

  lemma RoundTripTwo(x: byte, y: byte)
    ensures DecodeQuads(Encode([x, y])) == Some([x, y])
  {
    hide Symbol, DecodeQuads;
    SextetsRejoin(x, y, 0);
    DecodeTwoOctets(Encode([x, y]), x / 4, x % 4 * 16 + y / 16, y % 16 * 4);
    assert Octets(x / 4, x % 4 * 16 + y / 16, y % 16 * 4, 0)[..2] == [x, y];
  }

  lemma {:induction false} QuadsRoundTrip(b: seq<byte>)
    ensures DecodeQuads(Encode(b)) == Some(b)
    decreases |b|
  {
    hide Symbol, DecodeQuads, SkipLineBreaks;
    if |b| == 0 {
      EmptyDecodes();
    } else if |b| == 1 {
      assert b == [b[0]];
      RoundTripOne(b[0]);
    } else if |b| == 2 {
      assert b == [b[0], b[1]];
      RoundTripTwo(b[0], b[1]);
    } else {
      var x, y, z := b[0], b[1], b[2];
      SextetsRejoin(x, y, z);
      QuadsRoundTrip(b[3..]);
      assert Encode(b)[4..] == Encode(b[3..]);
      DecodeFullGroup(Encode(b), x / 4, x % 4 * 16 + y / 16, y % 16 * 4 + z / 64, z % 64);
      assert b == [x, y, z] + b[3..];
    }
  }

  lemma EmptyDecodes()
    ensures DecodeQuads("") == Some([])
  {
  }

  /** The encoder's output has no line breaks, so skipping them changes nothing. */
  lemma {:induction false} NothingToSkip(s: string)
    requires forall i :: 0 <= i < |s| ==> IsSymbol(s[i]) || s[i] == '='
    ensures SkipLineBreaks(s) == s
  {
    if s != "" {
      NothingToSkip(s[1..]);
    }
  }

  lemma {:induction false} EncodeAlphabet(b: seq<byte>)
    ensures forall i :: 0 <= i < |Encode(b)| ==> IsSymbol(Encode(b)[i]) || Encode(b)[i] == '='
    ensures |Encode(b)| == (|b| + 2) / 3 * 4
    decreases |b|
  {
    if |b| > 2 {
      EncodeAlphabet(b[3..]);
    }
  }

  lemma RoundTrip(b: seq<byte>)
    ensures Decode(Encode(b)) == Some(b)
    ensures Encode(b) == "" <==> b == []
  {
    QuadsRoundTrip(b);
    EncodeAlphabet(b);
    NothingToSkip(Encode(b));
  }
}
