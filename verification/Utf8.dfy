/**
 UTF-8 validity, which decides how a message body is stored in a log record.

 `Valid` is the octet grammar of section 4 of RFC 3629.  It is tied to an
 independent definition: a byte sequence is valid exactly when it is the
 encoding of some sequence of Unicode scalar values.
 */
module Utf8 {
  import opened Wrappers

  /** A Unicode scalar value: a code point that is not a surrogate. */
  type Scalar = c: int | 0 <= c < 0xD800 || 0xE000 <= c <= 0x10FFFF

  predicate IsTail(x: byte) {
    0x80 <= x <= 0xBF
  }

  /** Length of the well-formed character at the front of b, or 0 if there is none. */
  function RuneLen(b: seq<byte>): (n: nat)
    ensures n <= |b| && n <= 4
  {
    if |b| >= 1 && b[0] <= 0x7F then 1
    else if |b| >= 2 && 0xC2 <= b[0] <= 0xDF && IsTail(b[1]) then 2
    else if |b| >= 3 && TripleLead(b[0], b[1]) && IsTail(b[2]) then 3
    else if |b| >= 4 && QuadLead(b[0], b[1]) && IsTail(b[2]) && IsTail(b[3]) then 4
    else 0
  }

  predicate TripleLead(x: byte, y: byte) {
    || (x == 0xE0 && 0xA0 <= y <= 0xBF)
    || (0xE1 <= x <= 0xEC && IsTail(y))
    || (x == 0xED && 0x80 <= y <= 0x9F)
    || (0xEE <= x <= 0xEF && IsTail(y))
  }

  predicate QuadLead(x: byte, y: byte) {
    || (x == 0xF0 && 0x90 <= y <= 0xBF)
    || (0xF1 <= x <= 0xF3 && IsTail(y))
    || (x == 0xF4 && 0x80 <= y <= 0x8F)
  }

  predicate Valid(b: seq<byte>)
    decreases |b|
  {
    b == [] || (RuneLen(b) > 0 && Valid(b[RuneLen(b)..]))
  }

  /** The octets of one scalar value (section 3 of RFC 3629). */
  function Encode(c: Scalar): seq<byte> {
    if c <= 0x7F then [c]
    else if c <= 0x7FF then [0xC0 + c / 64, 0x80 + c % 64]
    else if c <= 0xFFFF then [0xE0 + c / 4096, 0x80 + c / 64 % 64, 0x80 + c % 64]
    else [0xF0 + c / 262144, 0x80 + c / 4096 % 64, 0x80 + c / 64 % 64, 0x80 + c % 64]
  }

  function EncodeAll(cs: seq<Scalar>): seq<byte> {
    if cs == [] then [] else Encode(cs[0]) + EncodeAll(cs[1..])
  }

  /** The scalar value whose encoding starts b. */
  function Decode(b: seq<byte>): Scalar
    requires RuneLen(b) > 0
  {
    match RuneLen(b)
    case 1 => b[0]
    case 2 => Join(b[0] as int - 0xC0, b[1])
    case 3 => Join(Join(b[0] as int - 0xE0, b[1]), b[2])
    case _ => Join(Join(Join(b[0] as int - 0xF0, b[1]), b[2]), b[3])
  }

  /** Appends the six payload bits of a tail octet to the bits read so far. */
  function Join(bits: int, tail: byte): int {
    64 * bits + (tail as int - 0x80)
  }

  lemma SplitJoined(bits: nat, tail: byte)
    requires IsTail(tail)
    ensures Join(bits, tail) / 64 == bits && 0x80 + Join(bits, tail) % 64 == tail
  {
  }

  lemma DivTwice(c: nat)
    ensures c / 64 / 64 == c / 4096 && c / 4096 / 64 == c / 262144
  {
  }

  lemma EncodeDecodeTwo(b: seq<byte>)
    requires RuneLen(b) == 2
    ensures Encode(Decode(b)) == [b[0], b[1]]
  {
    SplitJoined(b[0] as int - 0xC0, b[1]);
  }

  lemma EncodeDecodeThree(b: seq<byte>)
    requires RuneLen(b) == 3
    ensures Encode(Decode(b)) == [b[0], b[1], b[2]]
  {
    DivTwice(Decode(b));
    SplitJoined(b[0] as int - 0xE0, b[1]);
    SplitJoined(Join(b[0] as int - 0xE0, b[1]), b[2]);
  }

  /** The octets of a scalar value beyond 0xFFFF, each given by its payload bits. */
  lemma EncodeFour(c: Scalar, o0: byte, o1: byte, o2: byte, o3: byte)
    requires c > 0xFFFF
    requires 0xF0 + c / 262144 == o0 && 0x80 + c / 4096 % 64 == o1
    requires 0x80 + c / 64 % 64 == o2 && 0x80 + c % 64 == o3
    ensures Encode(c) == [o0, o1, o2, o3]
  {
  }

  /** Three tail octets appended to the bits of a lead octet. */
  lemma JoinThree(bits: nat, t1: byte, t2: byte, t3: byte)
    requires IsTail(t1) && IsTail(t2) && IsTail(t3)
    ensures var c := Join(Join(Join(bits, t1), t2), t3);
      && c / 262144 == bits && 0x80 + c / 4096 % 64 == t1
      && 0x80 + c / 64 % 64 == t2 && 0x80 + c % 64 == t3
  {
    hide Join, IsTail;
    JoinIsNat(bits, t1);
    JoinIsNat(Join(bits, t1), t2);
    JoinIsNat(Join(Join(bits, t1), t2), t3);
    SplitJoined(bits, t1);
    SplitJoined(Join(bits, t1), t2);
    SplitJoined(Join(Join(bits, t1), t2), t3);
    DivTwice(Join(Join(Join(bits, t1), t2), t3));
  }

  lemma JoinIsNat(bits: nat, tail: byte)
    requires IsTail(tail)
    ensures Join(bits, tail) >= 0
  {
  }

  lemma QuadRange(x: byte, y: byte)
    requires QuadLead(x, y)
    ensures IsTail(y) && x >= 0xF0 && Join(x - 0xF0, y) >= 0x10
  {
  }

  lemma EncodeDecodeFour(b: seq<byte>)
    requires RuneLen(b) == 4
    ensures Encode(Decode(b)) == [b[0], b[1], b[2], b[3]]
  {
    hide Encode, QuadLead;
    var c := Decode(b);
    QuadRange(b[0], b[1]);
    JoinThree(b[0] - 0xF0, b[1], b[2], b[3]);
    EncodeFour(c, b[0], b[1], b[2], b[3]);
  }

  lemma EncodeDecode(b: seq<byte>)
    requires RuneLen(b) > 0
    ensures Encode(Decode(b)) == b[..RuneLen(b)]
  {
    hide Encode, Decode, IsTail, TripleLead, QuadLead;
    match RuneLen(b)
    case 1 => EncodeDecodeOne(b);
    case 2 => EncodeDecodeTwo(b);
    case 3 => EncodeDecodeThree(b);
    case _ => EncodeDecodeFour(b);
  }

  lemma EncodeDecodeOne(b: seq<byte>)
    requires RuneLen(b) == 1
    ensures Encode(Decode(b)) == [b[0]]
  {
  }

  lemma EncodedRuneLen(c: Scalar, rest: seq<byte>)
    ensures RuneLen(Encode(c) + rest) == |Encode(c)|
  {
    var b := Encode(c) + rest;
    assert b[0] == Encode(c)[0];
    if c > 0x7F { assert b[1] == Encode(c)[1]; }
    if c > 0x7FF { assert b[2] == Encode(c)[2]; }
    if c > 0xFFFF { assert b[3] == Encode(c)[3]; }
  }

  lemma {:induction false} EncodedIsValid(cs: seq<Scalar>)
    ensures Valid(EncodeAll(cs))
  {
    if cs != [] {
      EncodedIsValid(cs[1..]);
      EncodedRuneLen(cs[0], EncodeAll(cs[1..]));
      var b := EncodeAll(cs);
      assert b[RuneLen(b)..] == EncodeAll(cs[1..]);
    }
  }

  lemma {:induction false} ValidIsEncoded(b: seq<byte>) returns (cs: seq<Scalar>)
    requires Valid(b)
    ensures EncodeAll(cs) == b
    decreases |b|
  {
    if b == [] {
      cs := [];
    } else {
      var n := RuneLen(b);
      var tail := ValidIsEncoded(b[n..]);
      EncodeDecode(b);
      cs := [Decode(b)] + tail;
      assert cs[1..] == tail;
      assert b == b[..n] + b[n..];
    }
  }

  /** The examples of section 7 of RFC 3629. */
  lemma ValidExamples()
    ensures Valid([0x41, 0xE2, 0x89, 0xA2, 0xCE, 0x91, 0x2E]) && Valid([0xF0, 0xA3, 0x8E, 0xB4])
  {
  }

  /** Overlong forms, surrogates, code points past the last, and characters cut short. */
  lemma InvalidExamples()
    ensures !Valid([0xC0, 0x80]) && !Valid([0xE0, 0x9F, 0xBF]) && !Valid([0xF0, 0x8F, 0xBF, 0xBF])
    ensures !Valid([0xED, 0xA0, 0x80]) && !Valid([0xF4, 0x90, 0x80, 0x80]) && !Valid([0xE2, 0x82]) && !Valid([0x80])
  {
  }

  /** The octet grammar accepts exactly the encodings of scalar sequences. */
  lemma ValidIffEncoding(b: seq<byte>)
    ensures Valid(b) <==> exists cs: seq<Scalar> :: EncodeAll(cs) == b
  {
    if Valid(b) {
      var cs := ValidIsEncoded(b);
    }
    forall cs: seq<Scalar> | EncodeAll(cs) == b
      ensures Valid(b)
    {
      EncodedIsValid(cs);
    }
  }
}
