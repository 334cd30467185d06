/**
 Message IDs and receipts: the hexadecimal text of the engine's counter.

 An ID is the counter in lower-case hexadecimal, zero-padded to 16 digits; a
 receipt is 'r' followed by the same form.  The counter is unbounded here;
 `SixteenDigits` shows where that agrees with a 64-bit counter.
 */
module Ids {
  import opened Wrappers

  type digit = d: int | 0 <= d < 16

  function DigitChar(d: digit): char {
    if d < 10 then '0' + (d as char) else 'a' + ((d - 10) as char)
  }

  function DigitValue(c: char): Option<digit> {
    if '0' <= c <= '9' then Some((c - '0') as int)
    else if 'a' <= c <= 'f' then Some((c - 'a') as int + 10)
    else if 'A' <= c <= 'F' then Some((c - 'A') as int + 10)
    else None
  }

  function Hex(n: nat): string {
    if n < 16 then [DigitChar(n)] else Hex(n / 16) + [DigitChar(n % 16)]
  }

  function Zeros(k: nat): string {
    seq(k, _ => '0')
  }

  /** The "%016x" form of n. */
  function FormatId(n: nat): string {
    var h := Hex(n);
    if |h| < 16 then Zeros(16 - |h|) + h else h
  }

  function FormatReceipt(n: nat): string {
    "r" + FormatId(n)
  }

  /** Reads hexadecimal digits of either case; None if there is any other character. */
  function ParseDigits(s: string): Option<nat> {
    if s == "" then Some(0)
    else
      var last := |s| - 1;
      match (ParseDigits(s[..last]), DigitValue(s[last]))
      case (Some(high), Some(low)) => Some(16 * high + low)
      case _ => None
  }

  /** Base-16 ParseUint: as ParseDigits, but the empty string is an error. */
  function ParseHex(s: string): Option<nat> {
    if s == "" then None else ParseDigits(s)
  }

  function TrimR(s: string): string {
    if s != "" && s[0] == 'r' then s[1..] else s
  }

  /** The number inside an ID or receipt, 0 if it is not a number. */
  function NumberOf(s: string): nat {
    match ParseHex(TrimR(s))
    case Some(n) => n
    case None => 0
  }

  /** The FIFO position replay gives to a sent message; a receipt is not an ID and reads as 0. */
  function SeqOf(id: string): nat {
    match ParseHex(id)
    case Some(n) => n
    case None => 0
  }

  /** The counter after an identifier has been seen during replay. */
  function BumpSeq(counter: nat, s: string): (r: nat)
    ensures r >= counter && r >= NumberOf(s)
    ensures r == counter || r == NumberOf(s)
  {
    match ParseHex(TrimR(s))
    case Some(n) => if n > counter then n else counter
    case None => counter
  }

  lemma DigitRoundTrip(d: digit)
    ensures DigitValue(DigitChar(d)) == Some(d) && DigitChar(d) != 'r'
    ensures d == 0 <==> DigitChar(d) == '0'
  {
  }

  lemma {:induction false} HexParses(n: nat)
    ensures Hex(n) != "" && ParseDigits(Hex(n)) == Some(n)
    ensures forall i :: 0 <= i < |Hex(n)| ==> Hex(n)[i] != 'r'
  {
    DigitRoundTrip(n % 16);
    if n < 16 {
      assert Hex(n)[..0] == "";
    } else {
      HexParses(n / 16);
      assert Hex(n)[..|Hex(n)| - 1] == Hex(n / 16);
    }
  }

  lemma {:induction false} LeadingZeros(k: nat, s: string)
    ensures ParseDigits(Zeros(k) + s) == ParseDigits(s)
    decreases |s|, k
  {
    if s != "" {
      LeadingZeros(k, s[..|s| - 1]);
      assert (Zeros(k) + s)[..k + |s| - 1] == Zeros(k) + s[..|s| - 1];
    } else if k > 0 {
      LeadingZeros(k - 1, "");
      assert Zeros(k) + s == Zeros(k);
      assert Zeros(k)[..k - 1] == Zeros(k - 1) + "";
    } else {
      assert Zeros(k) + s == s;
    }
  }

  /** Reading an ID or receipt back gives the counter value it was made from. */
  lemma IdRoundTrip(n: nat)
    ensures FormatId(n) != "" && TrimR(FormatId(n)) == FormatId(n)
    ensures SeqOf(FormatId(n)) == n && NumberOf(FormatId(n)) == n
    ensures NumberOf(FormatReceipt(n)) == n && FormatReceipt(n) != ""
  {
    HexParses(n);
    var h := Hex(n);
    if |h| < 16 {
      LeadingZeros(16 - |h|, h);
      assert FormatId(n)[0] == '0';
    }
    assert FormatId(n)[0] != 'r';
    assert FormatReceipt(n)[1..] == FormatId(n);
  }

  function Pow16(k: nat): (p: nat)
    ensures p > 0
  {
    if k == 0 then 1 else 16 * Pow16(k - 1)
  }

  lemma {:induction false} HexLength(n: nat, k: nat)
    requires k > 0
    ensures |Hex(n)| <= k <==> n < Pow16(k)
    decreases k
  {
    if n >= 16 && k > 1 {
      HexLength(n / 16, k - 1);
    } else if n >= 16 {
      HexParses(n / 16);
      assert Pow16(1) == 16 * Pow16(0);
    } else {
      assert Pow16(k) >= 16 by { PowersGrow(k); }
    }
  }

  lemma {:induction false} PowersGrow(k: nat)
    requires k > 0
    ensures Pow16(k) >= 16
  {
    if k > 1 { PowersGrow(k - 1); }
  }

  lemma TwoTo64()
    ensures Pow16(16) == 0x1_0000_0000_0000_0000
  {
    assert Pow16(4) == 0x1_0000;
    assert Pow16(8) == 0x1_0000_0000;
    assert Pow16(12) == 0x1_0000_0000_0000;
  }

  /** An ID has exactly 16 digits exactly when its number fits the 64-bit counter. */
  lemma SixteenDigits(n: nat)
    ensures |FormatId(n)| == 16 <==> n < 0x1_0000_0000_0000_0000
  {
    HexLength(n, 16);
    TwoTo64();
  }

  const DIGITS := "0123456789abcdef"

  lemma DigitIs(d: digit)
    ensures DigitChar(d) == DIGITS[d]
  {
  }

  lemma Multiple(k: nat, d: nat)
    requires k > 0
    ensures k * d >= d
  {
  }

  lemma DivisionIs(n: nat, d: nat, q: nat, r: nat)
    requires n == q * d + r && r < d
    ensures n / d == q
  {
    var q' := n / d;
    assert (q' - q) * d == r - n % d;
    if q' < q { Multiple(q - q', d); }
    if q' > q { Multiple(q' - q, d); }
  }

  lemma DivideTwice(n: nat, p: nat)
    requires p > 0
    ensures n / 16 / p == n / (16 * p)
  {
    var q, r := n / 16 / p, n / 16 % p;
    assert n / 16 == q * p + r && n == 16 * (n / 16) + n % 16;
    DivisionIs(n, 16 * p, q, 16 * r + n % 16);
  }

  /** Digit i of n from the right. */
  lemma {:induction false} HexDigits(n: nat, i: nat)
    requires i < |Hex(n)|
    ensures Hex(n)[|Hex(n)| - 1 - i] == DIGITS[n / Pow16(i) % 16]
  {
    hide DigitChar, Pow16;
    DigitIs(n % 16);
    PowerNext(n, i);
    if i > 0 { HexDigits(n / 16, i - 1); }
  }

  lemma PowerNext(n: nat, i: nat)
    ensures n / Pow16(i) == if i == 0 then n else n / 16 / Pow16(i - 1)
  {
    if i > 0 { DivideTwice(n, Pow16(i - 1)); }
  }

  lemma NoDigit(n: nat, i: nat)
    requires n < Pow16(i)
    ensures n / Pow16(i) == 0
  {
    DivisionIs(n, Pow16(i), 0, n);
  }

  /** An ID is its number's sixteen or more lower-case hexadecimal digits, most significant first. */
  lemma IdDigits(n: nat, i: nat)
    requires i < |FormatId(n)|
    ensures |FormatId(n)| >= 16
    ensures FormatId(n)[|FormatId(n)| - 1 - i] == DIGITS[n / Pow16(i) % 16]
    ensures FormatReceipt(n)[0] == 'r' && FormatReceipt(n)[1..] == FormatId(n)
  {
    hide Hex, Pow16;
    if i < |Hex(n)| {
      HexDigits(n, i);
    } else {
      HexParses(n);
      HexLength(n, i);
      NoDigit(n, i);
    }
  }

  /** Numbers are read from digits of either case and from nothing else. */
  lemma {:induction false} DigitsRead(s: string)
    ensures ParseDigits(s).Some? <==> forall i :: 0 <= i < |s| ==> s[i] in "0123456789abcdefABCDEF"
  {
    if s != "" {
      DigitsRead(s[..|s| - 1]);
      DigitRead(s[|s| - 1]);
      assert forall i :: 0 <= i < |s| - 1 ==> s[..|s| - 1][i] == s[i];
    }
  }

  lemma DigitRead(c: char)
    ensures DigitValue(c).Some? <==> c in "0123456789abcdefABCDEF"
    ensures DigitValue(c).Some? ==>
      c == "0123456789abcdef"[DigitValue(c).value] || c == "0123456789ABCDEF"[DigitValue(c).value]
  {
  }

  /** The form the engine gives to every ID it issues. */
  predicate IsId(s: string) {
    s == FormatId(SeqOf(s))
  }

  predicate IsReceipt(s: string) {
    s == FormatReceipt(NumberOf(s))
  }

  lemma IssuedForms(n: nat)
    ensures IsId(FormatId(n)) && IsReceipt(FormatReceipt(n))
  {
    IdRoundTrip(n);
  }
}
