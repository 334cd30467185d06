/**
 The log as bytes: one encoded record per line, and what a reader makes of
 arbitrary bytes.  The JSON encoding of a record is a parameter.
 */
module Framing {
  import opened Wrappers
  import opened Errors
  import opened Record

  const NEWLINE: byte := 10

  /** A record encoding: `encode` is json.Marshal, `decode` is json.Unmarshal. */
  datatype Codec = Codec(encode: Record -> seq<byte>, decode: seq<byte> -> Option<Record>) {
    /** What JSON promises: no raw newline, and the records the engine writes come back unchanged. */
    ghost predicate Faithful() {
      && (forall r :: NEWLINE !in encode(r))
      && (forall r :: Loggable(r) ==> decode(encode(r)) == Some(r))
    }

    function Line(r: Record): seq<byte> {
      encode(r) + [NEWLINE]
    }
  }

  /** A record that can be logged and read back. */
  predicate Loggable(r: Record) {
    r.Validate() && Printable(r)
  }

  predicate AllLoggable(recs: seq<Record>) {
    forall i :: 0 <= i < |recs| ==> Loggable(recs[i])
  }

  function Frame(c: Codec, recs: seq<Record>): seq<byte> {
    if recs == [] then [] else c.Line(recs[0]) + Frame(c, recs[1..])
  }

  /** The records read, the length of the readable part, and whether bytes after it are discarded. */
  datatype Reading = Reading(recs: seq<Record>, validLen: nat, torn: bool)

  function IndexNewline(data: seq<byte>): (r: Option<nat>)
    ensures r.Some? ==> r.value < |data| && data[r.value] == NEWLINE && NEWLINE !in data[..r.value]
    ensures r.None? ==> NEWLINE !in data
  {
    if data == [] then None
    else if data[0] == NEWLINE then Some(0)
    else
      match IndexNewline(data[1..])
      case None => None
      case Some(i) =>
        assert data[..i + 1] == [data[0]] + data[1..][..i];
        Some(i + 1)
  }

  /** What the bytes of a log mean to a reader. */
  function Read(c: Codec, data: seq<byte>): Result<Reading, Error>
    decreases |data|
  {
    if data == [] then Ok(Reading([], 0, false))
    else
      match IndexNewline(data)
      case None => Ok(Reading([], 0, true))
      case Some(i) =>
        var line, rest := data[..i], data[i + 1..];
        match c.decode(line)
        case None => if rest == [] then Ok(Reading([], 0, true)) else Err(CorruptRecord)
        case Some(r) =>
          if !r.Validate() then Err(InvalidRecord) else Prepend(r, i + 1, Read(c, rest))
  }

  function Prepend(r: Record, n: nat, rest: Result<Reading, Error>): Result<Reading, Error> {
    match rest
    case Err(e) => Err(e)
    case Ok(rd) => Ok(Reading([r] + rd.recs, n + rd.validLen, rd.torn))
  }

  /** The bytes are a whole number of good lines holding recs. */
  predicate Clean(c: Codec, data: seq<byte>, recs: seq<Record>) {
    Read(c, data) == Ok(Reading(recs, |data|, false))
  }

  // ---- lines -------------------------------------------------------------

  function Unlines(lines: seq<seq<byte>>): seq<byte> {
    if lines == [] then [] else lines[0] + [NEWLINE] + Unlines(lines[1..])
  }

  /** data is the given newline-terminated lines followed by an unterminated tail. */
  predicate IsSplit(data: seq<byte>, lines: seq<seq<byte>>, tail: seq<byte>) {
    && data == Unlines(lines) + tail
    && NEWLINE !in tail
    && forall i :: 0 <= i < |lines| ==> NEWLINE !in lines[i]
  }

  lemma {:induction false} Split(data: seq<byte>) returns (lines: seq<seq<byte>>, tail: seq<byte>)
    ensures IsSplit(data, lines, tail)
    decreases |data|
  {
    match IndexNewline(data)
    case None =>
      lines, tail := [], data;
    case Some(i) =>
      var ls, t := Split(data[i + 1..]);
      lines, tail := [data[..i]] + ls, t;
      assert lines[1..] == ls;
      assert data == data[..i] + [NEWLINE] + data[i + 1..];
  }

  lemma {:induction false} FirstLine(line: seq<byte>, rest: seq<byte>)
    requires NEWLINE !in line
    ensures IndexNewline(line + [NEWLINE] + rest) == Some(|line|)
    ensures (line + [NEWLINE] + rest)[..|line|] == line
    ensures (line + [NEWLINE] + rest)[|line| + 1..] == rest
  {
    if line != [] {
      FirstLine(line[1..], rest);
      assert (line + [NEWLINE] + rest)[1..] == line[1..] + [NEWLINE] + rest;
    }
  }

  /** Reading one line off the front. */
  lemma ReadLine(c: Codec, line: seq<byte>, rest: seq<byte>)
    requires NEWLINE !in line
    ensures Read(c, line + [NEWLINE] + rest) ==
      match c.decode(line)
      case None => if rest == [] then Ok(Reading([], 0, true)) else Err(CorruptRecord)
      case Some(r) =>
        if !r.Validate() then Err(InvalidRecord) else Prepend(r, |line| + 1, Read(c, rest))
  {
    FirstLine(line, rest);
  }

  /** What a reader sees first: the end, an unterminated tail, or a line. */
  lemma ReadCases(c: Codec, data: seq<byte>) returns (line: seq<byte>, rest: seq<byte>)
    ensures data == [] ==> Read(c, data) == Ok(Reading([], 0, false))
    ensures data != [] && NEWLINE !in data ==> Read(c, data) == Ok(Reading([], 0, true))
    ensures NEWLINE in data ==> data == line + [NEWLINE] + rest && NEWLINE !in line
  {
    line, rest := [], [];
    if NEWLINE in data {
      var i := IndexNewline(data).value;
      line, rest := data[..i], data[i + 1..];
    }
  }

  predicate Good(c: Codec, line: seq<byte>) {
    c.decode(line).Some? && c.decode(line).value.Validate()
  }

  /** Line k is the first that is not good, and it is not a torn last line. */
  predicate Broken(c: Codec, lines: seq<seq<byte>>, tail: seq<byte>, k: nat)
    requires k < |lines|
  {
    && (forall j :: 0 <= j < k ==> Good(c, lines[j]))
    && !Good(c, lines[k])
    && (c.decode(lines[k]).None? ==> k + 1 < |lines| || tail != [])
  }

  /** The reading stops after the first good lines: at the end, or before an undecodable last line. */
  predicate Stops(c: Codec, lines: seq<seq<byte>>, tail: seq<byte>, rd: Reading) {
    && |rd.recs| <= |lines|
    && (forall j :: 0 <= j < |rd.recs| ==> Good(c, lines[j]) && c.decode(lines[j]) == Some(rd.recs[j]))
    && rd.validLen == |Unlines(lines[..|rd.recs|])|
    && (|rd.recs| == |lines|
        || (|rd.recs| + 1 == |lines| && tail == [] && c.decode(lines[|rd.recs|]).None?))
    && rd.torn == (rd.validLen < |Unlines(lines) + tail|)
  }

  /** What a reader makes of lines: rejected for a broken one, or read up to where it stops. */
  lemma {:induction false} LinesClassify(c: Codec, data: seq<byte>, lines: seq<seq<byte>>, tail: seq<byte>)
    requires IsSplit(data, lines, tail)
    ensures Read(c, data).Err? <==> exists k :: 0 <= k < |lines| && Broken(c, lines, tail, k)
    ensures Read(c, data).Ok? ==> Stops(c, lines, tail, Read(c, data).value)
    decreases |lines|
  {
    if lines == [] {
      assert data == tail;
      assert IndexNewline(data).None?;
      assert lines[..0] == [];
    } else {
      var line, rest := lines[0], Unlines(lines[1..]) + tail;
      assert data == line + [NEWLINE] + rest;
      ReadLine(c, line, rest);
      if Good(c, line) {
        LinesClassify(c, rest, lines[1..], tail);
        GoodLineExtends(c, lines, tail, Read(c, rest));
      } else {
        assert rest == [] <==> |lines| == 1 && tail == [] by {
          if |lines| > 1 { assert Unlines(lines[1..])[|lines[1]|] == NEWLINE; }
        }
        assert Read(c, data).Err? ==> Broken(c, lines, tail, 0);
        forall k | 0 <= k < |lines| && Broken(c, lines, tail, k)
          ensures Read(c, data).Err?
        {
          assert k == 0;
        }
        assert lines[..0] == [];
      }
    }
  }

  /** Every byte sequence is either rejected for a broken line or read up to where it stops. */
  lemma ReadClassifies(c: Codec, data: seq<byte>) returns (lines: seq<seq<byte>>, tail: seq<byte>)
    ensures IsSplit(data, lines, tail)
    ensures Read(c, data).Err? <==> exists k :: 0 <= k < |lines| && Broken(c, lines, tail, k)
    ensures Read(c, data).Ok? ==> Stops(c, lines, tail, Read(c, data).value)
  {
    hide Read, Broken, Stops;
    lines, tail := Split(data);
    LinesClassify(c, data, lines, tail);
  }

  /** The classification of the lines after a good first line carries over to all of them. */
  lemma GoodLineExtends(c: Codec, lines: seq<seq<byte>>, tail: seq<byte>, rest: Result<Reading, Error>)
    requires lines != [] && Good(c, lines[0])
    requires rest.Err? <==> exists k :: 0 <= k < |lines[1..]| && Broken(c, lines[1..], tail, k)
    requires rest.Ok? ==> Stops(c, lines[1..], tail, rest.value)
    ensures rest.Err? <==> exists k :: 0 <= k < |lines| && Broken(c, lines, tail, k)
    ensures rest.Ok? ==> Stops(c, lines, tail, Prepend(c.decode(lines[0]).value, |lines[0]| + 1, rest).value)
  {
    forall k | 0 <= k < |lines| && Broken(c, lines, tail, k)
      ensures rest.Err?
    {
      assert k > 0;
      assert forall j :: 0 <= j < k - 1 ==> lines[1..][j] == lines[j + 1];
      assert Broken(c, lines[1..], tail, k - 1);
    }
    if rest.Err? {
      var k :| 0 <= k < |lines[1..]| && Broken(c, lines[1..], tail, k);
      forall j | 0 <= j < k + 1
        ensures Good(c, lines[j])
      {
        if j > 0 { assert Good(c, lines[1..][j - 1]); }
      }
      assert Broken(c, lines, tail, k + 1);
    } else {
      var n := |rest.value.recs|;
      assert lines[..n + 1][1..] == lines[1..][..n];
      forall j | 0 < j < n + 1
        ensures Good(c, lines[j]) && c.decode(lines[j]) == Some(rest.value.recs[j - 1])
      {
        assert lines[1..][j - 1] == lines[j];
      }
    }
  }

  /** What was read can be kept: the readable part is a clean log of the same records. */
  lemma {:induction false} ReadablePartIsClean(c: Codec, data: seq<byte>)
    requires Read(c, data).Ok?
    ensures var rd := Read(c, data).value;
      rd.validLen <= |data| && Clean(c, data[..rd.validLen], rd.recs)
      && (rd.torn <==> rd.validLen < |data|)
    decreases |data|
  {
    hide Read, IndexNewline;
    var _, _ := ReadCases(c, []);
    var line, rest := ReadCases(c, data);
    if NEWLINE in data {
      ReadLine(c, line, rest);
      if Good(c, line) {
        ReadablePartIsClean(c, rest);
        var kept := rest[..Read(c, rest).value.validLen];
        ReadLine(c, line, kept);
        assert data[..|line| + 1 + |kept|] == line + [NEWLINE] + kept;
      }
    }
  }

  // ---- appending and crashing --------------------------------------------

  /** Reading on after a clean prefix. */
  lemma {:induction false} ReadAfterClean(c: Codec, data: seq<byte>, recs: seq<Record>, more: seq<byte>)
    requires Clean(c, data, recs)
    ensures Read(c, data + more) == Follow(recs, |data|, Read(c, more))
    decreases |data|
  {
    hide Read, IndexNewline;
    var line, rest := ReadCases(c, data);
    if data == [] {
      assert data + more == more;
      assert Read(c, more).Ok? ==> recs + Read(c, more).value.recs == Read(c, more).value.recs;
    } else {
      ReadLine(c, line, rest);
      ReadLine(c, line, rest + more);
      assert data + more == line + [NEWLINE] + (rest + more);
      assert Good(c, line);
      ReadAfterClean(c, rest, recs[1..], more);
      assert recs == [recs[0]] + recs[1..];
      if Read(c, more).Ok? {
        var tail := Read(c, more).value.recs;
        assert [recs[0]] + (recs[1..] + tail) == recs + tail;
      }
    }
  }

  /** The reading of n clean bytes holding recs, followed by bytes that read as rest. */
  function Follow(recs: seq<Record>, n: nat, rest: Result<Reading, Error>): Result<Reading, Error> {
    match rest
    case Err(e) => Err(e)
    case Ok(rd) => Ok(Reading(recs + rd.recs, n + rd.validLen, rd.torn))
  }

  /** A complete append is read back as one more record. */
  lemma AppendIsRead(c: Codec, data: seq<byte>, recs: seq<Record>, r: Record)
    requires c.Faithful() && Clean(c, data, recs) && Loggable(r)
    ensures Clean(c, data + c.Line(r), recs + [r])
  {
    hide Read, IndexNewline;
    ReadAfterClean(c, data, recs, c.Line(r));
    ReadLine(c, c.encode(r), []);
    var _, _ := ReadCases(c, []);
    assert c.Line(r) == c.encode(r) + [NEWLINE] + [];
    assert recs + ([r] + []) == recs + [r];
  }

  /** A crash that leaves only part of an append's bytes loses that record and nothing else. */
  lemma PartialAppendIsTorn(c: Codec, data: seq<byte>, recs: seq<Record>, r: Record, cut: nat)
    requires c.Faithful() && Clean(c, data, recs) && cut < |c.Line(r)|
    ensures Read(c, data + c.Line(r)[..cut]) == Ok(Reading(recs, |data|, cut > 0))
  {
    hide Read, IndexNewline;
    var more := c.Line(r)[..cut];
    var _, _ := ReadCases(c, more);
    assert forall i :: 0 <= i < cut ==> more[i] == c.encode(r)[i];
    assert NEWLINE !in more;
    ReadAfterClean(c, data, recs, more);
    assert recs + [] == recs;
  }

  lemma {:induction false} FrameIsClean(c: Codec, recs: seq<Record>)
    requires c.Faithful() && AllLoggable(recs)
    ensures Clean(c, Frame(c, recs), recs)
  {
    hide Read, IndexNewline;
    if recs == [] {
      var _, _ := ReadCases(c, []);
    } else {
      FrameIsClean(c, recs[1..]);
      ReadLine(c, c.encode(recs[0]), Frame(c, recs[1..]));
      assert recs == [recs[0]] + recs[1..];
    }
  }

  lemma {:induction false} FrameAppend(c: Codec, recs: seq<Record>, r: Record)
    ensures Frame(c, recs + [r]) == Frame(c, recs) + c.Line(r)
  {
    if recs == [] {
      assert (recs + [r])[1..] == [];
    } else {
      FrameAppend(c, recs[1..], r);
      assert (recs + [r])[1..] == recs[1..] + [r];
    }
  }

  lemma {:induction false} FramePrefix(c: Codec, recs: seq<Record>, k: nat)
    requires k <= |recs|
    ensures |Frame(c, recs[..k])| <= |Frame(c, recs)|
    ensures Frame(c, recs)[..|Frame(c, recs[..k])|] == Frame(c, recs[..k])
    decreases |recs|
  {
    if k == |recs| {
      assert recs[..k] == recs;
    } else {
      var init := recs[..|recs| - 1];
      assert recs == init + [recs[|recs| - 1]];
      FrameAppend(c, init, recs[|recs| - 1]);
      FramePrefix(c, init, k);
      assert init[..k] == recs[..k];
    }
  }

  /**
   Cutting a log of valid records at any byte: the records whose line and
   newline lie within the cut are read, and the log is torn exactly when bytes
   remain after them.
   */
  lemma CrashPrefix(c: Codec, recs: seq<Record>, cut: nat, k: nat)
    requires c.Faithful() && AllLoggable(recs)
    requires k <= |recs| && |Frame(c, recs[..k])| <= cut <= |Frame(c, recs)|
    requires k < |recs| ==> cut < |Frame(c, recs[..k + 1])|
    ensures Read(c, Frame(c, recs)[..cut])
         == Ok(Reading(recs[..k], |Frame(c, recs[..k])|, |Frame(c, recs[..k])| < cut))
  {
    hide Read, IndexNewline, Frame;
    FrameIsClean(c, recs[..k]);
    var whole := Frame(c, recs[..k]);
    FramePrefix(c, recs, k);
    if k == |recs| {
      assert recs[..k] == recs;
    } else {
      FramePrefix(c, recs, k + 1);
      assert recs[..k + 1] == recs[..k] + [recs[k]];
      FrameAppend(c, recs[..k], recs[k]);
      var line := c.Line(recs[k]);
      assert Frame(c, recs)[..cut] == (whole + line)[..cut];
      assert (whole + line)[..cut] == whole + line[..cut - |whole|];
      PartialAppendIsTorn(c, whole, recs[..k], recs[k], cut - |whole|);
    }
  }

  /** Every cut falls within exactly one record, so CrashPrefix covers every crash. */
  lemma {:induction false} CutPoint(c: Codec, recs: seq<Record>, cut: nat) returns (k: nat)
    requires cut <= |Frame(c, recs)|
    ensures k <= |recs| && |Frame(c, recs[..k])| <= cut
    ensures k < |recs| ==> cut < |Frame(c, recs[..k + 1])|
    decreases |recs|
  {
    if recs == [] || cut == |Frame(c, recs)| {
      k := |recs|;
      assert recs[..k] == recs;
    } else {
      var init := recs[..|recs| - 1];
      assert recs == init + [recs[|recs| - 1]];
      FrameAppend(c, init, recs[|recs| - 1]);
      if cut < |Frame(c, init)| {
        k := CutPoint(c, init, cut);
        assert init[..k] == recs[..k];
        assert k < |init|  ==> init[..k + 1] == recs[..k + 1];
        assert init[..|init|] == init;
      } else {
        k := |recs| - 1;
        assert recs[..k + 1] == recs;
      }
    }
  }
}
