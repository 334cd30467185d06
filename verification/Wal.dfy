/**
 The append-only log file: reading it, opening it after a crash, appending to
 it, and replacing it by a snapshot.
 */
module Wal {
  import opened Wrappers
  import opened Errors
  import opened Record
  import opened Framing

  /** The bytes of a log file; a missing one is empty. */
  function DataOf(file: Option<seq<byte>>): seq<byte> {
    if file.Some? then file.value else []
  }

  /**
   Parses every record of a log, if it can be read at all.  A missing file is
   an empty log.  `Read` gives the meaning of the bytes; the loop computes it
   line by line.
   */
  method ReadAll(c: Codec, file: Option<seq<byte>>, readable: bool) returns (res: Result<Reading, Error>)
    ensures res == if readable then Read(c, DataOf(file)) else Err(IoFailed)
  {
    hide Read;
    ReadEmpty(c);
    if !readable {
      return Err(IoFailed);
    }
    if file.None? {
      return Ok(Reading([], 0, false));
    }
    var data, recs, offset: nat := file.value, [], 0;
    FollowNothing(Read(c, data));
    while data != []
      invariant Read(c, file.value) == Follow(recs, offset, Read(c, data))
      invariant recs + [] == recs
      decreases |data|
    {
      ReadOne(c, data);
      var newline := IndexNewline(data);
      if newline.None? {
        return Ok(Reading(recs, offset, true));
      }
      var line, rest := data[..newline.value], data[newline.value + 1..];
      var r := c.decode(line);
      if r.None? {
        if rest == [] {
          return Ok(Reading(recs, offset, true));
        }
        return Err(CorruptRecord);
      }
      if !r.value.Validate() {
        return Err(InvalidRecord);
      }
      FollowStep(recs, offset, r.value, newline.value + 1, Read(c, rest));
      recs, offset, data := recs + [r.value], offset + |line| + 1, rest;
    }
    return Ok(Reading(recs, offset, false));
  }

  lemma ReadEmpty(c: Codec)
    ensures Read(c, []) == Ok(Reading([], 0, false))
  {
  }

  /** Read, one line at a time. */
  lemma ReadOne(c: Codec, data: seq<byte>)
    requires data != []
    ensures Read(c, data) ==
      match IndexNewline(data)
      case None => Ok(Reading([], 0, true))
      case Some(i) =>
        match c.decode(data[..i])
        case None => if data[i + 1..] == [] then Ok(Reading([], 0, true)) else Err(CorruptRecord)
        case Some(r) => if !r.Validate() then Err(InvalidRecord) else Prepend(r, i + 1, Read(c, data[i + 1..]))
  {
  }

  lemma FollowNothing(rest: Result<Reading, Error>)
    ensures Follow([], 0, rest) == rest
  {
    if rest.Ok? {
      assert [] + rest.value.recs == rest.value.recs;
    }
  }

  lemma FollowStep(recs: seq<Record>, n: nat, r: Record, k: nat, rest: Result<Reading, Error>)
    ensures Follow(recs, n, Prepend(r, k, rest)) == Follow(recs + [r], n + k, rest)
  {
    if rest.Ok? {
      assert recs + ([r] + rest.value.recs) == recs + [r] + rest.value.recs;
    }
  }

  /**
   The data directory: the log file and the temporary file of a compaction.
   `crashes` records every content of the log file that a crash could leave
   behind, in order.
   */
  class Disk {
    var log: Option<seq<byte>>
    var temp: Option<seq<byte>>
    ghost var crashes: seq<Option<seq<byte>>>

    constructor (log: Option<seq<byte>>)
      ensures this.log == log && temp == None && crashes == [log]
    {
      this.log, temp := log, None;
      crashes := [log];
    }

    /** Opens the log for writing, creating it if it is missing. */
    method Create()
      modifies this
      ensures log == Some(if old(log).Some? then old(log).value else []) && temp == old(temp)
      ensures crashes == old(crashes) + [log]
    {
      if log.None? {
        log := Some([]);
      }
      crashes := crashes + [log];
    }

    method Truncate(n: nat)
      requires log.Some? && n <= |log.value|
      modifies this
      ensures log == Some(old(log).value[..n]) && temp == old(temp)
      ensures crashes == old(crashes) + [log]
    {
      log := Some(log.value[..n]);
      crashes := crashes + [log];
    }

    /** Overwrites the log from offset on; a crash can leave any prefix of the bytes written. */
    method WriteAt(offset: nat, bytes: seq<byte>)
      requires log.Some? && offset <= |log.value|
      modifies this
      ensures log == Some(Overwrite(old(log).value, offset, bytes)) && temp == old(temp)
      ensures crashes == old(crashes) + PartialWrites(old(log).value, offset, bytes)
    {
      crashes := crashes + PartialWrites(log.value, offset, bytes);
      log := Some(Overwrite(log.value, offset, bytes));
    }

    method WriteTemp(bytes: seq<byte>)
      modifies this
      ensures temp == Some(bytes) && log == old(log) && crashes == old(crashes) + [log]
    {
      temp := Some(bytes);
      crashes := crashes + [log];
    }

    method RemoveTemp()
      modifies this
      ensures temp == None && log == old(log) && crashes == old(crashes)
    {
      temp := None;
    }

    /** rename(2): the log is the old file before and the new file after. */
    method RenameTemp()
      requires temp.Some?
      modifies this
      ensures log == old(temp) && temp == None && crashes == old(crashes) + [log]
    {
      log, temp := temp, None;
      crashes := crashes + [log];
    }
  }

  /** data with bytes written from offset on. */
  function Overwrite(data: seq<byte>, offset: nat, bytes: seq<byte>): seq<byte>
    requires offset <= |data|
  {
    data[..offset] + bytes + (if offset + |bytes| < |data| then data[offset + |bytes|..] else [])
  }

  /** What a crash can leave while bytes are being written: any prefix of them. */
  function PartialWrites(data: seq<byte>, offset: nat, bytes: seq<byte>): (r: seq<Option<seq<byte>>>)
    requires offset <= |data|
  {
    seq(|bytes| + 1, k requires 0 <= k <= |bytes| => Some(Overwrite(data, offset, bytes[..k])))
  }

  /** A crash that leaves this log file loses no record of recs and adds nothing but maybe next. */
  ghost predicate Recoverable(c: Codec, file: Option<seq<byte>>, recs: seq<Record>, next: Option<Record>) {
    file.Some? && Read(c, file.value).Ok? &&
    var got := Read(c, file.value).value.recs;
    got == recs || (next.Some? && got == recs + [next.value])
  }

  /** The log opened for appending. */
  class Log {
    const codec: Codec
    const disk: Disk
    var offset: nat
    /** False once a compaction has replaced the file but could not reopen it. */
    var attached: bool
    ghost var records: seq<Record>
    /** How often the environment has refused a record. */
    ghost var failures: nat

    ghost predicate Valid()
      reads this, disk
    {
      && codec.Faithful()
      && attached
      && disk.log.Some?
      && Clean(codec, disk.log.value, records)
      && offset == |disk.log.value|
    }

    constructor (codec: Codec, disk: Disk, offset: nat, ghost records: seq<Record>)
      requires codec.Faithful() && disk.log.Some? && offset == |disk.log.value|
      requires Clean(codec, disk.log.value, records)
      ensures Valid() && this.codec == codec && this.disk == disk && this.records == records
    {
      this.codec, this.disk, this.offset, this.attached := codec, disk, offset, true;
      this.records, failures := records, 0;
    }

    /**
     Commits one record.  Failure is a choice of the environment that leaves
     the file as it was; an invalid record is always refused.
     */
    method Append(r: Record) returns (err: Option<Error>)
      requires Valid() && Printable(r)
      modifies this, disk
      ensures Valid()
      ensures err.Some? ==> records == old(records) && disk.log == old(disk.log) && disk.crashes == old(disk.crashes)
      ensures err.None? ==> r.Validate() && records == old(records) + [r]
      ensures err.None? ==> disk.log == Some(old(disk.log).value + codec.Line(r))
      ensures err == Some(InvalidRecord) <==> !r.Validate()
      ensures err.None? || err == Some(InvalidRecord) || err == Some(AppendFailed)
      ensures failures == old(failures) + (if err == Some(AppendFailed) then 1 else 0)
      ensures |disk.crashes| >= |old(disk.crashes)| && disk.crashes[..|old(disk.crashes)|] == old(disk.crashes)
      ensures forall i :: |old(disk.crashes)| <= i < |disk.crashes| ==>
        Recoverable(codec, disk.crashes[i], old(records), Some(r))
    {
      hide Read, Codec.Faithful;
      if !r.Validate() {
        return Some(InvalidRecord);
      }
      var fails: bool := *;
      if fails {
        failures := failures + 1;
        return Some(AppendFailed);
      }
      ghost var data, line := disk.log.value, codec.Line(r);
      AppendIsRead(codec, data, records, r);
      forall k | 0 <= k <= |line|
        ensures Recoverable(codec, Some(Overwrite(data, offset, line[..k])), records, Some(r))
      {
        assert Overwrite(data, offset, line[..k]) == data + line[..k];
        if k < |line| {
          PartialAppendIsTorn(codec, data, records, r, k);
        } else {
          assert line[..k] == line;
        }
      }
      assert Overwrite(data, offset, line) == data + line;
      disk.WriteAt(offset, codec.Line(r));
      offset := offset + |codec.Line(r)|;
      records := records + [r];
      return None;
    }

    /**
     Replaces the log by recs, whatever they are.  An error before the rename
     leaves everything as it was; an error after it (reopening the new file)
     leaves the new log on disk and this handle detached from it.
     */
    method Compact(recs: seq<Record>) returns (err: Option<Error>)
      requires Valid()
      modifies this, disk
      ensures err.None? ==> disk.log == Some(Frame(codec, recs)) && (AllLoggable(recs) ==> Valid() && records == recs)
      ensures err.None? || err == Some(IoFailed)
      ensures err.Some? && attached ==> Valid() && records == old(records) && disk.log == old(disk.log)
      ensures err.Some? && !attached ==> disk.log == Some(Frame(codec, recs))
      ensures disk.temp == None
      ensures |disk.crashes| >= |old(disk.crashes)| && disk.crashes[..|old(disk.crashes)|] == old(disk.crashes)
      ensures forall i :: |old(disk.crashes)| <= i < |disk.crashes| ==>
        disk.crashes[i] == old(disk.log) || disk.crashes[i] == Some(Frame(codec, recs))
    {
      disk.WriteTemp([]);
      var i := 0;
      while i < |recs|
        invariant 0 <= i <= |recs|
        invariant Valid() && records == old(records) && disk.log == old(disk.log)
        invariant disk.temp == Some(Frame(codec, recs[..i]))
        invariant |disk.crashes| >= |old(disk.crashes)| && disk.crashes[..|old(disk.crashes)|] == old(disk.crashes)
        invariant forall j :: |old(disk.crashes)| <= j < |disk.crashes| ==> disk.crashes[j] == old(disk.log)
      {
        var writeFails: bool := *;
        if writeFails {
          disk.RemoveTemp();
          return Some(IoFailed);
        }
        FrameAppend(codec, recs[..i], recs[i]);
        assert recs[..i + 1] == recs[..i] + [recs[i]];
        disk.WriteTemp(disk.temp.value + codec.Line(recs[i]));
        i := i + 1;
      }
      assert recs[..i] == recs;
      var renameFails: bool := *;
      if renameFails {
        disk.RemoveTemp();
        return Some(IoFailed);
      }
      disk.RenameTemp();
      if AllLoggable(recs) {
        FrameIsClean(codec, recs);
      }
      var reopenFails: bool := *;
      if reopenFails {
        attached := false;
        return Some(IoFailed);
      }
      offset := |disk.log.value|;
      records := recs;
      return None;
    }
  }

  /** Where opening a log may fail: making the directory, reading, opening, truncating or seeking. */
  datatype Fault = NoFault | AtMkdir | AtRead | AtOpen | AtTruncate | AtSeek

  /** What opening a log file gives: its records, or why it cannot be opened. */
  function Opening(c: Codec, file: Option<seq<byte>>, fault: Fault): Result<Reading, Error> {
    if fault == AtMkdir || fault == AtRead then Err(IoFailed)
    else
      match Read(c, DataOf(file))
      case Err(e) => Err(e)
      case Ok(rd) =>
        if fault == AtOpen || (fault == AtTruncate && rd.torn) || fault == AtSeek then Err(IoFailed) else Ok(rd)
  }

  /**
   Reads the log, cuts off a torn tail, and opens the rest for appending.  A
   log that cannot be read is left untouched, and so are the records of one
   that cannot be opened.
   */
  method Open(c: Codec, disk: Disk, fault: Fault)
    returns (log: Log?, recs: seq<Record>, torn: bool, err: Option<Error>)
    requires c.Faithful()
    modifies disk
    ensures var data := DataOf(old(disk.log));
      match Opening(c, old(disk.log), fault)
      case Err(e) =>
        && log == null && err == Some(e)
        && (Read(c, data).Err? ==> disk.log == old(disk.log) && disk.crashes == old(disk.crashes))
        && (Read(c, data).Ok? ==>
              var n := Read(c, data).value.validLen;
              disk.log == old(disk.log) || disk.log == Some(data) || (n <= |data| && disk.log == Some(data[..n])))
      case Ok(rd) =>
        && err == None && log != null && fresh(log) && log.Valid() && log.codec == c && log.disk == disk
        && recs == rd.recs == log.records && torn == rd.torn
        && rd.validLen <= |data| && disk.log == Some(data[..rd.validLen])
    ensures |disk.crashes| >= |old(disk.crashes)| && disk.crashes[..|old(disk.crashes)|] == old(disk.crashes)
    ensures Read(c, DataOf(old(disk.log))).Ok? ==>
      var recs := Read(c, DataOf(old(disk.log))).value.recs;
      forall i :: |old(disk.crashes)| <= i < |disk.crashes| ==> Recoverable(c, disk.crashes[i], recs, None)
  {
    hide Read;
    ReadEmpty(c);
    log, recs, torn := null, [], false;
    if fault == AtMkdir {
      return null, [], false, Some(IoFailed);
    }
    var reading := ReadAll(c, disk.log, fault != AtRead);
    if reading.Err? {
      return null, [], false, Some(reading.error);
    }
    var rd := reading.value;
    ReadablePartIsClean(c, DataOf(disk.log));
    if fault == AtOpen {
      return null, [], false, Some(IoFailed);
    }
    disk.Create();
    if rd.torn {
      if fault == AtTruncate {
        return null, [], false, Some(IoFailed);
      }
      disk.Truncate(rd.validLen);
    }
    if fault == AtSeek {
      return null, [], false, Some(IoFailed);
    }
    assert disk.log.value[..rd.validLen] == disk.log.value;
    log := new Log(c, disk, rd.validLen, rd.recs);
    return log, rd.recs, rd.torn, None;
  }
}
