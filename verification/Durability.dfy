/**
 End to end: the engine and the bytes of its log, through crashes at any byte
 of an append and reopening, any number of times.
 */
module Durability {
  import opened Wrappers
  import opened Record
  import opened Framing
  import opened State
  import opened Replay
  import opened Steps
  import opened Snapshot
  import opened Runs

  /** The bytes an action appends to the log. */
  function BytesOf(c: Codec, w: World, a: Action): seq<byte>
    requires Enabled(w.live, a, w.clock)
  {
    match Logged(w.live, a, w.clock)
    case None => []
    case Some(r) => c.Line(r)
  }

  /** The file holds exactly the log of the engine. */
  ghost predicate OnDisk(c: Codec, w: World, file: seq<byte>) {
    Inv(w) && Clean(c, file, w.log)
  }

  datatype DiskEvent =
    | Commit(action: Action)           // an action whose append completed
    | Crash(action: Action, cut: nat)  // power lost after cut bytes of the append; then the log is reopened
    | Rewrite(finished: bool)          // a compaction, interrupted or finished; then the log is reopened

  /** What was committed when the machine stopped: the action too, if all its bytes were written. */
  function Survivor(c: Codec, w: World, a: Action, cut: nat): World
    requires Enabled(w.live, a, w.clock)
  {
    if cut >= |BytesOf(c, w, a)| then Acts(w, a) else w
  }

  /** The engine that reopening a file yields: the records read, replayed. */
  ghost predicate Reopens(c: Codec, left: seq<byte>, file': seq<byte>, w': World) {
    && Read(c, left).Ok?
    && var rd := Read(c, left).value;
    && rd.validLen <= |left| && file' == left[..rd.validLen]
    && w'.log == rd.recs
    && Load(EMPTY, rd.recs) == Ok(w'.live)
  }

  ghost predicate DiskStep(c: Codec, w: World, file: seq<byte>, e: DiskEvent, w': World, file': seq<byte>) {
    match e
    case Commit(a) =>
      && Enabled(w.live, a, w.clock) && w' == Acts(w, a) && file' == file + BytesOf(c, w, a)
    case Crash(a, cut) =>
      && Enabled(w.live, a, w.clock) && cut <= |BytesOf(c, w, a)|
      && Reopens(c, file + BytesOf(c, w, a)[..cut], file', w')
      && w'.clock == Survivor(c, w, a, cut).clock && w'.hist == Survivor(c, w, a, cut).hist
    case Rewrite(finished) =>
      && Reopens(c, if finished then Frame(c, SnapshotOf(Replayed(w))) else file, file', w')
      && w'.clock == w.clock
      && (if finished then StartsFrom(w'.hist, w'.live) else w'.hist == w.hist)
  }

  lemma CommitOnDisk(c: Codec, w: World, file: seq<byte>, a: Action)
    requires c.Faithful() && OnDisk(c, w, file) && Enabled(w.live, a, w.clock)
    ensures OnDisk(c, Acts(w, a), file + BytesOf(c, w, a))
  {
    hide Inv, Enabled, Effect, Outcomes, Deliveries, Clean, Codec.Faithful, Logged, Loggable;
    DoKeepsInv(w, a);
    InvParts(w);
    LoggedIsLoggable(w.live, a, w.clock);
    match Logged(w.live, a, w.clock)
    case None => assert file + [] == file;
    case Some(r) => AppendIsRead(c, file, w.log, r);
  }

  /** Reopening a clean file changes nothing but the live state, which becomes the replayed one. */
  lemma ReopenClean(c: Codec, w: World, left: seq<byte>, validLen: nat, torn: bool)
    requires Inv(w) && Read(c, left) == Ok(Reading(w.log, validLen, torn))
    ensures validLen <= |left| && Reopens(c, left, left[..validLen], w.(live := Replayed(w)))
    ensures OnDisk(c, w.(live := Replayed(w)), left[..validLen])
    ensures Related(w.live, Replayed(w), w.clock)
  {
    hide Inv, Sound, Related, Load, Read, Replayed;
    ReadablePartIsClean(c, left);
    InvParts(w);
    RestartKeepsInv(w);
  }

  /**
   A crash after any number of bytes of an append loses at most the action in
   flight: the file reads back as the log without it or with it, replay
   succeeds, and the reopened engine is related to the one that stopped.
   */
  lemma CrashRecovers(c: Codec, w: World, file: seq<byte>, a: Action, cut: nat)
    requires c.Faithful() && OnDisk(c, w, file) && Enabled(w.live, a, w.clock) && cut <= |BytesOf(c, w, a)|
    ensures var left, s := file + BytesOf(c, w, a)[..cut], Survivor(c, w, a, cut);
      var whole := cut == |BytesOf(c, w, a)|;
      var kept := if whole then left else file;
      && Read(c, left) == Ok(Reading(s.log, |kept|, !whole && cut > 0))
      && Reopens(c, left, kept, s.(live := Replayed(s)))
      && OnDisk(c, s.(live := Replayed(s)), kept)
      && Related(s.live, Replayed(s), s.clock)
  {
    hide Inv, Enabled, Effect, Outcomes, Deliveries, Codec.Faithful, Logged, Sound, Related, Load, Read, Replayed,
      Reopens, Acts, LogAfter, OnDisk;
    var bytes, s := BytesOf(c, w, a), Survivor(c, w, a, cut);
    var left := file + bytes[..cut];
    OnDiskParts(c, w, file);
    if cut == |bytes| {
      assert left == file + bytes && left[..|left|] == left;
      CommitOnDisk(c, w, file, a);
      OnDiskParts(c, s, left);
      ReopenClean(c, s, left, |left|, false);
    } else {
      PartialAppendIsTorn(c, file, w.log, Logged(w.live, a, w.clock).value, cut);
      assert left[..|file|] == file;
      ReopenClean(c, w, left, |file|, cut > 0);
    }
  }

  lemma OnDiskParts(c: Codec, w: World, file: seq<byte>)
    requires OnDisk(c, w, file)
    ensures Inv(w) && Clean(c, file, w.log)
    ensures Read(c, file) == Ok(Reading(w.log, |file|, false))
  {
    hide Inv, Read;
  }

  /** Reopening a file yields one engine. */
  lemma ReopensOnce(c: Codec, left: seq<byte>, f: seq<byte>, w: World, f': seq<byte>, w': World)
    requires Reopens(c, left, f, w) && Reopens(c, left, f', w')
    ensures f == f' && w.log == w'.log && w.live == w'.live
  {
    hide Read, Load;
  }

  lemma RewriteOnDisk(c: Codec, w: World, file: seq<byte>, finished: bool, w': World, file': seq<byte>)
    requires c.Faithful() && OnDisk(c, w, file) && DiskStep(c, w, file, Rewrite(finished), w', file')
    ensures OnDisk(c, w', file')
  {
    hide Inv, Codec.Faithful, Sound, Related, Load, Read, Frame, StartsFrom, SnapshotOf, Replayed, AllLoggable;
    if finished {
      InvParts(w);
      var recs := SnapshotOf(Replayed(w));
      SnapshotLoggable(Replayed(w));
      FrameIsClean(c, recs);
      var frame := Frame(c, recs);
      assert frame[..|frame|] == frame;
      LoadedIsReplayed(w');
      CompactKeepsInv(w, w');
    } else {
      ReopenClean(c, w, file, |file|, false);
      ReopensOnce(c, file, file', w', file[..|file|], w.(live := Replayed(w)));
    }
  }

  lemma LoadedIsReplayed(w: World)
    requires Load(EMPTY, w.log) == Ok(w.live)
    ensures w.live == Replayed(w)
  {
    hide Load;
  }

  lemma DiskStepKeeps(c: Codec, w: World, file: seq<byte>, e: DiskEvent, w': World, file': seq<byte>)
    requires c.Faithful() && OnDisk(c, w, file) && DiskStep(c, w, file, e, w', file')
    ensures OnDisk(c, w', file')
  {
    hide OnDisk, Enabled, Codec.Faithful, Reopens, Acts, BytesOf, Survivor, StartsFrom, SnapshotOf, Replayed, Read;
    match e
    case Commit(a) => CommitOnDisk(c, w, file, a);
    case Crash(a, cut) => CrashOnDisk(c, w, file, a, cut, w', file');
    case Rewrite(finished) => RewriteOnDisk(c, w, file, finished, w', file');
  }

  lemma CrashOnDisk(c: Codec, w: World, file: seq<byte>, a: Action, cut: nat, w': World, file': seq<byte>)
    requires c.Faithful() && OnDisk(c, w, file) && DiskStep(c, w, file, Crash(a, cut), w', file')
    ensures OnDisk(c, w', file')
  {
    hide OnDisk, Enabled, Codec.Faithful, Reopens, Acts, BytesOf, Survivor, Replayed, Read, Related;
    CrashRecovers(c, w, file, a, cut);
    var left, s := file + BytesOf(c, w, a)[..cut], Survivor(c, w, a, cut);
    var kept := if cut == |BytesOf(c, w, a)| then left else file;
    ReopensOnce(c, left, kept, s.(live := Replayed(s)), file', w');
    assert w' == s.(live := Replayed(s));
  }

  ghost predicate IsDiskRun(c: Codec, worlds: seq<World>, files: seq<seq<byte>>, events: seq<DiskEvent>) {
    && |worlds| == |files| == |events| + 1
    && worlds[0] == START && files[0] == []
    && forall i :: 0 <= i < |events| ==> DiskStep(c, worlds[i], files[i], events[i], worlds[i + 1], files[i + 1])
  }

  /**
   Durability: after any sequence of commits, crashes, reopenings and
   compactions, the file reads back in full as the engine's log, and the log
   replays without error to a state related to the live one.
   */
  lemma {:induction false} AlwaysRecoverable(c: Codec, worlds: seq<World>, files: seq<seq<byte>>,
                                             events: seq<DiskEvent>, i: nat)
    requires c.Faithful() && IsDiskRun(c, worlds, files, events) && i < |worlds|
    ensures OnDisk(c, worlds[i], files[i])
    ensures Read(c, files[i]) == Ok(Reading(worlds[i].log, |files[i]|, false))
    ensures exists rep :: Load(EMPTY, worlds[i].log) == Ok(rep) && Related(worlds[i].live, rep, worlds[i].clock)
    decreases i
  {
    hide Inv, DiskStep, Codec.Faithful, Load, Related, Replayed, Read, Sound;
    if i == 0 {
      StartInv();
      var _, _ := ReadCases(c, []);
    } else {
      AlwaysRecoverable(c, worlds, files, events, i - 1);
      DiskStepKeeps(c, worlds[i - 1], files[i - 1], events[i - 1], worlds[i], files[i]);
    }
    InvParts(worlds[i]);
  }

  // ---- without fsync -----------------------------------------------------

  /** A step but a compaction adds at most one record. */
  lemma StepLogs(w: World, e: Event, w': World)
    requires Step(w, e, w') && e != Compact
    ensures w'.log == w.log || (|w'.log| == |w.log| + 1 && w'.log[..|w.log|] == w.log)
  {
    hide Enabled, Effect, Logged, Outcomes, Deliveries, Replayed, StartsFrom;
  }

  /** Every prefix of a log, down to where it stood in world `from`, is the log of an earlier world. */
  lemma {:induction false} PrefixIsEarlier(worlds: seq<World>, events: seq<Event>, from: nat, i: nat, k: nat)
    returns (j: nat)
    requires IsRun(worlds, events) && from <= i < |worlds| && forall x :: from <= x < i ==> events[x] != Compact
    requires |worlds[from].log| <= k <= |worlds[i].log|
    ensures from <= j <= i && worlds[j].log == worlds[i].log[..k]
    decreases i
  {
    hide Step;
    var log := worlds[i].log;
    if k == |log| {
      j := i;
      assert log[..k] == log;
    } else {
      var before := worlds[i - 1].log;
      assert Step(worlds[i - 1], events[i - 1], worlds[i]);
      StepLogs(worlds[i - 1], events[i - 1], worlds[i]);
      j := PrefixIsEarlier(worlds, events, from, i - 1, k);
      assert before[..k] == log[..k];
    }
  }

  /**
   Records that were never synced can be lost, any number of them, but only from
   the end: whatever bytes of the log survive beyond those that were on disk in
   world `from`, they read as the log of some world j since, and replay to a
   state related to what the engine held then.
   */
  lemma UnsyncedCrash(c: Codec, worlds: seq<World>, events: seq<Event>, from: nat, i: nat, cut: nat) returns (j: nat)
    requires c.Faithful() && IsRun(worlds, events) && from <= i < |worlds|
    requires forall x :: from <= x < i ==> events[x] != Compact
    requires |Frame(c, worlds[from].log)| <= cut <= |Frame(c, worlds[i].log)|
    ensures from <= j <= i && Read(c, Frame(c, worlds[i].log)[..cut]).Ok?
    ensures Read(c, Frame(c, worlds[i].log)[..cut]).value.recs == worlds[j].log
    ensures Load(EMPTY, worlds[j].log) == Ok(Replayed(worlds[j]))
    ensures Related(worlds[j].live, Replayed(worlds[j]), worlds[j].clock)
  {
    hide Step, Inv, Codec.Faithful, Read, Frame, Load, Related, Replayed, AllLoggable, Sound;
    var log := worlds[i].log;
    var k := CutPoint(c, log, cut);
    LogsGrow(worlds, events, from, i);
    CutBeyond(c, worlds[from].log, log, cut, k);
    RunInv(worlds, events, i);
    InvLoggable(worlds[i]);
    CrashPrefix(c, log, cut, k);
    j := PrefixIsEarlier(worlds, events, from, i, k);
    RunInv(worlds, events, j);
    InvParts(worlds[j]);
  }

  /** A cut beyond the bytes of a prefix is beyond its records. */
  lemma CutBeyond(c: Codec, prefix: seq<Record>, recs: seq<Record>, cut: nat, k: nat)
    requires prefix <= recs && |Frame(c, prefix)| <= cut
    requires k < |recs| ==> cut < |Frame(c, recs[..k + 1])|
    requires k <= |recs|
    ensures |prefix| <= k
  {
    hide Frame;
    if k < |prefix| {
      FrameWithin(c, prefix, recs, k + 1);
    }
  }

  lemma FrameWithin(c: Codec, prefix: seq<Record>, recs: seq<Record>, k: nat)
    requires prefix <= recs && k <= |prefix|
    ensures |Frame(c, recs[..k])| <= |Frame(c, prefix)|
  {
    hide Frame;
    assert prefix[..k] == recs[..k];
    FramePrefix(c, prefix, k);
  }

  lemma {:induction false} LogsGrow(worlds: seq<World>, events: seq<Event>, from: nat, i: nat)
    requires IsRun(worlds, events) && from <= i < |worlds| && forall x :: from <= x < i ==> events[x] != Compact
    ensures worlds[from].log <= worlds[i].log
    decreases i
  {
    hide Step;
    if from < i {
      LogsGrow(worlds, events, from, i - 1);
      assert Step(worlds[i - 1], events[i - 1], worlds[i]);
      StepLogs(worlds[i - 1], events[i - 1], worlds[i]);
    }
  }

  lemma InvLoggable(w: World)
    requires Inv(w)
    ensures AllLoggable(w.log)
  {
    hide Sound, Related, Past, HistorySound, LeasesKnown, Load, AllLoggable;
  }
}
