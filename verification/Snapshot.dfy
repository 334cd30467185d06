/**
 Log compaction: a history that rebuilds a state, and what loading it gives
 back.
 */
module Snapshot {
  import opened Wrappers
  import opened Config
  import opened Ids
  import opened Record
  import opened State
  import opened Replay
  import opened Framing

  // ---- the order of the records ------------------------------------------

  /** Queue names are compared character by character. */
  predicate NameLess(a: string, b: string) {
    if b == "" then false
    else if a == "" then true
    else a[0] < b[0] || (a[0] == b[0] && NameLess(a[1..], b[1..]))
  }

  lemma {:induction false} NameTotal(a: string, b: string)
    ensures a != b ==> NameLess(a, b) || NameLess(b, a)
    ensures NameLess(a, b) ==> a != b && !NameLess(b, a)
  {
    if a != "" && b != "" {
      NameTotal(a[1..], b[1..]);
      assert a == [a[0]] + a[1..] && b == [b[0]] + b[1..];
    }
  }

  lemma {:induction false} NameTransitive(a: string, b: string, c: string)
    requires NameLess(a, b) && NameLess(b, c)
    ensures NameLess(a, c)
  {
    if a != "" && a[0] == b[0] == c[0] {
      NameTransitive(a[1..], b[1..], c[1..]);
    }
  }

  /** a and b agree on the first k characters, where a ends or has the smaller next one. */
  predicate LessAt(a: string, b: string, k: nat) {
    k <= |a| && k < |b| && a[..k] == b[..k] && (k == |a| || a[k] < b[k])
  }

  /** One name is less than another if it is a proper prefix, or the first characters that differ say so. */
  lemma {:induction false} NameLessExactly(a: string, b: string)
    ensures NameLess(a, b) <==> exists k :: LessAt(a, b, k)
  {
    if a == "" || b == "" {
      assert LessAt(a, b, 0) <==> NameLess(a, b);
    } else {
      NameLessExactly(a[1..], b[1..]);
      assert a == [a[0]] + a[1..] && b == [b[0]] + b[1..];
      forall k: nat ensures a[0] == b[0] ==> (LessAt(a[1..], b[1..], k) <==> LessAt(a, b, k + 1))
      {
        if k < |a| && k < |b| {
          assert a[..k + 1] == [a[0]] + a[1..][..k] && b[..k + 1] == [b[0]] + b[1..][..k];
        }
      }
      forall k: nat | LessAt(a, b, k) ensures NameLess(a, b)
      {
        if k > 0 {
          assert a[0] == a[..k][0] == b[..k][0] == b[0];
          assert LessAt(a[1..], b[1..], k - 1);
        }
      }
      if a[0] < b[0] { assert LessAt(a, b, 0); }
    }
  }

  predicate IsLeastName(n: string, names: set<string>) {
    n in names && forall n' :: n' in names ==> n' == n || NameLess(n, n')
  }

  lemma {:induction false} LeastName(names: set<string>) returns (n: string)
    requires names != {}
    ensures IsLeastName(n, names)
    decreases |names|
  {
    n :| n in names;
    if names != {n} {
      var m := LeastName(names - {n});
      NameTotal(m, n);
      if NameLess(m, n) {
        n := m;
      } else {
        forall n' | n' in names && n' != n
          ensures NameLess(n, n')
        {
          if n' != m { NameTransitive(n, m, n'); }
        }
      }
    }
  }

  ghost function SortNames(names: set<string>): (r: seq<string>)
    ensures |r| == |names|
    ensures forall n :: n in r <==> n in names
    decreases |names|
  {
    if names == {} then []
    else
      assert exists n :: IsLeastName(n, names) by { var n := LeastName(names); }
      var n :| IsLeastName(n, names);
      [n] + SortNames(names - {n})
  }

  /** Sorted names are in strictly increasing order. */
  lemma {:induction false} NamesSorted(names: set<string>)
    ensures forall i, j :: 0 <= i < j < |names| ==> NameLess(SortNames(names)[i], SortNames(names)[j])
    decreases |names|
  {
    if names != {} {
      var r := SortNames(names);
      NamesSorted(names - {r[0]});
      forall i, j | 0 <= i < j < |names| ensures NameLess(r[i], r[j])
      {
        assert r[j] == r[1..][j - 1] && r[j] in SortNames(names - {r[0]});
        if i > 0 { assert r[i] == r[1..][i - 1]; }
      }
    }
  }

  predicate IsLowest(msgs: map<string, Msg>, ids: set<string>, id: string)
    requires ids <= msgs.Keys
  {
    id in ids && forall id' :: id' in ids ==> msgs[id].pos <= msgs[id'].pos
  }

  lemma {:induction false} Lowest(msgs: map<string, Msg>, ids: set<string>) returns (id: string)
    requires ids != {} && ids <= msgs.Keys
    ensures IsLowest(msgs, ids, id)
    decreases |ids|
  {
    id :| id in ids;
    if ids != {id} {
      var other := Lowest(msgs, ids - {id});
      if msgs[other].pos < msgs[id].pos { id := other; }
    }
  }

  /** The given messages in FIFO order. */
  ghost function SortByPos(msgs: map<string, Msg>, ids: set<string>): (r: seq<string>)
    requires ids <= msgs.Keys
    ensures |r| == |ids|
    ensures forall id :: id in r <==> id in ids
    decreases |ids|
  {
    if ids == {} then []
    else
      assert exists id :: IsLowest(msgs, ids, id) by { var id := Lowest(msgs, ids); }
      var id :| IsLowest(msgs, ids, id);
      [id] + SortByPos(msgs, ids - {id})
  }

  lemma {:induction false} SortedByPos(msgs: map<string, Msg>, ids: set<string>)
    requires ids <= msgs.Keys
    ensures forall i, j :: 0 <= i < j < |ids| ==>
      msgs[SortByPos(msgs, ids)[i]].pos <= msgs[SortByPos(msgs, ids)[j]].pos
      && SortByPos(msgs, ids)[i] != SortByPos(msgs, ids)[j]
    decreases |ids|
  {
    if ids != {} {
      var r := SortByPos(msgs, ids);
      SortedByPos(msgs, ids - {r[0]});
      assert r[1..] == SortByPos(msgs, ids - {r[0]});
      forall i, j | 0 <= i < j < |ids|
        ensures msgs[r[i]].pos <= msgs[r[j]].pos && r[i] != r[j]
      {
        assert r[j] == r[1..][j - 1];
        assert r[j] in SortByPos(msgs, ids - {r[0]});
        if i > 0 { assert r[i] == r[1..][i - 1]; }
      }
    }
  }

  // ---- the records -------------------------------------------------------

  function SendRecord(n: string, m: Msg): Record {
    Record(Send, n, id := m.id, ts := m.sentAt, nbf := m.notBefore,
           count := if m.phase == Leased then 0 else m.receives).SetBody(m.body)
  }

  function LeaseRecord(n: string, m: Msg): Record {
    Record(Receive, n, id := m.id, receipt := m.receipt, deadline := m.deadline, count := m.receives)
  }

  function MsgRecords(n: string, m: Msg): seq<Record> {
    [SendRecord(n, m)] + if m.phase == Leased then [LeaseRecord(n, m)] else []
  }

  function MsgsRecords(n: string, msgs: map<string, Msg>, ids: seq<string>): seq<Record>
    requires forall id :: id in ids ==> id in msgs
  {
    if ids == [] then [] else MsgRecords(n, msgs[ids[0]]) + MsgsRecords(n, msgs, ids[1..])
  }

  ghost function QueueRecords(n: string, q: Queue): seq<Record> {
    [Record(QueueCreate, n, config := Marshal(q.cfg))]
    + MsgsRecords(n, q.msgs, SortByPos(q.msgs, q.msgs.Keys))
  }

  ghost function QueuesRecords(s: State, names: seq<string>): seq<Record>
    requires forall n :: n in names ==> n in s.queues
  {
    if names == [] then [] else QueueRecords(names[0], s.queues[names[0]]) + QueuesRecords(s, names[1..])
  }

  ghost function SnapshotOf(s: State): seq<Record> {
    QueuesRecords(s, SortNames(s.queues.Keys))
  }

  // ---- what loading a snapshot gives -------------------------------------

  /** A message as a snapshot keeps it: its position falls back to its ID's number. */
  function Kept(m: Msg): Msg {
    m.(pos := SeqOf(m.id), phase := if m.phase == Leased then Leased else Delayed)
  }

  function KeptQueue(q: Queue): Queue {
    Queue(q.cfg, map id | id in q.msgs :: Kept(q.msgs[id]))
  }

  function KeptQueues(s: State): map<string, Queue> {
    map n | n in s.queues :: KeptQueue(s.queues[n])
  }

  function BumpMsg(counter: nat, m: Msg): nat {
    var c := BumpSeq(counter, m.id);
    if m.phase == Leased then BumpSeq(c, m.receipt) else c
  }

  function BumpMsgs(counter: nat, msgs: map<string, Msg>, ids: seq<string>): nat
    requires forall id :: id in ids ==> id in msgs
    decreases |ids|
  {
    if ids == [] then counter else BumpMsgs(BumpMsg(counter, msgs[ids[0]]), msgs, ids[1..])
  }

  ghost function BumpQueues(counter: nat, s: State, names: seq<string>): nat
    requires forall n :: n in names ==> n in s.queues
    decreases |names|
  {
    if names == [] then counter
    else
      var msgs := s.queues[names[0]].msgs;
      BumpQueues(BumpMsgs(counter, msgs, SortByPos(msgs, msgs.Keys)), s, names[1..])
  }

  /** The state a snapshot of s loads as. */
  ghost function Compacted(s: State): State {
    State(BumpQueues(0, s, SortNames(s.queues.Keys)), KeptQueues(s))
  }

  lemma ApplySend(s: State, n: string, m: Msg, counter: nat)
    requires n in s.queues && SoundMsg(m, m.id, counter)
    ensures Apply(s, SendRecord(n, m)) ==
      Ok(Put(s, n, Kept(m).(phase := Delayed, receipt := "", deadline := 0,
                            receives := if m.phase == Leased then 0 else m.receives))
         .(counter := BumpSeq(s.counter, m.id)))
  {
    hide Base64.Encode, Base64.Decode, Utf8.Valid, FormatId, FormatReceipt, ParseHex, TrimR;
    BodyRoundTrip(SendRecord(n, m), m.body);
  }

  /** The records of one message add it, or its compacted form, to its queue. */
  lemma LoadMsg(s: State, n: string, m: Msg, counter: nat)
    requires n in s.queues && SoundMsg(m, m.id, counter)
    ensures Load(s, MsgRecords(n, m)) == Ok(Put(s, n, Kept(m)).(counter := BumpMsg(s.counter, m)))
  {
    hide BumpSeq, FormatId, FormatReceipt, IsId, IsReceipt, SeqOf, NumberOf, SendRecord;
    ApplySend(s, n, m, counter);
    SendShape(n, m);
    var recs := MsgRecords(n, m);
    var s1 := Apply(s, recs[0]).value;
    if m.phase == Leased {
      assert recs[1..] == [LeaseRecord(n, m)] && recs[1..][1..] == [];
      var s2 := Put(s, n, Kept(m)).(counter := BumpMsg(s.counter, m));
      assert Apply(s1, recs[1]) == Ok(s2) by {
        assert Put(s1, n, Kept(m)).queues[n].msgs == s2.queues[n].msgs;
        assert Put(s1, n, Kept(m)).queues == s2.queues;
      }
      assert Load(s1, recs[1..]) == Load(s2, []);
    } else {
      assert recs[1..] == [];
    }
  }

  lemma SendShape(n: string, m: Msg)
    ensures SendRecord(n, m).op == Send && SendRecord(n, m).queue == n && SendRecord(n, m).id == m.id
  {
  }

  /** s with the listed messages of a queue added to queue n in compacted form. */
  function WithMsgs(s: State, n: string, msgs: map<string, Msg>, ids: seq<string>): State
    requires n in s.queues && forall id :: id in ids ==> id in msgs
    decreases |ids|
  {
    if ids == [] then s
    else
      var m := msgs[ids[0]];
      WithMsgs(Put(s, n, Kept(m)).(counter := BumpMsg(s.counter, m)), n, msgs, ids[1..])
  }

  lemma {:induction false} LoadMsgs(s: State, n: string, msgs: map<string, Msg>, ids: seq<string>, counter: nat)
    requires n in s.queues
    requires forall id :: id in ids ==> id in msgs && SoundMsg(msgs[id], id, counter)
    ensures Load(s, MsgsRecords(n, msgs, ids)) == Ok(WithMsgs(s, n, msgs, ids))
    decreases |ids|
  {
    hide SoundMsg, BumpMsg, Apply, Kept;
    if ids != [] {
      var m := msgs[ids[0]];
      MsgFiled(m, ids[0], counter);
      LoadMsg(s, n, m, counter);
      var s1 := Put(s, n, Kept(m)).(counter := BumpMsg(s.counter, m));
      LoadAppend(s, MsgRecords(n, m), MsgsRecords(n, msgs, ids[1..]));
      LoadMsgs(s1, n, msgs, ids[1..], counter);
    }
  }

  /** WithMsgs adds exactly the listed messages to queue n and changes no other queue. */
  lemma {:induction false} WithMsgsAre(s: State, n: string, msgs: map<string, Msg>, ids: seq<string>, counter: nat,
                                       id: string)
    requires n in s.queues
    requires forall id :: id in ids ==> id in msgs && SoundMsg(msgs[id], id, counter)
    ensures var t := WithMsgs(s, n, msgs, ids);
      && t.counter == BumpMsgs(s.counter, msgs, ids)
      && t.queues.Keys == s.queues.Keys
      && (forall n' :: n' in s.queues && n' != n ==> t.queues[n'] == s.queues[n'])
      && t.queues[n].cfg == s.queues[n].cfg
      && (id in t.queues[n].msgs <==> id in s.queues[n].msgs || id in ids)
      && (id in t.queues[n].msgs ==>
            t.queues[n].msgs[id] == if id in ids then Kept(msgs[id]) else s.queues[n].msgs[id])
    decreases |ids|
  {
    hide SoundMsg, BumpMsg, Kept;
    if ids != [] {
      var m := msgs[ids[0]];
      MsgFiled(m, ids[0], counter);
      WithMsgsAre(Put(s, n, Kept(m)).(counter := BumpMsg(s.counter, m)), n, msgs, ids[1..], counter, id);
    }
  }

  lemma MsgFiled(m: Msg, id: string, counter: nat)
    requires SoundMsg(m, id, counter)
    ensures m.id == id && Kept(m).id == id
  {
  }

  /** The records of a queue the loading engine does not have yet add it whole. */
  lemma LoadQueue(s: State, n: string, q: Queue, counter: nat)
    requires n !in s.queues && SoundConfig(n, q.cfg)
    requires forall id :: id in q.msgs ==> SoundMsg(q.msgs[id], id, counter)
    ensures Load(s, QueueRecords(n, q)) ==
      Ok(State(BumpMsgs(s.counter, q.msgs, SortByPos(q.msgs, q.msgs.Keys)), s.queues[n := KeptQueue(q)]))
  {
    hide SoundMsg, BumpMsgs, Kept, SortByPos, MsgsRecords, WithMsgs, ValidName;
    var ids := SortedIds(q.msgs);
    var head := Record(QueueCreate, n, config := Marshal(q.cfg));
    var s1 := SetConfig(s, n, q.cfg);
    ConfigRoundTrip(q.cfg);
    assert Apply(s, head) == Ok(s1);
    assert QueueRecords(n, q)[1..] == MsgsRecords(n, q.msgs, ids);
    LoadMsgs(s1, n, q.msgs, ids, counter);
    QueueAdded(s, n, q, ids, counter);
  }

  lemma QueueAdded(s: State, n: string, q: Queue, ids: seq<string>, counter: nat)
    requires n !in s.queues
    requires forall id :: id in q.msgs ==> SoundMsg(q.msgs[id], id, counter)
    requires forall id :: id in ids <==> id in q.msgs
    ensures WithMsgs(SetConfig(s, n, q.cfg), n, q.msgs, ids) ==
      State(BumpMsgs(s.counter, q.msgs, ids), s.queues[n := KeptQueue(q)])
  {
    hide SoundMsg, BumpMsgs, Kept, WithMsgs;
    var s1 := SetConfig(s, n, q.cfg);
    var t := WithMsgs(s1, n, q.msgs, ids);
    WithMsgsAre(s1, n, q.msgs, ids, counter, "");
    forall id
      ensures id in t.queues[n].msgs <==> id in q.msgs
      ensures id in q.msgs ==> t.queues[n].msgs[id] == Kept(q.msgs[id])
    {
      WithMsgsAre(s1, n, q.msgs, ids, counter, id);
    }
    assert t.queues[n].msgs == KeptQueue(q).msgs;
    assert t.queues == s.queues[n := KeptQueue(q)];
  }

  lemma SortedIds(msgs: map<string, Msg>) returns (ids: seq<string>)
    ensures ids == SortByPos(msgs, msgs.Keys)
    ensures forall id :: id in ids <==> id in msgs
  {
    ids := SortByPos(msgs, msgs.Keys);
  }

  /** queues with the named queues of s added in compacted form. */
  function AddKept(queues: map<string, Queue>, s: State, names: seq<string>): map<string, Queue>
    requires forall n :: n in names ==> n in s.queues
    decreases |names|
  {
    if names == [] then queues
    else AddKept(queues[names[0] := KeptQueue(s.queues[names[0]])], s, names[1..])
  }

  lemma {:induction false} AddedAre(queues: map<string, Queue>, s: State, names: seq<string>, n: string)
    requires forall n' :: n' in names ==> n' in s.queues
    ensures n in AddKept(queues, s, names) <==> n in queues || n in names
    ensures n in names ==> AddKept(queues, s, names)[n] == KeptQueue(s.queues[n])
    ensures n in queues && n !in names ==> AddKept(queues, s, names)[n] == queues[n]
    decreases |names|
  {
    hide KeptQueue;
    if names != [] {
      AddedAre(queues[names[0] := KeptQueue(s.queues[names[0]])], s, names[1..], n);
    }
  }

  lemma QueueParts(s: State, n: string)
    requires Sound(s) && n in s.queues
    ensures SoundConfig(n, s.queues[n].cfg)
    ensures forall id :: id in s.queues[n].msgs ==> SoundMsg(s.queues[n].msgs[id], id, s.counter)
  {
    assert forall id :: id in s.queues[n].msgs ==> Has(s, n, id);
  }

  lemma {:induction false} LoadQueues(t: State, s: State, names: seq<string>)
    requires Sound(s)
    requires forall n :: n in names ==> n in s.queues && n !in t.queues
    requires forall i, j :: 0 <= i < j < |names| ==> names[i] != names[j]
    ensures Load(t, QueuesRecords(s, names)) ==
      Ok(State(BumpQueues(t.counter, s, names), AddKept(t.queues, s, names)))
    decreases |names|
  {
    hide QueueRecords, KeptQueue, BumpMsgs, SortByPos, SoundMsg, SoundConfig, Apply, Sound;
    if names != [] {
      var n, q := names[0], s.queues[names[0]];
      QueueParts(s, n);
      LoadQueue(t, n, q, s.counter);
      var t1 := State(BumpMsgs(t.counter, q.msgs, SortByPos(q.msgs, q.msgs.Keys)), t.queues[n := KeptQueue(q)]);
      LoadAppend(t, QueueRecords(n, q), QueuesRecords(s, names[1..]));
      LoadQueues(t1, s, names[1..]);
    }
  }

  lemma {:induction false} SortedNamesDistinct(names: set<string>)
    ensures forall i, j :: 0 <= i < j < |names| ==> SortNames(names)[i] != SortNames(names)[j]
    decreases |names|
  {
    if names != {} {
      var r := SortNames(names);
      SortedNamesDistinct(names - {r[0]});
      forall i, j | 0 <= i < j < |names|
        ensures r[i] != r[j]
      {
        assert r[j] == r[1..][j - 1] && r[j] in SortNames(names - {r[0]});
        if i > 0 { assert r[i] == r[1..][i - 1]; }
      }
    }
  }

  /** Every sound state's snapshot loads, and gives the compacted state. */
  lemma SnapshotLoads(s: State)
    requires Sound(s)
    ensures Load(EMPTY, SnapshotOf(s)) == Ok(Compacted(s))
  {
    hide Sound, KeptQueue, BumpQueues, Load, SortNames, QueuesRecords, AddKept;
    SortedNamesDistinct(s.queues.Keys);
    var names := SortedNamesOf(s);
    LoadQueues(EMPTY, s, names);
    var added := AddKept(map[], s, names);
    forall n ensures (n in added <==> n in s.queues) && (n in s.queues ==> added[n] == KeptQueue(s.queues[n]))
    {
      AddedAre(map[], s, names, n);
    }
    assert added == KeptQueues(s);
  }

  lemma SortedNamesOf(s: State) returns (names: seq<string>)
    ensures names == SortNames(s.queues.Keys) && |names| == |s.queues.Keys|
    ensures forall n :: n in names <==> n in s.queues
  {
    names := SortNames(s.queues.Keys);
  }

  // ---- the records can be written ----------------------------------------

  lemma MsgLoggable(n: string, m: Msg, counter: nat)
    requires n != "" && SoundMsg(m, m.id, counter)
    ensures AllLoggable(MsgRecords(n, m))
  {
    hide Base64.Encode, FormatId, FormatReceipt, ParseHex, TrimR, Utf8.RuneLen;
    IdRoundTrip(SeqOf(m.id));
    BodyRoundTrip(Record(Send, n, id := m.id, ts := m.sentAt, nbf := m.notBefore,
                         count := if m.phase == Leased then 0 else m.receives), m.body);
  }

  lemma {:induction false} MsgsLoggable(n: string, msgs: map<string, Msg>, ids: seq<string>, counter: nat)
    requires n != ""
    requires forall id :: id in ids ==> id in msgs && SoundMsg(msgs[id], id, counter)
    ensures AllLoggable(MsgsRecords(n, msgs, ids))
    decreases |ids|
  {
    hide MsgRecords, SoundMsg, Loggable;
    if ids != [] {
      MsgFiled(msgs[ids[0]], ids[0], counter);
      MsgLoggable(n, msgs[ids[0]], counter);
      MsgsLoggable(n, msgs, ids[1..], counter);
    }
  }

  lemma {:induction false} QueuesLoggable(s: State, names: seq<string>)
    requires Sound(s) && forall n :: n in names ==> n in s.queues
    ensures AllLoggable(QueuesRecords(s, names))
    decreases |names|
  {
    hide Sound, MsgsRecords, SoundMsg, SortByPos;
    if names != [] {
      var n, q := names[0], s.queues[names[0]];
      QueueParts(s, n);
      var ids := SortedIds(q.msgs);
      MsgsLoggable(n, q.msgs, ids, s.counter);
      QueuesLoggable(s, names[1..]);
    }
  }

  /** Every record of a snapshot is one the log accepts. */
  lemma SnapshotLoggable(s: State)
    requires Sound(s)
    ensures AllLoggable(SnapshotOf(s))
  {
    hide Sound, QueuesRecords, SortNames;
    var names := SortedNamesOf(s);
    QueuesLoggable(s, names);
  }
}
