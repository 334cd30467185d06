/** What replay may rely on in logs the engine writes. */
module OrderlyLogs {
  import opened Config
  import opened Ids
  import opened Record
  import opened Sequences
  import opened State
  import opened Replay
  import opened Steps
  import opened ReplaySteps
  import opened Snapshot
  import opened Runs

  /**
   r is in order after s: it sends no message that exists, returns or extends
   only a lease, and moves no message to the queue it is in.
   */
  ghost predicate Orderly(s: State, r: Record) {
    && (r.op == Send ==> forall n :: !Has(s, n, r.id))
    && (r.op == Nack || r.op == Extend ==> Has(s, r.queue, r.id) ==> At(s, r.queue, r.id).phase != Ready)
    && (r.op == Dead || r.op == Move ==> r.to != r.queue)
  }

  /** Every record is in order after those before it. */
  ghost predicate OrderlyLog(recs: seq<Record>) {
    forall i :: 0 <= i < |recs| && Load(EMPTY, recs[..i]).Ok? ==> Orderly(Load(EMPTY, recs[..i]).value, recs[i])
  }

  lemma OrderlyMore(recs: seq<Record>, r: Record)
    requires OrderlyLog(recs) && Load(EMPTY, recs).Ok? && Orderly(Load(EMPTY, recs).value, r)
    ensures OrderlyLog(recs + [r])
  {
    hide Orderly, Load;
    var all := recs + [r];
    forall i | 0 <= i < |all| && Load(EMPTY, all[..i]).Ok?
      ensures Orderly(Load(EMPTY, all[..i]).value, all[i])
    {
      assert all[..i] == if i < |recs| then recs[..i] else recs;
    }
  }

  // ---- the engine's records ----------------------------------------------

  /** What an action logs, as far as order is concerned. */
  lemma LoggedShape(s: State, a: Action, now: int)
    requires Enabled(s, a, now) && Logged(s, a, now).Some?
    ensures var r := Logged(s, a, now).value;
      && (r.op == Send ==> r.id == FormatId(s.counter + 1))
      && (r.op == Nack || r.op == Extend ==> r.queue == a.queue && r.id == a.id && IsLeased(s, r.queue, r.id))
      && (r.op == Dead ==> r.queue in s.queues && r.to == s.queues[r.queue].cfg.deadLetter && r.queue == a.queue)
      && (r.op == Move ==> r.to != r.queue)
  {
    hide FormatId, FormatReceipt, ValidName, IsFirst, Base64.Encode, Utf8.Valid;
  }

  lemma LoggedOrderly(w: World, a: Action)
    requires Inv(w) && Enabled(w.live, a, w.clock) && Logged(w.live, a, w.clock).Some?
    ensures Orderly(Replayed(w), Logged(w.live, a, w.clock).value)
  {
    hide Inv, Sound, Related, FormatId, Enabled, Logged, Load, Replayed, ValidName;
    InvParts(w);
    LoggedShape(w.live, a, w.clock);
    var live, rep, now, r := w.live, Replayed(w), w.clock, Logged(w.live, a, w.clock).value;
    SameQueues(live, rep, now);
    if r.op == Send {
      forall n ensures !Has(rep, n, r.id) { NextIdIsFresh(live, n); }
    }
    if r.op == Nack || r.op == Extend { BothHave(live, rep, now, r.queue, r.id); }
    if r.op == Dead { QueueNamed(live, r.queue); }
  }

  // ---- snapshots ---------------------------------------------------------

  /** The IDs of the messages sent by recs, in order. */
  function SendIds(recs: seq<Record>): seq<string> {
    if recs == [] then []
    else (if recs[0].op == Send then [recs[0].id] else []) + SendIds(recs[1..])
  }

  lemma {:induction false} SendIdsAppend(a: seq<Record>, b: seq<Record>)
    ensures SendIds(a + b) == SendIds(a) + SendIds(b)
    decreases |a|
  {
    if a == [] {
      assert a + b == b;
    } else {
      assert (a + b)[1..] == a[1..] + b;
      SendIdsAppend(a[1..], b);
    }
  }

  lemma ApplyIds(s: State, r: Record, n: string, id: string)
    requires Apply(s, r).Ok? && Has(Apply(s, r).value, n, id) && Filed(s)
    ensures (r.op == Send && r.id == id) || exists n' :: Has(s, n', id)
  {
    hide ParseConfig, BumpSeq, SeqOf, Base64.Decode;
    if !(r.op == Send && r.id == id) && !Has(s, n, id) {
      assert Has(s, r.queue, r.id) && id == At(s, r.queue, r.id).id;
    }
  }

  lemma ApplyFiled(s: State, r: Record)
    requires Apply(s, r).Ok? && Filed(s) && Orderly(s, r)
    ensures Filed(Apply(s, r).value)
  {
    hide ParseConfig, BumpSeq, SeqOf, Base64.Decode;
    var s' := Apply(s, r).value;
    assert Has(s, r.queue, r.id) ==> At(s, r.queue, r.id).id == r.id;
    forall n, id | Has(s', n, id)
      ensures At(s', n, id).id == id
      ensures Has(s, n, id) || (r.op == Send && n == r.queue && id == r.id)
           || ((r.op == Dead || r.op == Move) && n == r.to && id == r.id
                && Has(s, r.queue, id) && !Has(s', r.queue, id))
    {
      assert Has(s, n, id) ==> At(s, n, id).id == id;
    }
  }

  /** Only messages sent are ever filed, each under its own ID in one queue. */
  lemma {:induction false} LoadedIds(recs: seq<Record>)
    requires Load(EMPTY, recs).Ok? && OrderlyLog(recs)
    ensures Filed(Load(EMPTY, recs).value)
    ensures forall n, id :: Has(Load(EMPTY, recs).value, n, id) ==> id in SendIds(recs)
    decreases |recs|
  {
    hide Apply, Orderly, Filed;
    if recs == [] {
      EmptyFiled();
    } else {
      var k := |recs| - 1;
      var before, r := recs[..k], recs[k];
      assert recs == before + [r];
      LoadAppend(EMPTY, before, [r]);
      OrderlyPrefix(recs, k);
      LoadedIds(before);
      LoadOne(before, r);
      SendIdsAppend(before, [r]);
      assert Orderly(Load(EMPTY, recs[..k]).value, recs[k]);
      ApplyFiled(Load(EMPTY, before).value, r);
      forall n, id | Has(Load(EMPTY, recs).value, n, id) ensures id in SendIds(recs)
      {
        ApplyIds(Load(EMPTY, before).value, r, n, id);
        assert SendIds([r]) == (if r.op == Send then [r.id] else []) + SendIds([r][1..]);
      }
    }
  }

  lemma EmptyFiled()
    ensures Filed(EMPTY)
  {
  }

  lemma OrderlyPrefix(recs: seq<Record>, k: nat)
    requires OrderlyLog(recs) && k <= |recs|
    ensures OrderlyLog(recs[..k])
  {
    hide Load, Orderly;
    forall i | 0 <= i < k && Load(EMPTY, recs[..k][..i]).Ok?
      ensures Orderly(Load(EMPTY, recs[..k][..i]).value, recs[..k][i])
    {
      assert recs[..k][..i] == recs[..i];
    }
  }

  /** A log of creations, sends and leases is in order if it sends no message twice. */
  lemma {:induction false} SendsOrderly(recs: seq<Record>)
    requires forall r :: r in recs ==> SnapshotOp(r)
    requires NoRepeats(SendIds(recs))
    ensures OrderlyLog(recs)
    decreases |recs|
  {
    hide Load, SendIds, NoRepeats;
    if recs != [] {
      var k := |recs| - 1;
      var before, r := recs[..k], recs[k];
      assert recs == before + [r];
      SendIdsAppend(before, [r]);
      OneSendId(r);
      NoRepeatsSplit(SendIds(before), SendIds([r]));
      SendsOrderly(before);
      forall i | 0 <= i < |recs| && Load(EMPTY, recs[..i]).Ok?
        ensures Orderly(Load(EMPTY, recs[..i]).value, recs[i])
      {
        assert recs[k] in recs;
        if i < k {
          assert recs[..i] == before[..i] && recs[i] == before[i];
          assert Orderly(Load(EMPTY, before[..i]).value, before[i]);
        } else {
          assert recs[..i] == before;
          LoadedIds(before);
          assert r.op == Send ==> r.id in SendIds([r]);
        }
      }
    }
  }

  lemma {:induction false} MsgsSendIds(n: string, msgs: map<string, Msg>, ids: seq<string>)
    requires forall id :: id in ids ==> id in msgs && msgs[id].id == id
    ensures SendIds(MsgsRecords(n, msgs, ids)) == ids
    ensures forall r :: r in MsgsRecords(n, msgs, ids) ==> r.op == Send || r.op == Receive
    decreases |ids|
  {
    hide SendRecord, LeaseRecord;
    if ids != [] {
      var m := msgs[ids[0]];
      SendShape(n, m);
      LeaseShape(n, m);
      MsgSendIds(n, m);
      MsgsSendIds(n, msgs, ids[1..]);
      SendIdsAppend(MsgRecords(n, m), MsgsRecords(n, msgs, ids[1..]));
      assert ids == [ids[0]] + ids[1..];
    }
  }

  lemma OneSendId(r: Record)
    ensures SendIds([r]) == if r.op == Send then [r.id] else []
  {
    assert [r][1..] == [];
  }

  lemma LeaseShape(n: string, m: Msg)
    ensures LeaseRecord(n, m).op == Receive
  {
  }

  lemma MsgSendIds(n: string, m: Msg)
    ensures SendIds(MsgRecords(n, m)) == [m.id]
  {
    hide SendRecord, LeaseRecord;
    SendShape(n, m);
    LeaseShape(n, m);
    OneSendId(SendRecord(n, m));
    OneSendId(LeaseRecord(n, m));
    SendIdsAppend([SendRecord(n, m)], [LeaseRecord(n, m)]);
    SendIdsAppend([SendRecord(n, m)], []);
  }

  predicate SnapshotOp(r: Record) {
    r.op == QueueCreate || r.op == Send || r.op == Receive
  }

  lemma SortedHasNoRepeats(msgs: map<string, Msg>)
    ensures NoRepeats(SortByPos(msgs, msgs.Keys))
  {
    hide SortByPos;
    SortedByPos(msgs, msgs.Keys);
    DistinctHasNoRepeats(SortByPos(msgs, msgs.Keys));
  }

  /** The records of a queue send its messages once each. */
  lemma QueueSendIds(s: State, n: string)
    requires Filed(s) && n in s.queues
    ensures NoRepeats(SendIds(QueueRecords(n, s.queues[n])))
    ensures forall id :: id in SendIds(QueueRecords(n, s.queues[n])) ==> Has(s, n, id)
    ensures forall r :: r in QueueRecords(n, s.queues[n]) ==> SnapshotOp(r)
  {
    hide SortByPos, MsgsRecords, SendIds, NoRepeats;
    var q := s.queues[n];
    var ids := SortedIds(q.msgs);
    SortedHasNoRepeats(q.msgs);
    assert forall id :: id in q.msgs ==> Has(s, n, id);
    MsgsSendIds(n, q.msgs, ids);
    var head := Record(QueueCreate, n, config := Marshal(q.cfg));
    SendIdsAppend([head], MsgsRecords(n, q.msgs, ids));
    OneSendId(head);
    assert SendIds(QueueRecords(n, q)) == ids;
  }

  lemma {:induction false} QueuesSendIds(s: State, names: seq<string>)
    requires Filed(s) && forall n :: n in names ==> n in s.queues
    requires forall i, j :: 0 <= i < j < |names| ==> names[i] != names[j]
    ensures NoRepeats(SendIds(QueuesRecords(s, names)))
    ensures forall r :: r in QueuesRecords(s, names) ==> SnapshotOp(r)
    ensures forall id :: id in SendIds(QueuesRecords(s, names)) ==> exists n :: n in names && Has(s, n, id)
    decreases |names|
  {
    hide QueueRecords, SendIds, NoRepeats, SnapshotOp;
    if names == [] {
      NoSendIds();
    } else {
      var n := names[0];
      var head, rest := QueueRecords(n, s.queues[n]), QueuesRecords(s, names[1..]);
      QueueSendIds(s, n);
      QueuesSendIds(s, names[1..]);
      SendIdsAppend(head, rest);
      forall id | id in SendIds(rest) ensures id !in SendIds(head)
      {
        var n' :| n' in names[1..] && Has(s, n', id);
        assert id in SendIds(head) ==> Has(s, n, id);
      }
      NoRepeatsJoin(SendIds(head), SendIds(rest));
      forall id | id in SendIds(head) + SendIds(rest) ensures exists n' :: n' in names && Has(s, n', id)
      {
        if id in SendIds(head) {
          assert n in names && Has(s, n, id);
        } else {
          var n' :| n' in names[1..] && Has(s, n', id);
          assert n' in names;
        }
      }
    }
  }

  lemma NoSendIds()
    ensures SendIds([]) == [] && NoRepeats(SendIds([]))
  {
  }

  lemma SnapshotOrderly(s: State)
    requires Sound(s)
    ensures OrderlyLog(SnapshotOf(s))
  {
    hide Sound, QueuesRecords, SortNames;
    SoundIsFiled(s);
    SortedNamesDistinct(s.queues.Keys);
    var names := SortedNamesOf(s);
    QueuesSendIds(s, names);
    SendsOrderly(SnapshotOf(s));
  }

  // ---- all logs ----------------------------------------------------------

  lemma StepOrderly(w: World, e: Event, w': World)
    requires Inv(w) && Step(w, e, w') && OrderlyLog(w.log)
    ensures OrderlyLog(w'.log)
  {
    hide Inv, OrderlyLog, Enabled, Effect, Logged, Outcomes, Deliveries, Orderly, Sound, SnapshotOf, StartsFrom, Load;
    InvParts(w);
    match e
    case Restart =>
    case Compact => SnapshotOrderly(Replayed(w));
    case Do(a) =>
      if Logged(w.live, a, w.clock).Some? {
        LoggedOrderly(w, a);
        OrderlyMore(w.log, Logged(w.live, a, w.clock).value);
      }
  }

  lemma {:induction false} RunOrderly(worlds: seq<World>, events: seq<Event>, i: nat)
    requires IsRun(worlds, events) && i < |worlds|
    ensures OrderlyLog(worlds[i].log)
    decreases i
  {
    hide Inv, Step;
    if i > 0 {
      RunOrderly(worlds, events, i - 1);
      RunInv(worlds, events, i - 1);
      StepOrderly(worlds[i - 1], events[i - 1], worlds[i]);
    }
  }

  /** The log of every run is in order. */
  lemma LogsAreOrderly(w: World)
    requires Reachable(w)
    ensures OrderlyLog(w.log)
  {
    hide Inv, Step, OrderlyLog;
    var worlds, events :| IsRun(worlds, events) && worlds[|events|] == w;
    RunOrderly(worlds, events, |events|);
  }
}
