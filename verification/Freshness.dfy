/** Identifiers issued next differ from every identifier in the log. */
module Freshness {
  import opened Config
  import opened Ids
  import opened Record
  import Framing
  import opened State
  import opened Replay
  import opened Steps
  import opened ReplaySteps
  import opened Snapshot
  import opened Compaction
  import opened Runs

  predicate RecordBounded(r: Record, limit: nat) {
    NumberOf(r.id) <= limit && NumberOf(r.receipt) <= limit
  }

  ghost predicate LogBounded(log: seq<Record>, limit: nat) {
    forall i :: 0 <= i < |log| ==> RecordBounded(log[i], limit)
  }

  lemma EmptyNumber()
    ensures NumberOf("") == 0
  {
  }

  /** The number of an ID is its sequence number. */
  lemma IdNumber(id: string)
    requires IsId(id)
    ensures NumberOf(id) == SeqOf(id)
  {
    hide FormatId, ParseHex, TrimR;
    IdRoundTrip(SeqOf(id));
  }

  /** A live record's numbers are bounded by the counter of the state it replays to. */
  lemma LoggedBounded(live: State, rep: State, a: Action, now: int)
    requires Sound(live) && Sound(rep) && Related(live, rep, now) && Enabled(live, a, now)
    requires Logged(live, a, now).Some? && Apply(rep, Logged(live, a, now).value).Ok?
    ensures RecordBounded(Logged(live, a, now).value, Apply(rep, Logged(live, a, now).value).value.counter)
  {
    hide Sound, Related, Apply, NumberOf, FormatId, FormatReceipt, ValidName, IsFirst, Base64.Encode, Utf8.Valid,
      IsId, IsReceipt;
    EmptyNumber();
    IdRoundTrip(live.counter + 1);
    CounterFollows(live, rep, a, now);
    if a.Grant? || a.Settle? || a.Return? || a.Prolong? || a.Bury? || a.Shift? {
      BothHave(live, rep, now, a.queue, a.id);
      IdNumber(a.id);
    }
  }

  lemma BoundedMore(log: seq<Record>, r: Record, limit: nat, limit': nat)
    requires LogBounded(log, limit) && RecordBounded(r, limit') && limit <= limit'
    ensures LogBounded(log + [r], limit')
  {
    hide NumberOf;
  }

  lemma {:induction false} MsgsBounded(n: string, msgs: map<string, Msg>, ids: seq<string>, limit: nat, counter: nat)
    requires forall id :: id in ids ==> id in msgs && SoundMsg(msgs[id], id, counter) && Within(msgs[id], limit)
    ensures LogBounded(MsgsRecords(n, msgs, ids), limit)
    decreases |ids|
  {
    hide SoundMsg, Within, RecordBounded, MsgRecords;
    if ids != [] {
      MsgBounded(n, msgs[ids[0]], ids[0], limit, counter);
      MsgsBounded(n, msgs, ids[1..], limit, counter);
    }
  }

  lemma MsgBounded(n: string, m: Msg, id: string, limit: nat, counter: nat)
    requires SoundMsg(m, id, counter) && Within(m, limit)
    ensures forall i :: 0 <= i < |MsgRecords(n, m)| ==> RecordBounded(MsgRecords(n, m)[i], limit)
  {
    hide NumberOf, SeqOf, FormatId, FormatReceipt, Base64.Encode, Utf8.Valid, IsId, IsReceipt;
    EmptyNumber();
    IdNumber(id);
    assert Carries(m, SeqOf(id));
    assert m.phase == Leased ==> Carries(m, NumberOf(m.receipt));
  }

  lemma {:induction false} QueuesBounded(s: State, names: seq<string>, limit: nat)
    requires Sound(s) && IsLargest(s, limit)
    requires forall n :: n in names ==> n in s.queues
    ensures LogBounded(QueuesRecords(s, names), limit)
    decreases |names|
  {
    hide Sound, SoundMsg, Within, SortByPos, MsgsRecords, NumberOf;
    if names != [] {
      var n, q := names[0], s.queues[names[0]];
      QueueParts(s, n);
      EmptyNumber();
      assert forall id :: id in q.msgs ==> Has(s, n, id);
      var ids := SortedIds(q.msgs);
      MsgsBounded(n, q.msgs, ids, limit, s.counter);
      QueuesBounded(s, names[1..], limit);
    }
  }

  lemma SnapshotBounded(s: State)
    requires Sound(s)
    ensures LogBounded(SnapshotOf(s), Compacted(s).counter)
  {
    hide Sound, QueuesRecords, SortNames, IsLargest, BumpQueues, RecordBounded;
    CompactedCounter(s);
    var names := SortedNamesOf(s);
    QueuesBounded(s, names, Compacted(s).counter);
  }

  lemma DoBounded(w: World, a: Action)
    requires Inv(w) && Enabled(w.live, a, w.clock) && LogBounded(w.log, Replayed(w).counter)
    ensures LogBounded(Acts(w, a).log, Replayed(Acts(w, a)).counter)
  {
    hide Sound, Related, Past, HistorySound, LeasesKnown, Enabled, Effect, Logged, Outcomes, Deliveries, Apply, Load,
      Framing.AllLoggable, RecordBounded;
    var live, rep, now := w.live, Replayed(w), w.clock;
    match Logged(live, a, now)
    case None =>
    case Some(r) =>
      ReplayFollows(live, rep, a, now);
      LoadOne(w.log, r);
      LoggedBounded(live, rep, a, now);
      CounterFollows(live, rep, a, now);
      BoundedMore(w.log, r, rep.counter, Apply(rep, r).value.counter);
  }

  lemma StepBounded(w: World, e: Event, w': World)
    requires Inv(w) && Step(w, e, w') && LogBounded(w.log, Replayed(w).counter)
    ensures LogBounded(w'.log, Replayed(w').counter)
  {
    hide Inv, LogBounded, Enabled, Acts, StartsFrom, SnapshotOf, Compacted, Load, Sound;
    match e
    case Do(a) => DoBounded(w, a);
    case Restart =>
    case Compact =>
      CompactKeepsInv(w, w');
      InvParts(w);
      SnapshotBounded(Replayed(w));
  }

  lemma {:induction false} RunBounded(worlds: seq<World>, events: seq<Event>, i: nat)
    requires IsRun(worlds, events) && i < |worlds|
    ensures LogBounded(worlds[i].log, Replayed(worlds[i]).counter)
    decreases i
  {
    hide Inv, Step, RecordBounded;
    if i > 0 {
      RunBounded(worlds, events, i - 1);
      RunInv(worlds, events, i - 1);
      StepBounded(worlds[i - 1], events[i - 1], worlds[i]);
    }
  }

  /**
   In every state of every run, before and after a restart, the ID and the
   receipt issued next occur in no record of the log.
   */
  lemma NextIdentifiersAreFresh(worlds: seq<World>, events: seq<Event>, i: nat, r: Record, n: nat)
    requires IsRun(worlds, events) && i < |worlds| && r in worlds[i].log
    requires n > worlds[i].live.counter || n > Replayed(worlds[i]).counter
    ensures r.id != FormatId(n) && r.id != FormatReceipt(n)
    ensures r.receipt != FormatReceipt(n) && r.receipt != FormatId(n)
  {
    hide Inv, Step, NumberOf, FormatId, FormatReceipt, Replayed, Sound;
    RunBounded(worlds, events, i);
    RunInv(worlds, events, i);
    InvParts(worlds[i]);
    IdRoundTrip(n);
    assert RecordBounded(r, Replayed(worlds[i]).counter);
  }
}
