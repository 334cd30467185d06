/** What rewriting the log keeps, and which identifiers can come back. */
module CompactionLaws {
  import opened Wrappers
  import opened Ids
  import opened Framing
  import opened State
  import opened Replay
  import opened Steps
  import opened Snapshot
  import opened Compaction
  import opened Sweeping
  import opened SweepLaws
  import opened Agreement
  import opened Runs

  // ---- contents ----------------------------------------------------------

  /** The compacted form of a state holds the same contents. */
  lemma CompactedContents(s: State, now: int)
    requires Past(s, now) && Filed(s)
    ensures SameContents(s, Compacted(s), now)
  {
    hide BumpQueues, SortNames;
    forall n, id
      ensures Has(s, n, id) <==> Has(Compacted(s), n, id)
      ensures Has(s, n, id) ==> MsgRelated(At(s, n, id), At(Compacted(s), n, id), now)
    {
      KeptAt(s, n, id);
    }
  }

  lemma ContentsTransitive(a: State, b: State, c: State, now: int)
    requires SameContents(a, b, now) && SameContents(b, c, now)
    ensures SameContents(a, c, now)
  {
    forall n, id
      ensures Has(a, n, id) <==> Has(c, n, id)
      ensures Has(a, n, id) ==> MsgRelated(At(a, n, id), At(c, n, id), now)
    {
      assert Has(a, n, id) <==> Has(b, n, id);
    }
  }

  /** Compaction neither adds nor removes stale messages. */
  lemma CompactedStale(live: State, s: State, n: string, id: string)
    ensures Stale(live, Compacted(s), n, id) <==> Stale(live, s, n, id)
  {
    hide BumpQueues, SortNames;
    KeptAt(s, n, id);
  }

  /** In every queue, FIFO order is the order of the message IDs. */
  ghost predicate OrderedByIds(s: State) {
    forall n, id, id' :: Has(s, n, id) && Has(s, n, id') ==>
      (At(s, n, id).pos < At(s, n, id').pos <==> SeqOf(id) < SeqOf(id'))
  }

  lemma CompactedOrder(live: State, s: State, now: int)
    requires SameContents(live, s, now) && Filed(s)
    ensures SameOrder(live, Compacted(s)) <==> OrderedByIds(live)
  {
    hide BumpQueues, SortNames, SeqOf, MsgRelated;
    forall n, id
      ensures Has(live, n, id) <==> Has(Compacted(s), n, id)
      ensures Has(live, n, id) ==> At(Compacted(s), n, id).pos == SeqOf(id)
    {
      KeptAt(s, n, id);
      assert Has(live, n, id) <==> Has(s, n, id);
    }
  }

  /**
   Compaction preserves meaning.  Take any state of any run, compact the log
   and reopen it: the log loads, and if the engine that was stopped had nothing
   due at `now`, the new engine swept at `now` has every queue, configuration,
   message, receive count, delay and lease of the old one exactly when no
   message is stale; then FIFO order is kept exactly when it was the order of
   the message IDs.
   */
  lemma CompactionPreserves(worlds: seq<World>, events: seq<Event>, i: nat, after: World, now: int, swept: State)
    requires IsRun(worlds, events) && i < |worlds| && Step(worlds[i], Compact, after)
    requires worlds[i].clock <= now && QuietAt(worlds[i].live, now)
    requires SweptAll(after.live, swept, now, {})
    ensures Load(EMPTY, after.log) == Ok(after.live)
    ensures Agrees(worlds[i].live, swept) <==> NoneStale(worlds[i].live, Replayed(worlds[i]))
    ensures Agrees(worlds[i].live, swept) ==>
      (SameOrder(worlds[i].live, swept) <==> OrderedByIds(worlds[i].live))
  {
    hide IsRun, Step, Inv, Sound, SameContents, SameOrder, QuietAt, SweptAll, Agrees, Replayed, Load, Compacted,
      OrderedByIds, Stale, Filed, Past;
    var w := worlds[i];
    var live, rep := w.live, Replayed(w);
    RunInv(worlds, events, i);
    CompactKeepsInv(w, after);
    InvKeeps(w);
    InvKeeps(after);
    CompactedContents(rep, w.clock);
    ContentsTransitive(live, rep, after.live, w.clock);
    CompactedOrder(live, rep, w.clock);
    forall n, id ensures Stale(live, after.live, n, id) <==> Stale(live, rep, n, id)
    {
      CompactedStale(live, rep, n, id);
    }
    SweptReplayAgrees(live, after.live, swept, w.clock, now);
    CompactReplays(w, after);
  }

  lemma InvKeeps(w: World)
    requires Inv(w)
    ensures Load(EMPTY, w.log) == Ok(Replayed(w))
    ensures Sound(w.live) && Sound(Replayed(w)) && Filed(Replayed(w)) && Past(Replayed(w), w.clock)
    ensures SameContents(w.live, Replayed(w), w.clock)
  {
    hide Sound, SameContents, SameOrder, HistorySound, LeasesKnown, Past, Filed;
    SoundIsFiled(Replayed(w));
    PastReplayed(w.live, Replayed(w), w.clock);
  }

  lemma CompactReplays(w: World, w': World)
    requires Step(w, Compact, w')
    ensures w'.live == Replayed(w')
  {
    hide StartsFrom, SnapshotOf, Replayed;
  }

  // ---- idempotence -------------------------------------------------------

  /** Compacting a compacted log rewrites it as it is. */
  lemma CompactionIsIdempotent(s: State)
    requires Sound(s)
    ensures Load(EMPTY, SnapshotOf(s)) == Ok(Compacted(s))
    ensures Load(EMPTY, SnapshotOf(Compacted(s))) == Ok(Compacted(s))
  {
    hide Sound, SnapshotOf, Compacted, Load;
    SnapshotLoads(s);
    CompactedSound(s);
    SnapshotLoads(Compacted(s));
    CompactedIsFixed(s);
  }

  // ---- size --------------------------------------------------------------

  function LeasedIds(msgs: map<string, Msg>): set<string> {
    set id | id in msgs && msgs[id].phase == Leased
  }

  lemma {:induction false} MsgsCount(n: string, msgs: map<string, Msg>, ids: seq<string>, all: set<string>)
    requires forall id :: id in ids <==> id in all
    requires forall id :: id in ids ==> id in msgs
    requires |ids| == |all|
    ensures |MsgsRecords(n, msgs, ids)| == |all| + |LeasedIds(msgs) * all|
    decreases |ids|
  {
    if ids == [] {
      assert LeasedIds(msgs) * all == {};
    } else {
      var rest := all - {ids[0]};
      if ids[0] in ids[1..] {
        FirstIsAlone(ids, all);
      }
      MsgsCount(n, msgs, ids[1..], rest);
      assert LeasedIds(msgs) * all ==
        LeasedIds(msgs) * rest + (if msgs[ids[0]].phase == Leased then {ids[0]} else {});
    }
  }

  /** A sequence as long as its set of elements has no repetition. */
  lemma {:induction false} FirstIsAlone(ids: seq<string>, all: set<string>)
    requires forall id :: id in ids <==> id in all
    requires |ids| == |all| > 0
    ensures ids[0] !in ids[1..]
  {
    if ids[0] in ids[1..] {
      AtMost(ids[1..], all);
    }
  }

  lemma {:induction false} AtMost(ids: seq<string>, all: set<string>)
    requires forall id :: id in all ==> id in ids
    ensures |all| <= |ids|
    decreases |ids|
  {
    if all != {} {
      AtMost(ids[1..], all - {ids[0]});
    }
  }

  /** The records a snapshot spends on a queue. */
  function QueueSize(q: Queue): nat {
    1 + |q.msgs| + |LeasedIds(q.msgs)|
  }

  /** One record per queue, one per message and one per lease, over the named queues. */
  function TotalSize(s: State, names: seq<string>): nat
    requires forall n :: n in names ==> n in s.queues
  {
    if names == [] then 0 else QueueSize(s.queues[names[0]]) + TotalSize(s, names[1..])
  }

  lemma QueueCount(n: string, q: Queue)
    ensures |QueueRecords(n, q)| == QueueSize(q)
  {
    hide SortByPos;
    var ids := SortedIds(q.msgs);
    SortedLength(q.msgs);
    MsgsCount(n, q.msgs, ids, q.msgs.Keys);
    assert LeasedIds(q.msgs) * q.msgs.Keys == LeasedIds(q.msgs);
  }

  lemma SortedLength(msgs: map<string, Msg>)
    ensures |SortByPos(msgs, msgs.Keys)| == |msgs.Keys| == |msgs|
  {
  }

  lemma {:induction false} QueuesCount(s: State, names: seq<string>)
    requires forall n :: n in names ==> n in s.queues
    ensures |QueuesRecords(s, names)| == TotalSize(s, names)
    decreases |names|
  {
    hide QueueSize, QueueRecords;
    if names != [] {
      QueueCount(names[0], s.queues[names[0]]);
      QueuesCount(s, names[1..]);
    }
  }

  /** A snapshot has one record per queue, one per message, and one per lease. */
  lemma SnapshotSize(s: State)
    ensures forall n :: n in SortNames(s.queues.Keys) <==> n in s.queues
    ensures |SnapshotOf(s)| == TotalSize(s, SortNames(s.queues.Keys))
  {
    hide QueuesRecords, TotalSize, SortNames;
    var names := SortedNamesOf(s);
    QueuesCount(s, names);
  }

  // ---- compaction is always possible -------------------------------------

  /** The history with which the log of s starts over. */
  ghost function NewHistory(s: State): History
    requires OneHome(s)
  {
    var f := Flatten(s);
    History(map id | id in f :: In(f[id].queue),
            map id | id in f && f[id].msg.phase == Leased :: f[id].msg.receipt, [])
  }

  lemma NewHistoryStarts(s: State)
    requires Sound(s) && OneHome(s)
    ensures StartsFrom(NewHistory(s), s)
  {
    hide Flatten, SoundConfig, IsId, IsReceipt, SeqOf, NumberOf;
    FlatHolds(s);
    var h, f := NewHistory(s), Flatten(s);
    forall n, id | Has(s, n, id) ensures id in h.outcomes && h.outcomes[id] == In(n) { }
    forall n, id | IsLeased(s, n, id) ensures id in h.inherited && h.inherited[id] == At(s, n, id).receipt { }
    forall id | id in h.inherited ensures NumberOf(h.inherited[id]) <= s.counter
    {
      assert Has(s, f[id].queue, id);
    }
  }

  /** The log can be compacted in every state of every run, to the snapshot of what it replays to. */
  lemma CompactPossible(w: World) returns (w': World)
    requires Inv(w)
    ensures Step(w, Compact, w')
    ensures w'.log == SnapshotOf(Replayed(w)) && w'.live == Compacted(Replayed(w)) && w'.clock == w.clock
  {
    hide Sound, Related, Past, HistorySound, LeasesKnown, Load, AllLoggable, StartsFrom, Compacted, SnapshotOf, OneHome,
      NewHistory;
    var rep := Replayed(w);
    SnapshotLoads(rep);
    CompactedSound(rep);
    SoundIsFiled(Compacted(rep));
    NewHistoryStarts(Compacted(rep));
    w' := World(Compacted(rep), SnapshotOf(rep), w.clock, NewHistory(Compacted(rep)));
  }

  lemma ReachableCompact(w: World) returns (w': World)
    requires Reachable(w)
    ensures Reachable(w') && Step(w, Compact, w')
    ensures w'.log == SnapshotOf(Replayed(w)) && w'.live == Compacted(Replayed(w)) && w'.clock == w.clock
    ensures AllLoggable(w'.log)
  {
    hide Reachable, Inv, Step, Compacted, SnapshotOf, Replayed, Sound, Related, AllLoggable;
    ReachableInv(w);
    InvParts(w);
    SnapshotLoggable(Replayed(w));
    w' := CompactPossible(w);
    ReachableStep(w, Compact, w');
  }
}
