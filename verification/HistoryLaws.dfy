/** What becomes of messages, leases and identifiers over whole runs. */
module HistoryLaws {
  import opened Wrappers
  import opened Config
  import opened Ids
  import opened Framing
  import opened State
  import opened Replay
  import opened Steps
  import opened Snapshot
  import opened Compaction
  import opened Sweeping
  import opened SweepLaws
  import opened Runs

  // ---- conservation ------------------------------------------------------

  function AckedIds(o: map<string, Outcome>): set<string> {
    set id | id in o && o[id].Acked?
  }

  function DroppedIds(o: map<string, Outcome>): set<string> {
    set id | id in o && o[id].Dropped?
  }

  function DeletedIds(o: map<string, Outcome>): set<string> {
    set id | id in o && o[id].Deleted?
  }

  lemma LiveIdsAre(o: map<string, Outcome>, s: State, limit: nat)
    requires OneHome(s) && OutcomesSound(o, s, limit)
    ensures forall id :: id in AllIds(s) <==> id in o && o[id].In?
  {
    hide Flatten, FormatId, ParseHex;
    FlatHolds(s);
    forall id ensures id in AllIds(s) <==> id in o && o[id].In?
    {
      if id in o && o[id].In? { assert Has(s, o[id].queue, id); }
      if id in AllIds(s) { assert Has(s, Flatten(s)[id].queue, id); }
    }
  }

  lemma InvHistory(w: World)
    requires Inv(w)
    ensures OneHome(w.live) && OutcomesSound(w.hist.outcomes, w.live, Replayed(w).counter)
    ensures DeliveriesSound(w.hist, Replayed(w).counter) && LeasesKnown(w.hist, w.live)
    ensures w.clock >= 0 && Filed(w.live) && Sound(w.live)
  {
    hide Sound, Related, OutcomesSound, DeliveriesSound, LeasesKnown, Past, Load, AllLoggable;
    SoundIsFiled(w.live);
  }

  /**
   Conservation: in every state of every run, each message sent is in exactly
   one of four places: live in a queue, acknowledged, dropped as poison, or
   deleted with its queue.
   */
  lemma Conservation(worlds: seq<World>, events: seq<Event>, i: nat)
    requires IsRun(worlds, events) && i < |worlds|
    ensures OneHome(worlds[i].live)
    ensures var o, live := worlds[i].hist.outcomes, AllIds(worlds[i].live);
      && o.Keys == live + AckedIds(o) + DroppedIds(o) + DeletedIds(o)
      && live !! AckedIds(o) !! DroppedIds(o) !! DeletedIds(o)
  {
    hide Step, Inv, OutcomesSound, OneHome, Replayed;
    RunInv(worlds, events, i);
    InvHistory(worlds[i]);
    LiveIdsAre(worlds[i].hist.outcomes, worlds[i].live, Replayed(worlds[i]).counter);
  }

  /** Sending is the only action that adds a message, and it adds the ID it returns. */
  lemma OnlyPostsAdd(w: World, a: Action)
    requires Inv(w) && Enabled(w.live, a, w.clock)
    ensures Acts(w, a).hist.outcomes.Keys ==
      w.hist.outcomes.Keys + if a.Post? then {FormatId(w.live.counter + 1)} else {}
    ensures a.Post? ==> FormatId(w.live.counter + 1) !in w.hist.outcomes
  {
    hide Inv, Enabled, OutcomesSound, DeliveriesSound, LeasesKnown, OneHome, Filed, FormatId, ParseHex, TrimR;
    InvHistory(w);
    IdsKnown(w.hist.outcomes, w.live, Replayed(w).counter, a, w.clock);
    InvParts(w);
    IdRoundTrip(w.live.counter + 1);
  }

  lemma IdsKnown(o: map<string, Outcome>, s: State, limit: nat, a: Action, now: int)
    requires OutcomesSound(o, s, limit) && Enabled(s, a, now)
    ensures a.Settle? || a.Bury? || a.Shift? ==> a.id in o
    ensures forall id :: id in o ==> SeqOf(id) <= limit
  {
    assert a.Settle? || a.Bury? || a.Shift? ==> Has(s, a.queue, a.id);
  }

  /** What an action records of message id, and of deliveries. */
  lemma HistoryExactly(w: World, a: Action, id: string)
    requires Enabled(w.live, a, w.clock)
    ensures var o, o' := w.hist.outcomes, Acts(w, a).hist.outcomes;
      if a.Post? && id == FormatId(w.live.counter + 1) then id in o' && o'[id] == In(a.queue)
      else if a.Settle? && id == a.id then id in o' && o'[id] == Acked
      else if a.Bury? && id == a.id then
        id in o'
        && o'[id] == (var to := w.live.queues[a.queue].cfg.deadLetter; if to == "" then Dropped else In(to))
      else if a.Shift? && id == a.id then id in o' && o'[id] == In(a.to)
      else if a.Delete? && id in o && o[id] == In(a.queue) then id in o' && o'[id] == Deleted(a.queue)
      else (id in o' <==> id in o) && (id in o ==> o'[id] == o[id])
    ensures Acts(w, a).hist.deliveries == w.hist.deliveries +
      if a.Grant? then [Delivery(a.queue, a.id, FormatReceipt(w.live.counter + 1),
                                 At(w.live, a.queue, a.id).receives + 1)]
      else []
  {
    hide FormatId, FormatReceipt, ValidName, IsFirst, LogAfter;
  }

  // ---- outcomes are final ------------------------------------------------

  /** The action is about message id. */
  predicate Concerns(a: Action, id: string) {
    match a
    case Grant(_, id', _) => id' == id
    case Settle(_, id', _) => id' == id
    case Return(_, id', _) => id' == id
    case Prolong(_, id', _, _) => id' == id
    case Bury(_, id', _) => id' == id
    case Shift(_, id', _, _) => id' == id
    case Wake(_, id') => id' == id
    case _ => false
  }

  lemma GoneIsFinal(w: World, a: Action, id: string)
    requires Inv(w) && Enabled(w.live, a, w.clock)
    requires id in w.hist.outcomes && !w.hist.outcomes[id].In?
    ensures !Concerns(a, id)
    ensures id in Acts(w, a).hist.outcomes && Acts(w, a).hist.outcomes[id] == w.hist.outcomes[id]
  {
    hide Inv, DeliveriesSound, LeasesKnown, Filed, FormatId, ParseHex, TrimR, IsFirst, ValidName;
    InvHistory(w);
    OnlyPostsAdd(w, a);
    assert a.Grant? || a.Settle? || a.Return? || a.Prolong? || a.Bury? || a.Shift? || a.Wake? ==>
      Has(w.live, a.queue, a.id);
  }

  /**
   Once a message is acknowledged, dropped or deleted, it stays so, and no
   later action delivers, acknowledges or otherwise touches it, whatever
   restarts happen; a compaction starts a new history.
   */
  lemma {:induction false} OutcomesAreFinal(worlds: seq<World>, events: seq<Event>, i: nat, j: nat, id: string)
    requires IsRun(worlds, events) && i <= j < |worlds|
    requires forall k :: i <= k < j ==> events[k] != Compact
    requires id in worlds[i].hist.outcomes && !worlds[i].hist.outcomes[id].In?
    ensures id in worlds[j].hist.outcomes && worlds[j].hist.outcomes[id] == worlds[i].hist.outcomes[id]
    ensures forall k :: i <= k < j && events[k].Do? ==> !Concerns(events[k].action, id)
    decreases j
  {
    hide Inv, Enabled, Acts, Replayed, StartsFrom, Concerns;
    if i < j {
      OutcomesAreFinal(worlds, events, i, j - 1, id);
      RunInv(worlds, events, j - 1);
      var w, e := worlds[j - 1], events[j - 1];
      assert Step(w, e, worlds[j]);
      if e.Do? { GoneIsFinal(w, e.action, id); }
    }
  }

  /** Acknowledging makes the outcome Acked, so by OutcomesAreFinal at most one acknowledgement succeeds. */
  lemma SettleEnds(w: World, n: string, id: string, ts: int)
    requires Enabled(w.live, Settle(n, id, ts), w.clock)
    ensures id in Acts(w, Settle(n, id, ts)).hist.outcomes && Acts(w, Settle(n, id, ts)).hist.outcomes[id] == Acked
  {
  }

  lemma AtMostOneAck(worlds: seq<World>, events: seq<Event>, i: nat, j: nat, n: string, id: string, ts: int)
    requires IsRun(worlds, events) && i < j < |events|
    requires forall k :: i <= k < j ==> events[k] != Compact
    requires events[i] == Do(Settle(n, id, ts))
    ensures events[j].Do? && (events[j].action.Settle? || events[j].action.Grant?) ==> events[j].action.id != id
  {
    hide Inv, Enabled, Acts, Replayed, StartsFrom;
    assert Step(worlds[i], events[i], worlds[i + 1]);
    SettleEnds(worlds[i], n, id, ts);
    OutcomesAreFinal(worlds, events, i + 1, j, id);
    RunInv(worlds, events, j);
    assert Step(worlds[j], events[j], worlds[j + 1]);
    if events[j].Do? { GoneIsFinal(worlds[j], events[j].action, id); }
  }

  // ---- lease safety ------------------------------------------------------

  /** No two leases of a history have the same receipt. */
  lemma ReceiptsDistinct(worlds: seq<World>, events: seq<Event>, i: nat, a: nat, b: nat)
    requires IsRun(worlds, events) && i < |worlds|
    requires a < b < |worlds[i].hist.deliveries|
    ensures worlds[i].hist.deliveries[a].receipt != worlds[i].hist.deliveries[b].receipt
    ensures forall id :: id in worlds[i].hist.inherited ==>
      worlds[i].hist.inherited[id] != worlds[i].hist.deliveries[b].receipt
  {
    hide Step, Inv, OutcomesSound, LeasesKnown, Replayed, OneHome, Filed, NumberOf;
    RunInv(worlds, events, i);
    InvHistory(worlds[i]);
  }

  /**
   Acknowledging, returning or extending works only on the latest lease of the
   message, and before its deadline unless the lease is exhausted and waits to
   be dead-lettered.
   */
  lemma OnlyLatestLease(worlds: seq<World>, events: seq<Event>, i: nat, a: Action)
    requires IsRun(worlds, events) && i < |events| && events[i] == Do(a)
    requires a.Settle? || a.Return? || a.Prolong?
    ensures var w := worlds[i];
      && IsLeased(w.live, a.queue, a.id)
      && LastReceipt(w.hist.inherited, w.hist.deliveries, a.id) == Some(At(w.live, a.queue, a.id).receipt)
      && (At(w.live, a.queue, a.id).deadline > w.clock || (IsExhausted(w.live, a.queue, a.id) && !a.Return?))
  {
    hide Inv, OutcomesSound, DeliveriesSound, Replayed, OneHome, Filed, LastReceipt, Acts, Sound, Step;
    RunInv(worlds, events, i);
    InvHistory(worlds[i]);
    assert Step(worlds[i], events[i], worlds[i + 1]);
    StepEnabled(worlds[i], a, worlds[i + 1]);
  }

  lemma StepEnabled(w: World, a: Action, w': World)
    requires Step(w, Do(a), w')
    ensures Enabled(w.live, a, w.clock) && w' == Acts(w, a)
  {
    hide Enabled, Acts;
  }

  // ---- the receive bound -------------------------------------------------

  /** Every configuration of queue n has limit k, and no queue dead-letters into n. */
  ghost predicate Disciplined(events: seq<Event>, n: string, k: int) {
    forall i :: 0 <= i < |events| ==> Obeys(events[i], n, k)
  }

  predicate Obeys(e: Event, n: string, k: int) {
    e.Do? && e.action.Configure? ==>
      (e.action.queue == n ==> e.action.cfg.maxReceives == k) && e.action.cfg.deadLetter != n
  }

  predicate WithinLimit(m: Msg, k: int) {
    if m.phase == Leased then m.receives <= k else m.receives < k
  }

  ghost predicate Bounded(s: State, n: string, k: int) {
    && (n in s.queues ==> s.queues[n].cfg.maxReceives == k)
    && (forall n' :: n' in s.queues ==> s.queues[n'].cfg.deadLetter != n)
    && (forall id :: Has(s, n, id) ==> WithinLimit(At(s, n, id), k))
  }

  lemma EffectBounded(s: State, a: Action, now: int, n: string, k: int)
    requires Filed(s) && Enabled(s, a, now) && Bounded(s, n, k) && k > 0 && Obeys(Do(a), n, k)
    ensures Bounded(Effect(s, a, now), n, k)
  {
    hide FormatId, FormatReceipt, ValidName;
    forall id | Has(Effect(s, a, now), n, id)
      ensures WithinLimit(At(Effect(s, a, now), n, id), k)
    {
      assert Has(s, n, id) ==> WithinLimit(At(s, n, id), k);
    }
  }

  lemma ReplayBounded(live: State, rep: State, now: int, n: string, k: int)
    requires Related(live, rep, now) && Bounded(live, n, k)
    ensures Bounded(rep, n, k)
  {
    forall id | Has(rep, n, id)
      ensures WithinLimit(At(rep, n, id), k)
    {
      assert Has(live, n, id) && WithinLimit(At(live, n, id), k);
    }
  }

  lemma CompactedBounded(s: State, n: string, k: int)
    requires Bounded(s, n, k)
    ensures Bounded(Compacted(s), n, k)
  {
    hide BumpQueues, SortNames;
    forall id | Has(Compacted(s), n, id)
      ensures WithinLimit(At(Compacted(s), n, id), k)
    {
      KeptAt(s, n, id);
    }
  }

  lemma StepBounded(w: World, e: Event, w': World, n: string, k: int)
    requires Inv(w) && Step(w, e, w') && Bounded(w.live, n, k) && k > 0 && Obeys(e, n, k)
    ensures Bounded(w'.live, n, k)
  {
    hide Inv, Bounded, Related, Enabled, Effect, StartsFrom, SnapshotOf, Compacted, Replayed, Filed, Sound,
      Logged, Outcomes, Deliveries, LogAfter, OneHome, OutcomesSound, DeliveriesSound, LeasesKnown;
    InvHistory(w);
    InvParts(w);
    ReplayBounded(w.live, Replayed(w), w.clock, n, k);
    match e
    case Do(a) => EffectBounded(w.live, a, w.clock, n, k);
    case Restart =>
    case Compact =>
      CompactKeepsInv(w, w');
      CompactedBounded(Replayed(w), n, k);
  }

  lemma {:induction false} RunBounded(worlds: seq<World>, events: seq<Event>, n: string, k: int, i: nat)
    requires IsRun(worlds, events) && Disciplined(events, n, k) && k > 0 && i < |worlds|
    ensures Bounded(worlds[i].live, n, k)
    decreases i
  {
    hide Inv, Step, Obeys;
    if i > 0 {
      RunBounded(worlds, events, n, k, i - 1);
      RunInv(worlds, events, i - 1);
      StepBounded(worlds[i - 1], events[i - 1], worlds[i], n, k);
    }
  }

  /**
   In a queue whose limit is always k > 0 and which is nobody's dead-letter
   queue, a message waiting to be delivered has been received fewer than k
   times, and every delivery is its first to k-th; restarts, redrives into the
   queue and compactions included.
   */
  lemma ReceiveBound(worlds: seq<World>, events: seq<Event>, i: nat, n: string, k: int, id: string, visibility: int)
    requires IsRun(worlds, events) && Disciplined(events, n, k) && k > 0 && i < |worlds|
    requires Has(worlds[i].live, n, id)
    ensures At(worlds[i].live, n, id).phase != Leased ==> 0 <= At(worlds[i].live, n, id).receives < k
    ensures i < |events| && events[i] == Do(Grant(n, id, visibility)) ==>
      var ds := worlds[i + 1].hist.deliveries;
      ds != [] && ds[|ds| - 1].id == id && 1 <= ds[|ds| - 1].receives <= k
  {
    hide Inv, Step, Obeys, Replayed, Disciplined, OutcomesSound, DeliveriesSound, LeasesKnown, OneHome, Filed, Sound,
      FormatId, FormatReceipt;
    RunBounded(worlds, events, n, k, i);
    RunInv(worlds, events, i);
    InvHistory(worlds[i]);
    IdNamed(worlds[i].live, n, id);
    FiledSound(worlds[i].live, n, id);
    if i < |events| && events[i] == Do(Grant(n, id, visibility)) {
      assert Step(worlds[i], events[i], worlds[i + 1]);
      StepEnabled(worlds[i], Grant(n, id, visibility), worlds[i + 1]);
    }
  }
}
