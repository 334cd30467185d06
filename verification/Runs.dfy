/**
 Whole runs: the live engine, its log, and what has become of every message
 and lease, through restarts and compactions.
 */
module Runs {
  import opened Wrappers
  import opened Config
  import opened Ids
  import opened Record
  import opened Framing
  import opened State
  import opened Replay
  import opened Steps
  import opened ReplaySteps
  import opened Snapshot
  import opened Compaction

  /** What has become of a message that was sent. */
  datatype Outcome = In(queue: string) | Acked | Dropped | Deleted(queue: string)

  /** One successful lease. */
  datatype Delivery = Delivery(queue: string, id: string, receipt: string, receives: int)

  /**
   The history since the log was started or last compacted: the outcome of
   every message sent, the leases outstanding at the start, and the leases
   granted since.
   */
  datatype History = History(outcomes: map<string, Outcome>, inherited: map<string, string>, deliveries: seq<Delivery>)

  /** The live state, the log beneath it, the time the present operation works with, and the history. */
  datatype World = World(live: State, log: seq<Record>, clock: int, hist: History)

  const START := World(EMPTY, [], 0, History(map[], map[], []))

  /** Restart is a crash followed by reopening the log; Compact rewrites the log of a stopped server. */
  datatype Event = Do(action: Action) | Restart | Compact

  function Outcomes(outcomes: map<string, Outcome>, s: State, a: Action, now: int): map<string, Outcome>
    requires Enabled(s, a, now)
  {
    match a
    case Post(n, body, delay) => outcomes[NewMsg(s, body, delay, now).id := In(n)]
    case Delete(n, ts) => map id | id in outcomes :: if outcomes[id] == In(n) then Deleted(n) else outcomes[id]
    case Settle(n, id, ts) => outcomes[id := Acked]
    case Bury(n, id, ts) =>
      var to := s.queues[n].cfg.deadLetter;
      outcomes[id := if to == "" then Dropped else In(to)]
    case Shift(n, id, to, ts) => outcomes[id := In(to)]
    case _ => outcomes
  }

  function Deliveries(ds: seq<Delivery>, s: State, a: Action, now: int): seq<Delivery>
    requires Enabled(s, a, now)
  {
    match a
    case Grant(n, id, visibility) =>
      var m := LeasedMsg(s, At(s, n, id), visibility, now);
      ds + [Delivery(n, id, m.receipt, m.receives)]
    case _ => ds
  }

  function LogAfter(log: seq<Record>, s: State, a: Action, now: int): seq<Record>
    requires Enabled(s, a, now)
  {
    match Logged(s, a, now)
    case None => log
    case Some(r) => log + [r]
  }

  function Acts(w: World, a: Action): World
    requires Enabled(w.live, a, w.clock)
  {
    World(Effect(w.live, a, w.clock), LogAfter(w.log, w.live, a, w.clock), ClockAfter(a, w.clock),
          History(Outcomes(w.hist.outcomes, w.live, a, w.clock), w.hist.inherited,
                  Deliveries(w.hist.deliveries, w.live, a, w.clock)))
  }

  /** The state the log replays to; the live state if the log cannot be replayed. */
  function Replayed(w: World): State {
    match Load(EMPTY, w.log)
    case Ok(s) => s
    case Err(_) => w.live
  }

  /** The history a compacted log starts with. */
  ghost predicate StartsFrom(h: History, s: State) {
    && h.deliveries == []
    && (forall n, id :: Has(s, n, id) ==> id in h.outcomes && h.outcomes[id] == In(n))
    && (forall id :: id in h.outcomes ==> h.outcomes[id].In? && Has(s, h.outcomes[id].queue, id))
    && (forall n, id :: IsLeased(s, n, id) ==> id in h.inherited && h.inherited[id] == At(s, n, id).receipt)
    && (forall id :: id in h.inherited ==> NumberOf(h.inherited[id]) <= s.counter)
  }

  /** One event.  A compacted log starts a new history. */
  ghost predicate Step(w: World, e: Event, w': World) {
    match e
    case Do(a) => Enabled(w.live, a, w.clock) && w' == Acts(w, a)
    case Restart => w' == w.(live := Replayed(w))
    case Compact =>
      && w'.log == SnapshotOf(Replayed(w))
      && w'.live == Replayed(w')
      && w'.clock == w.clock
      && StartsFrom(w'.hist, w'.live)
  }

  /** worlds is a run of events from an empty log. */
  ghost predicate IsRun(worlds: seq<World>, events: seq<Event>) {
    && |worlds| == |events| + 1
    && worlds[0] == START
    && forall i :: 0 <= i < |events| ==> Step(worlds[i], events[i], worlds[i + 1])
  }

  // ---- invariants --------------------------------------------------------

  /** The delay of a message that is no longer delayed is over. */
  ghost predicate Past(s: State, now: int) {
    forall n, id :: Has(s, n, id) && At(s, n, id).phase != Delayed ==> At(s, n, id).notBefore <= now
  }

  /** Outcomes say exactly where the live messages are; limit bounds every ID issued. */
  ghost predicate OutcomesSound(outcomes: map<string, Outcome>, s: State, limit: nat) {
    && (forall id :: id in outcomes ==> IsId(id) && SeqOf(id) <= limit)
    && (forall n, id :: Has(s, n, id) <==> id in outcomes && outcomes[id] == In(n))
  }

  /** Receipts increase from lease to lease; limit bounds every receipt issued. */
  ghost predicate DeliveriesSound(h: History, limit: nat) {
    && (forall i :: 0 <= i < |h.deliveries| ==>
          NumberOf(h.deliveries[i].receipt) <= limit && h.deliveries[i].id in h.outcomes)
    && (forall i, j :: 0 <= i < j < |h.deliveries| ==>
          NumberOf(h.deliveries[i].receipt) < NumberOf(h.deliveries[j].receipt))
    && (forall id :: id in h.inherited ==> NumberOf(h.inherited[id]) <= limit)
    && (forall id, i :: id in h.inherited && 0 <= i < |h.deliveries| ==>
          NumberOf(h.inherited[id]) < NumberOf(h.deliveries[i].receipt))
  }

  /** The receipt of the latest lease of a message. */
  function LastReceipt(inherited: map<string, string>, ds: seq<Delivery>, id: string): Option<string> {
    if ds == [] then (if id in inherited then Some(inherited[id]) else None)
    else if ds[|ds| - 1].id == id then Some(ds[|ds| - 1].receipt)
    else LastReceipt(inherited, ds[..|ds| - 1], id)
  }

  ghost predicate LeasesKnown(h: History, s: State) {
    forall n, id :: IsLeased(s, n, id) ==>
      LastReceipt(h.inherited, h.deliveries, id) == Some(At(s, n, id).receipt)
  }

  ghost predicate HistorySound(h: History, s: State, limit: nat) {
    OutcomesSound(h.outcomes, s, limit) && DeliveriesSound(h, limit) && LeasesKnown(h, s)
  }

  /**
   The log can always be replayed, to a state related to the live one, and the
   history accounts for every message and lease of both.
   */
  ghost predicate Inv(w: World) {
    && w.clock >= 0
    && AllLoggable(w.log)
    && Load(EMPTY, w.log).Ok?
    && Sound(w.live) && Sound(Replayed(w))
    && Related(w.live, Replayed(w), w.clock)
    && Past(w.live, w.clock)
    && HistorySound(w.hist, w.live, Replayed(w).counter)
    && LeasesKnown(w.hist, Replayed(w))
  }

  lemma InvParts(w: World)
    requires Inv(w)
    ensures Load(EMPTY, w.log) == Ok(Replayed(w)) && w.clock >= 0
    ensures Sound(w.live) && Sound(Replayed(w)) && Related(w.live, Replayed(w), w.clock)
    ensures Replayed(w).counter <= w.live.counter
  {
    hide Sound, SameContents, SameOrder, Past, HistorySound, LeasesKnown;
  }

  lemma StartInv()
    ensures Inv(START)
  {
  }

  lemma LoggedIsLoggable(s: State, a: Action, now: int)
    requires Sound(s) && Enabled(s, a, now) && now >= 0
    ensures Logged(s, a, now).Some? ==> Loggable(Logged(s, a, now).value)
  {
    hide Sound, Base64.Encode, FormatId, FormatReceipt, ParseHex, TrimR, IsFirst;
    match a
    case Post(n, body, delay) =>
      QueueNamed(s, n);
      IdRoundTrip(s.counter + 1);
      var m := NewMsg(s, body, delay, now);
      BodyRoundTrip(Record(Send, n, id := m.id, ts := now, nbf := m.notBefore), body);
    case Delete(n, ts) => QueueNamed(s, n);
    case Burn =>
    case Tick(_) =>
    case Wake(_, _) =>
    case Configure(_, _, _) =>
    case Grant(n, id, _) => IdNamed(s, n, id);
    case Settle(n, id, ts) => IdNamed(s, n, id);
    case Return(n, id, ts) => IdNamed(s, n, id);
    case Prolong(n, id, _, _) => IdNamed(s, n, id);
    case Bury(n, id, ts) => IdNamed(s, n, id);
    case Shift(n, id, to, ts) =>
      IdNamed(s, n, id);
      QueueNamed(s, to);
  }

  lemma IdNamed(s: State, n: string, id: string)
    requires Sound(s) && Has(s, n, id)
    ensures n != "" && id != "" && At(s, n, id).id == id
  {
    IdRoundTrip(SeqOf(id));
  }

  /** Every message is filed under its own ID, in one queue. */
  ghost predicate Filed(s: State) {
    && (forall n, id :: Has(s, n, id) ==> At(s, n, id).id == id)
    && OneHome(s)
  }

  lemma SoundIsFiled(s: State)
    requires Sound(s)
    ensures Filed(s)
  {
  }

  lemma PastKept(s: State, a: Action, now: int)
    requires Enabled(s, a, now) && Past(s, now) && Filed(s) && now >= 0
    ensures Past(Effect(s, a, now), ClockAfter(a, now))
  {
    hide FormatId, FormatReceipt, ParseHex, TrimR;
    var s' := Effect(s, a, now);
    forall n, id | Has(s', n, id) && At(s', n, id).phase != Delayed
      ensures At(s', n, id).notBefore <= ClockAfter(a, now)
    {
      assert Has(s, n, id) ==> At(s, n, id).id == id;
    }
  }

  // ---- the history follows every action ----------------------------------

  /** An action leases at most one message, with the receipt it delivers, and keeps no other lease's receipt alive. */
  lemma EffectLeases(s: State, a: Action, now: int, n: string, id: string)
    requires Enabled(s, a, now) && IsLeased(Effect(s, a, now), n, id)
    requires Filed(s)
    ensures (a.Grant? && a.queue == n && a.id == id
              && At(Effect(s, a, now), n, id).receipt == FormatReceipt(s.counter + 1))
         || (IsLeased(s, n, id) && At(Effect(s, a, now), n, id).receipt == At(s, n, id).receipt
              && !(a.Grant? && a.queue == n && a.id == id))
  {
    hide FormatId, FormatReceipt, ParseHex, TrimR, ValidName, IsFirst;
  }

  /** The same for replaying a record. */
  lemma ApplyLeases(s: State, r: Record, n: string, id: string)
    requires Apply(s, r).Ok? && IsLeased(Apply(s, r).value, n, id)
    requires Filed(s)
    ensures (r.op == Receive && r.queue == n && r.id == id && At(Apply(s, r).value, n, id).receipt == r.receipt)
         || (IsLeased(s, n, id) && At(Apply(s, r).value, n, id).receipt == At(s, n, id).receipt
              && !(r.op == Receive && r.queue == n && r.id == id))
  {
    hide FormatId, FormatReceipt, ParseHex, TrimR, ValidName, ParseConfig, BumpSeq, SeqOf, Base64.Decode;
  }

  lemma ApplyCounter(s: State, r: Record)
    requires Apply(s, r).Ok?
    ensures Apply(s, r).value.counter >= s.counter
    ensures r.op == Send ==> Apply(s, r).value.counter >= NumberOf(r.id)
    ensures r.op == Receive ==> Apply(s, r).value.counter >= NumberOf(r.receipt)
  {
    hide FormatId, FormatReceipt, ParseHex, TrimR, ValidName, SeqOf, NumberOf, Base64.Decode;
  }

  /** The outcome of every message follows the live state. */
  lemma OutcomesFollow(outcomes: map<string, Outcome>, s: State, a: Action, now: int, next: string)
    requires Filed(s) && Enabled(s, a, now)
    requires forall n, id :: Has(s, n, id) <==> id in outcomes && outcomes[id] == In(n)
    requires next == FormatId(s.counter + 1) && forall n :: !Has(s, n, next)
    ensures var s', o' := Effect(s, a, now), Outcomes(outcomes, s, a, now);
      forall n, id :: Has(s', n, id) <==> id in o' && o'[id] == In(n)
  {
    hide FormatId, FormatReceipt, ParseHex, TrimR, ValidName, IsFirst;
    var s', o' := Effect(s, a, now), Outcomes(outcomes, s, a, now);
    forall n, id
      ensures Has(s', n, id) <==> id in o' && o'[id] == In(n)
    {
      assert Has(s, n, id) <==> id in outcomes && outcomes[id] == In(n);
    }
  }

  /** Outcomes are only ever given to issued IDs. */
  lemma OutcomeIds(outcomes: map<string, Outcome>, s: State, a: Action, now: int, limit: nat, limit': nat)
    requires Enabled(s, a, now) && limit <= limit' && (a.Post? ==> s.counter < limit')
    requires forall id :: id in outcomes ==> IsId(id) && SeqOf(id) <= limit
    requires forall n, id :: Has(s, n, id) ==> id in outcomes
    ensures var o' := Outcomes(outcomes, s, a, now);
      && outcomes.Keys <= o'.Keys
      && (forall id :: id in o' ==> IsId(id) && SeqOf(id) <= limit')
  {
    hide FormatId, FormatReceipt, ParseHex, TrimR, ValidName, IsFirst, SeqOf, IsId;
    IdRoundTrip(s.counter + 1);
    IssuedForms(s.counter + 1);
  }

  lemma OutcomesKept(outcomes: map<string, Outcome>, s: State, a: Action, now: int, limit: nat, limit': nat)
    requires Sound(s) && Enabled(s, a, now) && OutcomesSound(outcomes, s, limit)
    requires limit <= limit' && (a.Post? ==> s.counter < limit')
    ensures OutcomesSound(Outcomes(outcomes, s, a, now), Effect(s, a, now), limit')
    ensures outcomes.Keys <= Outcomes(outcomes, s, a, now).Keys
  {
    hide Sound, FormatId, FormatReceipt, ParseHex, TrimR, Enabled, Effect, Outcomes, Has;
    SoundIsFiled(s);
    var next := FormatId(s.counter + 1);
    forall n ensures !Has(s, n, next) { NextIdIsFresh(s, n); }
    OutcomesFollow(outcomes, s, a, now, next);
    OutcomeIds(outcomes, s, a, now, limit, limit');
  }

  /** Receipts keep increasing. */
  lemma DeliveriesKept(h: History, s: State, a: Action, now: int, limit: nat, limit': nat)
    requires Enabled(s, a, now) && DeliveriesSound(h, limit)
    requires limit <= s.counter && limit <= limit' && (a.Grant? ==> s.counter < limit' && a.id in h.outcomes)
    requires h.outcomes.Keys <= Outcomes(h.outcomes, s, a, now).Keys
    ensures DeliveriesSound(
      History(Outcomes(h.outcomes, s, a, now), h.inherited, Deliveries(h.deliveries, s, a, now)), limit')
  {
    hide FormatId, FormatReceipt, ParseHex, TrimR, ValidName, IsFirst, Outcomes, Enabled, NumberOf;
    IdRoundTrip(s.counter + 1);
  }

  /** The latest receipt changes only for the message leased. */
  lemma LastReceiptFollows(inherited: map<string, string>, ds: seq<Delivery>, s: State, a: Action, now: int, id: string)
    requires Enabled(s, a, now)
    ensures LastReceipt(inherited, Deliveries(ds, s, a, now), id) ==
      if a.Grant? && a.id == id then Some(FormatReceipt(s.counter + 1)) else LastReceipt(inherited, ds, id)
  {
    hide FormatId, FormatReceipt, ValidName, IsFirst, Enabled;
    if a.Grant? {
      assert Deliveries(ds, s, a, now)[..|ds|] == ds;
    }
  }

  lemma LiveLeasesKept(h: History, s: State, a: Action, now: int)
    requires Filed(s) && Enabled(s, a, now) && LeasesKnown(h, s)
    ensures LeasesKnown(
      History(Outcomes(h.outcomes, s, a, now), h.inherited, Deliveries(h.deliveries, s, a, now)), Effect(s, a, now))
  {
    hide FormatId, FormatReceipt, Enabled, Effect, Outcomes, Deliveries, LastReceipt, Filed;
    forall n, id | IsLeased(Effect(s, a, now), n, id)
      ensures LastReceipt(h.inherited, Deliveries(h.deliveries, s, a, now), id)
           == Some(At(Effect(s, a, now), n, id).receipt)
    {
      EffectLeases(s, a, now, n, id);
      LastReceiptFollows(h.inherited, h.deliveries, s, a, now, id);
      OneGrant(s, a, now, n, id);
    }
  }

  /** A lease of a message is a lease in the queue that holds it. */
  lemma OneGrant(s: State, a: Action, now: int, n: string, id: string)
    requires Filed(s) && Enabled(s, a, now) && Has(Effect(s, a, now), n, id)
    ensures a.Grant? && a.id == id ==> a.queue == n
  {
    hide FormatId, FormatReceipt, ValidName, IsFirst;
    assert a.Grant? ==> Has(s, a.queue, a.id);
    assert a.Grant? && a.queue != n ==> Has(s, n, id);
  }

  // ---- every event keeps the invariant -----------------------------------

  /** What replay knows about leases after one more record of the live engine. */
  lemma ReplayLeasesKept(h: History, live: State, rep: State, a: Action, now: int)
    requires Filed(live) && Filed(rep) && Enabled(live, a, now) && LeasesKnown(h, rep)
    requires Logged(live, a, now).Some? && Apply(rep, Logged(live, a, now).value).Ok?
    requires forall n, id :: Has(rep, n, id) <==> Has(live, n, id)
    requires forall n, id ::
      Has(Effect(live, a, now), n, id) <==> Has(Apply(rep, Logged(live, a, now).value).value, n, id)
    ensures LeasesKnown(
      History(Outcomes(h.outcomes, live, a, now), h.inherited, Deliveries(h.deliveries, live, a, now)),
      Apply(rep, Logged(live, a, now).value).value)
  {
    hide FormatId, FormatReceipt, Enabled, Effect, Apply, Outcomes, Deliveries, LastReceipt, Filed, Logged;
    var r := Logged(live, a, now).value;
    var rep' := Apply(rep, r).value;
    forall n, id | IsLeased(rep', n, id)
      ensures LastReceipt(h.inherited, Deliveries(h.deliveries, live, a, now), id) == Some(At(rep', n, id).receipt)
    {
      ApplyLeases(rep, r, n, id);
      LastReceiptFollows(h.inherited, h.deliveries, live, a, now, id);
      LoggedReceive(live, a, now, n, id);
    }
  }

  /** The receive records are exactly those of leases. */
  lemma LoggedReceive(s: State, a: Action, now: int, n: string, id: string)
    requires Filed(s) && Enabled(s, a, now) && Logged(s, a, now).Some? && Has(Effect(s, a, now), n, id)
    ensures var r := Logged(s, a, now).value;
      && (r.op == Receive && r.queue == n && r.id == id <==> a.Grant? && a.id == id)
      && (r.op == Receive ==> r.receipt == FormatReceipt(s.counter + 1))
  {
    hide FormatId, FormatReceipt, ValidName, IsFirst, Base64.Encode, Utf8.Valid;
    assert a.Grant? ==> Has(s, a.queue, a.id);
    assert a.Grant? && a.queue != n ==> Has(s, n, id);
  }

  lemma CounterFollows(live: State, rep: State, a: Action, now: int)
    requires Enabled(live, a, now) && Logged(live, a, now).Some?
    requires Apply(rep, Logged(live, a, now).value).Ok?
    ensures Apply(rep, Logged(live, a, now).value).value.counter >= rep.counter
    ensures a.Post? || a.Grant? ==> Apply(rep, Logged(live, a, now).value).value.counter > live.counter
  {
    hide FormatId, FormatReceipt, ValidName, IsFirst, Base64.Encode, Utf8.Valid, Apply, NumberOf;
    ApplyCounter(rep, Logged(live, a, now).value);
    IdRoundTrip(live.counter + 1);
  }

  lemma KnownIds(outcomes: map<string, Outcome>, s: State, limit: nat, a: Action, now: int)
    requires OutcomesSound(outcomes, s, limit) && Enabled(s, a, now)
    ensures a.Grant? ==> a.id in outcomes
  {
    assert a.Grant? ==> Has(s, a.queue, a.id);
  }

  /** The history after an action, with the limit set by the replayed counter. */
  lemma HistoryKept(h: History, s: State, a: Action, now: int, limit: nat, limit': nat)
    requires Sound(s) && Enabled(s, a, now) && HistorySound(h, s, limit)
    requires limit <= s.counter && limit <= limit' && (a.Post? || a.Grant? ==> s.counter < limit')
    ensures HistorySound(
      History(Outcomes(h.outcomes, s, a, now), h.inherited, Deliveries(h.deliveries, s, a, now)),
      Effect(s, a, now), limit')
  {
    hide Sound, Enabled, Effect, Outcomes, Deliveries, OutcomesSound, DeliveriesSound, LeasesKnown, Filed;
    SoundIsFiled(s);
    OutcomesKept(h.outcomes, s, a, now, limit, limit');
    KnownIds(h.outcomes, s, limit, a, now);
    DeliveriesKept(h, s, a, now, limit, limit');
    LiveLeasesKept(h, s, a, now);
  }

  lemma LoggableMore(log: seq<Record>, r: Record)
    requires AllLoggable(log) && Loggable(r)
    ensures AllLoggable(log + [r])
  {
  }

  /** Every action keeps the invariant. */
  lemma DoKeepsInv(w: World, a: Action)
    requires Inv(w) && Enabled(w.live, a, w.clock)
    ensures Inv(Acts(w, a))
  {
    hide Sound, Related, Past, HistorySound, LeasesKnown, Enabled, Effect, Logged, Outcomes, Deliveries, Apply, Load,
      AllLoggable, Loggable, Filed;
    var live, rep, now := w.live, Replayed(w), w.clock;
    ReplayFollows(live, rep, a, now);
    EffectSound(live, a, now);
    SoundIsFiled(live);
    SoundIsFiled(rep);
    PastKept(live, a, now);
    LoggedIsLoggable(live, a, now);
    ClockGrows(live, a, now);
    SameQueues(live, rep, now);
    match Logged(live, a, now)
    case None =>
      NothingLogged(live, a, now);
      HistoryKept(w.hist, live, a, now, rep.counter, rep.counter);
      LogFreeLeases(w.hist, live, a, now, rep);
    case Some(r) =>
      LoadOne(w.log, r);
      LoggableMore(w.log, r);
      var rep' := Apply(rep, r).value;
      CounterFollows(live, rep, a, now);
      SameQueues(Effect(live, a, now), rep', now);
      HistoryKept(w.hist, live, a, now, rep.counter, rep'.counter);
      ReplayLeasesKept(w.hist, live, rep, a, now);
      SomethingLogged(live, a, now);
  }

  lemma ClockGrows(s: State, a: Action, now: int)
    requires Enabled(s, a, now)
    ensures ClockAfter(a, now) >= now
  {
  }

  lemma NothingLogged(s: State, a: Action, now: int)
    requires Enabled(s, a, now) && Logged(s, a, now).None?
    ensures !a.Post? && !a.Grant?
  {
  }

  lemma SomethingLogged(s: State, a: Action, now: int)
    requires Enabled(s, a, now) && Logged(s, a, now).Some?
    ensures ClockAfter(a, now) == now
  {
  }

  lemma LogFreeLeases(h: History, s: State, a: Action, now: int, rep: State)
    requires Enabled(s, a, now) && Logged(s, a, now).None? && LeasesKnown(h, rep)
    ensures LeasesKnown(
      History(Outcomes(h.outcomes, s, a, now), h.inherited, Deliveries(h.deliveries, s, a, now)), rep)
  {
    hide LastReceipt;
  }

  // ---- restarts and compactions ------------------------------------------

  lemma PastReplayed(live: State, rep: State, now: int)
    requires Related(live, rep, now) && Past(live, now)
    ensures Past(rep, now)
  {
    forall n, id | Has(rep, n, id) && At(rep, n, id).phase != Delayed
      ensures At(rep, n, id).notBefore <= now
    {
      assert Has(live, n, id);
    }
  }

  /** The history fits the replayed state as it fits the live one. */
  lemma HistoryReplayed(h: History, live: State, rep: State, now: int)
    requires Related(live, rep, now) && HistorySound(h, live, rep.counter) && LeasesKnown(h, rep)
    ensures HistorySound(h, rep, rep.counter)
  {
    hide DeliveriesSound, LeasesKnown;
    forall n, id ensures Has(rep, n, id) <==> id in h.outcomes && h.outcomes[id] == In(n)
    {
      assert Has(live, n, id) <==> Has(rep, n, id);
    }
  }

  lemma RestartKeepsInv(w: World)
    requires Inv(w)
    ensures Inv(w.(live := Replayed(w)))
  {
    hide Sound, Related, Past, HistorySound, LeasesKnown, Load, AllLoggable;
    RelatedRefl(Replayed(w), w.clock);
    PastReplayed(w.live, Replayed(w), w.clock);
    HistoryReplayed(w.hist, w.live, Replayed(w), w.clock);
  }

  lemma CompactedPast(s: State, now: int)
    requires Past(s, now)
    ensures Past(Compacted(s), now)
  {
    hide BumpQueues;
    var c := Compacted(s);
    forall n, id | Has(c, n, id) && At(c, n, id).phase != Delayed
      ensures At(c, n, id).notBefore <= now
    {
      KeptAt(s, n, id);
    }
  }

  /** A new history fits the state it starts from. */
  lemma FreshHistorySound(h: History, s: State)
    requires Sound(s) && StartsFrom(h, s)
    ensures HistorySound(h, s, s.counter)
  {
    hide FormatId, FormatReceipt, ParseHex, TrimR;
    forall id | id in h.outcomes
      ensures IsId(id) && SeqOf(id) <= s.counter
    {
      assert Has(s, h.outcomes[id].queue, id);
    }
    forall n, id
      ensures Has(s, n, id) <==> id in h.outcomes && h.outcomes[id] == In(n)
    {
    }
  }

  lemma CompactKeepsInv(w: World, w': World)
    requires Inv(w) && Step(w, Compact, w')
    ensures Inv(w') && w'.live == Compacted(Replayed(w))
  {
    hide Sound, Related, Past, HistorySound, LeasesKnown, Load, AllLoggable, StartsFrom, Compacted, SnapshotOf;
    var rep := Replayed(w);
    SnapshotLoads(rep);
    SnapshotLoggable(rep);
    CompactedSound(rep);
    RelatedRefl(Compacted(rep), w.clock);
    PastReplayed(w.live, rep, w.clock);
    CompactedPast(rep, w.clock);
    FreshHistorySound(w'.hist, w'.live);
    KnownAtStart(w'.hist, w'.live, w'.live.counter);
  }

  lemma KnownAtStart(h: History, s: State, limit: nat)
    requires HistorySound(h, s, limit)
    ensures LeasesKnown(h, s)
  {
  }

  lemma StepKeepsInv(w: World, e: Event, w': World)
    requires Inv(w) && Step(w, e, w')
    ensures Inv(w')
  {
    hide Inv, Enabled, Acts, Replayed;
    match e
    case Do(a) => DoKeepsInv(w, a);
    case Restart => RestartKeepsInv(w);
    case Compact => CompactKeepsInv(w, w');
  }

  /**
   In every state of every run the log replays without error to a state
   related to the live one.
   */
  lemma {:induction false} RunInv(worlds: seq<World>, events: seq<Event>, i: nat)
    requires IsRun(worlds, events) && i < |worlds|
    ensures Inv(worlds[i])
  {
    hide Inv, Step;
    if i == 0 {
      StartInv();
    } else {
      RunInv(worlds, events, i - 1);
      StepKeepsInv(worlds[i - 1], events[i - 1], worlds[i]);
    }
  }

  // ---- continuing a run --------------------------------------------------

  /** A run can be continued by any step. */
  lemma RunExtends(worlds: seq<World>, events: seq<Event>, e: Event, w': World)
    requires IsRun(worlds, events) && Step(worlds[|events|], e, w')
    ensures IsRun(worlds + [w'], events + [e]) && (worlds + [w'])[|events| + 1] == w'
  {
    hide Step;
    var ws, es := worlds + [w'], events + [e];
    forall i | 0 <= i < |es| ensures Step(ws[i], es[i], ws[i + 1])
    {
      assert i < |events| ==> Step(worlds[i], events[i], worlds[i + 1]);
    }
  }

  /** w is the state of some run. */
  ghost predicate Reachable(w: World) {
    exists worlds, events :: IsRun(worlds, events) && worlds[|events|] == w
  }

  lemma StartReachable()
    ensures Reachable(START)
  {
    assert IsRun([START], []);
  }

  lemma ReachableInv(w: World)
    requires Reachable(w)
    ensures Inv(w)
  {
    hide Inv, Step;
    var worlds, events :| IsRun(worlds, events) && worlds[|events|] == w;
    RunInv(worlds, events, |events|);
  }

  lemma ReachableStep(w: World, e: Event, w': World)
    requires Reachable(w) && Step(w, e, w')
    ensures Reachable(w')
  {
    hide Step;
    var worlds, events :| IsRun(worlds, events) && worlds[|events|] == w;
    RunExtends(worlds, events, e, w');
    var ws, es := worlds + [w'], events + [e];
    assert ws[|es|] == w';
  }

  lemma ReachableRestart(w: World)
    requires Reachable(w)
    ensures Reachable(w.(live := Replayed(w)))
  {
    hide Reachable, Replayed;
    ReachableStep(w, Restart, w.(live := Replayed(w)));
  }

  lemma ReachableActs(w: World, a: Action)
    requires Reachable(w) && Enabled(w.live, a, w.clock)
    ensures Reachable(Acts(w, a))
  {
    hide Reachable, Enabled, Acts;
    ReachableStep(w, Do(a), Acts(w, a));
  }

  /** The world after a list of actions, if each is enabled in turn. */
  ghost function After(w: World, actions: seq<Action>): Option<World> {
    if actions == [] then Some(w)
    else
      match After(w, actions[..|actions| - 1])
      case None => None
      case Some(mid) =>
        var a := actions[|actions| - 1];
        if Enabled(mid.live, a, mid.clock) then Some(Acts(mid, a)) else None
  }

  lemma AfterOne(w: World, actions: seq<Action>, mid: World, a: Action)
    requires After(w, actions) == Some(mid) && Enabled(mid.live, a, mid.clock)
    ensures After(w, actions + [a]) == Some(Acts(mid, a))
  {
    hide Enabled, Acts;
    assert (actions + [a])[..|actions|] == actions;
  }

  lemma {:induction false} AfterReachable(w: World, actions: seq<Action>, w': World)
    requires Reachable(w) && After(w, actions) == Some(w')
    ensures Reachable(w')
    decreases |actions|
  {
    hide Reachable, Enabled, Acts;
    if actions != [] {
      var k := |actions| - 1;
      var mid := After(w, actions[..k]).value;
      AfterReachable(w, actions[..k], mid);
      ReachableActs(mid, actions[k]);
    }
  }

  /** Actions lead from w to w'. */
  ghost predicate Continues(w: World, w': World) {
    exists actions :: After(w, actions) == Some(w')
  }

  lemma ContinuesSelf(w: World)
    ensures Continues(w, w)
  {
    assert After(w, []) == Some(w);
  }

  lemma ContinuesOne(w: World, a: Action)
    requires Enabled(w.live, a, w.clock)
    ensures Continues(w, Acts(w, a))
  {
    hide Enabled, Acts;
    AfterOne(w, [], w, a);
    assert After(w, [] + [a]) == Some(Acts(w, a));
  }

  lemma {:induction false} AfterBoth(w: World, first: seq<Action>, mid: World, then': seq<Action>)
    requires After(w, first) == Some(mid)
    ensures After(w, first + then') == After(mid, then')
    decreases |then'|
  {
    hide Enabled, Acts;
    if then' == [] {
      assert first + then' == first;
    } else {
      var k := |then'| - 1;
      AfterBoth(w, first, mid, then'[..k]);
      assert (first + then')[..|first + then'| - 1] == first + then'[..k];
    }
  }

  lemma ContinuesJoin(w: World, mid: World, w': World)
    requires Continues(w, mid) && Continues(mid, w')
    ensures Continues(w, w')
  {
    hide After;
    var first :| After(w, first) == Some(mid);
    var then' :| After(mid, then') == Some(w');
    AfterBoth(w, first, mid, then');
  }

  lemma ContinuesReachable(w: World, w': World)
    requires Reachable(w) && Continues(w, w')
    ensures Reachable(w')
  {
    hide After, Reachable;
    var actions :| After(w, actions) == Some(w');
    AfterReachable(w, actions, w');
  }

  lemma {:induction false} AfterGrows(w: World, actions: seq<Action>, w': World)
    requires After(w, actions) == Some(w')
    ensures w.clock <= w'.clock && w.log <= w'.log
    decreases |actions|
  {
    hide Enabled, Effect, Logged, Outcomes, Deliveries;
    if actions != [] {
      var k := |actions| - 1;
      var mid := After(w, actions[..k]).value;
      AfterGrows(w, actions[..k], mid);
      ClockForward(mid.live, actions[k], mid.clock);
    }
  }

  lemma ClockForward(s: State, a: Action, now: int)
    requires Enabled(s, a, now)
    ensures now <= ClockAfter(a, now)
  {
  }

  /** Time does not run backwards, and no record is taken back. */
  lemma ContinuesGrows(w: World, w': World)
    requires Continues(w, w')
    ensures w.clock <= w'.clock && w.log <= w'.log
  {
    hide After;
    var actions :| After(w, actions) == Some(w');
    AfterGrows(w, actions, w');
  }
}
