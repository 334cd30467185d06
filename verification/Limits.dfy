/** Where the guarantees stop: inputs that show the side conditions are needed. */
module Limits {
  import opened Wrappers
  import opened Config
  import opened Ids
  import opened Record
  import opened State
  import opened Replay
  import opened Steps
  import opened ReplaySteps
  import opened Snapshot
  import opened Compaction
  import opened CompactionLaws
  import opened Agreement
  import opened Runs

  /** Logging a record and applying its effect replays to the record applied. */
  lemma ReplayedActs(w: World, a: Action)
    requires Inv(w) && Enabled(w.live, a, w.clock)
    ensures Inv(Acts(w, a))
    ensures Logged(w.live, a, w.clock).None? ==> Replayed(Acts(w, a)) == Replayed(w)
    ensures Logged(w.live, a, w.clock).Some? ==>
      Apply(Replayed(w), Logged(w.live, a, w.clock).value) == Ok(Replayed(Acts(w, a)))
  {
    hide Sound, Related, Past, HistorySound, LeasesKnown, Enabled, Effect, Logged, Outcomes, Deliveries, Apply, Load;
    DoKeepsInv(w, a);
    match Logged(w.live, a, w.clock)
    case None =>
    case Some(r) =>
      InvParts(w);
      ReplayFollows(w.live, Replayed(w), a, w.clock);
      LoadOne(w.log, r);
  }

  /** A lease is known to the live engine and to replay alike. */
  lemma GrantBoth(w: World, n: string, id: string, visibility: int)
    requires Inv(w) && Enabled(w.live, Grant(n, id, visibility), w.clock)
    ensures var w1 := Acts(w, Grant(n, id, visibility));
      && Inv(w1) && w1.clock == w.clock && Has(w.live, n, id)
      && IsLeased(w1.live, n, id) && At(w1.live, n, id).deadline == w.clock + visibility
      && w1.live.queues[n].cfg == w.live.queues[n].cfg
      && IsLeased(Replayed(w1), n, id) && At(Replayed(w1), n, id).receives == At(w.live, n, id).receives + 1
  {
    hide Inv, FormatReceipt, Apply, Load, Outcomes, Deliveries, IsFirst, Sound, Replayed, Logged;
    InvParts(w);
    IdNamed(w.live, n, id);
    var w1 := Acts(w, Grant(n, id, visibility));
    ReplayedActs(w, Grant(n, id, visibility));
    InvParts(w1);
    BothHave(w1.live, Replayed(w1), w1.clock, n, id);
  }

  /** The clock moves on, of which replay learns nothing. */
  lemma TickSilent(w: World, later: int)
    requires Inv(w) && later >= w.clock
    ensures Enabled(w.live, Tick(later), w.clock)
    ensures var w' := Acts(w, Tick(later));
      Inv(w') && w'.live == w.live && w'.clock == later && Replayed(w') == Replayed(w)
  {
    hide Inv, Outcomes, Deliveries, Sound, Replayed;
    ReplayedActs(w, Tick(later));
  }

  /** A lease that is over becomes ready, of which replay learns nothing. */
  lemma WakeSilent(w: World, n: string, id: string)
    requires Inv(w) && IsLeased(w.live, n, id) && w.live.queues[n].cfg.maxReceives == 0
    requires w.clock >= At(w.live, n, id).deadline
    ensures Enabled(w.live, Wake(n, id), w.clock)
    ensures var w' := Acts(w, Wake(n, id));
      && Inv(w') && Has(w'.live, n, id) && At(w'.live, n, id).phase == Ready && w'.clock == w.clock
      && w'.live.queues[n].cfg == w.live.queues[n].cfg && Replayed(w') == Replayed(w)
  {
    hide Inv, Outcomes, Deliveries, Sound, Replayed;
    InvParts(w);
    IdNamed(w.live, n, id);
    ReplayedActs(w, Wake(n, id));
  }

  /** A message of queue n is ready, and replay remembers it as a lease that the limit of cfg exhausts. */
  predicate Outlived(live: State, rep: State, n: string, cfg: Config, id: string) {
    && Has(live, n, id) && At(live, n, id).phase == Ready
    && IsLeased(rep, n, id) && Exhausted(cfg, At(rep, n, id).receives)
  }

  /** Reconfiguring a queue leaves stale exactly those of its messages whose replayed lease the new limit exhausts. */
  lemma StaleAfterConfigure(w: World, n: string, cfg: Config, ts: int, n': string, id: string)
    requires Inv(w) && SoundConfig(n, cfg) && ts >= w.clock
    ensures var w' := Acts(w, Configure(n, cfg, ts));
      Stale(w'.live, Replayed(w'), n', id) <==>
        if n' == n then Outlived(w.live, Replayed(w), n, cfg, id) else Stale(w.live, Replayed(w), n', id)
  {
    hide Inv, Load, ValidName, Replayed;
    ReplayedActs(w, Configure(n, cfg, ts));
    ConfigRoundTrip(cfg);
  }

  /**
   Tightening: when no message is stale, giving a queue another configuration
   keeps it so exactly if no ready message of the queue is remembered as a lease
   that the new limit exhausts.
   */
  lemma TighteningIsExact(w: World, n: string, cfg: Config, ts: int)
    requires Inv(w) && SoundConfig(n, cfg) && ts >= w.clock && NoneStale(w.live, Replayed(w))
    ensures var w' := Acts(w, Configure(n, cfg, ts));
      NoneStale(w'.live, Replayed(w')) <==> forall id :: !Outlived(w.live, Replayed(w), n, cfg, id)
  {
    hide Inv, Stale, Outlived, Replayed, Acts;
    var w' := Acts(w, Configure(n, cfg, ts));
    forall n', id
      ensures Stale(w'.live, Replayed(w'), n', id) <==> n' == n && Outlived(w.live, Replayed(w), n, cfg, id)
    {
      StaleAfterConfigure(w, n, cfg, ts, n', id);
    }
    forall id ensures Stale(w'.live, Replayed(w'), n, id) <==> Outlived(w.live, Replayed(w), n, cfg, id) { }
  }

  lemma DoSteps(w: World, a: Action)
    requires Enabled(w.live, a, w.clock)
    ensures Step(w, Do(a), Acts(w, a))
  {
    hide Enabled, Acts;
  }

  lemma Extend(worlds: seq<World>, events: seq<Event>, a: Action, w: World) returns (ws: seq<World>, es: seq<Event>)
    requires IsRun(worlds, events) && w == worlds[|events|] && Enabled(w.live, a, w.clock)
    ensures IsRun(ws, es) && ws == worlds + [Acts(w, a)] && es == events + [Do(a)]
    ensures ws[|es|] == Acts(w, a) && Inv(w) && Inv(Acts(w, a))
  {
    hide Enabled, Acts, Inv, Step;
    RunInv(worlds, events, |events|);
    DoKeepsInv(w, a);
    DoSteps(w, a);
    RunExtends(worlds, events, Do(a), Acts(w, a));
    ws, es := worlds + [Acts(w, a)], events + [Do(a)];
  }

  /** The first steps of the runs below: a queue without a limit, and one message in it. */
  lemma OneMessageRun() returns (worlds: seq<World>, events: seq<Event>, w: World, n: string, id: string)
    ensures IsRun(worlds, events) && w == worlds[|events|] && Inv(w)
    ensures |events| == 2 && events[1] == Do(Post(n, [], 0)) && worlds[1].live.counter == 0 && id == FormatId(1)
    ensures w.clock == 0 && Enabled(w.live, Grant(n, id, 1), 0)
    ensures forall n', id' :: Has(w.live, n', id') <==> n' == n && id' == id
    ensures SoundConfig(n, DEFAULT_CONFIG) && w.live.queues[n].cfg == DEFAULT_CONFIG
  {
    hide Inv, FormatId, Outcomes, Deliveries, LogAfter, IsRun;
    n, id := "a", FormatId(1);
    worlds, events := EmptyRun();
    worlds, events := Extend(worlds, events, Configure(n, DEFAULT_CONFIG, 0), START);
    w := Acts(START, Configure(n, DEFAULT_CONFIG, 0));
    worlds, events := Extend(worlds, events, Post(n, [], 0), w);
    w := Acts(w, Post(n, [], 0));
    assert Has(w.live, n, id) && IsFirst(w.live, n, id);
  }

  lemma EmptyRun() returns (worlds: seq<World>, events: seq<Event>)
    ensures IsRun(worlds, events) && worlds == [START] && events == []
  {
    worlds, events := [START], [];
  }

  /**
   A run after which replay disagrees with the live engine: create, send,
   lease, let the lease expire, then limit the queue to one receive.
   */
  lemma TightenedRun() returns (worlds: seq<World>, events: seq<Event>, n: string, id: string)
    ensures IsRun(worlds, events)
    ensures Stale(worlds[|events|].live, Replayed(worlds[|events|]), n, id)
  {
    hide IsRun, Inv, Load, Replayed, Stale, Acts, IsFirst, ValidName, FormatId;
    var w;
    worlds, events, w, n, id := OneMessageRun();
    GrantBoth(w, n, id, 1);
    worlds, events := Extend(worlds, events, Grant(n, id, 1), w);
    var w1 := Acts(w, Grant(n, id, 1));
    TickSilent(w1, 1);
    WakeSilent(Acts(w1, Tick(1)), n, id);
    var w3 := Acts(Acts(w1, Tick(1)), Wake(n, id));
    worlds, events := Extend(worlds, events, Tick(1), w1);
    worlds, events := Extend(worlds, events, Wake(n, id), Acts(w1, Tick(1)));
    var cfg := DEFAULT_CONFIG.(maxReceives := 1);
    FirstLease(w, n, id);
    StaleAfterConfigure(w3, n, cfg, w3.clock, n, id);
    worlds, events := Extend(worlds, events, Configure(n, cfg, w3.clock), w3);
  }

  lemma FirstLease(w: World, n: string, id: string)
    requires Inv(w) && Has(w.live, n, id)
    ensures At(w.live, n, id).receives >= 0
  {
    hide Related, HistorySound, LeasesKnown, Load, FormatId, FormatReceipt, ParseHex;
  }

  /** Compacting the log of a state without messages starts the counter over, so IDs are issued again. */
  lemma CompactionForgetsIds(s: State)
    requires Sound(s) && forall n, id :: !Has(s, n, id)
    ensures Compacted(s).counter == 0
  {
    hide Sound, BumpQueues, SortNames;
    CompactedCounter(s);
  }

  /** Acknowledging the only message there is leaves none, live or replayed. */
  lemma LastSettled(w: World, n: string, id: string)
    requires Inv(w) && Steps.Holds(w.live, n, id, w.clock)
    requires forall n', id' :: Has(w.live, n', id') ==> n' == n && id' == id
    ensures Enabled(w.live, Settle(n, id, w.clock), w.clock)
    ensures var w' := Acts(w, Settle(n, id, w.clock));
      && Inv(w') && w'.clock == w.clock && n in Replayed(w').queues
      && Sound(Replayed(w')) && forall n', id' :: !Has(Replayed(w'), n', id')
  {
    hide Inv, Outcomes, Deliveries, Sound, Replayed, Related;
    var w' := Acts(w, Settle(n, id, w.clock));
    ReplayedActs(w, Settle(n, id, w.clock));
    InvParts(w');
    SameQueues(w'.live, Replayed(w'), w'.clock);
    forall n', id' ensures !Has(w'.live, n', id')
    {
      assert Has(w'.live, n', id') ==> Has(w.live, n', id');
    }
  }

  /** Events a, b and c send a message, acknowledge it, and send another under its ID. */
  ghost predicate Reissues(worlds: seq<World>, events: seq<Event>, a: nat, b: nat, c: nat, id: string) {
    && a < b < c < |events| && |worlds| == |events| + 1
    && events[a].Do? && events[a].action.Post? && FormatId(worlds[a].live.counter + 1) == id
    && events[b].Do? && events[b].action.Settle? && events[b].action.id == id
    && events[c].Do? && events[c].action.Post? && FormatId(worlds[c].live.counter + 1) == id
  }

  /** A run in which the ID of an acknowledged message is issued again: after a compaction. */
  lemma ReissuedRun() returns (worlds: seq<World>, events: seq<Event>, id: string)
    ensures IsRun(worlds, events) && Reissues(worlds, events, 1, 3, 5, id)
  {
    hide Inv, Load, Replayed, Acts, IsFirst, ValidName, FormatId, Step, Compacted, SnapshotOf, Sound;
    var w, n;
    worlds, events, w, n, id := OneMessageRun();
    GrantBoth(w, n, id, 1);
    worlds, events := Extend(worlds, events, Grant(n, id, 1), w);
    var w3 := Acts(w, Grant(n, id, 1));
    OnlyOne(w, n, id);
    LastSettled(w3, n, id);
    worlds, events := Extend(worlds, events, Settle(n, id, 0), w3);
    var w4 := Acts(w3, Settle(n, id, 0));
    var w5 := CompactPossible(w4);
    RunExtends(worlds, events, Compact, w5);
    worlds, events := worlds + [w5], events + [Compact];
    CompactionForgetsIds(Replayed(w4));
    CompactedNames(Replayed(w4));
    worlds, events := Extend(worlds, events, Post(n, [], 0), w5);
    assert events[1] == Do(Post(n, [], 0)) && worlds[1].live.counter == 0;
    assert events[3] == Do(Settle(n, id, 0));
    assert events[5] == Do(Post(n, [], 0)) && worlds[5] == w5 && w5.live.counter == 0;
  }

  lemma OnlyOne(w: World, n: string, id: string)
    requires Inv(w) && Enabled(w.live, Grant(n, id, 1), w.clock)
    requires forall n', id' :: Has(w.live, n', id') ==> n' == n && id' == id
    ensures forall n', id' :: Has(Acts(w, Grant(n, id, 1)).live, n', id') ==> n' == n && id' == id
  {
    hide Inv, FormatReceipt, FormatId, Outcomes, Deliveries, LogAfter, IsFirst;
    IdNamed(w.live, n, id) by { InvParts(w); }
    var w' := Acts(w, Grant(n, id, 1));
    forall n', id' | Has(w'.live, n', id') ensures Has(w.live, n', id') { }
  }

  lemma CompactedNames(s: State)
    ensures Compacted(s).queues.Keys == s.queues.Keys
  {
    hide BumpQueues, SortNames;
  }

  /** The record of a configuration replays to it exactly when its values are in range, which is left to the caller. */
  lemma ConfigMustBeInRange(w: World, n: string, cfg: Config, ts: int)
    requires Inv(w)
    ensures var r := Record(QueueCreate, n, ts := ts, config := Marshal(cfg));
      (Load(EMPTY, w.log + [r]) == Ok(SetConfig(Replayed(w), n, cfg))) <==> InRange(cfg)
  {
    hide Sound, Related, Past, HistorySound, LeasesKnown, Load, InRange, ParseConfig;
    var r := Record(QueueCreate, n, ts := ts, config := Marshal(cfg));
    LoadOne(w.log, r);
    ConfigRoundTrip(cfg);
    if ParseConfig(r.config).Ok? && ParseConfig(r.config).value != cfg {
      assert SetConfig(Replayed(w), n, ParseConfig(r.config).value).queues[n].cfg != cfg;
    }
  }

  /** The counter drops by compaction exactly when no live number is the last one issued. */
  lemma CompactionDropsCounter(s: State)
    requires Sound(s)
    ensures Compacted(s).counter <= s.counter
    ensures Compacted(s).counter < s.counter <==>
      s.counter > 0 && forall n, id :: Has(s, n, id) ==> !Carries(At(s, n, id), s.counter)
  {
    hide BumpQueues, SortNames, FormatId, FormatReceipt, ParseHex, TrimR;
    CompactedCounter(s);
    var c := Compacted(s).counter;
    assert forall n, id :: Has(s, n, id) ==> Within(At(s, n, id), s.counter);
    if c == s.counter && c > 0 {
      assert exists n, id :: Has(s, n, id) && Carries(At(s, n, id), c);
    }
  }

  /** A redriven message stands behind messages with later IDs, an order compaction does not keep. */
  lemma ShiftBreaksIdOrder(s: State, n: string, id: string, to: string, id': string, now: int, ts: int)
    requires Sound(s) && Enabled(s, Shift(n, id, to, ts), now)
    requires Has(s, to, id') && SeqOf(id) < SeqOf(id')
    ensures !OrderedByIds(Effect(s, Shift(n, id, to, ts), now))
  {
    hide FormatId, FormatReceipt, ParseHex, TrimR, ValidName, IsFirst;
    var s' := Effect(s, Shift(n, id, to, ts), now);
    assert Has(s', to, id) && Has(s', to, id') && At(s', to, id').pos <= s.counter < At(s', to, id).pos;
  }
}
