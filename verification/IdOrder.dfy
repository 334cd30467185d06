/**
 When FIFO order is the order of sending.  It always was when the message was
 sent; what can end it is a message that comes from another queue.
 */
module IdOrder {
  import opened Config
  import opened Ids
  import opened State
  import opened Replay
  import opened Steps
  import opened ReplaySteps
  import opened Snapshot
  import opened Compaction
  import opened CompactionLaws
  import opened Sweeping
  import opened Runs
  import opened Limits

  /** Message id was sent after every message of queue n. */
  ghost predicate SentLast(s: State, n: string, id: string) {
    forall id' :: Has(s, n, id') ==> SeqOf(id') < SeqOf(id)
  }

  /** The action brings no message behind one that was sent later. */
  ghost predicate KeepsIdOrder(s: State, a: Action) {
    match a
    case Shift(_, id, to, _) => SentLast(s, to, id)
    case Bury(n, id, _) => n in s.queues && TargetOf(s, n) != "" ==> SentLast(s, TargetOf(s, n), id)
    case _ => true
  }

  /** A message that joins another queue is in order there exactly if it was sent last. */
  lemma ArriveOrder(s: State, n: string, id: string, to: string, m: Msg)
    requires Sound(s) && OrderedByIds(s) && Has(s, n, id) && n != to && to in s.queues && m.id == id
    ensures OrderedByIds(Arrive(Take(s, n, id), to, m)) <==> SentLast(s, to, id)
  {
    hide SoundConfig, SoundMsg, SeqOf, IsId;
    var s' := Arrive(Take(s, n, id), to, m);
    NumbersBounded(s);
    SeqIsOne(s);
    forall n', id'
      ensures Has(s', n', id') <==> if id' == id then n' == to else Has(s, n', id')
      ensures Has(s', n', id') && id' != id ==> At(s', n', id') == At(s, n', id') && At(s, n', id').pos <= s.counter
    {
      assert Has(s, n', id') && Has(s, n, id) && id' == id ==> n' == n;
    }
    assert Has(s', to, id) && At(s', to, id).pos == s.counter + 1;
    if OrderedByIds(s') {
      forall id' | Has(s, to, id') ensures SeqOf(id') < SeqOf(id)
      {
        assert Has(s', to, id') && id' != id;
        assert At(s', to, id').pos < At(s', to, id).pos;
      }
    }
    if SentLast(s, to, id) {
      forall n', x, y | Has(s', n', x) && Has(s', n', y)
        ensures At(s', n', x).pos < At(s', n', y).pos <==> SeqOf(x) < SeqOf(y)
      {
        if x != id && y != id {
          assert Has(s, n', x) && Has(s, n', y);
        } else if x == id && y != id {
          assert Has(s, to, y);
        } else if y == id && x != id {
          assert Has(s, to, x);
        }
      }
    }
  }

  /** Two IDs with one number are the same. */
  lemma SeqIsOne(s: State)
    requires Sound(s)
    ensures forall n, id :: Has(s, n, id) ==> SeqOf(id) <= s.counter && id == FormatId(SeqOf(id))
  {
    hide FormatId, ParseHex, TrimR, SoundConfig, SeqOf;
    forall n, id | Has(s, n, id) ensures SeqOf(id) <= s.counter && id == FormatId(SeqOf(id)) { FiledSound(s, n, id); }
  }

  /** Messages leave, and the others keep their places. */
  ghost predicate Thinned(s: State, s': State) {
    forall n, id :: Has(s', n, id) ==> Has(s, n, id) && At(s', n, id).pos == At(s, n, id).pos
  }

  lemma ThinnedOrder(s: State, s': State)
    requires OrderedByIds(s) && Thinned(s, s')
    ensures OrderedByIds(s')
  {
    hide SeqOf;
  }

  lemma PutThinned(s: State, n: string, m: Msg, c: nat)
    requires Has(s, n, m.id) && m.pos == At(s, n, m.id).pos
    ensures Thinned(s, Put(s, n, m).(counter := c))
  {
  }

  lemma TakeThinned(s: State, n: string, id: string)
    requires n in s.queues
    ensures Thinned(s, Take(s, n, id))
  {
  }

  lemma QueueThinned(s: State, n: string, cfg: Config)
    ensures Thinned(s, SetConfig(s, n, cfg)) && Thinned(s, Drop(s, n)) && Thinned(s, s.(counter := s.counter + 1))
  {
  }

  /** A new message comes last. */
  lemma PostOrder(s: State, n: string, m: Msg)
    requires Sound(s) && OrderedByIds(s) && n in s.queues && m.id == FormatId(s.counter + 1) && m.pos == s.counter + 1
    ensures OrderedByIds(Put(s, n, m).(counter := s.counter + 1))
  {
    hide Sound, FormatId, ParseHex, TrimR;
    IdRoundTrip(s.counter + 1);
    NumbersBounded(s);
    SeqIsOne(s);
    var s' := Put(s, n, m).(counter := s.counter + 1);
    forall n', id | Has(s', n', id)
      ensures Has(s, n', id) || (id == m.id && At(s', n', id).pos == s.counter + 1)
      ensures Has(s, n', id) ==> id != m.id && At(s', n', id).pos == At(s, n', id).pos
    {
      NextIdIsFresh(s, n');
    }
  }

  /** An action that moves nobody to another queue: positions stay, and a new message comes last. */
  lemma OthersKeepOrder(s: State, a: Action, now: int)
    requires Sound(s) && OrderedByIds(s) && Enabled(s, a, now) && !a.Shift?
    requires a.Bury? ==> TargetOf(s, a.queue) == ""
    ensures OrderedByIds(Effect(s, a, now))
  {
    hide Sound, OrderedByIds, Thinned, FormatReceipt, FormatId, IsFirst, Take, Drop, SetConfig;
    if a.Grant? || a.Return? || a.Prolong? || a.Wake? { IdOf(s, a.queue, a.id); }
    match a {
      case Post(n, body, delay) => PostOrder(s, n, NewMsg(s, body, delay, now));
      case Configure(n, cfg, _) => QueueThinned(s, n, cfg);
      case Delete(n, _) => QueueThinned(s, n, DEFAULT_CONFIG);
      case Burn => QueueThinned(s, "", DEFAULT_CONFIG);
      case Grant(n, id, visibility) => PutThinned(s, n, LeasedMsg(s, At(s, n, id), visibility, now), s.counter + 1);
      case Settle(n, id, _) => TakeThinned(s, n, id);
      case Return(n, id, _) => PutThinned(s, n, At(s, n, id).MakeReady(), s.counter);
      case Prolong(n, id, deadline, _) => PutThinned(s, n, At(s, n, id).(deadline := deadline), s.counter);
      case Bury(n, id, _) => TakeThinned(s, n, id);
      case Wake(n, id) => PutThinned(s, n, At(s, n, id).MakeReady(), s.counter);
      case Tick(_) =>
    }
    if !a.Post? && !a.Tick? {
      ThinnedOrder(s, Effect(s, a, now));
    }
  }

  lemma IdOf(s: State, n: string, id: string)
    requires Sound(s) && Has(s, n, id)
    ensures At(s, n, id).id == id
  {
    hide SoundConfig, IsId, IsReceipt, SeqOf, NumberOf;
  }

  /**
   The order of sending survives an action exactly if the action is no redrive
   and no dead-lettering into a queue that holds a message sent later.
   */
  lemma OrderAfter(s: State, a: Action, now: int)
    requires Sound(s) && OrderedByIds(s) && Enabled(s, a, now)
    ensures OrderedByIds(Effect(s, a, now)) <==> KeepsIdOrder(s, a)
  {
    hide Sound, OrderedByIds, SentLast, IsFirst, Arrive, Take;
    match a
    case Shift(n, id, to, _) =>
      IdOf(s, n, id);
      ArriveOrder(s, n, id, to, At(s, n, id).(receives := 0));
    case Bury(n, id, _) =>
      IdOf(s, n, id);
      QueueNamed(s, n);
      if TargetOf(s, n) == "" {
        OthersKeepOrder(s, a, now);
      } else {
        ArriveOrder(s, n, id, TargetOf(s, n), At(s, n, id));
      }
    case _ => OthersKeepOrder(s, a, now);
  }

  /** A restart neither restores the order of sending nor ends it. */
  lemma RestartOrder(live: State, rep: State, now: int)
    requires Related(live, rep, now)
    ensures OrderedByIds(rep) <==> OrderedByIds(live)
  {
    hide MsgRelated, SeqOf;
    forall n, id ensures Has(live, n, id) <==> Has(rep, n, id) { }
    forall n, id, id' | Has(live, n, id) && Has(live, n, id')
      ensures At(live, n, id).pos < At(live, n, id').pos <==> At(rep, n, id).pos < At(rep, n, id').pos
    {
      assert Has(rep, n, id) && Has(rep, n, id');
    }
  }

  /** A compaction restores it. */
  lemma CompactOrder(s: State)
    requires Filed(s)
    ensures OrderedByIds(Compacted(s))
  {
    hide BumpQueues, SortNames, SeqOf;
    forall n, id | Has(Compacted(s), n, id) ensures At(Compacted(s), n, id).pos == SeqOf(id)
    {
      KeptAt(s, n, id);
    }
  }

  lemma StepOrder(w: World, e: Event, w': World)
    requires Inv(w) && Step(w, e, w') && OrderedByIds(w.live)
    ensures OrderedByIds(w'.live) <==> (e.Do? ==> KeepsIdOrder(w.live, e.action))
  {
    hide OrderedByIds, KeepsIdOrder, Enabled, Effect, Inv, Related, Sound, Replayed, StartsFrom, SnapshotOf, Compacted,
      Logged, Outcomes, Deliveries;
    InvParts(w);
    match e
    case Do(a) => OrderAfter(w.live, a, w.clock);
    case Restart => RestartOrder(w.live, Replayed(w), w.clock);
    case Compact =>
      CompactKeepsInv(w, w');
      SoundIsFiled(Replayed(w));
      CompactOrder(Replayed(w));
  }

  /** FIFO order is the order of sending all through the first i events of a run. */
  ghost predicate AlwaysOrdered(worlds: seq<World>, i: nat)
    requires i < |worlds|
  {
    forall k :: 0 <= k <= i ==> OrderedByIds(worlds[k].live)
  }

  /** None of the first i events brings a message behind one that was sent later. */
  ghost predicate NeverOvertakes(worlds: seq<World>, events: seq<Event>, i: nat)
    requires i <= |events| < |worlds|
  {
    forall k :: 0 <= k < i ==> (events[k].Do? ==> KeepsIdOrder(worlds[k].live, events[k].action))
  }

  /**
   In every run, FIFO order is the order of sending up to any point exactly if
   no redrive and no dead-lettering before it has brought a message behind one
   that was sent later.
   */
  lemma {:induction false} RunIdOrder(worlds: seq<World>, events: seq<Event>, i: nat)
    requires IsRun(worlds, events) && i < |worlds|
    ensures AlwaysOrdered(worlds, i) <==> NeverOvertakes(worlds, events, i)
    decreases i
  {
    hide Step, Inv, OrderedByIds, KeepsIdOrder;
    if i == 0 {
      StartOrdered();
    } else {
      RunIdOrder(worlds, events, i - 1);
      RunInv(worlds, events, i - 1);
      assert Step(worlds[i - 1], events[i - 1], worlds[i]);
      if AlwaysOrdered(worlds, i - 1) {
        StepOrder(worlds[i - 1], events[i - 1], worlds[i]);
        assert AlwaysOrdered(worlds, i) <==> OrderedByIds(worlds[i].live);
      } else {
        assert !NeverOvertakes(worlds, events, i - 1);
      }
    }
  }

  lemma StartOrdered()
    ensures OrderedByIds(START.live)
  {
  }

  // ---- runs that end the order -------------------------------------------

  /** One message in each of two queues, the second sent later. */
  lemma TwoMessageRun() returns (worlds: seq<World>, events: seq<Event>, w: World, n: string, id: string, to: string,
                                 id': string)
    ensures IsRun(worlds, events) && w == worlds[|events|] && Inv(w) && n != to && SoundConfig(n, DEFAULT_CONFIG)
    ensures Has(w.live, n, id) && IsFirst(w.live, n, id) && Has(w.live, to, id') && SeqOf(id) < SeqOf(id')
    ensures forall cfg :: cfg == Config(DEFAULT_VISIBILITY, 1, to) ==> SoundConfig(n, cfg)
  {
    hide Inv, FormatId, Outcomes, Deliveries, LogAfter, IsRun, ParseHex;
    worlds, events, w, n, id := OneMessageRun();
    to := if n == "a" then "b" else "a";
    IdRoundTrip(1);
    IdLater(w, n, id);
    id' := FormatId(w.live.counter + 1);
    IdRoundTrip(w.live.counter + 1);
    worlds, events := Extend(worlds, events, Configure(to, DEFAULT_CONFIG, w.clock), w);
    var w1 := Acts(w, Configure(to, DEFAULT_CONFIG, w.clock));
    worlds, events := Extend(worlds, events, Post(to, [], 0), w1);
    var w2 := Acts(w1, Post(to, [], 0));
    assert Has(w2.live, n, id) && Has(w2.live, to, id');
    w := w2;
  }

  lemma IdLater(w: World, n: string, id: string)
    requires Inv(w) && Has(w.live, n, id)
    ensures SeqOf(id) <= w.live.counter
  {
    hide Related, Past, HistorySound, LeasesKnown, FormatId, FormatReceipt;
    FiledSound(w.live, n, id);
  }

  /** A redrive after which a message stands behind one that was sent later. */
  lemma RedrivenRun() returns (worlds: seq<World>, events: seq<Event>)
    ensures IsRun(worlds, events) && events != [] && events[|events| - 1].Do? && events[|events| - 1].action.Shift?
    ensures !OrderedByIds(worlds[|events|].live)
  {
    hide IsRun, Inv, Acts, OrderedByIds, IsFirst, SeqOf;
    var w, n, id, to, id';
    worlds, events, w, n, id, to, id' := TwoMessageRun();
    ShiftOvertakes(w, n, id, to, id', w.clock);
    worlds, events := Extend(worlds, events, Shift(n, id, to, w.clock), w);
  }

  lemma ShiftOvertakes(w: World, n: string, id: string, to: string, id': string, ts: int)
    requires Inv(w) && Enabled(w.live, Shift(n, id, to, ts), w.clock) && Has(w.live, to, id') && SeqOf(id) < SeqOf(id')
    ensures !OrderedByIds(Acts(w, Shift(n, id, to, ts)).live)
  {
    hide Inv, Sound, OrderedByIds, Related, Enabled, Effect, Logged, Outcomes, Deliveries, SeqOf;
    InvParts(w);
    ShiftBreaksIdOrder(w.live, n, id, to, id', w.clock, ts);
  }

  /** A message dead-lettered behind one that was sent later. */
  lemma DeadLetteredRun() returns (worlds: seq<World>, events: seq<Event>)
    ensures IsRun(worlds, events) && events != [] && events[|events| - 1].Do? && events[|events| - 1].action.Bury?
    ensures !OrderedByIds(worlds[|events|].live)
  {
    hide IsRun, Inv, Acts, OrderedByIds, IsFirst, SeqOf, ValidName;
    var w, n, id, to, id';
    worlds, events, w, n, id, to, id' := TwoMessageRun();
    var cfg := Config(DEFAULT_VISIBILITY, 1, to);
    worlds, events := Extend(worlds, events, Configure(n, cfg, w.clock), w);
    var w1 := Acts(w, Configure(n, cfg, w.clock));
    Reconfigured(w, n, cfg, id, to, id');
    worlds, events := Extend(worlds, events, Grant(n, id, 1), w1);
    var w2 := Acts(w1, Grant(n, id, 1));
    SpentOnce(w1, n, id, to, id', w2);
    BuryOvertakes(w2, n, id, to, id', w2.clock);
    worlds, events := Extend(worlds, events, Bury(n, id, w2.clock), w2);
  }

  lemma Reconfigured(w: World, n: string, cfg: Config, id: string, to: string, id': string)
    requires Inv(w) && SoundConfig(n, cfg) && Has(w.live, n, id) && IsFirst(w.live, n, id) && Has(w.live, to, id')
    ensures var w' := Acts(w, Configure(n, cfg, w.clock));
      Inv(w') && Has(w'.live, n, id) && IsFirst(w'.live, n, id) && Has(w'.live, to, id') && w'.live.queues[n].cfg == cfg
  {
    hide Inv, ValidName, Outcomes, Deliveries, LogAfter;
    DoKeepsInv(w, Configure(n, cfg, w.clock));
  }

  /** One lease uses up the single delivery that the queue allows. */
  lemma SpentOnce(w: World, n: string, id: string, to: string, id': string, w': World)
    requires Inv(w) && Has(w.live, n, id) && Has(w.live, to, id') && n != to
    requires w.live.queues[n].cfg == Config(DEFAULT_VISIBILITY, 1, to)
    requires Enabled(w.live, Grant(n, id, 1), w.clock) && w' == Acts(w, Grant(n, id, 1))
    ensures Inv(w') && Enabled(w'.live, Bury(n, id, w'.clock), w'.clock) && Has(w'.live, to, id')
    ensures Has(w'.live, n, id) && TargetOf(w'.live, n) == to
  {
    hide Inv, FormatReceipt, IsFirst, Outcomes, Deliveries, LogAfter, ParseHex, FormatId;
    FirstLease(w, n, id);
    InvFiled(w, n, id);
    DoKeepsInv(w, Grant(n, id, 1));
  }

  lemma InvFiled(w: World, n: string, id: string)
    requires Inv(w) && Has(w.live, n, id)
    ensures At(w.live, n, id).id == id
  {
    hide Related, Past, HistorySound, LeasesKnown, SoundMsg, Sound;
    IdOf(w.live, n, id);
  }

  lemma BuryOvertakes(w: World, n: string, id: string, to: string, id': string, ts: int)
    requires Inv(w) && Enabled(w.live, Bury(n, id, ts), w.clock) && TargetOf(w.live, n) == to && n != to
    requires Has(w.live, to, id') && SeqOf(id) < SeqOf(id')
    ensures !OrderedByIds(Acts(w, Bury(n, id, ts)).live)
  {
    hide Inv, OrderedByIds, Related, SeqOf, FormatReceipt, ParseHex, TrimR, FormatId, Outcomes, Deliveries, LogAfter,
      Sound;
    InvParts(w);
    IdOf(w.live, n, id);
    QueueNamed(w.live, to);
    NumbersBounded(w.live);
    NotOrdered(Acts(w, Bury(n, id, ts)).live, to, id, id');
  }

  lemma NotOrdered(s: State, n: string, id: string, id': string)
    requires Has(s, n, id) && Has(s, n, id') && SeqOf(id) < SeqOf(id') && At(s, n, id').pos <= At(s, n, id).pos
    ensures !OrderedByIds(s)
  {
    hide SeqOf;
  }
}
