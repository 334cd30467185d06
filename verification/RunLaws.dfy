/** What holds over whole runs of the engine. */
module RunLaws {
  import opened Wrappers
  import opened Config
  import opened Ids
  import opened Record
  import opened Framing
  import opened State
  import opened Replay
  import opened Steps
  import opened ReplaySteps
  import opened Snapshot
  import opened Sweeping
  import opened SweepLaws
  import opened Agreement
  import opened Runs

  // ---- replay agrees with the live engine --------------------------------

  /** No event tightens max_receives of a queue that exists. */
  ghost predicate NeverTightens(worlds: seq<World>, events: seq<Event>)
    requires |worlds| == |events| + 1
  {
    forall i :: 0 <= i < |events| ==> Tightens(worlds[i].live, events[i]) == false
  }

  predicate Tightens(s: State, e: Event) {
    e.Do? && e.action.Configure? && e.action.queue in s.queues
    && !Loosens(s.queues[e.action.queue].cfg, e.action.cfg)
  }

  /** A message becomes stale only by tightening the limit of its queue. */
  lemma SilentStale(live: State, rep: State, a: Action, now: int, n: string, id: string)
    requires Filed(live) && Related(live, rep, now) && Enabled(live, a, now) && Logged(live, a, now).None?
    requires Stale(Effect(live, a, now), rep, n, id)
    ensures Stale(live, rep, n, id)
  {
    hide FormatId, FormatReceipt, ValidName, IsFirst, SameOrder;
    assert Has(live, n, id) ==> Has(rep, n, id) && MsgRelated(At(live, n, id), At(rep, n, id), now);
  }

  /** A lease in the replayed state that the record does not create was there before, unchanged. */
  lemma ApplyKeepsLease(s: State, r: Record, n: string, id: string)
    requires Filed(s) && Apply(s, r).Ok? && IsLeased(Apply(s, r).value, n, id)
    requires !(r.op == Receive && r.queue == n && r.id == id)
    ensures IsLeased(s, n, id) && At(Apply(s, r).value, n, id).receives == At(s, n, id).receives
    ensures r.id == id ==> r.op == Extend || r.op == QueueCreate || r.op == QueueDelete || r.op.Other? || r.queue != n
    ensures Apply(s, r).value.queues[n].cfg == s.queues[n].cfg || (r.op == QueueCreate && r.queue == n)
  {
    hide FormatId, FormatReceipt, ParseHex, TrimR, ValidName, SeqOf, NumberOf, BumpSeq, Base64.Decode, ParseConfig;
  }

  /** A message an action leaves ready without naming it was ready before. */
  lemma EffectReady(s: State, a: Action, now: int, n: string, id: string)
    requires Filed(s) && Enabled(s, a, now) && Logged(s, a, now).Some?
    requires Has(s, n, id) && Has(Effect(s, a, now), n, id) && At(Effect(s, a, now), n, id).phase == Ready
    requires var r := Logged(s, a, now).value;
      r.id == id ==> r.op == Extend || r.op == QueueCreate || r.op == QueueDelete || r.op.Other? || r.queue != n
    ensures At(s, n, id).phase == Ready && At(Effect(s, a, now), n, id).receives == At(s, n, id).receives
  {
    hide FormatId, FormatReceipt, ParseHex, TrimR, ValidName, IsFirst, Base64.Encode, Utf8.Valid;
  }

  /** The configuration record of a queue comes from configuring it. */
  lemma LoggedConfig(s: State, a: Action, now: int, n: string)
    requires Enabled(s, a, now) && Logged(s, a, now).Some?
    ensures var r := Logged(s, a, now).value;
      r.op == QueueCreate && r.queue == n ==>
        a.Configure? && a.queue == n && r.config == Marshal(a.cfg) && ParseConfig(r.config) == Ok(a.cfg)
  {
    hide FormatId, FormatReceipt, ValidName, IsFirst, Base64.Encode, Utf8.Valid;
  }

  lemma LoggedStale(live: State, rep: State, a: Action, now: int, n: string, id: string)
    requires Filed(live) && Filed(rep) && Related(live, rep, now) && Enabled(live, a, now)
    requires Logged(live, a, now).Some? && Apply(rep, Logged(live, a, now).value).Ok?
    requires Stale(Effect(live, a, now), Apply(rep, Logged(live, a, now).value).value, n, id)
    requires !Tightens(live, Do(a))
    ensures Stale(live, rep, n, id)
  {
    hide Enabled, Effect, Logged, Apply, Filed, Related;
    var r := Logged(live, a, now).value;
    LoggedReceive(live, a, now, n, id);
    GrantLeases(live, a, now, n, id);
    ApplyKeepsLease(rep, r, n, id);
    SameQueues(live, rep, now);
    EffectReady(live, a, now, n, id);
    LoggedConfig(live, a, now, n);
    SameConfigs(live, rep, now, n);
    ConfigApplied(rep, r, n);
  }

  lemma SameConfigs(live: State, rep: State, now: int, n: string)
    requires Related(live, rep, now)
    ensures n in live.queues ==> n in rep.queues && live.queues[n].cfg == rep.queues[n].cfg
  {
  }

  lemma ConfigApplied(s: State, r: Record, n: string)
    requires Apply(s, r).Ok?
    ensures r.op == QueueCreate && r.queue == n ==>
      n in Apply(s, r).value.queues && Ok(Apply(s, r).value.queues[n].cfg) == ParseConfig(r.config)
  {
  }

  lemma GrantLeases(s: State, a: Action, now: int, n: string, id: string)
    requires Filed(s) && Enabled(s, a, now) && Has(Effect(s, a, now), n, id)
    ensures a.Grant? && a.id == id ==> At(Effect(s, a, now), n, id).phase == Leased
  {
    hide FormatId, FormatReceipt, IsFirst;
    OneGrant(s, a, now, n, id);
  }

  lemma DoKeepsFresh(w: World, a: Action)
    requires Inv(w) && Enabled(w.live, a, w.clock)
    requires NoneStale(w.live, Replayed(w)) && !Tightens(w.live, Do(a))
    ensures NoneStale(Acts(w, a).live, Replayed(Acts(w, a)))
  {
    hide Sound, Related, Past, HistorySound, LeasesKnown, Enabled, Effect, Logged, Outcomes, Deliveries, Apply, Load,
      AllLoggable, Filed, Stale, Tightens;
    var live, rep, now := w.live, Replayed(w), w.clock;
    SoundIsFiled(live);
    SoundIsFiled(rep);
    ReplayFollows(live, rep, a, now);
    match Logged(live, a, now)
    case None =>
      forall n, id ensures !Stale(Effect(live, a, now), rep, n, id)
      {
        if Stale(Effect(live, a, now), rep, n, id) { SilentStale(live, rep, a, now, n, id); }
      }
    case Some(r) =>
      LoadOne(w.log, r);
      forall n, id ensures !Stale(Effect(live, a, now), Apply(rep, r).value, n, id)
      {
        if Stale(Effect(live, a, now), Apply(rep, r).value, n, id) { LoggedStale(live, rep, a, now, n, id); }
      }
  }

  lemma SelfIsFresh(s: State)
    ensures NoneStale(s, s)
  {
  }

  /** A reopened engine is its own replay. */
  lemma ReopenedReplay(w: World, e: Event, w': World)
    requires Inv(w) && Step(w, e, w') && !e.Do?
    ensures Replayed(w') == w'.live
  {
    hide Sound, Related, Past, HistorySound, LeasesKnown, Load, AllLoggable, StartsFrom, SnapshotOf;
  }

  /** As long as no limit is tightened, replay remembers no lease that would wrongly dead-letter a message. */
  lemma {:induction false} RunStaysFresh(worlds: seq<World>, events: seq<Event>, i: nat)
    requires IsRun(worlds, events) && NeverTightens(worlds, events) && i < |worlds|
    ensures NoneStale(worlds[i].live, Replayed(worlds[i]))
  {
    hide Inv, Enabled, Acts, Stale, Replayed, StartsFrom, Tightens;
    if i == 0 {
      StartIsFresh();
    } else {
      var w, e, w' := worlds[i - 1], events[i - 1], worlds[i];
      RunInv(worlds, events, i - 1);
      RunStaysFresh(worlds, events, i - 1);
      assert Step(w, e, w') && !Tightens(w.live, e);
      match e
      case Do(a) => DoKeepsFresh(w, a);
      case _ =>
        ReopenedReplay(w, e, w');
        SelfIsFresh(w'.live);
    }
  }

  lemma StartIsFresh()
    ensures NoneStale(START.live, Replayed(START))
  {
  }

  /**
   Replay refines live execution.  In any state of any run, the log loads; and
   if the live engine has nothing due at a later time `now`, the loaded engine
   swept at `now` has the same queues, configurations, messages, leases and
   delays, in the same order, exactly when no message is stale.
   */
  lemma ReplayRefines(worlds: seq<World>, events: seq<Event>, i: nat, now: int, swept: State)
    requires IsRun(worlds, events) && i < |worlds|
    requires worlds[i].clock <= now && QuietAt(worlds[i].live, now)
    requires SweptAll(Replayed(worlds[i]), swept, now, {})
    ensures Load(EMPTY, worlds[i].log) == Ok(Replayed(worlds[i]))
    ensures Agrees(worlds[i].live, swept) && SameOrder(worlds[i].live, swept)
       <==> NoneStale(worlds[i].live, Replayed(worlds[i]))
    ensures NeverTightens(worlds, events) ==> Agrees(worlds[i].live, swept) && SameOrder(worlds[i].live, swept)
  {
    hide Step, Inv, Sound, SameContents, SameOrder, QuietAt, SweptAll, Agrees, NoneStale, Replayed, NeverTightens, Load;
    var w := worlds[i];
    RunInv(worlds, events, i);
    InvParts(w);
    SweptReplayAgrees(w.live, Replayed(w), swept, w.clock, now);
    if NeverTightens(worlds, events) {
      RunStaysFresh(worlds, events, i);
    }
  }
}
