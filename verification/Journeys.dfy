/**
 What a message carries through a run, whatever restarts, redrives,
 dead-letterings and compactions it goes through: its body, the delay it was
 sent with, the number of its deliveries, and the lease it is under.
 */
module Journeys {
  import opened Config
  import opened Ids
  import opened State
  import opened Replay
  import opened Steps
  import opened ReplaySteps
  import opened Snapshot
  import opened Compaction
  import opened Runs
  import opened HistoryLaws

  // ---- one step ----------------------------------------------------------

  /** The event sends a message and issues this ID for it. */
  predicate Issues(w: World, e: Event, id: string) {
    e.Do? && e.action.Post? && FormatId(w.live.counter + 1) == id
  }

  predicate Grants(e: Event, id: string) {
    e.Do? && e.action.Grant? && e.action.id == id
  }

  predicate Shifts(e: Event, id: string) {
    e.Do? && e.action.Shift? && e.action.id == id
  }

  /** What a step that does not send message id leaves of it. */
  predicate Carried(m: Msg, m': Msg, granted: bool, shifted: bool, now: int) {
    && m'.body == m.body && m'.sentAt == m.sentAt
    && m'.receives == (if granted then m.receives + 1 else if shifted then 0 else m.receives)
    && (m.phase == Delayed && m.notBefore > now ==> m'.phase == Delayed && m'.notBefore == m.notBefore)
  }

  lemma DoCarries(s: State, a: Action, now: int, n: string, id: string) returns (n0: string)
    requires Filed(s) && Enabled(s, a, now) && Has(Effect(s, a, now), n, id)
    requires !(a.Post? && FormatId(s.counter + 1) == id)
    ensures Has(s, n0, id)
    ensures Carried(At(s, n0, id), At(Effect(s, a, now), n, id), a.Grant? && a.id == id, a.Shift? && a.id == id, now)
  {
    hide FormatId, FormatReceipt, ValidName;
    if Concerns(a, id) { assert Has(s, a.queue, id); }
    n0 := if Has(s, n, id) then n else a.queue;
  }

  lemma RestartCarries(live: State, rep: State, now: int, n: string, id: string)
    requires Related(live, rep, now) && Has(rep, n, id)
    ensures Has(live, n, id) && Carried(At(live, n, id), At(rep, n, id), false, false, now)
  {
    hide SameOrder;
    assert Has(live, n, id);
  }

  lemma CompactCarries(rep: State, n: string, id: string, now: int)
    requires Has(Compacted(rep), n, id)
    ensures Has(rep, n, id) && Carried(At(rep, n, id), At(Compacted(rep), n, id), false, false, now)
  {
    hide BumpQueues, SortNames;
    KeptAt(rep, n, id);
  }

  lemma CarriedOn(a: Msg, b: Msg, c: Msg, now: int)
    requires Carried(a, b, false, false, now) && Carried(b, c, false, false, now)
    ensures Carried(a, c, false, false, now)
  {
  }

  /** A message after an event that did not send it was there before, and carries what it carried. */
  lemma StepCarries(w: World, e: Event, w': World, n: string, id: string) returns (n0: string)
    requires Inv(w) && Step(w, e, w') && Has(w'.live, n, id) && !Issues(w, e, id)
    ensures Has(w.live, n0, id)
    ensures Carried(At(w.live, n0, id), At(w'.live, n, id), Grants(e, id), Shifts(e, id), w.clock)
    ensures w.clock <= w'.clock
  {
    hide Inv, Sound, Related, Enabled, Effect, Logged, Outcomes, Deliveries, Replayed, StartsFrom, SnapshotOf,
      Compacted, Carried, FormatId, Filed;
    InvParts(w);
    match e
    case Do(a) =>
      SoundIsFiled(w.live);
      ClockForward(w.live, a, w.clock);
      n0 := DoCarries(w.live, a, w.clock, n, id);
    case Restart =>
      RestartCarries(w.live, Replayed(w), w.clock, n, id);
      n0 := n;
    case Compact =>
      CompactKeepsInv(w, w');
      CompactCarries(Replayed(w), n, id, w.clock);
      RestartCarries(w.live, Replayed(w), w.clock, n, id);
      CarriedOn(At(w.live, n, id), At(Replayed(w), n, id), At(w'.live, n, id), w.clock);
      n0 := n;
  }

  // ---- nothing is lost ---------------------------------------------------

  /** The event acknowledges message id, deletes its queue, or drops it for want of a dead-letter queue. */
  predicate Ends(w: World, e: Event, id: string) {
    e.Do?
    && match e.action
       case Settle(_, id', _) => id' == id
       case Delete(n, _) => Has(w.live, n, id)
       case Bury(n, id', _) =>
         && id' == id && Has(w.live, n, id) && w.live.queues[n].cfg.deadLetter == ""
         && w.live.queues[n].cfg.maxReceives > 0 && At(w.live, n, id).receives >= w.live.queues[n].cfg.maxReceives
       case _ => false
  }

  lemma DoKeepsMessage(w: World, a: Action, n: string, id: string) returns (n': string)
    requires Filed(w.live) && Enabled(w.live, a, w.clock) && Has(w.live, n, id) && !Ends(w, Do(a), id)
    ensures Has(Effect(w.live, a, w.clock), n', id)
  {
    hide FormatId, FormatReceipt, IsFirst, ValidName;
    n' := n;
    if Concerns(a, id) {
      assert Has(w.live, a.queue, id);
      if a.Shift? { n' := a.to; }
      if a.Bury? { n' := w.live.queues[a.queue].cfg.deadLetter; }
    }
  }

  lemma StepKeepsMessage(w: World, e: Event, w': World, n: string, id: string) returns (n': string)
    requires Inv(w) && Step(w, e, w') && Has(w.live, n, id) && !Ends(w, e, id)
    ensures Has(w'.live, n', id)
  {
    hide Inv, Sound, Related, Enabled, Effect, Logged, Outcomes, Deliveries, Replayed, StartsFrom, SnapshotOf,
      Compacted, Ends, Filed;
    InvParts(w);
    n' := n;
    match e
    case Do(a) =>
      SoundIsFiled(w.live);
      n' := DoKeepsMessage(w, a, n, id);
    case Restart => BothHave(w.live, Replayed(w), w.clock, n, id);
    case Compact =>
      BothHave(w.live, Replayed(w), w.clock, n, id);
      CompactKeepsInv(w, w');
      KeptAt(Replayed(w), n, id);
  }

  /**
   No message is lost: one that is there no more was acknowledged, or its queue
   deleted, or it was dropped after as many deliveries as its queue allows for
   want of a dead-letter queue; restarts and compactions lose none.
   */
  lemma {:induction false} NothingLost(worlds: seq<World>, events: seq<Event>, i: nat, j: nat, n: string, id: string)
    returns (k: nat)
    requires IsRun(worlds, events) && i <= j < |worlds| && Has(worlds[i].live, n, id)
    requires forall n' :: !Has(worlds[j].live, n', id)
    ensures i <= k < j && Ends(worlds[k], events[k], id)
    decreases j - i
  {
    hide Step, Inv, Ends;
    assert i < j;
    RunInv(worlds, events, i);
    assert Step(worlds[i], events[i], worlds[i + 1]);
    if Ends(worlds[i], events[i], id) {
      k := i;
    } else {
      var n' := StepKeepsMessage(worlds[i], events[i], worlds[i + 1], n, id);
      k := NothingLost(worlds, events, i + 1, j, n', id);
    }
  }

  // ---- from the send on --------------------------------------------------

  /** Event i sends the message that id names up to world j. */
  ghost predicate SentBy(worlds: seq<World>, events: seq<Event>, i: nat, j: nat, id: string)
    requires IsRun(worlds, events) && j < |worlds|
  {
    i < j && Issues(worlds[i], events[i], id) && forall k :: i < k < j ==> !Issues(worlds[k], events[k], id)
  }

  /** How often the message was leased since event i sent it, or since it was last redriven, up to world j. */
  function DeliveryCount(events: seq<Event>, i: nat, j: nat, id: string): nat
    requires i < j <= |events|
    decreases j
  {
    if j == i + 1 then 0
    else if Shifts(events[j - 1], id) then 0
    else DeliveryCount(events, i, j - 1, id) + (if Grants(events[j - 1], id) then 1 else 0)
  }

  /** A message just sent. */
  lemma JustSent(w: World, e: Event, w': World, n: string, id: string)
    requires Inv(w) && Step(w, e, w') && Issues(w, e, id) && Has(w'.live, n, id)
    ensures n == e.action.queue && w'.clock == w.clock
    ensures var m, p := At(w'.live, n, id), e.action;
      && m.body == p.body && m.sentAt == w.clock && m.receives == 0
      && (p.delay > 0 ==> m.phase == Delayed && m.notBefore == w.clock + p.delay)
      && (p.delay == 0 ==> m.phase == Ready)
  {
    hide Inv, Outcomes, Deliveries, LogAfter, FormatId, Sound, Related, Replayed;
    InvParts(w);
    NextIdIsFresh(w.live, n);
  }

  /**
   Every message is one that was sent: it has the body it was sent with, the
   time of the send, and the number of its deliveries; and until the delay it was
   sent with is over, it waits it out.
   */
  lemma {:induction false} CarriesWhatWasSent(worlds: seq<World>, events: seq<Event>, i: nat, j: nat, n: string,
                                              id: string)
    requires IsRun(worlds, events) && j < |worlds| && SentBy(worlds, events, i, j, id) && Has(worlds[j].live, n, id)
    ensures var m, p := At(worlds[j].live, n, id), events[i].action;
      && m.body == p.body && m.sentAt == worlds[i].clock
      && m.receives == DeliveryCount(events, i, j, id)
      && (worlds[j].clock < worlds[i].clock + p.delay ==>
            m.phase == Delayed && m.notBefore == worlds[i].clock + p.delay)
    decreases j
  {
    hide Step, Inv, Issues;
    var w, e, w' := worlds[j - 1], events[j - 1], worlds[j];
    RunInv(worlds, events, j - 1);
    assert Step(w, e, w');
    if j == i + 1 {
      JustSent(w, e, w', n, id);
      PostDelay(w, e, w', id);
    } else {
      var n0 := StepCarries(w, e, w', n, id);
      CarriesWhatWasSent(worlds, events, i, j - 1, n0, id);
    }
  }

  lemma PostDelay(w: World, e: Event, w': World, id: string)
    requires Step(w, e, w') && Issues(w, e, id)
    ensures 0 <= e.action.delay <= 900_000 && e.Do? && e.action.Post?
  {
    hide Acts, FormatId;
  }

  /** And every message was sent. */
  lemma {:induction false} WasSent(worlds: seq<World>, events: seq<Event>, j: nat, n: string, id: string)
    returns (i: nat)
    requires IsRun(worlds, events) && j < |worlds| && Has(worlds[j].live, n, id)
    ensures SentBy(worlds, events, i, j, id)
    decreases j
  {
    hide Step, Inv, Issues;
    if j == 0 {
      NothingAtStart(n, id);
    } else {
      var w, e, w' := worlds[j - 1], events[j - 1], worlds[j];
      RunInv(worlds, events, j - 1);
      assert Step(w, e, w');
      if Issues(w, e, id) {
        i := j - 1;
      } else {
        var n0 := StepCarries(w, e, w', n, id);
        i := WasSent(worlds, events, j - 1, n0, id);
      }
    }
  }

  lemma NothingAtStart(n: string, id: string)
    ensures !Has(START.live, n, id)
  {
  }

  /** No delivery comes before the delay is over. */
  lemma NotBeforeDelay(worlds: seq<World>, events: seq<Event>, i: nat, j: nat, n: string, id: string, visibility: int)
    requires IsRun(worlds, events) && j < |events| && SentBy(worlds, events, i, j, id)
    requires events[j] == Do(Grant(n, id, visibility))
    ensures worlds[j].clock >= worlds[i].clock + events[i].action.delay
  {
    hide Inv, Issues, Acts;
    assert Step(worlds[j], events[j], worlds[j + 1]);
    CarriesWhatWasSent(worlds, events, i, j, n, id);
  }

  // ---- the lease ---------------------------------------------------------

  /** The event neither settles, returns nor buries message id of queue n, nor deletes the queue. */
  predicate LeavesLease(e: Event, n: string, id: string) {
    e.Do? ==>
      && !((e.action.Settle? || e.action.Return? || e.action.Bury?) && e.action.id == id)
      && !(e.action.Delete? && e.action.queue == n)
  }

  /** The deadline at world j of the lease that event g granted: the one last asked for. */
  function DeadlineAt(worlds: seq<World>, events: seq<Event>, g: nat, j: nat, id: string): int
    requires |worlds| == |events| + 1 && g < j < |worlds| && Grants(events[g], id)
    decreases j
  {
    if j == g + 1 then worlds[g].clock + events[g].action.visibility
    else
      var e := events[j - 1];
      if e.Do? && e.action.Prolong? && e.action.id == id then e.action.deadline
      else DeadlineAt(worlds, events, g, j - 1, id)
  }

  /** Message id of queue n is leased under this receipt until then. */
  predicate LeasedUntil(s: State, n: string, id: string, receipt: string, deadline: int) {
    && Has(s, n, id) && At(s, n, id).phase == Leased
    && At(s, n, id).receipt == receipt && At(s, n, id).deadline == deadline
  }

  lemma DoKeepsLease(s: State, a: Action, now: int, n: string, id: string, receipt: string, deadline: int)
    requires Filed(s) && Enabled(s, a, now) && LeasedUntil(s, n, id, receipt, deadline) && now < deadline
    requires LeavesLease(Do(a), n, id) && FormatId(s.counter + 1) != id
    ensures LeasedUntil(Effect(s, a, now), n, id, receipt, if a.Prolong? && a.id == id then a.deadline else deadline)
  {
    hide FormatId, FormatReceipt, ValidName;
    if Concerns(a, id) { assert Has(s, a.queue, id); }
  }

  lemma StepKeepsLease(w: World, e: Event, w': World, n: string, id: string, receipt: string, deadline: int)
    requires Inv(w) && Step(w, e, w') && LeasedUntil(w.live, n, id, receipt, deadline) && w.clock < deadline
    requires LeavesLease(e, n, id)
    ensures LeasedUntil(w'.live, n, id, receipt,
                        if e.Do? && e.action.Prolong? && e.action.id == id then e.action.deadline else deadline)
  {
    hide Inv, Sound, Related, Enabled, Effect, Logged, Outcomes, Deliveries, Replayed, StartsFrom, SnapshotOf,
      Compacted, FormatId, Filed, LeavesLease;
    InvParts(w);
    match e
    case Do(a) =>
      SoundIsFiled(w.live);
      NextIdIsFresh(w.live, n);
      DoKeepsLease(w.live, a, w.clock, n, id, receipt, deadline);
    case Restart =>
      BothHave(w.live, Replayed(w), w.clock, n, id);
    case Compact =>
      BothHave(w.live, Replayed(w), w.clock, n, id);
      CompactKeepsInv(w, w');
      KeptAt(Replayed(w), n, id);
  }

  lemma DeadlineNext(worlds: seq<World>, events: seq<Event>, g: nat, j: nat, id: string)
    requires |worlds| == |events| + 1 && g < j < |worlds| && Grants(events[g], id)
    ensures j == g + 1 ==> DeadlineAt(worlds, events, g, j, id) == worlds[g].clock + events[g].action.visibility
    ensures j > g + 1 ==>
      var e := events[j - 1];
      DeadlineAt(worlds, events, g, j, id)
      == if e.Do? && e.action.Prolong? && e.action.id == id then e.action.deadline
         else DeadlineAt(worlds, events, g, j - 1, id)
  {
  }

  /**
   A lease lasts: until its message is acknowledged, returned, buried or deleted
   with its queue, and as long as its deadline has not passed, the message is
   leased under the receipt it was delivered with, until the deadline last asked
   for; through restarts and compactions.
   */
  lemma {:induction false} LeaseLasts(worlds: seq<World>, events: seq<Event>, g: nat, j: nat, n: string, id: string,
                                      visibility: int)
    requires IsRun(worlds, events) && g < j < |worlds| && events[g] == Do(Grant(n, id, visibility))
    requires forall k :: g < k < j ==> LeavesLease(events[k], n, id)
    requires forall k :: g < k < j ==> worlds[k].clock < DeadlineAt(worlds, events, g, k, id)
    ensures LeasedUntil(worlds[j].live, n, id, FormatReceipt(worlds[g].live.counter + 1),
                        DeadlineAt(worlds, events, g, j, id))
    decreases j
  {
    hide Step, Inv, FormatReceipt, LeasedUntil, LeavesLease, Replayed, DeadlineAt;
    DeadlineNext(worlds, events, g, j, id);
    var w, e, w' := worlds[j - 1], events[j - 1], worlds[j];
    RunInv(worlds, events, j - 1);
    assert Step(w, e, w');
    if j == g + 1 {
      JustGranted(w, n, id, visibility, w');
    } else {
      LeaseLasts(worlds, events, g, j - 1, n, id, visibility);
      StepKeepsLease(w, e, w', n, id, FormatReceipt(worlds[g].live.counter + 1),
                     DeadlineAt(worlds, events, g, j - 1, id));
    }
  }

  lemma JustGranted(w: World, n: string, id: string, visibility: int, w': World)
    requires Inv(w) && Step(w, Do(Grant(n, id, visibility)), w')
    ensures LeasedUntil(w'.live, n, id, FormatReceipt(w.live.counter + 1), w.clock + visibility)
  {
    hide Inv, Outcomes, Deliveries, LogAfter, FormatReceipt, FormatId, Sound, Related, Replayed;
    InvParts(w);
    IdNamed(w.live, n, id);
  }

  // ---- dead-lettering ----------------------------------------------------

  /** A message can be buried exactly if it is leased and has used up the deliveries its queue allows. */
  lemma BuryExactly(s: State, n: string, id: string, ts: int, now: int)
    ensures Enabled(s, Bury(n, id, ts), now) <==>
      && Has(s, n, id) && At(s, n, id).phase == Leased && ts >= now
      && s.queues[n].cfg.maxReceives > 0 && At(s, n, id).receives >= s.queues[n].cfg.maxReceives
      && (s.queues[n].cfg.deadLetter == "" || s.queues[n].cfg.deadLetter in s.queues)
  {
  }

  /**
   A message is buried only in a queue with a limit, and only when it has been
   delivered at least that often; where ReceiveBound applies, exactly that often.
   */
  lemma BuriedWhenSpent(worlds: seq<World>, events: seq<Event>, j: nat, n: string, id: string, ts: int)
    returns (i: nat)
    requires IsRun(worlds, events) && j < |events| && events[j] == Do(Bury(n, id, ts))
    ensures SentBy(worlds, events, i, j, id) && n in worlds[j].live.queues
    ensures var k := worlds[j].live.queues[n].cfg.maxReceives;
      && k > 0 && DeliveryCount(events, i, j, id) >= k
      && (Disciplined(events, n, k) ==> DeliveryCount(events, i, j, id) == k)
  {
    hide Inv, Issues, Acts, Disciplined;
    assert Step(worlds[j], events[j], worlds[j + 1]);
    BuryExactly(worlds[j].live, n, id, ts, worlds[j].clock);
    i := WasSent(worlds, events, j, n, id);
    CarriesWhatWasSent(worlds, events, i, j, n, id);
    var k := worlds[j].live.queues[n].cfg.maxReceives;
    if Disciplined(events, n, k) {
      RunBounded(worlds, events, n, k, j);
      LeasedWithin(worlds[j].live, n, id, k);
    }
  }

  lemma LeasedWithin(s: State, n: string, id: string, k: int)
    requires Bounded(s, n, k) && Has(s, n, id) && At(s, n, id).phase == Leased
    ensures At(s, n, id).receives <= k
  {
  }

  predicate Configures(e: Event, q: string) {
    e.Do? && e.action.Configure? && e.action.queue == q
  }

  lemma DoKeepsConfig(s: State, a: Action, now: int, q: string)
    requires Enabled(s, a, now) && !(a.Configure? && a.queue == q) && q in Effect(s, a, now).queues
    ensures q in s.queues && Effect(s, a, now).queues[q].cfg == s.queues[q].cfg
  {
    hide FormatId, FormatReceipt, IsFirst, ValidName;
  }

  lemma StepKeepsConfig(w: World, e: Event, w': World, q: string)
    requires Inv(w) && Step(w, e, w') && !Configures(e, q) && q in w'.live.queues
    ensures q in w.live.queues && w'.live.queues[q].cfg == w.live.queues[q].cfg
  {
    hide Inv, Sound, Enabled, Effect, Logged, Outcomes, Deliveries, Replayed, StartsFrom, SnapshotOf, BumpQueues,
      SortNames, MsgRelated, SameOrder;
    InvParts(w);
    match e
    case Do(a) => DoKeepsConfig(w.live, a, w.clock, q);
    case Restart =>
    case Compact => CompactKeepsInv(w, w');
  }

  /** A queue keeps its configuration until it is given another. */
  lemma {:induction false} KeepsConfig(worlds: seq<World>, events: seq<Event>, i: nat, j: nat, q: string, cfg: Config,
                                       ts: int)
    requires IsRun(worlds, events) && i < j < |worlds| && events[i] == Do(Configure(q, cfg, ts))
    requires forall k :: i < k < j ==> !Configures(events[k], q)
    ensures q in worlds[j].live.queues ==> worlds[j].live.queues[q].cfg == cfg
    decreases j
  {
    hide Inv, Step, Configures;
    var w, e, w' := worlds[j - 1], events[j - 1], worlds[j];
    RunInv(worlds, events, j - 1);
    assert Step(w, e, w');
    if j == i + 1 {
      JustConfigured(w, q, cfg, ts, w');
    } else {
      KeepsConfig(worlds, events, i, j - 1, q, cfg, ts);
      if q in w'.live.queues { StepKeepsConfig(w, e, w', q); }
    }
  }

  lemma JustConfigured(w: World, q: string, cfg: Config, ts: int, w': World)
    requires Step(w, Do(Configure(q, cfg, ts)), w')
    ensures q in w'.live.queues && w'.live.queues[q].cfg == cfg
  {
    hide Outcomes, Deliveries, LogAfter, ValidName;
  }

  /**
   Nothing is ever buried out of a queue that was made without a limit, as
   dead-lettering makes them, and has not been configured since.
   */
  lemma NeverBuried(worlds: seq<World>, events: seq<Event>, i: nat, j: nat, q: string, cfg: Config, ts: int)
    requires IsRun(worlds, events) && i < j < |events|
    requires events[i] == Do(Configure(q, cfg, ts)) && cfg.maxReceives == 0
    requires forall k :: i < k < j ==> !Configures(events[k], q)
    ensures !(events[j].Do? && events[j].action.Bury? && events[j].action.queue == q)
  {
    hide Inv, Acts, Configures;
    assert Step(worlds[j], events[j], worlds[j + 1]);
    KeepsConfig(worlds, events, i, j, q, cfg, ts);
    if events[j].Do? && events[j].action.Bury? {
      BuryExactly(worlds[j].live, events[j].action.queue, events[j].action.id, events[j].action.ts, worlds[j].clock);
    }
  }

  /** The event neither acknowledges nor redrives message id, nor deletes queue q. */
  predicate LeavesThere(e: Event, q: string, id: string) {
    e.Do? ==>
      && !((e.action.Settle? || e.action.Shift?) && e.action.id == id)
      && !(e.action.Delete? && e.action.queue == q)
  }

  lemma DoLeavesThere(s: State, a: Action, now: int, q: string, id: string)
    requires Filed(s) && Enabled(s, a, now) && Has(s, q, id) && LeavesThere(Do(a), q, id)
    requires !(a.Bury? && a.queue == q)
    ensures Has(Effect(s, a, now), q, id)
  {
    hide FormatId, FormatReceipt, IsFirst, ValidName;
    if Concerns(a, id) { assert Has(s, a.queue, id); }
  }

  lemma StepLeavesThere(w: World, e: Event, w': World, q: string, id: string)
    requires Inv(w) && Step(w, e, w') && Has(w.live, q, id) && LeavesThere(e, q, id)
    requires !(e.Do? && e.action.Bury? && e.action.queue == q)
    ensures Has(w'.live, q, id)
  {
    hide Inv, Sound, Related, Enabled, Effect, Logged, Outcomes, Deliveries, Replayed, StartsFrom, SnapshotOf,
      Compacted, LeavesThere, Filed;
    InvParts(w);
    match e
    case Do(a) =>
      SoundIsFiled(w.live);
      DoLeavesThere(w.live, a, w.clock, q, id);
    case Restart => BothHave(w.live, Replayed(w), w.clock, q, id);
    case Compact =>
      BothHave(w.live, Replayed(w), w.clock, q, id);
      CompactKeepsInv(w, w');
      KeptAt(Replayed(w), q, id);
  }

  /**
   A message in such a queue is not lost: it stays until it is acknowledged or
   redriven, or the queue is deleted; however often it is delivered.
   */
  lemma {:induction false} DeadLettersStay(worlds: seq<World>, events: seq<Event>, i: nat, h: nat, j: nat, q: string,
                                           cfg: Config, ts: int, id: string)
    requires IsRun(worlds, events) && i < h <= j < |worlds|
    requires events[i] == Do(Configure(q, cfg, ts)) && cfg.maxReceives == 0
    requires forall k :: i < k < j ==> !Configures(events[k], q)
    requires Has(worlds[h].live, q, id) && forall k :: h <= k < j ==> LeavesThere(events[k], q, id)
    ensures Has(worlds[j].live, q, id)
    decreases j
  {
    hide Inv, Step, Configures, LeavesThere;
    if h < j {
      DeadLettersStay(worlds, events, i, h, j - 1, q, cfg, ts, id);
      RunInv(worlds, events, j - 1);
      assert Step(worlds[j - 1], events[j - 1], worlds[j]);
      NeverBuried(worlds, events, i, j - 1, q, cfg, ts);
      StepLeavesThere(worlds[j - 1], events[j - 1], worlds[j], q, id);
    }
  }
}
