/** The engine's operations, each a run of committed actions. */
module Engine {
  import opened Wrappers
  import opened Errors
  import opened Config
  import opened Ids
  import opened Record
  import opened Framing
  import opened State
  import opened Steps
  import opened ReplaySteps
  import opened Sweeping
  import opened SweepLaws
  import opened QueueSweep
  import opened Runs
  import opened Waiting
  import opened Messages
  import opened Machine
  import opened Effects
  import opened Snapshot
  import Collecting
  import CompactionLaws
  import Wal

  /** w' is w once the dead-letter queue that queue n needs exists. */
  ghost predicate Provides(w: World, n: string, w': World) {
    w' == w || (n in w.live.queues && TargetOf(w.live, n) != "" && TargetOf(w.live, n) !in w.live.queues
                && exists ts :: Did(w, Configure(TargetOf(w.live, n), DEFAULT_CONFIG, ts), w'))
  }

  ghost predicate Buries(w: World, n: string, id: string, w': World) {
    exists ts :: Did(w, Bury(n, id, ts), w')
  }

  /** w' is w after dead-lettering message id of queue n, or after an append for it failed. */
  ghost predicate Entombs(w: World, n: string, id: string, failed: bool, w': World) {
    exists mid :: Provides(w, n, mid) && if failed then w' == mid else Buries(mid, n, id, w')
  }

  /** A lease that has used up the deliveries its queue allows. */
  predicate Spent(s: State, n: string, id: string) {
    IsLeased(s, n, id) && IsExhausted(s, n, id)
  }

  lemma DidContinues(w: World, a: Action, w': World)
    requires Did(w, a, w')
    ensures Continues(w, w')
  {
    hide Enabled, Acts, Continues;
    ContinuesOne(w, a);
  }

  lemma EntombsContinues(w: World, n: string, id: string, failed: bool, w': World)
    requires Entombs(w, n, id, failed, w')
    ensures Continues(w, w')
  {
    hide Did, Continues;
    var mid :| Provides(w, n, mid) && if failed then w' == mid else Buries(mid, n, id, w');
    ContinuesSelf(w);
    if mid != w {
      var ts :| Did(w, Configure(TargetOf(w.live, n), DEFAULT_CONFIG, ts), mid);
      DidContinues(w, Configure(TargetOf(w.live, n), DEFAULT_CONFIG, ts), mid);
    }
    if !failed {
      var ts :| Did(mid, Steps.Bury(n, id, ts), w');
      DidContinues(mid, Steps.Bury(n, id, ts), w');
      ContinuesJoin(w, mid, w');
    }
  }

  /** Dead-lettering, field by field: the message goes, or only the dead-letter queue has come. */
  lemma EntombsInters(w: World, n: string, id: string, failed: bool, w': World)
    requires Reachable(w) && Has(w.live, n, id) && Entombs(w, n, id, failed, w')
    ensures if failed then Prepared(w.live, n, w'.live) else Interred(w.live, n, id, w'.live)
  {
    hide Did, Reachable, Interred, Prepared, Continues;
    var mid :| Provides(w, n, mid) && if failed then w' == mid else Buries(mid, n, id, w');
    NothingPrepared(w.live, n);
    if mid != w {
      var ts :| Did(w, Configure(TargetOf(w.live, n), DEFAULT_CONFIG, ts), mid);
      ConfigurePrepares(w, n, ts, mid);
      DidReachable(w, Configure(TargetOf(w.live, n), DEFAULT_CONFIG, ts), mid);
    }
    if !failed {
      var ts :| Did(mid, Steps.Bury(n, id, ts), w');
      BuryInters(mid, n, id, ts, w');
      InterredToo(w.live, mid.live, n, id, w'.live);
    }
  }

  lemma DidReachable(w: World, a: Action, w': World)
    requires Reachable(w) && Did(w, a, w')
    ensures Reachable(w')
  {
    hide Reachable, Enabled, Acts;
    ReachableActs(w, a);
  }

  /** The messages an action leaves alone. */
  lemma CreateKeeps(w: World, n: string, id: string, to: string, ts: int, w': World)
    requires Did(w, Configure(to, DEFAULT_CONFIG, ts), w') && to !in w.live.queues && Has(w.live, n, id)
    ensures Has(w'.live, n, id) && At(w'.live, n, id) == At(w.live, n, id)
    ensures w'.live.queues[n].cfg == w.live.queues[n].cfg && to in w'.live.queues && w'.clock == w.clock
  {
    hide ValidName;
  }

  lemma TargetNamed(w: World, n: string)
    requires Reachable(w) && n in w.live.queues && TargetOf(w.live, n) != ""
    ensures SoundConfig(TargetOf(w.live, n), DEFAULT_CONFIG) && TargetOf(w.live, n) != n
  {
    hide Reachable, Sound;
    ReachableSound(w);
    QueueNamed(w.live, n);
  }

  /** What comes of committing an action: it is done, or the append failed and nothing was. */
  ghost predicate Committed(w: World, a: Action, err: Option<Error>, w': World) {
    if err.None? then Did(w, a, w') else err == Some(AppendFailed) && w' == w
  }

  /** w' is w after reading the clock and sweeping queue n; if that went well, no message is stuck. */
  ghost predicate Looked(w: World, n: string, w': World, well: bool) {
    && Continues(w, w') && Reachable(w')
    && n in w.live.queues && w'.clock >= w.clock
    && exists stuck :: (well ==> stuck == {}) && Swept(w.live, w'.live, w'.clock, PendingOf(w.live, n), stuck)
  }

  /** What a look found stands, whatever the log refuses later. */
  lemma LookedAnyway(w: World, n: string, w': World, well: bool, well': bool)
    requires Looked(w, n, w', well) && (well' ==> well)
    ensures Looked(w, n, w', well')
  {
    hide Swept, PendingOf;
    var stuck :| (well ==> stuck == {}) && Swept(w.live, w'.live, w'.clock, PendingOf(w.live, n), stuck);
  }

  /** Why a receipt does not name a lease in force. */
  function LeaseError(s: State, n: string, id: string, receipt: string): Option<Error> {
    if !Has(s, n, id) then Some(MessageNotFound)
    else if At(s, n, id).phase != Leased then Some(NotLeased)
    else if At(s, n, id).receipt != receipt then Some(WrongReceipt)
    else None
  }

  /** ds are messages of queue n leased one after the other, until none was left to lease or an append failed. */
  ghost predicate Leases(w: World, n: string, ds: seq<Delivered>, visibility: int, err: Option<Error>,
                         actions: seq<Action>, w': World) {
    && After(w, actions) == Some(w')
    && |actions| == |ds| + (if err.Some? then 1 else 0)
    && (forall i :: 0 <= i < |ds| ==> LeasesAt(w, n, ds, visibility, actions, i))
    && (err.Some? ==> err == Some(AppendFailed) && actions[|ds|] == Burn)
  }

  ghost predicate LeasesAt(w: World, n: string, ds: seq<Delivered>, visibility: int, actions: seq<Action>, i: nat)
    requires i < |ds| <= |actions|
  {
    && actions[i] == Grant(n, ds[i].id, visibility)
    && After(w, actions[..i]).Some? && Handed(After(w, actions[..i]).value, n, ds[i])
  }

  /**
   ds were leased and handed out, until the time given, or the queue's own if
   that is 0, has passed since the operation read the clock.
   */
  ghost predicate Hands(w: World, n: string, visibility: int, ds: seq<Delivered>, err: Option<Error>,
                        actions: seq<Action>, w': World)
    requires n in w.live.queues
  {
    var lease := if visibility == 0 then w.live.queues[n].cfg.visibility else visibility;
    && Leases(w, n, ds, lease, err, actions, w')
    && forall d :: d in ds ==> HandedOut(w.live, n, d, w.clock + lease, w'.live)
  }

  lemma LeasesNothing(w: World, n: string, visibility: int)
    ensures Leases(w, n, [], visibility, None, [], w)
  {
  }

  lemma LeasesMore(w: World, n: string, ds: seq<Delivered>, visibility: int, actions: seq<Action>, mid: World,
                   d: Delivered, w': World)
    requires Leases(w, n, ds, visibility, None, actions, mid)
    requires Did(mid, Grant(n, d.id, visibility), w') && Handed(mid, n, d)
    ensures Leases(w, n, ds + [d], visibility, None, actions + [Grant(n, d.id, visibility)], w')
  {
    hide Handed, Enabled, Acts, After;
    var a := Grant(n, d.id, visibility);
    AfterOne(w, actions, mid, a);
    forall i | 0 <= i < |ds + [d]| ensures LeasesAt(w, n, ds + [d], visibility, actions + [a], i)
    {
      if i < |ds| {
        assert LeasesAt(w, n, ds, visibility, actions, i);
        assert (actions + [a])[..i] == actions[..i];
      } else {
        assert (actions + [a])[..i] == actions;
      }
    }
  }

  lemma LeasesFail(w: World, n: string, ds: seq<Delivered>, visibility: int, actions: seq<Action>, mid: World,
                   w': World)
    requires Leases(w, n, ds, visibility, None, actions, mid) && Did(mid, Burn, w')
    ensures Leases(w, n, ds, visibility, Some(AppendFailed), actions + [Burn], w')
  {
    hide Handed, Enabled, Acts, After;
    AfterOne(w, actions, mid, Burn);
    forall i | 0 <= i < |ds| ensures LeasesAt(w, n, ds, visibility, actions + [Burn], i)
    {
      assert LeasesAt(w, n, ds, visibility, actions, i);
      assert (actions + [Burn])[..i] == actions[..i];
    }
  }

  /** The first `moved` ready messages of queue n were moved behind the messages of queue `to`, in order. */
  ghost predicate Redrives(w: World, n: string, to: string, moved: nat, actions: seq<Action>, w': World) {
    && After(w, actions) == Some(w') && |actions| == moved
    && forall i :: 0 <= i < moved ==> actions[i].Shift? && actions[i].queue == n && actions[i].to == to
  }

  lemma RedrivesNothing(w: World, n: string, to: string)
    ensures Redrives(w, n, to, 0, [], w)
  {
  }

  /** The number of ready messages of queue n. */
  ghost function ReadyCount(s: State, n: string): nat {
    if n in s.queues then |set id | id in s.queues[n].msgs && s.queues[n].msgs[id].phase == Ready| else 0
  }

  lemma ShiftShrinks(w: World, n: string, id: string, to: string, ts: int, w': World)
    requires Did(w, Shift(n, id, to, ts), w')
    ensures ReadyCount(w'.live, n) < ReadyCount(w.live, n)
  {
    hide FormatId, FormatReceipt;
    var before := set i | i in w.live.queues[n].msgs && w.live.queues[n].msgs[i].phase == Ready;
    var after := set i | i in w'.live.queues[n].msgs && w'.live.queues[n].msgs[i].phase == Ready;
    assert after == before - {id};
  }

  lemma RedrivesMore(w: World, n: string, to: string, moved: nat, actions: seq<Action>, mid: World, id: string,
                     ts: int, w': World)
    requires Redrives(w, n, to, moved, actions, mid) && Did(mid, Shift(n, id, to, ts), w')
    ensures Redrives(w, n, to, moved + 1, actions + [Shift(n, id, to, ts)], w')
  {
    hide Enabled, Acts, After;
    AfterOne(w, actions, mid, Shift(n, id, to, ts));
  }

  /** A lease in force when the queue is looked at is left alone. */
  lemma LookedInForce(w: World, n: string, w': World, well: bool, id: string, receipt: string)
    requires Looked(w, n, w', well) && InForce(w.live, n, id, receipt, w'.clock)
    ensures InForce(w'.live, n, id, receipt, w'.clock)
  {
    hide Swept;
    var stuck :| (well ==> stuck == {}) && Swept(w.live, w'.live, w'.clock, PendingOf(w.live, n), stuck);
    SweptOutcome(w.live, w'.live, w'.clock, PendingOf(w.live, n), stuck, n, id);
  }

  /** The answer found by looking the lease up is the one its fields call for. */
  lemma LeaseErrorJudges(s: State, n: string, id: string, receipt: string)
    ensures Judged(s, n, id, receipt, LeaseError(s, n, id, receipt))
    ensures forall now :: InForce(s, n, id, receipt, now) ==> LeaseError(s, n, id, receipt).None?
  {
  }

  lemma LookedHolds(w: World, n: string, w': World, well: bool, id: string)
    requires Looked(w, n, w', well) && IsLeased(w'.live, n, id)
    ensures Steps.Holds(w'.live, n, id, w'.clock)
  {
    hide Swept, PendingOf;
    var stuck :| (well ==> stuck == {}) && Swept(w.live, w'.live, w'.clock, PendingOf(w.live, n), stuck);
    LeasesHold(w.live, w'.live, w'.clock, stuck, n, id);
  }

  lemma UnsweptAtFirst(w: World, n: string, now: int)
    requires Reachable(w) && n in w.live.queues
    ensures Unswept(w.live, w.live, now, {}, {}, n)
  {
    hide Reachable, Swept, OneHome;
    ReachableSound(w);
    SweptNothing(w.live, now);
    SoundIsFiled(w.live);
    forall id | id in PendingOf(w.live, n) ensures At(w.live, n, id).id == id
    {
      assert Has(w.live, n, id);
    }
  }

  lemma ProvideVisit(pre: State, w: World, mid: World, now: int, done: set<string>, stuck: set<string>, n: string,
                     id: string)
    requires Visits(pre, w.live, now, done, stuck, n, id) && FateIn(pre, n, id, now) == Dies && Provides(w, n, mid)
    ensures Visits(pre, mid.live, now, done, stuck, n, id) && mid.clock == w.clock
  {
    hide Swept, FateOf, ValidName;
    Unvisited(pre, w.live, now, done, stuck, n, id);
    if mid != w {
      CreateTarget(pre, w.live, now, done, stuck, n, id);
    }
  }

  lemma BuryVisit(pre: State, w: World, w': World, now: int, done: set<string>, stuck: set<string>, n: string,
                  id: string)
    requires Visits(pre, w.live, now, done, stuck, n, id) && FateIn(pre, n, id, now) == Dies && Buries(w, n, id, w')
    ensures Swept(pre, w'.live, now, done + {id}, stuck) && w'.clock == w.clock
  {
    hide Swept, FateOf, ValidName, Arrive, Take;
    Unvisited(pre, w.live, now, done, stuck, n, id);
    if TargetOf(pre, n) == "" {
      VisitDrop(pre, w.live, now, done, stuck, n, id);
    } else {
      VisitBury(pre, w.live, now, done, stuck, n, id);
    }
  }

  /** Dead-lettering is what a sweep does to a message that dies. */
  lemma EntombVisit(pre: State, w: World, w': World, now: int, done: set<string>, stuck: set<string>, n: string,
                    id: string,
                    failed: bool)
    requires Visits(pre, w.live, now, done, stuck, n, id) && FateIn(pre, n, id, now) == Dies
    requires Entombs(w, n, id, failed, w')
    ensures Swept(pre, w'.live, now, done + {id}, if failed then stuck + {id} else stuck) && w'.clock == w.clock
  {
    hide Visits, FateIn, Provides, Buries;
    var mid :| Provides(w, n, mid) && if failed then w' == mid else Buries(mid, n, id, w');
    ProvideVisit(pre, w, mid, now, done, stuck, n, id);
    if failed {
      VisitStay(pre, mid.live, now, done, stuck, n, id);
    } else {
      BuryVisit(pre, mid, w', now, done, stuck, n, id);
    }
  }

  lemma WakeVisit(pre: State, w: World, w': World, now: int, done: set<string>, stuck: set<string>, n: string,
                  id: string)
    requires Visits(pre, w.live, now, done, stuck, n, id) && FateIn(pre, n, id, now) == Wakes && Did(w, Wake(n, id), w')
    ensures Swept(pre, w'.live, now, done + {id}, stuck) && w'.clock == w.clock
  {
    hide Swept, FateOf;
    Unvisited(pre, w.live, now, done, stuck, n, id);
    VisitWake(pre, w.live, now, done, stuck, n, id);
  }

  /** What the fields of a pending message say of its fate. */
  lemma FateSeen(pre: State, w: World, now: int, done: set<string>, stuck: set<string>, n: string, id: string)
    requires Visits(pre, w.live, now, done, stuck, n, id) && now <= w.clock
    requires At(pre, n, id).phase != Ready
    ensures Has(w.live, n, id) && At(w.live, n, id) == At(pre, n, id)
    ensures var m := At(w.live, n, id);
      && (FateIn(pre, n, id, now) == Stays <==> m.Due() > now)
      && (FateIn(pre, n, id, now) == Dies <==> m.Due() <= now && IsLeased(w.live, n, id) && IsExhausted(w.live, n, id))
      && (FateIn(pre, n, id, now) == Wakes ==> Enabled(w.live, Wake(n, id), w.clock))
  {
    hide Swept;
    Unvisited(pre, w.live, now, done, stuck, n, id);
  }

  lemma NoNext(s: State, n: string, now: int)
    ensures IsNextOf(s, n, {}, now, 0)
  {
  }

  /** later is when message id is due, if that is after now. */
  lemma SoonerNext(s: State, n: string, ids: set<string>, now: int, next: int, id: string, later: int)
    requires IsNextOf(s, n, ids, now, next) && Has(s, n, id) && now >= 0
    requires later == if At(s, n, id).Due() > now then At(s, n, id).Due() else 0
    ensures IsNextOf(s, n, ids + {id}, now, if later != 0 && (next == 0 || later < next) then later else next)
  {
    var next' := if later != 0 && (next == 0 || later < next) then later else next;
    if next' != 0 && next' == later {
      assert id in ids + {id} && Has(s, n, id) && At(s, n, id).Due() == next';
    } else if next' != 0 {
      var id' :| id' in ids && Has(s, n, id') && At(s, n, id').Due() == next;
      assert id' in ids + {id};
    }
  }

  /** The messages a queue not visited yet still has to settle. */
  lemma PendingLeft(pre: State, cur: State, now: int, done: set<string>, stuck: set<string>, n: string)
    requires Unswept(pre, cur, now, done, stuck, n)
    ensures Swept(pre, cur, now, done, stuck) && PendingOf(cur, n) == PendingOf(pre, n) && PendingOf(pre, n) !! done
    ensures forall id :: id in PendingOf(pre, n) ==> Has(pre, n, id) && At(pre, n, id).id == id
  {
    hide Swept;
    PendingUnvisited(pre, cur, now, done, stuck, n);
  }

  /** A sweep at now has not visited queue n yet. */
  ghost predicate Unswept(pre: State, cur: State, now: int, done: set<string>, stuck: set<string>, n: string) {
    && Swept(pre, cur, now, done, stuck)
    && n in pre.queues && PendingOf(pre, n) !! done
    && forall id :: id in PendingOf(pre, n) ==> At(pre, n, id).id == id
  }

  class Engine {
    const machine: Machine
    /** The channels long-polling receivers are parked on. */
    ghost var parked: set<Chan>
    /** The channels a redrive should have closed but, failing midway, did not. */
    ghost var lost: set<Chan>

    /** An engine with no queues, on an empty log or on none. */
    constructor (log: Wal.Log?, clock: Clock)
      requires log != null ==> log.Valid() && log.records == []
      requires clock.time >= 0
      ensures Working({}) && lost == {} && machine.w == START && machine.log == log && machine.clock == clock
      ensures fresh(machine) && fresh(machine.journal) && fresh(machine.store) && fresh(machine.store.repr)
    {
      machine := new Machine(log, clock);
      parked, lost := {}, {};
    }

    /** The engine that replaying the log of an earlier one gives. */
    constructor Reopen(log: Wal.Log?, clock: Clock, recs: seq<Record>, ghost before: World)
      requires Reachable(before) && recs == before.log && clock.time >= before.clock
      requires log != null ==> log.Valid() && log.records == recs
      ensures Working({}) && lost == {} && machine.w == before.(live := Replayed(before))
      ensures machine.log == log && machine.clock == clock
      ensures fresh(machine) && fresh(machine.journal) && fresh(machine.store) && fresh(machine.store.repr)
    {
      hide Store.Store.Holds, Machine.Logs, Reachable, Replayed;
      parked, lost := {}, {};
      machine := new Machine.Reopen(log, clock, recs, before);
    }

    /** Between the steps of an operation: waiters of the queues in `but` may still have to be woken. */
    ghost predicate Working(but: set<string>)
      reads this, machine, machine.clock, machine.journal, LogObjects(machine.log), machine.store, machine.store.repr,
            machine.store.wakes.Values, machine.store.gone
    {
      machine.Valid() && this !in machine.store.repr && Heeds(but)
    }

    ghost predicate Heeds(but: set<string>)
      reads this, machine, machine.store
    {
      Heeded(machine.w.live, machine.store.wakes, machine.store.gone, parked - lost, but)
    }

    lemma ActHeeds(w: World, a: Action, but: set<string>, but': set<string>)
      requires Did(w, a, machine.w) && but + Arrivals(w.live, a) <= but'
      requires Heeded(w.live, machine.store.wakes, machine.store.gone, parked - lost, but)
      ensures Heeds(but')
    {
      hide Enabled, Effect, Logged, Outcomes, Deliveries, Heeded, Arrivals;
      ActHeeded(w.live, a, w.clock, machine.store.wakes, machine.store.gone, parked - lost, but, but');
    }

    /** Nobody stays parked on the present channel of q. */
    method Broadcast(q: QueueState, ghost but: set<string>)
      requires Working(but + {q.name}) && machine.store.Registered(q)
      modifies machine.store, q, q.wake
      ensures machine.w == old(machine.w) && Working(but) && machine.store.Registered(q)
      ensures machine.store.queues == old(machine.store.queues)
      ensures fresh(machine.store.repr - old(machine.store.repr))
    {
      hide Machine.Valid, Heeded, Reachable;
      ghost var s := machine.store;
      ghost var wakes, gone := s.wakes, s.gone;
      machine.Broadcast(q);
      BroadcastHeeded(machine.w.live, wakes, gone, parked - lost, but, q.name, q.wake);
    }

    /**
     An operation that began in world base, when the disk had been through `since`,
     has gone on with the run of base, and whatever a crash could have left of the
     log meanwhile reads as it was somewhere on the way.
     */
    ghost predicate Safe(since: nat, base: World)
      reads machine, LogObjects(machine.log)
    {
      Continues(base, machine.w) && machine.Survived(since, base, machine.w)
    }

    /** The start of an operation. */
    ghost method Begin() returns (since: nat, base: World)
      requires Working({})
      modifies machine.journal
      ensures Working({}) && machine.journal !in machine.store.repr
      ensures since == old(CrashesOf(machine.log)) && base == old(machine.w) == machine.w
      ensures machine.journal.mark == since && machine.journal.base == base
    {
      hide Machine.Valid, Heeded;
      since, base := CrashesOf(machine.log), machine.w;
      machine.Mark();
    }

    /** The operation has gone on with the run, and so does whatever a crash has left since it began. */
    lemma CrashSafe(since: nat, base: World)
      requires Working({}) && machine.journal.mark == since && machine.journal.base == base
      ensures Safe(since, base)
    {
      hide Machine.Valid, Heeded, Machine.Survived, Continues;
      machine.CrashSafe();
    }

    // -- time

    /**
     An exhausted message leaves q for good: for the dead-letter queue q names,
     which is made if it does not exist, or for nowhere.
     */
    method DeadLetter(q: QueueState, m: Message, ghost but: set<string>) returns (err: Option<Error>)
      requires Working(but) && machine.store.Owns(q, m)
      requires Spent(machine.w.live, q.name, m.id)
      modifies machine.Objects()
      ensures Working(but) && machine.store.Registered(q)
      ensures fresh(machine.store.repr - old(machine.store.repr))
      ensures Entombs(old(machine.w), q.name, m.id, err.Some?, machine.w)
      ensures if err.None? then Interred(old(machine.w).live, q.name, m.id, machine.w.live)
              else Prepared(old(machine.w).live, q.name, machine.w.live)
      ensures err.None? || err == Some(AppendFailed)
      ensures machine.Failures() == old(machine.Failures()) + (if err == Some(AppendFailed) then 1 else 0)
      ensures Continues(old(machine.w), machine.w)
    {
      hide Machine.Valid, Heeds, Enabled, Did, Reachable, Continues, Interred, Prepared, IsExhausted;
      ghost var w0, id := machine.w, m.id;
      machine.IsReachable();
      err := Provide(q, m, but);
      ghost var mid := machine.w;
      assert Provides(w0, q.name, mid);
      if err.Some? {
        EntombsContinues(w0, q.name, id, true, machine.w);
        EntombsInters(w0, q.name, id, true, machine.w);
        return;
      }
      err := Bury(q, m, but);
      EntombsContinues(w0, q.name, id, err.Some?, machine.w);
      EntombsInters(w0, q.name, id, err.Some?, machine.w);
    }

    /** Creates the dead-letter queue of q if it has one that is missing. */
    method Provide(q: QueueState, m: Message, ghost but: set<string>) returns (err: Option<Error>)
      requires Working(but) && machine.store.Owns(q, m)
      requires Spent(machine.w.live, q.name, m.id)
      modifies machine`w, machine.clock, LogObjects(machine.log), machine.store
      ensures Working(but) && machine.store.Owns(q, m)
      ensures fresh(machine.store.repr - old(machine.store.repr))
      ensures Provides(old(machine.w), q.name, machine.w)
      ensures Spent(machine.w.live, q.name, m.id)
      ensures err.None? ==> q.cfg.deadLetter == "" || q.cfg.deadLetter in machine.store.queues
      ensures err.None? || err == Some(AppendFailed)
      ensures machine.Failures() == old(machine.Failures()) + (if err == Some(AppendFailed) then 1 else 0)
    {
      hide Machine.Valid, Enabled, Did, Reachable, Heeded, ValidName, Provides, SoundConfig, Spent;
      var target := q.cfg.deadLetter;
      SameProvides(machine.w, q.name);
      if target == "" || target in machine.store.queues {
        return None;
      }
      machine.Names();
      Targeted(q, m);
      ghost var w0, wakes := machine.w, machine.store.wakes;
      ghost var ts;
      err, ts := machine.DoCreate(target, DEFAULT_CONFIG);
      if err.None? {
        Provided(w0, q.name, m.id, ts, machine.w);
        CreateDidHeeds(w0, target, ts, wakes, but);
      }
    }

    lemma SameProvides(w: World, n: string)
      ensures Provides(w, n, w)
    {
    }

    lemma Provided(w: World, n: string, id: string, ts: int, w': World)
      requires Has(w.live, n, id) && TargetOf(w.live, n) != "" && TargetOf(w.live, n) !in w.live.queues
      requires Did(w, Configure(TargetOf(w.live, n), DEFAULT_CONFIG, ts), w')
      ensures Provides(w, n, w') && TargetOf(w.live, n) in w'.live.queues
      ensures Spent(w.live, n, id) ==> Spent(w'.live, n, id)
    {
      hide Did;
      CreateKeeps(w, n, id, TargetOf(w.live, n), ts, w');
    }

    lemma Targeted(q: QueueState, m: Message)
      requires machine.Valid() && machine.store.Owns(q, m)
      ensures Has(machine.w.live, q.name, m.id) && TargetOf(machine.w.live, q.name) == q.cfg.deadLetter
      ensures q.cfg.deadLetter != "" ==> SoundConfig(q.cfg.deadLetter, DEFAULT_CONFIG) && q.cfg.deadLetter != q.name
      ensures q.cfg.deadLetter in machine.w.live.queues <==> q.cfg.deadLetter in machine.store.queues
    {
      hide Reachable, Store.Store.Holds, ValidName, Machine.Logs;
      machine.store.ReadsQueue(machine.w.live, q);
      machine.store.ReadsMsg(machine.w.live, q, m);
      if q.cfg.deadLetter != "" { TargetNamed(machine.w, q.name); }
    }

    lemma CreateDidHeeds(w: World, n: string, ts: int, wakes: map<string, Chan>, but: set<string>)
      requires Did(w, Configure(n, DEFAULT_CONFIG, ts), machine.w)
      requires Heeded(w.live, wakes, machine.store.gone, parked - lost, but)
      requires n !in wakes && n in machine.store.wakes && machine.store.wakes == wakes[n := machine.store.wakes[n]]
      requires machine.store.wakes[n] !in parked - lost
      ensures Heeded(machine.w.live, machine.store.wakes, machine.store.gone, parked - lost, but)
    {
      hide Enabled, Effect, Logged, Outcomes, Deliveries, Heeded;
      ActHeeded(w.live, Configure(n, DEFAULT_CONFIG, ts), w.clock, wakes, machine.store.gone, parked - lost, but, but);
      CreateHeeded(machine.w.live, wakes, machine.store.gone, parked - lost, but, n, machine.store.wakes[n]);
    }

    method Bury(q: QueueState, m: Message, ghost but: set<string>) returns (err: Option<Error>)
      requires Working(but) && machine.store.Owns(q, m)
      requires Spent(machine.w.live, q.name, m.id)
      requires q.cfg.deadLetter == "" || q.cfg.deadLetter in machine.store.queues
      modifies machine.Objects()
      ensures Working(but) && machine.store.Registered(q)
      ensures fresh(machine.store.repr - old(machine.store.repr))
      ensures if err.Some? then machine.w == old(machine.w) && err == Some(AppendFailed)
              else Buries(old(machine.w), q.name, m.id, machine.w)
      ensures machine.Failures() == old(machine.Failures()) + (if err == Some(AppendFailed) then 1 else 0)
    {
      hide Machine.Valid, Enabled, Did, Reachable, Heeded, ValidName;
      var target := q.cfg.deadLetter;
      ghost var w0 := machine.w;
      machine.Names();
      Targeted(q, m);
      ghost var ts;
      err, ts := machine.DoBury(q, m);
      if err.Some? {
        return;
      }
      machine.Names();
      ActHeeds(w0, Steps.Bury(q.name, m.id, ts), but, if target == "" then but else but + {target});
      if target != "" {
        Broadcast(machine.store.queues[target], but);
      }
    }

    /** More messages are stuck only because more appends have failed. */
    twostate predicate Counted(stuck: set<string>, stuck': set<string>)
      reads machine, LogObjects(machine.log)
    {
      && machine.Failures() >= old(machine.Failures())
      && (machine.Failures() == old(machine.Failures()) ==> stuck' == stuck)
    }

    /** Settles one pending message that is due; returns its due time if it is not. */
    method Visit(q: QueueState, id: string, now: int, ghost pre: State, ghost done: set<string>,
                 ghost stuck: set<string>,
                 ghost but: set<string>)
      returns (later: int, woke: bool, ghost stuck': set<string>)
      requires Working(but) && machine.store.Registered(q) && id in q.pending
      requires now <= machine.w.clock
      requires Visits(pre, machine.w.live, now, done, stuck, q.name, id) && At(pre, q.name, id).phase != Ready
      modifies machine.Objects()
      ensures Working(if woke then but + {q.name} else but) && machine.store.Registered(q)
      ensures fresh(machine.store.repr - old(machine.store.repr))
      ensures Swept(pre, machine.w.live, now, done + {id}, stuck') && machine.w.clock == old(machine.w).clock
      ensures ComesOf(pre, q.name, id, machine.w.live, now, id in stuck')
      ensures later == if At(pre, q.name, id).Due() > now then At(pre, q.name, id).Due() else 0
      ensures Counted(stuck, stuck') && Continues(old(machine.w), machine.w)
    {
      hide Machine.Valid, Heeded, Enabled, Did, Reachable, Swept, FateIn, Entombs, Continues, ComesOf, Interred,
        Prepared;
      ContinuesSelf(machine.w);
      FateSeen(pre, machine.w, now, done, stuck, q.name, id);
      machine.Pending(q, id);
      var m := q.pending[id];
      later, woke, stuck' := 0, false, stuck;
      ghost var w0 := machine.w;
      var due := if m.phase == Delayed then m.notBefore else m.deadline;
      if due > now {
        later := due;
        VisitStay(pre, machine.w.live, now, done, stuck, q.name, id);
        SweptOutcome(pre, machine.w.live, now, done + {id}, stuck', q.name, id);
        return;
      }
      if m.phase == Leased && q.cfg.maxReceives > 0 && m.receives >= q.cfg.maxReceives {
        var err := DeadLetter(q, m, but);
        EntombVisit(pre, w0, machine.w, now, done, stuck, q.name, id, err.Some?);
        stuck' := if err.Some? then stuck + {id} else stuck;
        SweptOutcome(pre, machine.w.live, now, done + {id}, stuck', q.name, id);
        return;
      }
      machine.DoWake(q, m);
      woke := true;
      WakeVisit(pre, w0, machine.w, now, done, stuck, q.name, id);
      SweptOutcome(pre, machine.w.live, now, done + {id}, stuck', q.name, id);
      DidContinues(w0, Wake(q.name, id), machine.w);
      ActHeeds(w0, Wake(q.name, id), but, but + {q.name});
    }

    /**
     Settles one queue and returns when it is due next.  The pending messages
     are visited in an arbitrary order.
     */
    method SweepQueue(q: QueueState, now: int, ghost pre: State, ghost done: set<string>, ghost stuck: set<string>)
      returns (next: int, ghost stuck': set<string>)
      requires Working({}) && machine.store.Registered(q) && 0 <= now <= machine.w.clock
      requires Unswept(pre, machine.w.live, now, done, stuck, q.name)
      modifies machine.Objects()
      ensures Working({}) && machine.store.Registered(q)
      ensures fresh(machine.store.repr - old(machine.store.repr))
      ensures Swept(pre, machine.w.live, now, done + PendingOf(pre, q.name), stuck')
      ensures forall id :: Has(pre, q.name, id) ==> ComesOf(pre, q.name, id, machine.w.live, now, id in stuck')
      ensures machine.w.clock == old(machine.w).clock && Counted(stuck, stuck') && Continues(old(machine.w), machine.w)
      ensures IsNextOf(pre, q.name, PendingOf(pre, q.name), now, next)
    {
      hide Machine.Valid, Heeds, Reachable, Swept, IsNextOf, PendingOf, Continues, ComesOf;
      var woke;
      next, woke, stuck' := VisitAll(q, now, pre, done, stuck);
      PendingOutcomes(pre, machine.w.live, now, done, stuck', q.name);
      if woke {
        machine.Names();
        assert {q.name} == {} + {q.name};
        Broadcast(q, {});
      }
    }

    method VisitAll(q: QueueState, now: int, ghost pre: State, ghost done: set<string>, ghost stuck: set<string>)
      returns (next: int, woke: bool, ghost stuck': set<string>)
      requires Working({}) && machine.store.Registered(q) && 0 <= now <= machine.w.clock
      requires Unswept(pre, machine.w.live, now, done, stuck, q.name)
      modifies machine.Objects()
      ensures Working(if woke then {q.name} else {}) && machine.store.Registered(q)
      ensures fresh(machine.store.repr - old(machine.store.repr))
      ensures Swept(pre, machine.w.live, now, done + PendingOf(pre, q.name), stuck')
      ensures machine.w.clock == old(machine.w).clock && Counted(stuck, stuck') && Continues(old(machine.w), machine.w)
      ensures IsNextOf(pre, q.name, PendingOf(pre, q.name), now, next)
    {
      hide Machine.Valid, Heeds, Reachable, Swept, IsNextOf, Unswept, PendingOf, Working, Continues, ComesOf,
        Visits;
      ghost var w0 := machine.w;
      ContinuesSelf(w0);
      machine.PendingIds(q) by { WorkingParts({}); }
      PendingLeft(pre, machine.w.live, now, done, stuck, q.name);
      var todo := q.pending.Keys;
      next, woke, stuck' := 0, false, stuck;
      ghost var seen: set<string>, all := {}, todo;
      NoNext(pre, q.name, now);
      assert done + seen == done;
      while todo != {}
        invariant Working(if woke then {q.name} else {}) && machine.store.Registered(q)
        invariant fresh(machine.store.repr - old(machine.store.repr))
        invariant todo !! seen && todo + seen == all
        invariant Swept(pre, machine.w.live, now, done + seen, stuck')
        invariant machine.w.clock == old(machine.w).clock && Counted(stuck, stuck') && Continues(w0, machine.w)
        invariant IsNextOf(pre, q.name, seen, now, next)
        decreases todo
      {
        var id :| id in todo;
        ghost var but := if woke then {q.name} else {};
        assert but + {q.name} == {q.name};
        assert done + seen + {id} == done + (seen + {id});
        Visiting(q, id, now, pre, done + seen, stuck', but);
        var later, woke';
        ghost var mid := machine.w;
        later, woke', stuck' := Visit(q, id, now, pre, done + seen, stuck', but);
        ContinuesJoin(w0, mid, machine.w);
        SoonerNext(pre, q.name, seen, now, next, id, later);
        if later != 0 && (next == 0 || later < next) {
          next := later;
        }
        todo, seen := todo - {id}, seen + {id};
        woke := woke || woke';
      }
    }

    lemma WorkingParts(but: set<string>)
      requires Working(but)
      ensures machine.Valid()
    {
      hide Machine.Valid, Heeds;
    }

    lemma Visiting(q: QueueState, id: string, now: int, pre: State, done: set<string>, stuck: set<string>,
                   but: set<string>)
      requires Working(but) && machine.store.Registered(q)
      requires Swept(pre, machine.w.live, now, done, stuck)
      requires id in PendingOf(pre, q.name) && id !in done && At(pre, q.name, id).id == id
      ensures Visits(pre, machine.w.live, now, done, stuck, q.name, id) && At(pre, q.name, id).phase != Ready
      ensures id in q.pending
    {
      hide Machine.Valid, Heeds, Swept;
      Unvisited(pre, machine.w.live, now, done, stuck, q.name, id);
      machine.PendingIds(q);
    }

    /** Reads the clock and sweeps q. */
    method Look(q: QueueState) returns (now: int)
      requires Working({}) && machine.store.Registered(q)
      modifies machine.Objects()
      ensures Working({}) && machine.store.Registered(q)
      ensures fresh(machine.store.repr - old(machine.store.repr))
      ensures Looked(old(machine.w), q.name, machine.w, machine.Failures() == old(machine.Failures()))
      ensures machine.Failures() >= old(machine.Failures()) && now == machine.w.clock >= old(machine.clock.time)
    {
      hide Machine.Valid, Heeded, Reachable, Swept, Unswept, PendingOf, Continues, ComesOf;
      ghost var w0 := machine.w;
      now := machine.Now();
      ghost var mid := machine.w;
      machine.PendingIds(q);
      Ticked(w0, now, machine.w);
      UnsweptNow(q, now);
      var _, stuck := SweepQueue(q, now, machine.w.live, {}, {});
      ContinuesJoin(w0, mid, machine.w);
      machine.IsReachable();
      assert {} + PendingOf(w0.live, q.name) == PendingOf(w0.live, q.name);
    }

    lemma Ticked(w: World, t: int, w': World)
      requires Did(w, Tick(t), w')
      ensures w'.live == w.live && w'.clock == t >= w.clock && Continues(w, w')
    {
      hide Continues;
      DidContinues(w, Tick(t), w');
    }

    lemma UnsweptNow(q: QueueState, now: int)
      requires machine.Valid() && q.name in machine.w.live.queues && now == machine.w.clock
      ensures Unswept(machine.w.live, machine.w.live, now, {}, {}, q.name) && now >= 0
    {
      hide Reachable, Store.Store.Holds, Machine.Logs, Unswept, Sound, OneHome;
      UnsweptAtFirst(machine.w, q.name, now);
      ReachableSound(machine.w);
    }

    // -- leases

    /** The lease that queue, id and receipt name, or why there is none, once the queue has been swept. */
    method LookupLease(queue: string, id: string, receipt: string)
      returns (err: Option<Error>, q: QueueState?, m: Message?)
      requires Working({})
      modifies machine.Objects()
      ensures Working({}) && fresh(machine.store.repr - old(machine.store.repr))
      ensures queue !in old(machine.w).live.queues ==> err == Some(QueueNotFound) && machine.w == old(machine.w)
      ensures queue in old(machine.w).live.queues ==>
        && Looked(old(machine.w), queue, machine.w, machine.Failures() == old(machine.Failures()))
        && machine.w.clock >= old(machine.clock.time)
        && err == LeaseError(machine.w.live, queue, id, receipt) && Judged(machine.w.live, queue, id, receipt, err)
        && (InForce(old(machine.w).live, queue, id, receipt, machine.w.clock) ==> err.None?)
      ensures machine.Failures() >= old(machine.Failures()) && err != Some(AppendFailed)
      ensures err.None? ==>
        && q != null && m != null && q.name == queue && m.id == id && machine.store.Owns(q, m)
        && Steps.Holds(machine.w.live, queue, id, machine.w.clock) && q.cfg == machine.w.live.queues[queue].cfg
        && m.Value() == At(machine.w.live, queue, id) && m.receipt == receipt
    {
      hide Machine.Valid, Heeds, Reachable, Looked, Steps.Holds, Judged, InForce;
      q, m := null, null;
      machine.Names();
      if queue !in machine.store.queues {
        return Some(QueueNotFound), null, null;
      }
      q := machine.store.queues[queue];
      ghost var w0 := machine.w;
      var _ := Look(q);
      ghost var well := machine.Failures() == old(machine.Failures());
      machine.Filed(q, id);
      LeaseErrorJudges(machine.w.live, queue, id, receipt);
      if InForce(w0.live, queue, id, receipt, machine.w.clock) {
        LookedInForce(w0, queue, machine.w, well, id, receipt);
      }
      if id !in q.byID {
        return Some(MessageNotFound), q, null;
      }
      m := q.byID[id];
      if m.phase != Leased {
        return Some(NotLeased), q, m;
      }
      if m.receipt != receipt {
        return Some(WrongReceipt), q, m;
      }
      LookedHolds(w0, queue, machine.w, well, id);
      return None, q, m;
    }

    /** The consumer is done: its message is gone for good. */
    method Ack(queue: string, id: string, receipt: string) returns (err: Option<Error>, ghost mid: World, ghost ts: int)
      requires Working({})
      modifies machine.journal, machine.Objects()
      ensures Working({}) && fresh(machine.store.repr - old(machine.store.repr))
      ensures queue !in old(machine.w).live.queues ==> err == Some(QueueNotFound) && machine.w == old(machine.w)
      ensures queue in old(machine.w).live.queues ==>
        && Looked(old(machine.w), queue, mid, machine.Failures() == old(machine.Failures()))
        && mid.clock >= old(machine.clock.time) && Judged(mid.live, queue, id, receipt, err)
        && (InForce(old(machine.w).live, queue, id, receipt, mid.clock) ==> err.None? || err == Some(AppendFailed))
        && (if err.None? then Removed(mid.live, queue, id, machine.w.live) else machine.w == mid)
        && match LeaseError(mid.live, queue, id, receipt)
           case Some(e) => err == Some(e)
           case None => Committed(mid, Settle(queue, id, ts), err, machine.w)
      ensures err == Some(AppendFailed) ==> machine.Failures() > old(machine.Failures())
      ensures Safe(old(CrashesOf(machine.log)), old(machine.w))
    {
      hide Machine.Valid, Heeded, Reachable, Looked, Steps.Holds, Did, Safe, CrashesOf, Judged, InForce, Removed;
      ghost var since, base := Begin();
      ghost var w0 := machine.w;
      var q, m;
      err, q, m := LookupLease(queue, id, receipt);
      ghost var well := machine.Failures() == old(machine.Failures());
      mid, ts := machine.w, 0;
      if err.Some? {
        CrashSafe(since, base);
        return;
      }
      err, ts := Finish(q, m);
      JudgedStill(mid.live, queue, id, receipt, err);
      LookedAnyway(w0, queue, mid, well, machine.Failures() == old(machine.Failures()));
      CrashSafe(since, base);
    }

    /** The leased message m goes for good. */
    method Finish(q: QueueState, m: Message) returns (err: Option<Error>, ghost ts: int)
      requires Working({}) && machine.store.Owns(q, m) && Steps.Holds(machine.w.live, q.name, m.id, machine.w.clock)
      modifies machine.Objects()
      ensures Working({}) && fresh(machine.store.repr - old(machine.store.repr))
      ensures Committed(old(machine.w), Settle(q.name, m.id, ts), err, machine.w)
      ensures err.None? ==> Removed(old(machine.w).live, q.name, m.id, machine.w.live)
      ensures machine.Failures() == old(machine.Failures()) + (if err == Some(AppendFailed) then 1 else 0)
    {
      hide Machine.Valid, Heeded, Reachable, Did, Steps.Holds, Removed;
      ghost var w0 := machine.w;
      machine.IsReachable();
      err, ts := machine.DoSettle(q, m);
      if err.None? {
        SettleRemoves(w0, q.name, m.id, ts, machine.w);
        ActHeeds(w0, Settle(q.name, m.id, ts), {}, {});
      }
    }

    /**
     The consumer gives its message up: it can be delivered again at once, or
     goes the way of an expired lease if it has been delivered often enough.
     */
    method Nack(queue: string, id: string, receipt: string) returns (err: Option<Error>, ghost mid: World,
                ghost ts: int)
      requires Working({})
      modifies machine.journal, machine.Objects()
      ensures Working({}) && fresh(machine.store.repr - old(machine.store.repr))
      ensures queue !in old(machine.w).live.queues ==> err == Some(QueueNotFound) && machine.w == old(machine.w)
      ensures queue in old(machine.w).live.queues ==>
        && Looked(old(machine.w), queue, mid, machine.Failures() == old(machine.Failures()))
        && mid.clock >= old(machine.clock.time) && Judged(mid.live, queue, id, receipt, err)
        && (InForce(old(machine.w).live, queue, id, receipt, mid.clock) ==> err.None? || err == Some(AppendFailed))
        && (err.None? || err == Some(AppendFailed) ==> GivenUp(mid.live, queue, id, err.Some?, machine.w.live))
        && match LeaseError(mid.live, queue, id, receipt)
           case Some(e) => err == Some(e) && machine.w == mid
           case None =>
             if IsExhausted(mid.live, queue, id)
             then Entombs(mid, queue, id, err.Some?, machine.w) && (err.None? || err == Some(AppendFailed))
             else Committed(mid, Return(queue, id, ts), err, machine.w)
      ensures err == Some(AppendFailed) ==> machine.Failures() > old(machine.Failures())
      ensures Safe(old(CrashesOf(machine.log)), old(machine.w))
    {
      hide Machine.Valid, Heeded, Reachable, Looked, Did, Entombs, Safe, CrashesOf, Continues, Judged, InForce,
        GivenUp;
      ghost var since, base := Begin();
      ghost var w0 := machine.w;
      var q, m;
      err, q, m := LookupLease(queue, id, receipt);
      ghost var well := machine.Failures() == old(machine.Failures());
      mid, ts := machine.w, 0;
      if err.Some? {
        CrashSafe(since, base);
        return;
      }
      err, ts := GiveUp(q, m);
      JudgedStill(mid.live, queue, id, receipt, err);
      LookedAnyway(w0, queue, mid, well, machine.Failures() == old(machine.Failures()));
      CrashSafe(since, base);
    }

    /** The leased message m is ready again, or goes if it has been delivered often enough. */
    method GiveUp(q: QueueState, m: Message) returns (err: Option<Error>, ghost ts: int)
      requires Working({}) && machine.store.Owns(q, m) && q.cfg == machine.w.live.queues[q.name].cfg
      requires Steps.Holds(machine.w.live, q.name, m.id, machine.w.clock)
      requires m.Value() == At(machine.w.live, q.name, m.id)
      modifies machine.Objects()
      ensures Working({}) && fresh(machine.store.repr - old(machine.store.repr))
      ensures if IsExhausted(old(machine.w).live, q.name, m.id)
              then Entombs(old(machine.w), q.name, m.id, err.Some?, machine.w)
              else Committed(old(machine.w), Return(q.name, m.id, ts), err, machine.w)
      ensures err.None? || err == Some(AppendFailed)
      ensures GivenUp(old(machine.w).live, q.name, m.id, err.Some?, machine.w.live)
      ensures machine.Failures() == old(machine.Failures()) + (if err == Some(AppendFailed) then 1 else 0)
    {
      hide Machine.Valid, Heeded, Reachable, Did, Entombs, Continues, GivenUp, Interred, Prepared, Requeued;
      ghost var w0, id := machine.w, m.id;
      if q.cfg.maxReceives > 0 && m.receives >= q.cfg.maxReceives {
        err := DeadLetter(q, m, {});
        ts := 0;
      } else {
        err, ts := GiveBack(q, m);
      }
      GivesUp(w0.live, q.name, id, err.Some?, machine.w.live);
    }

    /** The leased message m is ready again, and a waiter may have it. */
    method GiveBack(q: QueueState, m: Message) returns (err: Option<Error>, ghost ts: int)
      requires Working({}) && machine.store.Owns(q, m) && Steps.Holds(machine.w.live, q.name, m.id, machine.w.clock)
      requires !IsExhausted(machine.w.live, q.name, m.id)
      modifies machine.Objects()
      ensures Working({}) && fresh(machine.store.repr - old(machine.store.repr))
      ensures Committed(old(machine.w), Return(q.name, m.id, ts), err, machine.w)
      ensures err.None? ==> Requeued(old(machine.w).live, q.name, m.id, machine.w.live)
      ensures machine.Failures() == old(machine.Failures()) + (if err == Some(AppendFailed) then 1 else 0)
    {
      hide Machine.Valid, Heeded, Reachable, Did, Requeued;
      ghost var w0 := machine.w;
      machine.IsReachable();
      err, ts := machine.DoReturn(q, m);
      if err.None? {
        ReturnRequeues(w0, q.name, m.id, ts, machine.w);
        ActHeeds(w0, Return(q.name, m.id, ts), {}, {} + {q.name});
        machine.Names();
        Broadcast(q, {});
      }
    }

    /** The consumer needs more time: its lease runs for `visibility` from a later reading of the clock. */
    method Extend(queue: string, id: string, receipt: string, visibility: int)
      returns (err: Option<Error>, ghost mid: World, ghost deadline: int, ghost ts: int)
      requires Working({})
      modifies machine.journal, machine.Objects()
      ensures Working({}) && fresh(machine.store.repr - old(machine.store.repr))
      ensures !(0 < visibility <= 43_200_000) ==> err == Some(BadVisibility) && machine.w == old(machine.w)
      ensures 0 < visibility <= 43_200_000 && queue !in old(machine.w).live.queues ==>
        err == Some(QueueNotFound) && machine.w == old(machine.w)
      ensures 0 < visibility <= 43_200_000 && queue in old(machine.w).live.queues ==>
        && Looked(old(machine.w), queue, mid, machine.Failures() == old(machine.Failures()))
        && mid.clock >= old(machine.clock.time) && Judged(mid.live, queue, id, receipt, err)
        && (InForce(old(machine.w).live, queue, id, receipt, mid.clock) ==> err.None? || err == Some(AppendFailed))
        && (if err.None?
            then Has(mid.live, queue, id)
                 && Altered(mid.live, queue, At(mid.live, queue, id).(deadline := deadline), machine.w.live)
            else machine.w == mid)
        && match LeaseError(mid.live, queue, id, receipt)
           case Some(e) => err == Some(e)
           case None =>
             && Committed(mid, Prolong(queue, id, deadline, ts), err, machine.w)
             && mid.clock + visibility <= deadline <= ts + visibility
      ensures err == Some(AppendFailed) ==> machine.Failures() > old(machine.Failures())
      ensures Safe(old(CrashesOf(machine.log)), old(machine.w))
    {
      hide Machine.Valid, Heeds, Reachable, Looked, Steps.Holds, Did, Safe, CrashesOf, Judged, InForce, Altered;
      ghost var since, base := Begin();
      mid, deadline, ts := machine.w, 0, 0;
      if visibility <= 0 || visibility > MAX_VISIBILITY {
        CrashSafe(since, base);
        return Some(BadVisibility), mid, deadline, ts;
      }
      ghost var w0 := machine.w;
      var q, m;
      err, q, m := LookupLease(queue, id, receipt);
      ghost var well := machine.Failures() == old(machine.Failures());
      mid := machine.w;
      if err.Some? {
        CrashSafe(since, base);
        return;
      }
      err, deadline, ts := GiveTime(q, m, visibility);
      JudgedStill(mid.live, queue, id, receipt, err);
      LookedAnyway(w0, queue, mid, well, machine.Failures() == old(machine.Failures()));
      CrashSafe(since, base);
    }

    /** The lease of m runs for `visibility` from now. */
    method GiveTime(q: QueueState, m: Message, visibility: int)
      returns (err: Option<Error>, ghost deadline: int, ghost ts: int)
      requires Working({}) && machine.store.Owns(q, m) && Steps.Holds(machine.w.live, q.name, m.id, machine.w.clock)
      requires 0 < visibility <= MAX_VISIBILITY
      modifies machine.Objects()
      ensures Working({}) && fresh(machine.store.repr - old(machine.store.repr))
      ensures Committed(old(machine.w), Prolong(q.name, m.id, deadline, ts), err, machine.w)
      ensures err.None? ==>
        && Has(old(machine.w).live, q.name, m.id)
        && Altered(old(machine.w).live, q.name, At(old(machine.w).live, q.name, m.id).(deadline := deadline),
                   machine.w.live)
      ensures old(machine.w).clock + visibility <= deadline <= ts + visibility
      ensures machine.Failures() == old(machine.Failures()) + (if err == Some(AppendFailed) then 1 else 0)
    {
      hide Machine.Valid, Heeded, Reachable, Did, Steps.Holds, Altered;
      ghost var w0 := machine.w;
      machine.IsReachable();
      err, deadline, ts := machine.DoProlong(q, m, visibility);
      if err.None? {
        ProlongAlters(w0, q.name, m.id, deadline, ts, machine.w);
        ActHeeds(w0, Prolong(q.name, m.id, deadline, ts), {}, {});
      }
    }

    // -- queues

    /** Gives queue `name` a configuration; `created` says whether the queue is new. */
    method CreateQueue(name: string, cfg: Config) returns (created: bool, err: Option<Error>, ghost ts: int)
      requires Working({}) && InRange(cfg)
      modifies machine.journal, machine.Objects()
      ensures Working({}) && fresh(machine.store.repr - old(machine.store.repr))
      ensures !ValidName(name) ==> err == Some(BadName) && machine.w == old(machine.w)
      ensures ValidName(name) && cfg.deadLetter == name ==> err == Some(SelfDeadLetter) && machine.w == old(machine.w)
      ensures ValidName(name) && cfg.deadLetter != name ==>
        && Committed(old(machine.w), Configure(name, cfg, ts), err, machine.w)
        && if err.None? then Configured(old(machine.w).live, name, cfg, machine.w.live) else machine.w == old(machine.w)
      ensures created <==> err.None? && name !in old(machine.w).live.queues
      ensures machine.Failures() == old(machine.Failures()) + (if err == Some(AppendFailed) then 1 else 0)
      ensures Safe(old(CrashesOf(machine.log)), old(machine.w))
    {
      hide Machine.Valid, Heeded, Reachable, Did, ValidName, InRange, Safe, CrashesOf, Configured;
      ghost var since, base := Begin();
      created, ts := false, 0;
      if !ValidName(name) {
        CrashSafe(since, base);
        return false, Some(BadName), ts;
      }
      if cfg.deadLetter == name {
        CrashSafe(since, base);
        return false, Some(SelfDeadLetter), ts;
      }
      machine.Names();
      ghost var w0, wakes := machine.w, machine.store.wakes;
      if name in machine.store.queues {
        err, ts := machine.DoReconfigure(machine.store.queues[name], cfg);
        if err.None? {
          ActHeeds(w0, Configure(name, cfg, ts), {}, {});
          ConfigureConfigures(w0, name, cfg, ts, machine.w);
        }
        CrashSafe(since, base);
        return;
      }
      err, ts := machine.DoCreate(name, cfg);
      created := err.None?;
      if created {
        DidIs(w0, Configure(name, cfg, ts), machine.w);
        ConfigureConfigures(w0, name, cfg, ts, machine.w);
        ActHeeded(w0.live, Configure(name, cfg, ts), w0.clock, wakes, machine.store.gone, parked - lost, {}, {});
        CreateHeeded(machine.w.live, wakes, machine.store.gone, parked - lost, {}, name, machine.store.wakes[name]);
      }
      CrashSafe(since, base);
    }

    /** The queue goes with its messages, and no receiver stays parked on it. */
    method DeleteQueue(name: string) returns (err: Option<Error>, ghost ts: int)
      requires Working({})
      modifies machine.journal, machine.Objects()
      ensures Working({}) && fresh(machine.store.repr - old(machine.store.repr))
      ensures name !in old(machine.w).live.queues ==> err == Some(QueueNotFound) && machine.w == old(machine.w)
      ensures name in old(machine.w).live.queues ==>
        && Committed(old(machine.w), Delete(name, ts), err, machine.w)
        && if err.None? then WithoutQueue(old(machine.w).live, name, machine.w.live) else machine.w == old(machine.w)
      ensures err.None? ==> name in old(machine.store.wakes) && old(machine.store.wakes[name]) in machine.store.gone
      ensures machine.Failures() == old(machine.Failures()) + (if err == Some(AppendFailed) then 1 else 0)
      ensures Safe(old(CrashesOf(machine.log)), old(machine.w))
    {
      hide Machine.Valid, Heeded, Reachable, Did, Safe, CrashesOf, WithoutQueue;
      ghost var since, base := Begin();
      ts := 0;
      machine.Names();
      if name !in machine.store.queues {
        CrashSafe(since, base);
        return Some(QueueNotFound), ts;
      }
      ghost var w0, wakes, gone := machine.w, machine.store.wakes, machine.store.gone;
      err, ts := machine.DoDelete(machine.store.queues[name]);
      if err.None? {
        DidIs(w0, Delete(name, ts), machine.w);
        DeleteLeaves(w0, name, ts, machine.w);
        ActHeeded(w0.live, Delete(name, ts), w0.clock, wakes, gone, parked - lost, {}, {});
        DropHeeded(machine.w.live, wakes, gone, parked - lost, {}, name);
      }
      CrashSafe(since, base);
    }

    // -- producing

    /** A new message joins the back of the line, or waits out its delay. */
    method Send(queue: string, body: seq<byte>, delay: int) returns (id: string, err: Option<Error>, ghost mid: World)
      requires Working({})
      modifies machine.journal, machine.Objects()
      ensures Working({}) && fresh(machine.store.repr - old(machine.store.repr))
      ensures !(0 <= delay <= 900_000) ==> err == Some(BadDelay) && machine.w == old(machine.w)
      ensures 0 <= delay <= 900_000 && queue !in old(machine.w).live.queues ==>
        err == Some(QueueNotFound) && machine.w == old(machine.w)
      ensures 0 <= delay <= 900_000 && queue in old(machine.w).live.queues ==>
        && Did(old(machine.w), Tick(mid.clock), mid) && mid.clock >= old(machine.clock.time)
        && Committed(mid, Post(queue, body, delay), err, machine.w)
        && (if err.None?
            then id == FormatId(old(machine.w).live.counter + 1)
                 && Enqueued(old(machine.w).live, queue, id, body, delay, mid.clock, machine.w.live)
            else machine.w.live == old(machine.w).live)
      ensures machine.Failures() == old(machine.Failures()) + (if err == Some(AppendFailed) then 1 else 0)
      ensures Safe(old(CrashesOf(machine.log)), old(machine.w))
    {
      hide Machine.Valid, Heeds, Reachable, Did, FormatId, Safe, CrashesOf, Enqueued;
      ghost var since, base := Begin();
      id, mid := "", machine.w;
      if delay < 0 || delay > MAX_DELAY {
        CrashSafe(since, base);
        return id, Some(BadDelay), mid;
      }
      machine.Names();
      if queue !in machine.store.queues {
        CrashSafe(since, base);
        return id, Some(QueueNotFound), mid;
      }
      id, err, mid := SendTo(machine.store.queues[queue], body, delay);
      CrashSafe(since, base);
    }

    /** Reads the clock and files a new message. */
    method SendTo(q: QueueState, body: seq<byte>, delay: int) returns (id: string, err: Option<Error>, ghost mid: World)
      requires Working({}) && machine.store.Registered(q) && 0 <= delay <= MAX_DELAY
      modifies machine.Objects()
      ensures Working({}) && fresh(machine.store.repr - old(machine.store.repr))
      ensures Did(old(machine.w), Tick(mid.clock), mid) && Committed(mid, Post(q.name, body, delay), err, machine.w)
      ensures id == FormatId(old(machine.w).live.counter + 1) && mid.clock >= old(machine.clock.time)
      ensures if err.None? then Enqueued(old(machine.w).live, q.name, id, body, delay, mid.clock, machine.w.live)
              else machine.w.live == old(machine.w).live
      ensures machine.Failures() == old(machine.Failures()) + (if err == Some(AppendFailed) then 1 else 0)
    {
      hide Machine.Valid, Heeds, Reachable, Did, FormatId, Enqueued;
      var now := Start();
      mid := machine.w;
      err, id := Publish(q, body, delay, now);
    }

    /** Files a new message, and wakes the waiters of q unless it is delayed. */
    method Publish(q: QueueState, body: seq<byte>, delay: int, now: int) returns (err: Option<Error>, id: string)
      requires Working({}) && machine.store.Registered(q) && 0 <= delay <= MAX_DELAY && now == machine.w.clock
      modifies machine.Objects()
      ensures Working({}) && fresh(machine.store.repr - old(machine.store.repr))
      ensures Committed(old(machine.w), Post(q.name, body, delay), err, machine.w) && Issued(old(machine.w), id)
      ensures err.None? ==>
        Enqueued(old(machine.w).live, q.name, id, body, delay, old(machine.w).clock, machine.w.live)
      ensures machine.Failures() == old(machine.Failures()) + (if err == Some(AppendFailed) then 1 else 0)
    {
      hide Machine.Valid, Heeded, Reachable, Did, FormatId, Enqueued;
      ghost var w0 := machine.w;
      machine.IsReachable();
      err, id := machine.DoPost(q, body, delay, now);
      if err.Some? {
        return;
      }
      PostEnqueues(w0, q.name, body, delay, machine.w);
      ActHeeds(w0, Post(q.name, body, delay), {}, if delay == 0 then {} + {q.name} else {});
      if delay == 0 {
        machine.Names();
        Broadcast(q, {});
      }
    }

    /** Reads the clock. */
    method Start() returns (now: int)
      requires Working({})
      modifies machine`w, machine.clock
      ensures Working({}) && Did(old(machine.w), Tick(now), machine.w)
      ensures now == machine.w.clock >= old(machine.clock.time)
      ensures machine.w.live == old(machine.w).live
    {
      hide Machine.Valid, Heeded, Reachable, Did;
      ghost var w0 := machine.w;
      now := machine.Now();
      Ticked(w0, now, machine.w);
    }

    // -- consuming

    /** Leases the messages first in line at q, one by one. */
    method Lease(q: QueueState, max: int, visibility: int, now: int)
      returns (ds: seq<Delivered>, err: Option<Error>, ghost actions: seq<Action>)
      requires Working({}) && machine.store.Registered(q) && max >= 1 && 0 <= visibility <= MAX_VISIBILITY
      requires now == machine.w.clock
      modifies machine.Objects()
      ensures Working({}) && machine.store.Registered(q)
      ensures fresh(machine.store.repr - old(machine.store.repr))
      ensures q.name in old(machine.w).live.queues
      ensures var lease := if visibility == 0 then old(machine.w).live.queues[q.name].cfg.visibility else visibility;
        && Leases(old(machine.w), q.name, ds, lease, err, actions, machine.w)
        && forall d :: d in ds ==> HandedOut(old(machine.w).live, q.name, d, now + lease, machine.w.live)
      ensures |ds| <= max && (err.None? ==> |ds| == max || !HasReady(machine.w.live, q.name))
      ensures err.None? || err == Some(AppendFailed)
      ensures machine.Failures() == old(machine.Failures()) + (if err == Some(AppendFailed) then 1 else 0)
    {
      hide Machine.Valid, Heeded, Reachable, Did, Leases, HasReady, Handed, HandedOut, Handing;
      machine.Limits(q);
      var lease := if visibility == 0 then q.cfg.visibility else visibility;
      ghost var w0 := machine.w;
      ds, err, actions := [], None, [];
      LeasesNothing(w0, q.name, lease);
      HandingNothing(w0.live, q.name, now + lease);
      while |ds| < max && q.ready != []
        invariant Working({}) && machine.store.Registered(q)
        invariant fresh(machine.store.repr - old(machine.store.repr))
        invariant |ds| <= max && machine.w.clock == now && machine.Failures() == old(machine.Failures())
        invariant Leases(w0, q.name, ds, lease, None, actions, machine.w)
        invariant Handing(w0.live, q.name, ds, now + lease, machine.w.live)
        decreases max - |ds|
      {
        ghost var mid := machine.w;
        machine.IsReachable();
        var d;
        err, d := machine.DoGrant(q, lease, now);
        if err.Some? {
          ActHeeds(mid, Burn, {}, {});
          LeasesFail(w0, q.name, ds, lease, actions, mid, machine.w);
          HandingBurnt(w0.live, mid, q.name, ds, now + lease, machine.w);
          HandingGives(w0.live, q.name, ds, now + lease, machine.w.live);
          actions := actions + [Burn];
          return;
        }
        ActHeeds(mid, Grant(q.name, d.id, lease), {}, {});
        LeasesMore(w0, q.name, ds, lease, actions, mid, d, machine.w);
        HandingMore(w0.live, mid, q.name, ds, now + lease, d, lease, machine.w);
        DidIs(mid, Grant(q.name, d.id, lease), machine.w);
        ds, actions := ds + [d], actions + [Grant(q.name, d.id, lease)];
      }
      err := None;
      machine.Empty(q);
      HandingGives(w0.live, q.name, ds, now + lease, machine.w.live);
    }

    /**
     One pass of a receive: leases up to max messages.  When there are none
     and the caller waits, it parks on the queue's channel and comes back with
     another pass when that is closed.
     */
    method Receive(queue: string, max: int, visibility: int, waits: bool)
      returns (ds: seq<Delivered>, err: Option<Error>, wake: Chan?,
               ghost mid: World, ghost leased: seq<Delivered>, ghost actions: seq<Action>)
      requires Working({})
      modifies this`parked, this`lost, machine.journal, machine.Objects()
      ensures Working({}) && fresh(machine.store.repr - old(machine.store.repr))
      ensures !(0 <= visibility <= 43_200_000) ==> err == Some(BadVisibility) && machine.w == old(machine.w)
      ensures 0 <= visibility <= 43_200_000 && queue !in old(machine.w).live.queues ==>
        err == Some(QueueNotFound) && machine.w == old(machine.w)
      ensures 0 <= visibility <= 43_200_000 && queue in old(machine.w).live.queues ==>
        && Looked(old(machine.w), queue, mid, machine.Failures() == old(machine.Failures()))
        && mid.clock >= old(machine.clock.time) && queue in mid.live.queues
        && Hands(mid, queue, visibility, leased, err, actions, machine.w)
        && |leased| <= (if max < 1 then 1 else max)
        && (err.None? ==> |leased| == (if max < 1 then 1 else max) || !HasReady(machine.w.live, queue))
      ensures ds == if err.None? then leased else []
      ensures err == Some(AppendFailed) ==> machine.Failures() > old(machine.Failures())
      ensures (wake != null <==> err.None? && ds == [] && waits) && Parks(queue, wake)
      ensures Safe(old(CrashesOf(machine.log)), old(machine.w))
    {
      hide Machine.Valid, Heeds, Reachable, Looked, Hands, HasReady, Safe, CrashesOf;
      ghost var since, base := Begin();
      ds, err, wake, mid, leased, actions := [], None, null, machine.w, [], [];
      var most := if max < 1 then 1 else max;
      if visibility < 0 || visibility > MAX_VISIBILITY {
        err := Some(BadVisibility);
        CrashSafe(since, base);
        return;
      }
      machine.Names();
      if queue !in machine.store.queues {
        err := Some(QueueNotFound);
        CrashSafe(since, base);
        return;
      }
      ds, err, wake, mid, leased, actions := ReceiveFrom(machine.store.queues[queue], most, visibility, waits);
      CrashSafe(since, base);
    }

    /** Who waits on what: one more receiver on the channel of a queue, or nobody new. */
    twostate predicate Parks(queue: string, new wake: Chan?)
      reads this, machine, machine.store
    {
      if wake == null then parked == old(parked) && lost == old(lost)
      else
        && parked == old(parked) + {wake} && lost == old(lost) - {wake}
        && queue in machine.store.wakes && wake == machine.store.wakes[queue]
    }

    /** Sweeps q, leases up to max messages, and parks if there are none and the caller waits. */
    method ReceiveFrom(q: QueueState, max: int, visibility: int, waits: bool)
      returns (ds: seq<Delivered>, err: Option<Error>, wake: Chan?,
               ghost mid: World, ghost leased: seq<Delivered>, ghost actions: seq<Action>)
      requires Working({}) && machine.store.Registered(q) && max >= 1 && 0 <= visibility <= MAX_VISIBILITY
      modifies this`parked, this`lost, machine.Objects()
      ensures Working({}) && fresh(machine.store.repr - old(machine.store.repr))
      ensures Looked(old(machine.w), q.name, mid, machine.Failures() == old(machine.Failures()))
      ensures mid.clock >= old(machine.clock.time) && q.name in mid.live.queues
      ensures Hands(mid, q.name, visibility, leased, err, actions, machine.w)
      ensures |leased| <= max && (err.None? ==> |leased| == max || !HasReady(machine.w.live, q.name))
      ensures err.None? || (err == Some(AppendFailed) && machine.Failures() > old(machine.Failures()))
      ensures ds == if err.None? then leased else []
      ensures (wake != null <==> err.None? && ds == [] && waits) && Parks(q.name, wake)
    {
      hide Machine.Valid, Heeds, Reachable, Looked, Hands, HasReady;
      ds, wake := [], null;
      var got;
      got, err, mid, actions := LookAndLease(q, max, visibility);
      leased := got;
      if err.Some? {
        return;
      }
      ds := got;
      if ds == [] && waits {
        wake := Park(q);
      }
    }

    /** Sweeps q and leases up to max messages. */
    method LookAndLease(q: QueueState, max: int, visibility: int)
      returns (ds: seq<Delivered>, err: Option<Error>, ghost mid: World, ghost actions: seq<Action>)
      requires Working({}) && machine.store.Registered(q) && max >= 1 && 0 <= visibility <= MAX_VISIBILITY
      modifies machine.Objects()
      ensures Working({}) && machine.store.Registered(q)
      ensures fresh(machine.store.repr - old(machine.store.repr))
      ensures Looked(old(machine.w), q.name, mid, machine.Failures() == old(machine.Failures()))
      ensures mid.clock >= old(machine.clock.time) && q.name in mid.live.queues
      ensures Hands(mid, q.name, visibility, ds, err, actions, machine.w)
      ensures |ds| <= max && (err.None? ==> |ds| == max || !HasReady(machine.w.live, q.name))
      ensures err.None? || (err == Some(AppendFailed) && machine.Failures() > old(machine.Failures()))
    {
      hide Machine.Valid, Heeds, Reachable, Looked, Leases, HasReady, HandedOut;
      ghost var w0 := machine.w;
      var now := Look(q);
      mid := machine.w;
      ghost var well := machine.Failures() == old(machine.Failures());
      ds, err, actions := Lease(q, max, visibility, now);
      LookedAnyway(w0, q.name, mid, well, machine.Failures() == old(machine.Failures()));
    }

    /** A receiver that found nothing ready waits on the channel of q; nobody misses anything there now. */
    method Park(q: QueueState) returns (wake: Chan)
      requires Working({}) && machine.store.Registered(q) && !HasReady(machine.w.live, q.name)
      modifies this`parked, this`lost
      ensures Working({}) && parked == old(parked) + {wake} && lost == old(lost) - {wake}
      ensures q.name in machine.store.wakes && wake == machine.store.wakes[q.name]
    {
      hide Machine.Valid, Heeded, Reachable, HasReady;
      wake := q.wake;
      machine.Names();
      machine.OwnWake(q);
      ParkHeeded(machine.w.live, machine.store.wakes, machine.store.gone, parked - lost, q.name);
      assert parked + {wake} - (lost - {wake}) == parked - lost + {wake};
      parked, lost := parked + {wake}, lost - {wake};
    }

    // -- redrive

    /** The messages first in line at one queue join the back of another, as if never delivered. */
    method Redrive(from: string, to: string, max: int)
      returns (moved: nat, err: Option<Error>, ghost mid: World, ghost actions: seq<Action>)
      requires Working({})
      modifies this`lost, machine.journal, machine.Objects()
      ensures Working({}) && fresh(machine.store.repr - old(machine.store.repr))
      ensures from == to ==> err == Some(SelfRedrive) && moved == 0 && machine.w == old(machine.w)
      ensures from != to && (from !in old(machine.w).live.queues || to !in old(machine.w).live.queues) ==>
        err == Some(QueueNotFound) && moved == 0 && machine.w == old(machine.w)
      ensures from != to && from in old(machine.w).live.queues && to in old(machine.w).live.queues ==>
        && Looked(old(machine.w), from, mid, machine.Failures() == old(machine.Failures()))
        && mid.clock >= old(machine.clock.time)
        && Redrives(mid, from, to, moved, actions, machine.w)
        && (max > 0 ==> moved <= max)
        && (err.None? || err == Some(AppendFailed))
        && (err.None? ==> (max > 0 && moved == max) || !HasReady(machine.w.live, from))
      ensures err == Some(AppendFailed) ==> machine.Failures() > old(machine.Failures())
      ensures Strands(to, err.Some? && moved > 0)
      ensures Safe(old(CrashesOf(machine.log)), old(machine.w))
    {
      hide Machine.Valid, Heeds, Reachable, Looked, Redrives, HasReady, Safe, CrashesOf;
      ghost var since, base := Begin();
      moved, err, mid, actions := 0, None, machine.w, [];
      if from == to {
        err := Some(SelfRedrive);
        CrashSafe(since, base);
        return;
      }
      machine.Names();
      if from !in machine.store.queues || to !in machine.store.queues {
        err := Some(QueueNotFound);
        CrashSafe(since, base);
        return;
      }
      moved, err, mid, actions := RedriveFrom(machine.store.queues[from], to, max);
      CrashSafe(since, base);
    }

    /** A redrive that failed midway leaves the waiters of its target parked with messages to be had. */
    twostate predicate Strands(to: string, failed: bool)
      reads this, machine, machine.store
    {
      if failed then to in machine.store.wakes && lost == old(lost) + {machine.store.wakes[to]}
      else lost == old(lost)
    }

    /** Sweeps src and moves its messages. */
    method RedriveFrom(src: QueueState, to: string, max: int)
      returns (moved: nat, err: Option<Error>, ghost mid: World, ghost actions: seq<Action>)
      requires Working({}) && machine.store.Registered(src) && to in machine.w.live.queues && src.name != to
      modifies this`lost, machine.Objects()
      ensures Working({}) && fresh(machine.store.repr - old(machine.store.repr))
      ensures Looked(old(machine.w), src.name, mid, machine.Failures() == old(machine.Failures()))
      ensures mid.clock >= old(machine.clock.time)
      ensures Redrives(mid, src.name, to, moved, actions, machine.w)
      ensures max > 0 ==> moved <= max
      ensures err.None? ==> (max > 0 && moved == max) || !HasReady(machine.w.live, src.name)
      ensures err.None? || (err == Some(AppendFailed) && machine.Failures() > old(machine.Failures()))
      ensures Strands(to, err.Some? && moved > 0)
    {
      hide Machine.Valid, Heeds, Reachable, Looked, Redrives, HasReady;
      ghost var w0 := machine.w;
      var _ := Look(src);
      mid := machine.w;
      ghost var well := machine.Failures() == old(machine.Failures());
      StillThere(w0, src.name, mid, well, to);
      machine.Names();
      moved, err, actions := MoveAndWake(src, machine.store.queues[to], max);
      LookedAnyway(w0, src.name, mid, well, machine.Failures() == old(machine.Failures()));
    }

    /** Moves messages and wakes the waiters of dst, unless an append fails. */
    method MoveAndWake(src: QueueState, dst: QueueState, max: int)
      returns (moved: nat, err: Option<Error>, ghost actions: seq<Action>)
      requires Working({}) && machine.store.Registered(src) && machine.store.Registered(dst) && src != dst
      modifies this`lost, machine.Objects()
      ensures Working({}) && fresh(machine.store.repr - old(machine.store.repr))
      ensures Redrives(old(machine.w), src.name, dst.name, moved, actions, machine.w)
      ensures max > 0 ==> moved <= max
      ensures err.None? || err == Some(AppendFailed)
      ensures err.None? ==> (max > 0 && moved == max) || !HasReady(machine.w.live, src.name)
      ensures machine.Failures() == old(machine.Failures()) + (if err == Some(AppendFailed) then 1 else 0)
      ensures if err.Some? && moved > 0
              then dst.name in machine.store.wakes && lost == old(lost) + {machine.store.wakes[dst.name]}
              else lost == old(lost)
    {
      hide Machine.Valid, Heeds, Reachable, Redrives, HasReady;
      moved, err, actions := MoveAll(src, dst, max);
      if err.Some? {
        if moved > 0 {
          Strand(dst);
        }
        return;
      }
      if moved > 0 {
        machine.Names();
        assert {dst.name} == {} + {dst.name};
        Broadcast(dst, {});
      }
    }

    /** The waiters of dst stay parked with messages to be had. */
    ghost method Strand(dst: QueueState)
      requires Working({dst.name}) && machine.store.Registered(dst)
      modifies this`lost
      ensures dst.name in machine.store.wakes && lost == old(lost) + {machine.store.wakes[dst.name]} && Working({})
    {
      hide Machine.Valid, Heeded;
      machine.Names();
      var wake := machine.store.wakes[dst.name];
      StrandHeeded(machine.w.live, machine.store.wakes, machine.store.gone, parked - lost, dst.name);
      assert parked - (lost + {wake}) == parked - lost - {wake};
      lost := lost + {wake};
    }

    lemma StillThere(w: World, n: string, w': World, well: bool, n': string)
      requires Looked(w, n, w', well)
      ensures n' in w.live.queues ==> n' in w'.live.queues
    {
      hide Swept, PendingOf;
      var stuck :| (well ==> stuck == {}) && Swept(w.live, w'.live, w'.clock, PendingOf(w.live, n), stuck);
      SweptNames(w.live, w'.live, w'.clock, PendingOf(w.live, n), stuck, n');
    }

    method MoveAll(src: QueueState, dst: QueueState, max: int)
      returns (moved: nat, err: Option<Error>, ghost actions: seq<Action>)
      requires Working({}) && machine.store.Registered(src) && machine.store.Registered(dst) && src != dst
      modifies machine.Objects()
      ensures Working(if moved > 0 then {dst.name} else {})
      ensures machine.store.Registered(src) && machine.store.Registered(dst)
      ensures fresh(machine.store.repr - old(machine.store.repr))
      ensures Redrives(old(machine.w), src.name, dst.name, moved, actions, machine.w)
      ensures max > 0 ==> moved <= max
      ensures err.None? || err == Some(AppendFailed)
      ensures err.None? ==> (max > 0 && moved == max) || !HasReady(machine.w.live, src.name)
      ensures machine.Failures() == old(machine.Failures()) + (if err == Some(AppendFailed) then 1 else 0)
    {
      hide Machine.Valid, Heeded, Reachable, Did, Redrives, HasReady;
      moved, err, actions := 0, None, [];
      ghost var w0 := machine.w;
      RedrivesNothing(w0, src.name, dst.name);
      while (max <= 0 || moved < max) && src.ready != []
        invariant Working(if moved > 0 then {dst.name} else {})
        invariant machine.store.Registered(src) && machine.store.Registered(dst)
        invariant fresh(machine.store.repr - old(machine.store.repr))
        invariant (max > 0 ==> moved <= max) && err.None? && machine.Failures() == old(machine.Failures())
        invariant Redrives(w0, src.name, dst.name, moved, actions, machine.w)
        decreases ReadyCount(machine.w.live, src.name)
      {
        ghost var mid := machine.w;
        ghost var id, ts;
        err, id, ts := machine.DoShift(src, dst);
        if err.Some? {
          return;
        }
        ActHeeds(mid, Shift(src.name, id, dst.name, ts), if moved > 0 then {dst.name} else {}, {dst.name});
        RedrivesMore(w0, src.name, dst.name, moved, actions, mid, id, ts, machine.w);
        ShiftShrinks(mid, src.name, id, dst.name, ts, machine.w);
        moved, actions := moved + 1, actions + [Shift(src.name, id, dst.name, ts)];
      }
      machine.Empty(src);
    }

    // -- the sweeper

    /**
     Settles every transition due at now, a reading of the clock, and returns
     when the next one is due.  The queues are visited in an arbitrary order.
     */
    method Sweep(now: int) returns (next: int, ghost stuck: set<string>)
      requires Working({}) && 0 <= now <= machine.clock.time
      modifies machine.journal, machine.Objects()
      ensures Working({}) && fresh(machine.store.repr - old(machine.store.repr))
      ensures SweptAll(old(machine.w).live, machine.w.live, now, stuck) && Counted({}, stuck)
      ensures forall n, id :: Has(old(machine.w).live, n, id) ==>
        ComesOf(old(machine.w).live, n, id, machine.w.live, now, id in stuck)
      ensures forall n :: n in machine.w.live.queues && n !in old(machine.w).live.queues ==>
        var cfg := machine.w.live.queues[n].cfg;
        cfg.visibility == 30_000 && cfg.maxReceives == 0 && cfg.deadLetter == ""
      ensures IsNext(old(machine.w).live, old(machine.w).live.queues.Keys, now, next)
      ensures Safe(old(CrashesOf(machine.log)), old(machine.w))
    {
      hide Machine.Valid, Heeds, Working, Reachable, Swept, IsNext, SweptAll, PendingIn, Safe, CrashesOf, ComesOf;
      ghost var since, base := Begin();
      ghost var pre := machine.w.live;
      Notice(now);
      next, stuck := SweepQueues(now);
      AllQueuesSwept(pre, machine.w.live, now, stuck);
      SweptOutcomes(pre, machine.w.live, now, stuck);
      CrashSafe(since, base);
    }

    method SweepQueues(now: int) returns (next: int, ghost stuck: set<string>)
      requires Working({}) && 0 <= now <= machine.w.clock
      modifies machine.Objects()
      ensures Working({}) && fresh(machine.store.repr - old(machine.store.repr))
      ensures var pre := old(machine.w).live;
        && Swept(pre, machine.w.live, now, PendingIn(pre, pre.queues.Keys), stuck) && Counted({}, stuck)
        && IsNext(pre, pre.queues.Keys, now, next)
    {
      hide Machine.Valid, Heeds, Working, Reachable, Swept, IsNext, PendingIn, Continues, ComesOf;
      ghost var pre := machine.w.live;
      WorkingParts({});
      machine.Names();
      var todo := machine.store.queues.Keys;
      next, stuck := 0, {};
      ghost var seen: set<string>, all := {}, todo;
      SweepStarts(pre, now);
      while todo != {}
        invariant Working({}) && fresh(machine.store.repr - old(machine.store.repr))
        invariant now <= machine.w.clock && todo !! seen && todo + seen == all == pre.queues.Keys
        invariant Swept(pre, machine.w.live, now, PendingIn(pre, seen), stuck) && Counted({}, stuck)
        invariant IsNext(pre, seen, now, next)
        decreases todo
      {
        var n :| n in todo;
        NotSweptYet(pre, now, seen, stuck, n);
        var later;
        later, stuck := SweepQueue(machine.store.queues[n], now, pre, PendingIn(pre, seen), stuck);
        NextMore(pre, seen, now, next, n, later);
        if later != 0 && (next == 0 || later < next) {
          next := later;
        }
        todo, seen := todo - {n}, seen + {n};
      }
      assert seen == pre.queues.Keys;
    }

    /** The sweeper's reading of the clock becomes known, unless a later one already is. */
    ghost method Notice(now: int)
      requires Working({}) && 0 <= now <= machine.clock.time
      modifies machine`w
      ensures Working({}) && machine.w.live == old(machine.w).live && now <= machine.w.clock
    {
      hide Machine.Valid, Heeded, Reachable;
      machine.Notice(now);
    }

    lemma SweepStarts(pre: State, now: int)
      requires machine.Valid() && machine.w.live == pre
      ensures PendingIn(pre, {}) == {} && Swept(pre, pre, now, {}, {}) && IsNext(pre, {}, now, 0)
      ensures OneHome(pre) && forall n, id :: Has(pre, n, id) ==> At(pre, n, id).id == id
    {
      hide Reachable, Store.Store.Holds, Machine.Logs, Swept, Sound, OneHome;
      ReachableSound(machine.w);
      SoundIsFiled(pre);
      SweptNothing(pre, now);
    }

    lemma NotSweptYet(pre: State, now: int, seen: set<string>, stuck: set<string>, n: string)
      requires Working({}) && Swept(pre, machine.w.live, now, PendingIn(pre, seen), stuck)
      requires OneHome(pre) && (forall n, id :: Has(pre, n, id) ==> At(pre, n, id).id == id)
      requires n in pre.queues && n !in seen
      ensures n in machine.store.queues && machine.store.queues[n].name == n
      ensures Unswept(pre, machine.w.live, now, PendingIn(pre, seen), stuck, n)
      ensures PendingIn(pre, seen) + PendingOf(pre, n) == PendingIn(pre, seen + {n})
    {
      hide Machine.Valid, Heeds, Swept, PendingIn, OneHome;
      machine.Names();
      SweptNames(pre, machine.w.live, now, PendingIn(pre, seen), stuck, n);
      PendingInMore(pre, seen, n);
      forall id | id in PendingOf(pre, n) ensures At(pre, n, id).id == id
      {
        assert Has(pre, n, id);
      }
    }

    // -- compaction

    /** The engine's queues as a log that rebuilds them. */
    method Snapshot() returns (recs: seq<Record>)
      requires Working({})
      ensures recs == SnapshotOf(machine.w.live)
    {
      hide Heeds, Machine.Logs, Reachable, Sound, SnapshotOf, Store.Store.Holds;
      ReachableSound(machine.w);
      recs := Collecting.Collect(machine.store, machine.w.live);
    }

    // -- long polling

    /**
     No lost wakeup: whoever is parked on a queue's channel misses nothing, for
     the queue has no ready message, and a channel that is no queue's any more
     is closed; all but the channels that a failed redrive did not close.
     */
    lemma NoLostWakeup(c: Chan)
      requires Working({}) && c in parked && c !in lost
      ensures c.closed || exists n :: n in machine.store.queues && machine.store.queues[n].wake == c
      ensures forall n :: n in machine.store.queues && machine.store.queues[n].wake == c ==>
        machine.store.queues[n].ready == []
    {
      hide Machine.Valid, HasReady;
      machine.Names();
      machine.Closed(c);
      forall n | n in machine.store.queues && machine.store.queues[n].wake == c
        ensures machine.store.queues[n].ready == []
      {
        machine.Empty(machine.store.queues[n]);
      }
    }
  }

  /** The log file reads as the log of w, but for a torn tail. */
  ghost predicate Reads(c: Codec, file: Option<seq<byte>>, w: World) {
    Read(c, Wal.DataOf(file)).Ok? && Read(c, Wal.DataOf(file)).value.recs == w.log
  }

  /** Cutting off a torn tail does not change what a log reads as. */
  lemma ReadsStill(c: Codec, file: Option<seq<byte>>)
    requires Read(c, Wal.DataOf(file)).Ok?
    ensures var data, rd := Wal.DataOf(file), Read(c, Wal.DataOf(file)).value;
      rd.validLen <= |data| && Read(c, data[..rd.validLen]) == Ok(Reading(rd.recs, rd.validLen, false))
  {
    hide Read;
    ReadablePartIsClean(c, Wal.DataOf(file));
  }

  lemma RecoverableReads(c: Codec, file: Option<seq<byte>>, w: World)
    requires Wal.Recoverable(c, file, w.log, None)
    ensures Reads(c, file, w)
  {
    hide Read;
  }

  /** Opens the log that `before` wrote. */
  method OpenLog(codec: Codec, disk: Wal.Disk, fault: Wal.Fault, ghost before: World)
    returns (log: Wal.Log?, recs: seq<Record>, torn: bool, err: Option<Error>)
    requires codec.Faithful() && (Read(codec, Wal.DataOf(disk.log)).Ok? ==> Reads(codec, disk.log, before))
    modifies disk
    ensures match Wal.Opening(codec, old(disk.log), fault)
      case Err(e) =>
        && log == null && err == Some(e)
        && if Read(codec, Wal.DataOf(old(disk.log))).Ok? then Reads(codec, disk.log, before)
           else disk.log == old(disk.log) && disk.crashes == old(disk.crashes)
      case Ok(rd) =>
        && log != null && fresh(log) && log.Valid() && log.codec == codec && log.disk == disk
        && recs == log.records == before.log && torn == rd.torn && err.None? && Reads(codec, disk.log, before)
    ensures |disk.crashes| >= |old(disk.crashes)|
    ensures Read(codec, Wal.DataOf(old(disk.log))).Ok? ==>
      forall i :: |old(disk.crashes)| <= i < |disk.crashes| ==>
        Wal.Recoverable(codec, disk.crashes[i], before.log, None)
  {
    hide Read, Wal.Recoverable;
    if Read(codec, Wal.DataOf(disk.log)).Ok? {
      ReadsStill(codec, disk.log);
    }
    log, recs, torn, err := Wal.Open(codec, disk, fault);
  }

  /**
   Opens the log in a data directory and replays it.  `before` is the machine
   whose records a crash left in the file; a torn last record is discarded.
   */
  method Open(codec: Codec, disk: Wal.Disk, fault: Wal.Fault, clock: Clock, ghost before: World)
    returns (engine: Engine?, torn: bool, err: Option<Error>)
    requires codec.Faithful() && Reachable(before) && clock.time >= before.clock
    requires Read(codec, Wal.DataOf(disk.log)).Ok? ==> Reads(codec, disk.log, before)
    modifies disk
    ensures match Wal.Opening(codec, old(disk.log), fault)
      case Err(e) =>
        && engine == null && err == Some(e)
        && if Read(codec, Wal.DataOf(old(disk.log))).Ok? then Reads(codec, disk.log, before)
           else disk.log == old(disk.log) && disk.crashes == old(disk.crashes)
      case Ok(rd) =>
        && engine != null && err.None? && torn == rd.torn && Reads(codec, disk.log, before)
        && engine.Working({}) && engine.machine.w == before.(live := Replayed(before))
        && engine.machine.log != null && engine.machine.log.disk == disk && engine.machine.clock == clock
        && engine.Safe(|old(disk.crashes)|, engine.machine.w)
        && fresh(engine) && fresh(engine.machine.journal) && fresh(engine.machine.Objects() - {disk, clock})
    ensures |disk.crashes| >= |old(disk.crashes)|
    ensures Read(codec, Wal.DataOf(old(disk.log))).Ok? ==>
      forall i :: |old(disk.crashes)| <= i < |disk.crashes| ==> Reads(codec, disk.crashes[i], before)
  {
    hide Reachable, Read, Replayed, Machine.Valid, Wal.Recoverable, Survives, Reads, Continues;
    var log, recs;
    ghost var readable := Read(codec, Wal.DataOf(disk.log)).Ok?;
    log, recs, torn, err := OpenLog(codec, disk, fault, before);
    engine := null;
    forall i | readable && |old(disk.crashes)| <= i < |disk.crashes| ensures Reads(codec, disk.crashes[i], before)
    {
      RecoverableReads(codec, disk.crashes[i], before);
    }
    if err.None? {
      ghost var w := before.(live := Replayed(before));
      ReachableRestart(before);
      ContinuesSelf(w);
      forall i | |old(disk.crashes)| <= i < |disk.crashes|
        ensures Survives(codec, disk.crashes[i], w, w)
      {
        UnchangedSurvives(codec, disk.crashes[i], before, w);
      }
      engine := new Engine.Reopen(log, clock, recs, before);
    }
  }

  /** A crash leaves the log as it was, or rewritten. */
  ghost predicate Rewritten(c: Codec, file: Option<seq<byte>>, before: World, after: World) {
    Reads(c, file, before) || Reads(c, file, after)
  }

  /** A framed log reads as its records. */
  lemma FrameReads(c: Codec, w: World)
    requires c.Faithful() && AllLoggable(w.log)
    ensures Reads(c, Some(Frame(c, w.log)), w)
  {
    hide Read, Frame, AllLoggable;
    FrameIsClean(c, w.log);
  }

  /**
   Compacts the log of a stopped server: `before` is the machine that wrote it
   and `after` the one that reopening the result gives.  A crash at any moment
   leaves a log that reads as one of the two, and so does an error.
   */
  method Compact(codec: Codec, disk: Wal.Disk, fault: Wal.Fault, clock: Clock, ghost before: World)
    returns (torn: bool, err: Option<Error>, ghost after: World)
    requires codec.Faithful() && Reachable(before) && clock.time >= before.clock
    requires Read(codec, Wal.DataOf(disk.log)).Ok? ==> Reads(codec, disk.log, before)
    modifies disk
    ensures Reachable(after) && Step(before, Event.Compact, after) && after.live == Compacted(Replayed(before))
    ensures match Wal.Opening(codec, old(disk.log), fault)
      case Err(e) =>
        && err == Some(e)
        && if Read(codec, Wal.DataOf(old(disk.log))).Ok? then Reads(codec, disk.log, before)
           else disk.log == old(disk.log) && disk.crashes == old(disk.crashes)
      case Ok(rd) =>
        && torn == rd.torn && (err.None? || err == Some(IoFailed))
        && (err.None? ==> Reads(codec, disk.log, after))
        && Rewritten(codec, disk.log, before, after)
    ensures |disk.crashes| >= |old(disk.crashes)|
    ensures Read(codec, Wal.DataOf(old(disk.log))).Ok? ==>
      forall i :: |old(disk.crashes)| <= i < |disk.crashes| ==> Rewritten(codec, disk.crashes[i], before, after)
  {
    hide Reachable, Read, Replayed, Machine.Valid, Wal.Recoverable, Reads, Step, Compacted, SnapshotOf, AllLoggable,
      Codec.Faithful, Frame;
    after := CompactionLaws.ReachableCompact(before);
    FrameReads(codec, after);
    var log, recs;
    ghost var readable := Read(codec, Wal.DataOf(disk.log)).Ok?;
    log, recs, torn, err := OpenLog(codec, disk, fault, before);
    forall i | readable && |old(disk.crashes)| <= i < |disk.crashes| ensures Reads(codec, disk.crashes[i], before)
    {
      RecoverableReads(codec, disk.crashes[i], before);
    }
    if err.Some? {
      return;
    }
    var engine := new Engine.Reopen(null, clock, recs, before);
    var snap := engine.Snapshot();
    err := log.Compact(snap);
  }
}
