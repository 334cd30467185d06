/**
 An engine over its whole life: one operation after the other, power lost in
 the middle of one, the log opened again, and on.  All of it is one run.
 */
module Lifetimes {
  import opened Wrappers
  import opened Errors
  import opened Framing
  import opened State
  import opened Steps
  import opened Runs
  import opened HistoryLaws
  import opened Machine
  import opened Engine
  import Wal

  // ---- one run -----------------------------------------------------------

  /** Of one run, w' comes later than w, with no compaction in between. */
  ghost predicate Later(w: World, w': World) {
    exists worlds, events, i, j :: Leads(worlds, events, i, j, w, w')
  }

  ghost predicate Leads(worlds: seq<World>, events: seq<Event>, i: nat, j: nat, w: World, w': World) {
    && IsRun(worlds, events) && i <= j < |worlds| && worlds[i] == w && worlds[j] == w'
    && forall k :: i <= k < j ==> events[k] != Compact
  }

  lemma LaterSelf(w: World)
    requires Reachable(w)
    ensures Later(w, w)
  {
    hide Step;
    var worlds, events :| IsRun(worlds, events) && worlds[|events|] == w;
    assert Leads(worlds, events, |events|, |events|, w, w);
  }

  /** What comes later than w, followed by any event but a compaction. */
  lemma LaterStep(w: World, mid: World, e: Event, w': World)
    requires Later(w, mid) && Step(mid, e, w') && e != Compact
    ensures Later(w, w')
  {
    hide Step;
    var worlds, events, i: nat, j: nat :| Leads(worlds, events, i, j, w, mid);
    var before := worlds[..j + 1];
    forall k | 0 <= k < j ensures Step(before[k], events[..j][k], before[k + 1])
    {
      assert Step(worlds[k], events[k], worlds[k + 1]);
    }
    assert IsRun(before, events[..j]);
    RunExtends(before, events[..j], e, w');
    assert Leads(before + [w'], events[..j] + [e], i, j + 1, w, w');
  }

  lemma LaterRestart(w: World, mid: World)
    requires Later(w, mid)
    ensures Later(w, mid.(live := Replayed(mid)))
  {
    hide Later, Replayed;
    LaterStep(w, mid, Restart, mid.(live := Replayed(mid)));
  }

  lemma {:induction false} LaterActs(w: World, mid: World, actions: seq<Action>, w': World)
    requires Later(w, mid) && After(mid, actions) == Some(w')
    ensures Later(w, w')
    decreases |actions|
  {
    hide Later, Enabled, Acts;
    if actions != [] {
      var k := |actions| - 1;
      var last := After(mid, actions[..k]).value;
      LaterActs(w, mid, actions[..k], last);
      LaterStep(w, last, Do(actions[k]), w');
    }
  }

  lemma LaterContinues(w: World, mid: World, w': World)
    requires Later(w, mid) && Continues(mid, w')
    ensures Later(w, w')
  {
    hide Later, After;
    var actions :| After(mid, actions) == Some(w');
    LaterActs(w, mid, actions, w');
  }

  /**
   Operations, a crash, reopening, and more operations: if w went on to u, u is
   what the crash left, and the engine reopened from it went on to w', then all
   of it is one run, and nothing on record when it began is ever taken back.
   */
  lemma CrashedLifeIsRun(w: World, u: World, w': World)
    requires Reachable(w) && Continues(w, u) && Continues(u.(live := Replayed(u)), w')
    ensures Later(w, u) && Later(w, u.(live := Replayed(u))) && Later(w, w')
    ensures Reachable(w') && w.log <= u.log <= w'.log && w.clock <= u.clock <= w'.clock
  {
    hide Later, Reachable, Continues, Replayed;
    LaterSelf(w);
    LaterContinues(w, w, u);
    LaterRestart(w, u);
    LaterContinues(w, u.(live := Replayed(u)), w');
    ContinuesReachable(w, u);
    ReachableRestart(u);
    ContinuesReachable(u.(live := Replayed(u)), w');
    ContinuesGrows(w, u);
    ContinuesGrows(u.(live := Replayed(u)), w');
  }

  // ---- what no later life undoes -----------------------------------------

  /** What has become of a message that is gone is settled for good. */
  lemma GoneForGood(w: World, w': World, id: string)
    requires Later(w, w') && id in w.hist.outcomes && !w.hist.outcomes[id].In?
    ensures id in w'.hist.outcomes && w'.hist.outcomes[id] == w.hist.outcomes[id]
    ensures forall n :: !Has(w'.live, n, id)
  {
    hide IsRun, Inv, OutcomesSound, DeliveriesSound, LeasesKnown, OneHome, Filed, Sound;
    var worlds, events, i, j :| Leads(worlds, events, i, j, w, w');
    OutcomesAreFinal(worlds, events, i, j, id);
    RunInv(worlds, events, j) by { LeadsLength(worlds, events, i, j, w, w'); }
    InvHistory(w');
    NotIn(w'.hist.outcomes, w'.live, Replayed(w').counter, id);
  }

  lemma LeadsLength(worlds: seq<World>, events: seq<Event>, i: nat, j: nat, w: World, w': World)
    requires Leads(worlds, events, i, j, w, w')
    ensures j < |worlds| == |events| + 1
  {
  }

  lemma NotIn(o: map<string, Outcome>, s: State, limit: nat, id: string)
    requires OutcomesSound(o, s, limit) && id in o && !o[id].In?
    ensures forall n :: !Has(s, n, id)
  {
    forall n ensures !Has(s, n, id) { }
  }

  /** An acknowledgement that succeeded stands: its message is never delivered or acknowledged again. */
  lemma AckedForGood(mid: World, n: string, id: string, ts: int, w: World, w': World)
    requires Did(mid, Settle(n, id, ts), w) && Later(w, w')
    ensures forall n' :: !Has(w'.live, n', id)
    ensures id in w'.hist.outcomes && w'.hist.outcomes[id] == Acked
  {
    hide Later, Enabled;
    SettleEnds(mid, n, id, ts);
    GoneForGood(w, w', id);
  }

  /** Deliveries stay on record, so a receipt is never handed out twice, in this life or a later one. */
  lemma {:induction false} DeliveriesGrow(worlds: seq<World>, events: seq<Event>, i: nat, j: nat)
    requires IsRun(worlds, events) && i <= j < |worlds| && forall k :: i <= k < j ==> events[k] != Compact
    ensures worlds[i].hist.deliveries <= worlds[j].hist.deliveries
    ensures worlds[i].hist.inherited == worlds[j].hist.inherited
    decreases j
  {
    hide Enabled, Effect, Logged, Outcomes, Replayed, StartsFrom;
    if i < j {
      DeliveriesGrow(worlds, events, i, j - 1);
      assert Step(worlds[j - 1], events[j - 1], worlds[j]);
    }
  }

  lemma DeliveriesDistinct(w: World, w': World, a: nat, b: nat)
    requires Later(w, w') && a < |w.hist.deliveries| && |w.hist.deliveries| <= b < |w'.hist.deliveries|
    ensures w.hist.deliveries[a].receipt != w'.hist.deliveries[b].receipt
  {
    hide IsRun;
    var worlds, events, i, j :| Leads(worlds, events, i, j, w, w');
    DeliveriesGrow(worlds, events, i, j) by { LeadsLength(worlds, events, i, j, w, w'); }
    ReceiptsDistinct(worlds, events, j, a, b);
  }

  // ---- crash and reopen --------------------------------------------------

  /** The world whose log a crash has left, somewhere between base and the present. */
  lemma CrashLeaves(engine: Engine, since: nat, base: World, i: nat) returns (u: World)
    requires engine.Safe(since, base) && engine.machine.log != null
    requires since <= i < |engine.machine.log.disk.crashes|
    ensures Between(base, u, engine.machine.w) && u.clock <= engine.machine.w.clock && base.log <= u.log
    ensures Reads(engine.machine.log.codec, engine.machine.log.disk.crashes[i], u)
  {
    hide Reachable, Continues, Read;
    var log := engine.machine.log;
    assert Survives(log.codec, log.disk.crashes[i], base, engine.machine.w);
    u :| Between(base, u, engine.machine.w) && Read(log.codec, log.disk.crashes[i].value).value.recs == u.log;
    ContinuesGrows(base, u);
    ContinuesGrows(u, engine.machine.w);
  }

  /**
   Power is lost at any byte of an operation that began in world base, leaving
   `file`, and the log is opened again: unless opening fails, in which case it
   can be tried once more, the new engine is in the state that the records of a
   world u between base and the last one replay to.
   */
  method Reopened(engine: Engine, ghost since: nat, ghost base: World, ghost i: nat, file: Option<seq<byte>>,
                  fault: Wal.Fault, clock: Clock)
    returns (disk: Wal.Disk, again: Engine?, err: Option<Error>, ghost u: World)
    requires engine.Working({}) && engine.machine.log != null && engine.Safe(since, base)
    requires since <= i < |engine.machine.log.disk.crashes| && file == engine.machine.log.disk.crashes[i]
    requires clock.time >= engine.machine.clock.time
    ensures Between(base, u, engine.machine.w) && base.log <= u.log
    ensures fresh(disk) && Reads(engine.machine.log.codec, disk.log, u)
    ensures err.None? ==>
      again != null && again.Working({}) && again.machine.w == u.(live := Replayed(u))
      && again.machine.log != null && again.machine.log.disk == disk
      && fresh(again) && fresh(again.machine.journal) && fresh(again.machine.Objects() - {clock})
    ensures fault == Wal.NoFault ==> err.None?
  {
    hide Reachable, Continues, Read, Replayed, Reads, Engine.Heeds, Engine.Safe, Survives, Store.Store.Holds;
    u := CrashLeaves(engine, since, base, i);
    Opens(engine.machine.log.codec, file, u, fault);
    disk := new Wal.Disk(file);
    var torn;
    again, torn, err := Open(engine.machine.log.codec, disk, fault, clock, u);
  }

  lemma Opens(c: Codec, file: Option<seq<byte>>, u: World, fault: Wal.Fault)
    requires Reads(c, file, u)
    ensures Read(c, Wal.DataOf(file)).Ok? && (fault == Wal.NoFault ==> Wal.Opening(c, file, fault).Ok?)
  {
    hide Read;
  }
}
