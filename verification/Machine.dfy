/**
 Queues in memory and the log beneath them, moving by one action at a time:
 every transition is committed to the log before it takes effect, and undone
 if it cannot be.  `w` is the state of the state machine they implement.
 */
module Machine {
  import opened Wrappers
  import opened Errors
  import opened Config
  import opened Ids
  import opened Record
  import opened Framing
  import opened State
  import opened Replay
  import opened Steps
  import opened ReplaySteps
  import opened Sweeping
  import opened QueueSweep
  import opened Runs
  import opened OrderlyLogs
  import opened Waiting
  import opened Messages
  import Loading
  import Store
  import Wal

  /** The injected clock: readings never decrease. */
  class Clock {
    var time: int

    constructor (time: int)
      ensures this.time == time
    {
      this.time := time;
    }

    method Read() returns (t: int)
      modifies this
      ensures t == time >= old(time)
    {
      t :| t >= time;
      time := t;
    }
  }

  function LogObjects(log: Wal.Log?): set<object> {
    if log == null then {} else {log, log.disk}
  }

  /** How many contents a crash could have left so far. */
  ghost function CrashesOf(log: Wal.Log?): nat
    reads LogObjects(log)
  {
    if log == null then 0 else |log.disk.crashes|
  }

  /** What the state machine makes of an action. */
  lemma Acted(w: World, a: Action)
    requires Reachable(w) && Enabled(w.live, a, w.clock)
    ensures Reachable(Acts(w, a))
    ensures Acts(w, a).live == Effect(w.live, a, w.clock) && Acts(w, a).clock == ClockAfter(a, w.clock)
    ensures match Logged(w.live, a, w.clock)
      case None => Acts(w, a).log == w.log
      case Some(r) => Acts(w, a).log == w.log + [r] && Loggable(r)
  {
    hide Enabled, Effect, Logged, Reachable, Outcomes, Deliveries, Sound, Loggable;
    ReachableActs(w, a);
    ReachableSound(w);
    LoggedIsLoggable(w.live, a, w.clock);
  }

  /** The action is possible and leads from w to w'. */
  ghost predicate Did(w: World, a: Action, w': World) {
    Enabled(w.live, a, w.clock) && w' == Acts(w, a)
  }

  /** next is the world in which the log has taken r. */
  ghost predicate Committable(w: World, r: Record, next: World) {
    Loggable(r) && Continues(w, next) && Reachable(next) && next.log == w.log + [r]
  }

  /** w' is w after an action that logs r and leads to the state live. */
  ghost predicate Becomes(w: World, w': World, live: State, logged: Option<Record>) {
    && Reachable(w') && Continues(w, w') && w'.live == live && w'.clock == w.clock
    && match logged
       case None => w'.log == w.log
       case Some(r) => Committable(w, r, w')
  }

  lemma ActBecomes(w: World, a: Action)
    requires Reachable(w) && Enabled(w.live, a, w.clock) && !a.Tick?
    ensures OneHome(w.live)
    ensures Becomes(w, Acts(w, a), Effect(w.live, a, w.clock), Logged(w.live, a, w.clock))
  {
    hide Reachable, Enabled, Effect, Logged, OneHome, Loggable, Continues;
    ReachableSound(w);
    Acted(w, a);
    ContinuesOne(w, a);
  }

  lemma ConfigureIs(w: World, n: string, cfg: Config, ts: int)
    requires Reachable(w) && SoundConfig(n, cfg) && ts >= w.clock
    ensures Becomes(w, Acts(w, Configure(n, cfg, ts)), SetConfig(w.live, n, cfg),
                    Some(Record(QueueCreate, n, ts := ts, config := Marshal(cfg))))
  {
    hide Reachable, Acts, Becomes, ValidName;
    ActBecomes(w, Configure(n, cfg, ts));
  }

  lemma DeleteIs(w: World, n: string, ts: int)
    requires Reachable(w) && n in w.live.queues && ts >= w.clock
    ensures Becomes(w, Acts(w, Delete(n, ts)), Drop(w.live, n), Some(Record(QueueDelete, n, ts := ts)))
  {
    hide Reachable, Acts, Becomes;
    ActBecomes(w, Delete(n, ts));
  }

  lemma PostIs(w: World, n: string, body: seq<byte>, delay: int)
    requires Reachable(w) && n in w.live.queues && 0 <= delay <= MAX_DELAY
    ensures var m := NewMsg(w.live, body, delay, w.clock);
      && Becomes(w, Acts(w, Post(n, body, delay)), Put(w.live, n, m).(counter := w.live.counter + 1),
                 Some(Record(Send, n, id := m.id, ts := w.clock, nbf := m.notBefore).SetBody(body)))
      && forall n' :: !Has(w.live, n', m.id)
  {
    hide Reachable, Acts, Becomes, FormatId, Sound;
    ActBecomes(w, Post(n, body, delay));
    ReachableSound(w);
    var id := FormatId(w.live.counter + 1);
    forall n' ensures !Has(w.live, n', id) { NextIdIsFresh(w.live, n'); }
  }

  lemma GrantIs(w: World, n: string, id: string, visibility: int)
    requires Reachable(w) && Has(w.live, n, id) && IsFirst(w.live, n, id) && 0 < visibility <= MAX_VISIBILITY
    ensures OneHome(w.live)
    ensures var m := LeasedMsg(w.live, At(w.live, n, id), visibility, w.clock);
      && Becomes(w, Acts(w, Grant(n, id, visibility)), Put(w.live, n, m).(counter := w.live.counter + 1),
                 Some(Record(Receive, n, id := m.id, ts := w.clock, receipt := m.receipt, deadline := m.deadline,
                             count := m.receives)))
      && At(w.live, n, id) == At(w.live, n, id).MakeReady() && m.id == id
  {
    hide Reachable, Acts, Becomes, FormatReceipt, FormatId, IsFirst, OneHome, ParseHex;
    ActBecomes(w, Grant(n, id, visibility));
    ReachableSound(w);
    FiledSound(w.live, n, id);
    FirstReady(w.live, n, id);
  }

  lemma FirstReady(s: State, n: string, id: string)
    requires Has(s, n, id) && IsFirst(s, n, id)
    ensures At(s, n, id).phase == Ready
  {
  }

  lemma BurnIs(w: World)
    requires Reachable(w)
    ensures Becomes(w, Acts(w, Burn), w.live.(counter := w.live.counter + 1), None)
  {
    hide Reachable, Acts, Becomes;
    ActBecomes(w, Burn);
  }

  lemma SettleIs(w: World, n: string, id: string, ts: int)
    requires Reachable(w) && Enabled(w.live, Settle(n, id, ts), w.clock)
    ensures OneHome(w.live) && IsLeased(w.live, n, id)
    ensures Becomes(w, Acts(w, Settle(n, id, ts)), Take(w.live, n, id),
                    Some(Record(Ack, n, id := id, receipt := At(w.live, n, id).receipt, ts := ts)))
  {
    hide Reachable, Acts, Becomes, OneHome;
    ActBecomes(w, Settle(n, id, ts));
  }

  lemma ReturnIs(w: World, n: string, id: string, ts: int)
    requires Reachable(w) && Enabled(w.live, Return(n, id, ts), w.clock)
    ensures OneHome(w.live) && IsLeased(w.live, n, id)
    ensures Becomes(w, Acts(w, Return(n, id, ts)), Put(w.live, n, At(w.live, n, id).MakeReady()),
                    Some(Record(Nack, n, id := id, receipt := At(w.live, n, id).receipt, ts := ts)))
  {
    hide Reachable, Acts, Becomes, OneHome;
    ActBecomes(w, Return(n, id, ts));
  }

  lemma ProlongIs(w: World, n: string, id: string, deadline: int, ts: int)
    requires Reachable(w) && Enabled(w.live, Prolong(n, id, deadline, ts), w.clock)
    ensures OneHome(w.live) && IsLeased(w.live, n, id)
    ensures Becomes(w, Acts(w, Prolong(n, id, deadline, ts)), Put(w.live, n, At(w.live, n, id).(deadline := deadline)),
                    Some(Record(Extend, n, id := id, receipt := At(w.live, n, id).receipt, deadline := deadline,
                                ts := ts)))
  {
    hide Reachable, Acts, Becomes, OneHome;
    ActBecomes(w, Prolong(n, id, deadline, ts));
  }

  lemma BuryIs(w: World, n: string, id: string, ts: int)
    requires Reachable(w) && Enabled(w.live, Bury(n, id, ts), w.clock)
    ensures OneHome(w.live) && IsLeased(w.live, n, id) && TargetOf(w.live, n) != n
    ensures TargetOf(w.live, n) == "" || TargetOf(w.live, n) in w.live.queues
    ensures var to := TargetOf(w.live, n);
      Becomes(w, Acts(w, Bury(n, id, ts)),
              if to == "" then Take(w.live, n, id) else Arrive(Take(w.live, n, id), to, At(w.live, n, id)),
              Some(Record(Dead, n, id := id, to := to, ts := ts)))
  {
    hide Reachable, Acts, Becomes, OneHome, Sound;
    ActBecomes(w, Bury(n, id, ts));
    ReachableSound(w);
    QueueNamed(w.live, n);
  }

  lemma ShiftIs(w: World, n: string, id: string, to: string, ts: int)
    requires Reachable(w) && Enabled(w.live, Shift(n, id, to, ts), w.clock)
    ensures OneHome(w.live) && Has(w.live, n, id) && to in w.live.queues
    ensures At(w.live, n, id) == At(w.live, n, id).MakeReady()
    ensures Becomes(w, Acts(w, Shift(n, id, to, ts)),
                    Arrive(Take(w.live, n, id), to, At(w.live, n, id).(receives := 0)),
                    Some(Record(Move, n, id := id, to := to, ts := ts)))
  {
    hide Reachable, Acts, Becomes, OneHome, Sound, IsFirst, FormatId, FormatReceipt, ParseHex;
    ActBecomes(w, Shift(n, id, to, ts));
    ReachableSound(w);
    FiledSound(w.live, n, id);
    FirstReady(w.live, n, id);
  }

  lemma WakeIs(w: World, n: string, id: string)
    requires Reachable(w) && Enabled(w.live, Wake(n, id), w.clock)
    ensures OneHome(w.live) && Has(w.live, n, id) && At(w.live, n, id).phase != Ready
    ensures Becomes(w, Acts(w, Wake(n, id)), Put(w.live, n, At(w.live, n, id).MakeReady()), None)
  {
    hide Reachable, Acts, Becomes, OneHome;
    ActBecomes(w, Wake(n, id));
  }

  lemma ReachableSound(w: World)
    requires Reachable(w)
    ensures Sound(w.live) && OneHome(w.live) && w.clock >= 0
  {
    hide Reachable, SoundMsg, Related, Past, HistorySound, LeasesKnown, Load, AllLoggable, OneHome;
    ReachableInv(w);
  }

  /** A leased message as it is handed to a consumer. */
  datatype Delivered = Delivered(id: string, receipt: string, body: seq<byte>, receives: int, sentAt: int)

  /** d is message d.id of queue n, delivered once more and under a new receipt. */
  ghost predicate Handed(w: World, n: string, d: Delivered) {
    && Has(w.live, n, d.id)
    && d.body == At(w.live, n, d.id).body && d.sentAt == At(w.live, n, d.id).sentAt
    && d.receives == At(w.live, n, d.id).receives + 1
    && d.receipt == FormatReceipt(w.live.counter + 1)
  }

  /** id is the next ID of w. */
  ghost predicate Issued(w: World, id: string) {
    id == FormatId(w.live.counter + 1)
  }

  /** m is the first ready message of queue n, already leased. */
  ghost predicate LeasedFirst(w: World, n: string, m: Msg, visibility: int) {
    && Has(w.live, n, m.id) && IsFirst(w.live, n, m.id) && 0 < visibility <= MAX_VISIBILITY
    && m == LeasedMsg(w.live, At(w.live, n, m.id), visibility, w.clock)
  }

  /** m is what a send files, but for the phase. */
  ghost predicate Posts(w: World, n: string, m: Msg, body: seq<byte>, delay: int) {
    n in w.live.queues && 0 <= delay <= MAX_DELAY && m == NewMsg(w.live, body, delay, w.clock).(phase := Ready)
  }

  function ReceiveRecord(n: string, m: Msg, now: int): Record {
    Record(Receive, n, id := m.id, ts := now, receipt := m.receipt, deadline := m.deadline, count := m.receives)
  }

  function PostRecord(n: string, m: Msg, now: int): Record {
    Record(Send, n, id := m.id, ts := now, nbf := m.notBefore).SetBody(m.body)
  }

  /** The live state with a lease not logged yet. */
  function Leasing(s: State, n: string, m: Msg): State
    requires n in s.queues
  {
    Put(s, n, m).(counter := s.counter + 1)
  }

  lemma Reloads(w: World)
    requires Reachable(w)
    ensures Load(EMPTY, w.log) == Ok(Replayed(w)) && Reachable(w.(live := Replayed(w)))
  {
    hide Reachable, Inv, Sound, Related, Load, Replayed;
    ReachableInv(w);
    InvParts(w);
    ReachableRestart(w);
  }

  /** u is a world the run went through on the way from base to v. */
  ghost predicate Between(base: World, u: World, v: World) {
    Reachable(u) && Continues(base, u) && Continues(u, v)
  }

  /** A log file that reads as the log was in some world between base and v. */
  ghost predicate Survives(c: Codec, file: Option<seq<byte>>, base: World, v: World) {
    && file.Some? && Read(c, file.value).Ok?
    && exists u :: Between(base, u, v) && Read(c, file.value).value.recs == u.log
  }

  /** What an append leaves behind, whole or not, is the log before it or after it. */
  lemma RecoverableSurvives(c: Codec, file: Option<seq<byte>>, base: World, w: World, r: Record, next: World)
    requires Wal.Recoverable(c, file, w.log, Some(r)) && Continues(base, w)
    requires Reachable(w) && Committable(w, r, next)
    ensures Survives(c, file, base, next)
  {
    hide Reachable, Loggable, Read, Continues;
    ContinuesJoin(base, w, next);
    ContinuesSelf(next);
    assert Between(base, w, next) && Between(base, next, next);
  }

  /** What opening the log of `before` leaves behind is that log. */
  lemma UnchangedSurvives(c: Codec, file: Option<seq<byte>>, before: World, w: World)
    requires Wal.Recoverable(c, file, before.log, None) && Reachable(w) && w.log == before.log
    ensures Survives(c, file, w, w)
  {
    hide Reachable, Read, Continues;
    ContinuesSelf(w);
    assert Between(w, w, w);
  }

  lemma SurvivesMore(c: Codec, file: Option<seq<byte>>, base: World, v: World, v': World)
    requires Survives(c, file, base, v) && Continues(v, v')
    ensures Survives(c, file, base, v')
  {
    hide Reachable, Read, Continues;
    var u :| Between(base, u, v) && Read(c, file.value).value.recs == u.log;
    ContinuesJoin(u, v, v');
    assert Between(base, u, v');
  }

  /** A moment in the life of a machine: its world then, and how much of the disk's past lies before. */
  class Journal {
    ghost var mark: nat
    ghost var base: World

    ghost constructor (mark: nat, base: World)
      ensures this.mark == mark && this.base == base
    {
      this.mark, this.base := mark, base;
    }
  }

  /** The queues that replaying the log of an earlier machine gives. */
  method Rebuild(recs: seq<Record>, ghost before: World) returns (store: Store.Store)
    requires Reachable(before) && recs == before.log
    ensures store.Holds(Replayed(before)) && fresh(store) && fresh(store.repr) && store in store.repr
  {
    hide Reachable, Store.Store.Holds, OrderlyLog, Replayed;
    store := new Store.Store();
    LogsAreOrderly(before);
    Reloads(before);
    var _ := Loading.Load(store, recs);
    store.ReadsNames(Replayed(before));
  }

  class Machine {
    const log: Wal.Log?
    const clock: Clock
    const store: Store.Store
    ghost const journal: Journal
    ghost var w: World

    /** An engine with no queues on an empty log, or on none. */
    constructor (log: Wal.Log?, clock: Clock)
      requires log != null ==> log.Valid() && log.records == []
      requires clock.time >= 0
      ensures Valid() && w == START && this.log == log && this.clock == clock
      ensures fresh(store) && fresh(store.repr)
      ensures fresh(journal) && journal.mark == CrashesOf(log) && journal.base == START
    {
      hide Reachable, Continues;
      this.log, this.clock, w := log, clock, START;
      store := new Store.Store();
      journal := new Journal(CrashesOf(log), START);
      new;
      StartReachable();
      ContinuesSelf(w);
    }

    /** The machine that replaying the log of an earlier one gives. */
    constructor Reopen(log: Wal.Log?, clock: Clock, recs: seq<Record>, ghost before: World)
      requires Reachable(before) && recs == before.log && clock.time >= before.clock
      requires log != null ==> log.Valid() && log.records == recs
      ensures Valid() && w == before.(live := Replayed(before)) && this.log == log && this.clock == clock
      ensures fresh(store) && fresh(store.repr)
      ensures fresh(journal) && journal.mark == CrashesOf(log) && journal.base == w
    {
      hide Reachable, Store.Store.Holds, Replayed, Continues;
      this.log, this.clock, w := log, clock, before.(live := Replayed(before));
      var rebuilt := Rebuild(recs, before);
      store := rebuilt;
      journal := new Journal(CrashesOf(log), before.(live := Replayed(before)));
      new;
      Reloads(before);
      ContinuesSelf(w);
    }

    /** The fields hold what the state machine says, and so does the log. */
    ghost predicate Valid()
      reads this, clock, journal, LogObjects(log), store, store.repr, store.wakes.Values, store.gone
    {
      ValidAt(w.live, w)
    }

    /** As Valid, when the fields hold s and the log is that of v. */
    ghost predicate ValidAt(s: State, v: World)
      reads this, clock, journal, LogObjects(log), store, store.repr, store.wakes.Values, store.gone
    {
      store.Holds(s) && Around(v)
    }

    /** As ValidAt, with message m of queue q out of its heap. */
    ghost predicate ValidOut(s: State, v: World, q: QueueState, m: Message)
      reads this, clock, journal, LogObjects(log), store, store.repr, store.wakes.Values, store.gone
    {
      store.HoldsBut(s, q, m) && Around(v)
    }

    ghost predicate Around(v: World)
      reads this, clock, journal, LogObjects(log), store
    {
      Reachable(w) && w.clock <= clock.time && Logs(v) && Apart()
    }

    /** The log is that of v, and the run has come to v from where the journal was marked. */
    ghost predicate Logs(v: World)
      reads journal, LogObjects(log)
    {
      && Continues(journal.base, v)
      && (log != null ==> log.Valid() && log.records == v.log && Survived(journal.mark, journal.base, v))
    }

    /** Whatever a crash could have left since then reads as the log was somewhere between base and v. */
    ghost predicate Survived(since: nat, base: World, v: World)
      reads LogObjects(log)
    {
      log != null ==>
        && since <= |log.disk.crashes|
        && forall i :: since <= i < |log.disk.crashes| ==> Survives(log.codec, log.disk.crashes[i], base, v)
    }

    /** An action that logs nothing. */
    lemma LogsOn(v: World, v': World)
      requires Logs(v) && Continues(v, v') && v'.log == v.log
      ensures Logs(v')
    {
      hide Survives, Wal.Log.Valid, Continues;
      ContinuesJoin(journal.base, v, v');
      if log != null {
        forall i | journal.mark <= i < |log.disk.crashes|
          ensures Survives(log.codec, log.disk.crashes[i], journal.base, v')
        {
          SurvivesMore(log.codec, log.disk.crashes[i], journal.base, v, v');
        }
      }
    }

    /** How often a record could not be appended. */
    ghost function Failures(): nat
      reads LogObjects(log)
    {
      if log == null then 0 else log.failures
    }

    ghost predicate Apart()
      reads store
    {
      && store in store.repr && this !in store.repr && clock !in store.repr && journal !in store.repr
      && LogObjects(log) !! store.repr
    }

    /** From now on, what a crash may leave is measured against the present world. */
    ghost method Mark()
      requires Valid()
      modifies journal
      ensures Valid() && journal.mark == CrashesOf(log) && journal.base == w && journal !in store.repr
    {
      hide Reachable, Store.Store.Holds, Continues;
      ContinuesSelf(w);
      journal.mark, journal.base := CrashesOf(log), w;
    }

    /** Crash safety, at any point since the journal was marked. */
    lemma CrashSafe()
      requires Valid()
      ensures Continues(journal.base, w) && Survived(journal.mark, journal.base, w)
    {
      hide Reachable, Store.Store.Holds, Survives, Continues;
    }

    /** The record is in the log if there is one, or the environment has refused it. */
    method Append(r: Record, ghost next: World) returns (err: Option<Error>)
      requires Around(w) && Committable(w, r, next)
      modifies LogObjects(log)
      ensures Failures() == old(Failures()) + (if err.Some? then 1 else 0)
      ensures err.None? || err == Some(AppendFailed)
      ensures Around(if err.None? then next else w)
    {
      hide Reachable, Loggable, Continues, Survives, Wal.Recoverable;
      ghost var base, since := journal.base, journal.mark;
      ContinuesJoin(base, w, next);
      if log == null {
        return None;
      }
      Printed(r);
      ghost var before := log.disk.crashes;
      err := log.Append(r);
      if err.None? {
        forall i | since <= i < |log.disk.crashes|
          ensures Survives(log.codec, log.disk.crashes[i], base, next)
        {
          if i < |before| {
            assert log.disk.crashes[i] == before[i];
            SurvivesMore(log.codec, before[i], base, w, next);
          } else {
            RecoverableSurvives(log.codec, log.disk.crashes[i], base, w, r, next);
          }
        }
      }
    }

    lemma Printed(r: Record)
      requires Loggable(r)
      ensures Printable(r) && r.Validate()
    {
    }

    /** Append while the queues hold s. */
    method Commit(r: Record, ghost s: State, ghost next: World) returns (err: Option<Error>)
      requires ValidAt(s, w) && Committable(w, r, next)
      modifies LogObjects(log)
      ensures Failures() == old(Failures()) + (if err.Some? then 1 else 0)
      ensures err.None? || err == Some(AppendFailed)
      ensures ValidAt(s, if err.None? then next else w)
    {
      hide Reachable, Store.Store.Holds, Committable, Logs;
      err := Append(r, next);
    }

    /** Append while message m of q is out of its heap. */
    method CommitOut(r: Record, ghost s: State, q: QueueState, m: Message, ghost next: World)
      returns (err: Option<Error>)
      requires ValidOut(s, w, q, m) && Committable(w, r, next)
      modifies LogObjects(log)
      ensures Failures() == old(Failures()) + (if err.Some? then 1 else 0)
      ensures err.None? || err == Some(AppendFailed)
      ensures ValidOut(s, if err.None? then next else w, q, m)
    {
      hide Reachable, Store.Store.HoldsBut, Committable, Logs;
      err := Append(r, next);
    }

    lemma IsReachable()
      requires Valid()
      ensures Reachable(w)
    {
      hide Reachable, Store.Store.Holds, Logs;
    }

    /** Reads the clock to stamp a record. */
    method Stamp() returns (t: int)
      requires Valid()
      modifies clock
      ensures Valid() && t == clock.time >= old(clock.time) && t >= w.clock
    {
      hide Reachable, Store.Store.Holds, Logs;
      t := clock.Read();
    }

    /** Reads the clock at the start of an operation. */
    method Now() returns (t: int)
      requires Valid()
      modifies this`w, clock
      ensures Valid() && Did(old(w), Tick(t), w) && w.clock == t >= old(clock.time)
    {
      hide Reachable, Store.Store.Holds;
      t := clock.Read();
      Acted(w, Tick(t));
      ContinuesOne(w, Tick(t));
      LogsOn(w, Acts(w, Tick(t)));
      w := Acts(w, Tick(t));
    }

    /** Everything an action may change. */
    ghost function Objects(): set<object>
      reads this, store
    {
      {this, clock, store} + LogObjects(log) + store.repr
    }

    lemma Names()
      requires Valid()
      ensures store.wakes.Keys == store.queues.Keys == w.live.queues.Keys
      ensures forall n :: n in store.queues ==>
        store.queues[n].name == n && store.queues[n] in store.repr
        && store.queues[n].wake == store.wakes[n] && store.queues[n].wake in store.repr
      ensures clock !in store.repr && LogObjects(log) !! store.repr
    {
      hide Reachable, Logs, Store.Store.Holds;
      store.ReadsNames(w.live);
    }

    /** What the fields of a pending message are. */
    lemma Pending(q: QueueState, id: string)
      requires Valid() && store.Registered(q) && id in q.pending
      ensures store.Owns(q, q.pending[id]) && q.pending[id].id == id
      ensures Has(w.live, q.name, id) && At(w.live, q.name, id) == q.pending[id].Value()
      ensures q.cfg == w.live.queues[q.name].cfg
    {
      hide Reachable, Logs, Store.Store.Holds;
      store.Reads(w.live, q);
    }

    /** What the fields of a message are. */
    lemma Filed(q: QueueState, id: string)
      requires Valid() && store.Registered(q)
      ensures q.name in w.live.queues && q.cfg == w.live.queues[q.name].cfg
      ensures id in q.byID <==> Has(w.live, q.name, id)
      ensures id in q.byID ==>
        store.Owns(q, q.byID[id]) && q.byID[id].id == id && q.byID[id].Value() == At(w.live, q.name, id)
    {
      hide Reachable, Logs, Store.Store.Holds;
      store.Reads(w.live, q);
    }

    lemma Limits(q: QueueState)
      requires Valid() && store.Registered(q)
      ensures q.name in w.live.queues && q.cfg == w.live.queues[q.name].cfg && 0 < q.cfg.visibility <= MAX_VISIBILITY
    {
      hide Reachable, Logs, Sound, Store.Store.Holds, ValidName;
      store.ReadsQueue(w.live, q);
      ReachableSound(w);
      QueueNamed(w.live, q.name);
    }

    lemma Empty(q: QueueState)
      requires Valid() && store.Registered(q)
      ensures q.ready == [] <==> !HasReady(w.live, q.name)
    {
      hide Reachable, Logs, Store.Store.Holds;
      store.ReadsReady(w.live, q);
    }

    /** No other queue has the channel of q. */
    lemma OwnWake(q: QueueState)
      requires Valid() && store.Registered(q)
      ensures forall n :: n in store.wakes && store.wakes[n] == q.wake ==> n == q.name
    {
      hide Reachable, Logs, Store.Store.Holds;
      store.ReadsWake(w.live, q);
    }

    lemma Closed(c: Chan)
      requires Valid()
      ensures c in store.gone ==> c.closed
    {
      hide Reachable, Logs;
    }

    /** A reading of the clock taken earlier becomes the time of the state machine. */
    ghost method Notice(now: int)
      requires Valid() && now <= clock.time
      modifies this`w
      ensures Valid() && w.live == old(w).live && now <= w.clock && Continues(old(w), w)
    {
      hide Reachable, Store.Store.Holds, Logs, Acts, Continues;
      ContinuesSelf(w);
      if now > w.clock {
        Acted(w, Tick(now));
        ContinuesOne(w, Tick(now));
        LogsOn(w, Acts(w, Tick(now)));
        w := Acts(w, Tick(now));
      }
    }

    lemma PendingIds(q: QueueState)
      requires Valid() && store.Registered(q)
      ensures q.name in w.live.queues && q.pending.Keys == PendingOf(w.live, q.name)
      ensures forall id :: Has(w.live, q.name, id) && At(w.live, q.name, id).phase != Ready ==> id in q.pending
    {
      hide Reachable, Logs, Store.Store.Holds;
      store.Reads(w.live, q);
      forall id | Has(w.live, q.name, id) ensures id in q.byID { }
    }

    // -- one action each

    /** No queue and no channel has come or gone. */
    twostate predicate Steady()
      reads store
    {
      && store.wakes == old(store.wakes) && store.gone == old(store.gone)
      && store.queues == old(store.queues)
    }

    /** A delay or lease is over: the message is ready again. */
    method DoWake(q: QueueState, m: Message)
      requires Valid() && store.Owns(q, m) && Enabled(w.live, Wake(q.name, m.id), w.clock)
      modifies this`w, store, store.repr
      ensures Failures() == old(Failures())
      ensures Valid() && Did(old(w), Wake(q.name, m.id), w)
      ensures Steady() && store.repr == old(store.repr)
    {
      hide Reachable, Store.Store.Holds, Acts, Enabled, OneHome, Logs;
      WakeIs(w, q.name, m.id);
      store.ReadsQueue(w.live, q);
      store.ReadsMsg(w.live, q, m);
      store.Release(w.live, q, m);
      LogsOn(w, Acts(w, Wake(q.name, m.id)));
      w := Acts(w, Wake(q.name, m.id));
    }

    /** q gets a new channel and its old one is closed. */
    method Broadcast(q: QueueState)
      requires Valid() && store.Registered(q)
      modifies store, q, q.wake
      ensures w == old(w) && Valid() && store.Registered(q) && fresh(q.wake)
      ensures q.name in old(store.wakes)
      ensures store.wakes == old(store.wakes)[q.name := q.wake]
      ensures store.gone == old(store.gone) + {old(store.wakes[q.name])}
      ensures store.queues == old(store.queues) && store.repr == old(store.repr) + {q.wake}
    {
      hide Reachable, Store.Store.Holds, Logs;
      store.ReadsQueue(w.live, q);
      store.ReadsWake(w.live, q);
      store.Broadcast(w.live, q);
    }

    // -- ack

    method DoSettle(q: QueueState, m: Message) returns (err: Option<Error>, ghost ts: int)
      requires Valid() && store.Owns(q, m) && Steps.Holds(w.live, q.name, m.id, w.clock)
      modifies this`w, clock, LogObjects(log), store, store.repr
      ensures Failures() == old(Failures()) + (if err.Some? then 1 else 0)
      ensures Valid() && Steady() && store.repr == old(store.repr)
      ensures if err.None? then Did(old(w), Settle(q.name, m.id, ts), w) else w == old(w) && err == Some(AppendFailed)
    {
      hide ValidAt, Reachable, Acts, OneHome, Committable, Store.Store.Holds;
      var now := Stamp();
      ts := now;
      Settling(q, m, ts);
      err := Commit(Record(Ack, q.name, id := m.id, receipt := m.receipt, ts := now), w.live,
                    Acts(w, Settle(q.name, m.id, ts)));
      if err.None? {
        Settled(q, m, ts);
      }
    }

    lemma Settling(q: QueueState, m: Message, ts: int)
      requires Valid() && store.Owns(q, m) && Steps.Holds(w.live, q.name, m.id, w.clock) && ts >= w.clock
      ensures Enabled(w.live, Settle(q.name, m.id, ts), w.clock)
      ensures Committable(w, Record(Ack, q.name, id := m.id, receipt := m.receipt, ts := ts),
                          Acts(w, Settle(q.name, m.id, ts)))
    {
      hide Reachable, Acts, OneHome, Committable, Store.Store.Holds;
      store.ReadsMsg(w.live, q, m);
      SettleIs(w, q.name, m.id, ts);
    }

    method Settled(q: QueueState, m: Message, ghost ts: int)
      requires store.Owns(q, m) && Enabled(w.live, Settle(q.name, m.id, ts), w.clock)
      requires ValidAt(w.live, Acts(w, Settle(q.name, m.id, ts)))
      modifies this`w, store, store.repr
      ensures Failures() == old(Failures())
      ensures Valid() && Did(old(w), Settle(q.name, m.id, ts), w)
      ensures Steady() && store.repr == old(store.repr)
    {
      hide Reachable, Store.Store.Holds, Acts, OneHome, Logs, Committable, Enabled;
      SettleIs(w, q.name, m.id, ts);
      store.ReadsQueue(w.live, q);
      store.ReadsMsg(w.live, q, m);
      store.Remove(w.live, q, m);
      w := Acts(w, Settle(q.name, m.id, ts));
    }

    // -- nack

    method DoReturn(q: QueueState, m: Message) returns (err: Option<Error>, ghost ts: int)
      requires Valid() && store.Owns(q, m) && Steps.Holds(w.live, q.name, m.id, w.clock)
      requires !IsExhausted(w.live, q.name, m.id)
      modifies this`w, clock, LogObjects(log), store, store.repr
      ensures Failures() == old(Failures()) + (if err.Some? then 1 else 0)
      ensures Valid() && Steady() && store.repr == old(store.repr)
      ensures if err.None? then Did(old(w), Return(q.name, m.id, ts), w) else w == old(w) && err == Some(AppendFailed)
    {
      hide ValidAt, Reachable, Acts, OneHome, Committable, Store.Store.Holds;
      var now := Stamp();
      ts := now;
      Returning(q, m, ts);
      err := Commit(Record(Nack, q.name, id := m.id, receipt := m.receipt, ts := now), w.live,
                    Acts(w, Return(q.name, m.id, ts)));
      if err.None? {
        Returned(q, m, ts);
      }
    }

    lemma Returning(q: QueueState, m: Message, ts: int)
      requires Valid() && store.Owns(q, m) && Enabled(w.live, Return(q.name, m.id, ts), w.clock)
      ensures Enabled(w.live, Return(q.name, m.id, ts), w.clock)
      ensures Committable(w, Record(Nack, q.name, id := m.id, receipt := m.receipt, ts := ts),
                          Acts(w, Return(q.name, m.id, ts)))
    {
      hide Reachable, Acts, OneHome, Committable, Store.Store.Holds, Enabled;
      store.ReadsMsg(w.live, q, m);
      ReturnIs(w, q.name, m.id, ts);
    }

    method Returned(q: QueueState, m: Message, ghost ts: int)
      requires store.Owns(q, m) && Enabled(w.live, Return(q.name, m.id, ts), w.clock)
      requires ValidAt(w.live, Acts(w, Return(q.name, m.id, ts)))
      modifies this`w, store, store.repr
      ensures Failures() == old(Failures())
      ensures Valid() && Did(old(w), Return(q.name, m.id, ts), w)
      ensures Steady() && store.repr == old(store.repr)
    {
      hide Reachable, Store.Store.Holds, Acts, OneHome, Logs, Committable, Enabled;
      ReturnIs(w, q.name, m.id, ts);
      store.ReadsQueue(w.live, q);
      store.ReadsMsg(w.live, q, m);
      store.Release(w.live, q, m);
      w := Acts(w, Return(q.name, m.id, ts));
    }

    // -- extend

    method DoProlong(q: QueueState, m: Message, visibility: int)
      returns (err: Option<Error>, ghost deadline: int, ghost ts: int)
      requires Valid() && store.Owns(q, m) && Steps.Holds(w.live, q.name, m.id, w.clock)
      requires 0 < visibility <= MAX_VISIBILITY
      modifies this`w, clock, LogObjects(log), store, store.repr
      ensures Failures() == old(Failures()) + (if err.Some? then 1 else 0)
      ensures Valid() && Steady() && store.repr == old(store.repr)
      ensures old(w).clock + visibility <= deadline <= ts + visibility
      ensures if err.None? then Did(old(w), Prolong(q.name, m.id, deadline, ts), w)
              else w == old(w) && err == Some(AppendFailed)
    {
      hide ValidAt, Reachable, Acts, OneHome, Committable, Store.Store.Holds;
      var from := Stamp();
      var until := from + visibility;
      var now := Stamp();
      deadline, ts := until, now;
      Prolonging(q, m, deadline, ts);
      err := Commit(Record(Extend, q.name, id := m.id, receipt := m.receipt, deadline := until, ts := now), w.live,
                    Acts(w, Prolong(q.name, m.id, deadline, ts)));
      if err.None? {
        Prolonged(q, m, until, ts);
      }
    }

    lemma Prolonging(q: QueueState, m: Message, deadline: int, ts: int)
      requires Valid() && store.Owns(q, m) && Enabled(w.live, Prolong(q.name, m.id, deadline, ts), w.clock)
      ensures Enabled(w.live, Prolong(q.name, m.id, deadline, ts), w.clock)
      ensures Committable(w, Record(Extend, q.name, id := m.id, receipt := m.receipt, deadline := deadline, ts := ts),
                          Acts(w, Prolong(q.name, m.id, deadline, ts)))
    {
      hide Reachable, Acts, OneHome, Committable, Store.Store.Holds, Enabled;
      store.ReadsMsg(w.live, q, m);
      ProlongIs(w, q.name, m.id, deadline, ts);
    }

    method Prolonged(q: QueueState, m: Message, deadline: int, ghost ts: int)
      requires store.Owns(q, m) && Enabled(w.live, Prolong(q.name, m.id, deadline, ts), w.clock)
      requires ValidAt(w.live, Acts(w, Prolong(q.name, m.id, deadline, ts)))
      modifies this`w, store, store.repr
      ensures Failures() == old(Failures())
      ensures Valid() && Did(old(w), Prolong(q.name, m.id, deadline, ts), w)
      ensures Steady() && store.repr == old(store.repr)
    {
      hide Reachable, Store.Store.Holds, Acts, OneHome, Logs, Committable, Enabled;
      ProlongIs(w, q.name, m.id, deadline, ts);
      store.ReadsQueue(w.live, q);
      store.ReadsMsg(w.live, q, m);
      store.SetDeadline(w.live, q, m, deadline);
      w := Acts(w, Prolong(q.name, m.id, deadline, ts));
    }

    // -- dead-letter

    method DoBury(q: QueueState, m: Message) returns (err: Option<Error>, ghost ts: int)
      requires Valid() && store.Owns(q, m) && IsLeased(w.live, q.name, m.id) && IsExhausted(w.live, q.name, m.id)
      requires q.cfg.deadLetter == "" || q.cfg.deadLetter in store.queues
      modifies this`w, clock, LogObjects(log), store, store.repr
      ensures Failures() == old(Failures()) + (if err.Some? then 1 else 0)
      ensures Valid() && Steady() && store.repr == old(store.repr)
      ensures if err.None? then Did(old(w), Bury(q.name, m.id, ts), w) else w == old(w) && err == Some(AppendFailed)
    {
      hide ValidAt, Reachable, Acts, OneHome, Committable, Store.Store.Holds;
      var now := Stamp();
      ts := now;
      Burying(q, m, ts);
      err := Commit(Record(Dead, q.name, id := m.id, to := q.cfg.deadLetter, ts := now), w.live,
                    Acts(w, Bury(q.name, m.id, ts)));
      if err.None? {
        Buried(q, m, ts);
      }
    }

    lemma Burying(q: QueueState, m: Message, ts: int)
      requires Valid() && store.Owns(q, m) && IsLeased(w.live, q.name, m.id) && IsExhausted(w.live, q.name, m.id)
      requires q.cfg.deadLetter == "" || q.cfg.deadLetter in store.queues
      requires ts >= w.clock
      ensures Enabled(w.live, Bury(q.name, m.id, ts), w.clock)
      ensures Committable(w, Record(Dead, q.name, id := m.id, to := q.cfg.deadLetter, ts := ts),
                          Acts(w, Bury(q.name, m.id, ts)))
    {
      hide Reachable, Acts, OneHome, Committable, Store.Store.Holds;
      store.ReadsQueue(w.live, q);
      store.ReadsMsg(w.live, q, m);
      BuryIs(w, q.name, m.id, ts);
    }

    method Buried(q: QueueState, m: Message, ghost ts: int)
      requires store.Owns(q, m) && Enabled(w.live, Bury(q.name, m.id, ts), w.clock)
      requires ValidAt(w.live, Acts(w, Bury(q.name, m.id, ts)))
      modifies this`w, store, store.repr
      ensures Failures() == old(Failures())
      ensures Valid() && Did(old(w), Bury(q.name, m.id, ts), w)
      ensures Steady() && store.repr == old(store.repr)
    {
      hide Reachable, Store.Store.Holds, Acts, OneHome, Logs, Committable, Enabled, Arrive, Take;
      BuryIs(w, q.name, m.id, ts);
      store.ReadsQueue(w.live, q);
      store.ReadsMsg(w.live, q, m);
      store.ReadsNames(w.live);
      Leaving(q, m);
      w := Acts(w, Bury(q.name, m.id, ts));
    }

    /** A leased message leaves q for its dead-letter queue, or for good. */
    method Leaving(q: QueueState, m: Message)
      requires Apart() && store.Holds(w.live) && OneHome(w.live) && store.Owns(q, m) && m.phase != Ready
      requires Has(w.live, q.name, m.id) && q.cfg.deadLetter != q.name
      requires q.cfg.deadLetter == "" || q.cfg.deadLetter in w.live.queues
      modifies store, store.repr
      ensures Failures() == old(Failures())
      ensures w == old(w)
      ensures store.Holds(
        if old(q.cfg).deadLetter == "" then Take(w.live, q.name, m.id)
        else Arrive(Take(w.live, q.name, m.id), old(q.cfg).deadLetter, At(w.live, q.name, m.id)))
      ensures Steady() && store.repr == old(store.repr)
    {
      hide Store.Store.Holds, OneHome;
      store.ReadsQueue(w.live, q);
      store.ReadsMsg(w.live, q, m);
      store.ReadsNames(w.live);
      if q.cfg.deadLetter == "" {
        store.Remove(w.live, q, m);
      } else {
        store.Transfer(w.live, q, m, store.queues[q.cfg.deadLetter], m.receives);
      }
    }

    // -- redrive

    /** Moves the first ready message of src to the back of dst. */
    method DoShift(src: QueueState, dst: QueueState) returns (err: Option<Error>, ghost id: string, ghost ts: int)
      requires Valid() && store.Registered(src) && store.Registered(dst) && src != dst && src.ready != []
      modifies this`w, clock, LogObjects(log), store, store.repr
      ensures Failures() == old(Failures()) + (if err.Some? then 1 else 0)
      ensures Valid() && Steady() && store.repr == old(store.repr)
      ensures if err.None? then Did(old(w), Shift(src.name, id, dst.name, ts), w)
              else w == old(w) && err == Some(AppendFailed)
    {
      hide ValidAt, ValidOut, Reachable, Acts, OneHome, Committable, Store.Store.Holds;
      var m := PopFirst(src);
      var now := StampOut(w.live, src, m);
      id, ts := m.id, now;
      Shifting(src, m, dst, ts);
      err := CommitOut(Record(Move, src.name, id := m.id, to := dst.name, ts := now), w.live, src, m,
                    Acts(w, Shift(src.name, m.id, dst.name, ts)));
      if err.None? {
        Shifted(src, m, dst, ts);
      } else {
        PushBack(src, m);
      }
    }

    /** The first message in line leaves the heap. */
    method PopFirst(q: QueueState) returns (m: Message)
      requires Valid() && store.Registered(q) && q.ready != []
      modifies store, store.repr
      ensures Failures() == old(Failures())
      ensures w == old(w) && ValidOut(w.live, w, q, m) && Steady() && store.repr == old(store.repr)
      ensures Has(w.live, q.name, m.id) && IsFirst(w.live, q.name, m.id)
    {
      hide Reachable, Store.Store.Holds, Store.Store.HoldsBut, Logs;
      store.ReadsQueue(w.live, q);
      m := store.TakeFirst(w.live, q);
      store.ReadsOut(w.live, q, m);
      FirstOf(w.live, q.name, m.id);
    }

    lemma FirstOf(s: State, n: string, id: string)
      requires Has(s, n, id) && At(s, n, id).phase == Ready
      requires forall id' :: Has(s, n, id') && At(s, n, id').phase == Ready ==> At(s, n, id).pos <= At(s, n, id').pos
      ensures IsFirst(s, n, id)
    {
      forall id' | id' in s.queues[n].msgs && s.queues[n].msgs[id'].phase == Ready
        ensures At(s, n, id).pos <= s.queues[n].msgs[id'].pos
      {
        assert Has(s, n, id');
      }
    }

    method StampOut(ghost s: State, q: QueueState, m: Message) returns (t: int)
      requires ValidOut(s, w, q, m)
      modifies clock
      ensures ValidOut(s, w, q, m) && t == clock.time >= old(clock.time) && t >= w.clock
    {
      hide Reachable, Store.Store.HoldsBut, Logs;
      t := clock.Read();
    }

    method PushBack(q: QueueState, m: Message)
      requires ValidOut(w.live, w, q, m) && Has(w.live, q.name, m.id)
      requires At(w.live, q.name, m.id) == At(w.live, q.name, m.id).MakeReady()
      modifies store, store.repr
      ensures Failures() == old(Failures())
      ensures w == old(w) && Valid() && Steady() && store.repr == old(store.repr)
    {
      hide Reachable, Store.Store.Holds, Store.Store.HoldsBut, Logs;
      ReachableSound(w);
      store.ReadsOut(w.live, q, m);
      store.PutBack(w.live, q, m);
    }

    lemma Shifting(src: QueueState, m: Message, dst: QueueState, ts: int)
      requires ValidOut(w.live, w, src, m) && store.Registered(dst) && src != dst && ts >= w.clock
      requires Has(w.live, src.name, m.id) && IsFirst(w.live, src.name, m.id)
      ensures Enabled(w.live, Shift(src.name, m.id, dst.name, ts), w.clock)
      ensures Committable(w, Record(Move, src.name, id := m.id, to := dst.name, ts := ts),
                          Acts(w, Shift(src.name, m.id, dst.name, ts)))
      ensures At(w.live, src.name, m.id) == At(w.live, src.name, m.id).MakeReady()
    {
      hide Reachable, Acts, OneHome, Committable, Store.Store.HoldsBut, IsFirst;
      store.ReadsOut(w.live, src, m);
      ShiftIs(w, src.name, m.id, dst.name, ts);
    }

    method Shifted(src: QueueState, m: Message, dst: QueueState, ghost ts: int)
      requires Enabled(w.live, Shift(src.name, m.id, dst.name, ts), w.clock)
      requires ValidOut(w.live, Acts(w, Shift(src.name, m.id, dst.name, ts)), src, m)
      requires store.Registered(dst) && src != dst
      modifies this`w, store, store.repr
      ensures Failures() == old(Failures())
      ensures Valid() && Did(old(w), Shift(src.name, m.id, dst.name, ts), w)
      ensures Steady() && store.repr == old(store.repr)
    {
      hide Reachable, Store.Store.Holds, Store.Store.HoldsBut, Acts, OneHome, Logs, Committable, Enabled;
      ShiftIs(w, src.name, m.id, dst.name, ts);
      store.ReadsOut(w.live, src, m);
      store.TransferOut(w.live, src, m, dst, 0);
      w := Acts(w, Shift(src.name, m.id, dst.name, ts));
    }

    // -- lease

    /** Leases the first ready message of q; a lease that cannot be logged is undone but for the counter. */
    method DoGrant(q: QueueState, visibility: int, now: int) returns (err: Option<Error>, d: Delivered)
      requires Valid() && store.Registered(q) && q.ready != [] && 0 < visibility <= MAX_VISIBILITY && now == w.clock
      modifies this`w, LogObjects(log), store, store.repr
      ensures Failures() == old(Failures()) + (if err.Some? then 1 else 0)
      ensures Valid() && Steady() && store.repr == old(store.repr)
      ensures if err.None? then Did(old(w), Grant(q.name, d.id, visibility), w)
              else Did(old(w), Burn, w) && err == Some(AppendFailed)
      ensures Handed(old(w), q.name, d)
    {
      hide ValidAt, ValidOut, Reachable, Did, OneHome, Committable, Store.Store.Holds, FormatReceipt, IsFirst;
      var m := PopFirst(q);
      MarkLeased(q, m, visibility, now);
      d := Delivered(m.id, m.receipt, m.body, m.receives, m.sentAt);
      err := CommitOut(ReceiveRecord(q.name, m.Value(), now), Leasing(w.live, q.name, m.Value()), q, m,
                    Acts(w, Grant(q.name, m.id, visibility)));
      if err.None? {
        Granted(q, m, visibility);
      } else {
        Ungranted(q, m, visibility);
      }
    }

    method MarkLeased(q: QueueState, m: Message, visibility: int, now: int)
      requires ValidOut(w.live, w, q, m) && Has(w.live, q.name, m.id) && IsFirst(w.live, q.name, m.id)
      requires 0 < visibility <= MAX_VISIBILITY && now == w.clock
      modifies store, store.repr
      ensures Failures() == old(Failures())
      ensures w == old(w) && LeasedFirst(w, q.name, m.Value(), visibility)
      ensures q.name in w.live.queues && ValidOut(Leasing(w.live, q.name, m.Value()), w, q, m)
      ensures Enabled(w.live, Grant(q.name, m.id, visibility), w.clock)
      ensures Committable(w, ReceiveRecord(q.name, m.Value(), now), Acts(w, Grant(q.name, m.id, visibility)))
      ensures Steady() && store.repr == old(store.repr)
    {
      hide Reachable, Store.Store.HoldsBut, Logs, IsFirst, Committable, FormatReceipt, Acts;
      GrantIs(w, q.name, m.id, visibility);
      store.ReadsOut(w.live, q, m);
      var n := store.NextNumberBut(w.live, q, m);
      ghost var s := w.live.(counter := n);
      SameHomes(w.live, n);
      store.SetLease(s, q, m, FormatReceipt(n), now + visibility, m.receives + 1);
      assert Put(s, q.name, m.Value()) == Put(w.live, q.name, m.Value()).(counter := n);
    }

    method Granted(q: QueueState, m: Message, ghost visibility: int)
      requires LeasedFirst(w, q.name, m.Value(), visibility) && q.name in w.live.queues
      requires ValidOut(Leasing(w.live, q.name, m.Value()), Acts(w, Grant(q.name, m.id, visibility)), q, m)
      modifies this`w, store, store.repr
      ensures Failures() == old(Failures())
      ensures Valid() && Did(old(w), Grant(q.name, m.id, visibility), w)
      ensures Steady() && store.repr == old(store.repr)
    {
      hide Reachable, Store.Store.Holds, Store.Store.HoldsBut, Logs, IsFirst, Committable, FormatReceipt, Acts, OneHome;
      GrantIs(w, q.name, m.id, visibility);
      ghost var s := Leasing(w.live, q.name, m.Value());
      HomesPut(w.live, q.name, m.Value(), w.live.counter + 1);
      store.ReadsOut(s, q, m);
      store.PutPending(s, q, m);
      w := Acts(w, Grant(q.name, m.id, visibility));
    }

    method Ungranted(q: QueueState, m: Message, ghost visibility: int)
      requires LeasedFirst(w, q.name, m.Value(), visibility) && q.name in w.live.queues
      requires ValidOut(Leasing(w.live, q.name, m.Value()), w, q, m)
      modifies this`w, store, store.repr
      ensures Failures() == old(Failures())
      ensures Valid() && Did(old(w), Burn, w)
      ensures Steady() && store.repr == old(store.repr)
    {
      hide Reachable, Store.Store.Holds, Store.Store.HoldsBut, Logs, IsFirst, Committable, FormatReceipt, Acts, OneHome;
      GrantIs(w, q.name, m.id, visibility);
      BurnIs(w);
      ghost var s := Leasing(w.live, q.name, m.Value());
      HomesPut(w.live, q.name, m.Value(), w.live.counter + 1);
      store.ReadsOut(s, q, m);
      LeaseUndone(w.live, q.name, m.Value());
      store.UndoLease(s, q, m);
      LogsOn(w, Acts(w, Burn));
      w := Acts(w, Burn);
    }

    /** Undoing a lease restores all but the counter. */
    lemma LeaseUndone(s: State, n: string, m: Msg)
      requires Has(s, n, m.id) && At(s, n, m.id) == m.MakeReady().(receives := m.receives - 1)
      ensures Put(Put(s, n, m).(counter := s.counter + 1), n, m.MakeReady().(receives := m.receives - 1))
           == s.(counter := s.counter + 1)
    {
      var v := At(s, n, m.id);
      assert s.queues[n].msgs[m.id := m][m.id := v] == s.queues[n].msgs;
      assert s.queues[n := s.queues[n]] == s.queues;
      assert Put(Put(s, n, m).(counter := s.counter + 1), n, v).queues == s.queues;
    }

    // -- send

    /** Files a new message, not waking anybody; the number of one that cannot be logged is reused. */
    method DoPost(q: QueueState, body: seq<byte>, delay: int, now: int) returns (err: Option<Error>, id: string)
      requires Valid() && store.Registered(q) && 0 <= delay <= MAX_DELAY && now == w.clock
      modifies this`w, LogObjects(log), store, store.repr
      ensures Failures() == old(Failures()) + (if err.Some? then 1 else 0)
      ensures Valid() && Steady() && fresh(store.repr - old(store.repr))
      ensures Issued(old(w), id)
      ensures if err.None? then Did(old(w), Post(q.name, body, delay), w) else w == old(w) && err == Some(AppendFailed)
    {
      hide ValidAt, Reachable, Did, OneHome, Committable, Store.Store.Holds, FormatId, Acts, PostRecord;
      var n := TakeNumber(q);
      id := FormatId(n);
      var m := new Message(Msg(id, n, body, now, if delay > 0 then now + delay else 0, Ready, "", 0, 0));
      Posting(q.name, m.Value(), body, delay, w.live.(counter := n));
      err := Commit(PostRecord(q.name, m.Value(), now), w.live.(counter := n),
                    Acts(w, Post(q.name, body, delay)));
      if err.Some? {
        ReuseNumber();
        return;
      }
      Posted(q, m, body, delay);
    }

    method TakeNumber(q: QueueState) returns (n: nat)
      requires Valid() && store.Registered(q)
      modifies store`counter
      ensures n == w.live.counter + 1 && ValidAt(w.live.(counter := n), w) && q.name in w.live.queues
    {
      hide Reachable, Store.Store.Holds, Logs;
      store.ReadsQueue(w.live, q);
      n := store.NextNumber(w.live);
    }

    method ReuseNumber()
      requires ValidAt(w.live.(counter := w.live.counter + 1), w)
      modifies store`counter
      ensures Valid()
    {
      hide Reachable, Store.Store.Holds, Logs;
      store.UndoNumber(w.live.(counter := w.live.counter + 1));
    }

    lemma Posting(n: string, m: Msg, body: seq<byte>, delay: int, s: State)
      requires ValidAt(s, w) && Posts(w, n, m, body, delay)
      ensures Enabled(w.live, Post(n, body, delay), w.clock)
      ensures Committable(w, PostRecord(n, m, w.clock), Acts(w, Post(n, body, delay)))
    {
      hide Reachable, Acts, Committable, FormatId, Logs, Store.Store.Holds;
      PostIs(w, n, body, delay);
    }

    method Posted(q: QueueState, m: Message, ghost body: seq<byte>, delay: int)
      requires store.Registered(q) && Posts(w, q.name, m.Value(), body, delay)
      requires ValidAt(w.live.(counter := w.live.counter + 1), Acts(w, Post(q.name, body, delay)))
      modifies this`w, store, store.repr, m
      ensures Failures() == old(Failures())
      ensures Valid() && Did(old(w), Post(q.name, body, delay), w)
      ensures Steady() && store.repr == old(store.repr) + {m}
    {
      hide Reachable, Store.Store.Holds, Logs, Committable, FormatId, Acts, OneHome;
      PostIs(w, q.name, body, delay);
      Filing(q, m, w.live.(counter := w.live.counter + 1), delay > 0);
      w := Acts(w, Post(q.name, body, delay));
    }

    /** A new message joins the pending messages or the heap. */
    method Filing(q: QueueState, m: Message, ghost s: State, delayed: bool)
      requires store.Holds(s) && store.Registered(q) && forall n :: !Has(w.live, n, m.id)
      requires Apart() && m.phase == Ready && m.Value() == m.Value().MakeReady() && s.queues == w.live.queues
      modifies store, store.repr, m
      ensures Failures() == old(Failures())
      ensures w == old(w) && q.name in s.queues
      ensures store.Holds(Put(s, q.name, old(m.Value()).(phase := if delayed then Delayed else Ready)))
      ensures Steady() && store.repr == old(store.repr) + {m}
    {
      hide Store.Store.Holds;
      forall n ensures !Has(s, n, m.id)
      {
        assert Has(s, n, m.id) == Has(w.live, n, m.id);
      }
      store.Adopt(s, m);
      store.ReadsQueue(s, q);
      if delayed {
        store.AddDelayed(s, q, m);
      } else {
        store.Add(s, q, m);
      }
    }

    // -- queues

    /** Changes the configuration of a queue. */
    method DoReconfigure(q: QueueState, cfg: Config) returns (err: Option<Error>, ghost ts: int)
      requires Valid() && store.Registered(q) && SoundConfig(q.name, cfg)
      modifies this`w, clock, LogObjects(log), store, store.repr
      ensures Failures() == old(Failures()) + (if err.Some? then 1 else 0)
      ensures Valid() && Steady() && store.repr == old(store.repr)
      ensures if err.None? then Did(old(w), Configure(q.name, cfg, ts), w) else w == old(w) && err == Some(AppendFailed)
    {
      hide ValidAt, Reachable, Did, Committable, Store.Store.Holds, ValidName;
      var now := Stamp();
      ts := now;
      Configuring(q.name, cfg, ts);
      err := Commit(Record(QueueCreate, q.name, ts := now, config := Marshal(cfg)), w.live,
                    Acts(w, Configure(q.name, cfg, ts)));
      if err.None? {
        Reconfigured(q, cfg, ts);
      }
    }

    /** Creates a queue. */
    method DoCreate(n: string, cfg: Config) returns (err: Option<Error>, ghost ts: int)
      requires Valid() && n !in store.queues && SoundConfig(n, cfg)
      modifies this`w, clock, LogObjects(log), store
      ensures Failures() == old(Failures()) + (if err.Some? then 1 else 0)
      ensures Valid() && fresh(store.repr - old(store.repr)) && store.gone == old(store.gone)
      ensures if err.None? then Did(old(w), Configure(n, cfg, ts), w) && IsNew(n)
              else w == old(w) && err == Some(AppendFailed) && Steady()
    {
      hide ValidAt, Reachable, Did, Committable, Store.Store.Holds, ValidName;
      var now := Stamp();
      ts := now;
      Configuring(n, cfg, ts);
      err := Commit(Record(QueueCreate, n, ts := now, config := Marshal(cfg)), w.live,
                    Acts(w, Configure(n, cfg, ts)));
      if err.None? {
        Created(n, cfg, ts);
      }
    }

    /** Queue n is new, with a new channel. */
    twostate predicate IsNew(n: string)
      reads store
    {
      && n in store.wakes && n in store.queues
      && store.queues == old(store.queues)[n := store.queues[n]] && fresh(store.queues[n])
      && store.wakes == old(store.wakes)[n := store.wakes[n]] && fresh(store.wakes[n])
    }

    lemma Configuring(n: string, cfg: Config, ts: int)
      requires Valid() && SoundConfig(n, cfg) && ts >= w.clock
      ensures Enabled(w.live, Configure(n, cfg, ts), w.clock)
      ensures Committable(w, Record(QueueCreate, n, ts := ts, config := Marshal(cfg)), Acts(w, Configure(n, cfg, ts)))
    {
      hide Reachable, Acts, Committable, Store.Store.Holds, ValidName;
      ConfigureIs(w, n, cfg, ts);
    }

    method Reconfigured(q: QueueState, cfg: Config, ghost ts: int)
      requires store.Registered(q) && SoundConfig(q.name, cfg) && ts >= w.clock
      requires ValidAt(w.live, Acts(w, Configure(q.name, cfg, ts)))
      modifies this`w, store, store.repr
      ensures Failures() == old(Failures())
      ensures Valid() && Did(old(w), Configure(q.name, cfg, ts), w)
      ensures Steady() && store.repr == old(store.repr)
    {
      hide Reachable, Store.Store.Holds, Logs, Committable, Acts, ValidName;
      ConfigureIs(w, q.name, cfg, ts);
      store.ReadsQueue(w.live, q);
      store.Reconfigure(w.live, q, cfg);
      w := Acts(w, Configure(q.name, cfg, ts));
    }

    method Created(n: string, cfg: Config, ghost ts: int)
      requires n !in store.queues && SoundConfig(n, cfg) && ts >= w.clock
      requires ValidAt(w.live, Acts(w, Configure(n, cfg, ts)))
      modifies this`w, store
      ensures Valid() && Did(old(w), Configure(n, cfg, ts), w)
      ensures IsNew(n) && store.gone == old(store.gone) && fresh(store.repr - old(store.repr))
    {
      hide Reachable, Store.Store.Holds, Logs, Committable, Acts, ValidName;
      ConfigureIs(w, n, cfg, ts);
      store.Create(w.live, n, cfg);
      w := Acts(w, Configure(n, cfg, ts));
    }

    /** Removes a queue and wakes its waiters. */
    method DoDelete(q: QueueState) returns (err: Option<Error>, ghost ts: int)
      requires Valid() && store.Registered(q)
      modifies this`w, clock, LogObjects(log), store, store.repr
      ensures Failures() == old(Failures()) + (if err.Some? then 1 else 0)
      ensures Valid() && store.repr == old(store.repr)
      ensures if err.None?
              then Did(old(w), Delete(q.name, ts), w) && IsGone(q.name)
              else w == old(w) && err == Some(AppendFailed) && Steady()
    {
      hide ValidAt, Reachable, Acts, Committable, Store.Store.Holds;
      var now := Stamp();
      ts := now;
      Deleting(q, ts);
      err := Commit(Record(QueueDelete, q.name, ts := now), w.live,
                    Acts(w, Delete(q.name, ts)));
      if err.None? {
        DeletedNow(q, ts);
      }
    }

    /** Queue n has gone and its channel is closed. */
    twostate predicate IsGone(n: string)
      reads store
    {
      && n in old(store.wakes)
      && store.queues == old(store.queues) - {n} && store.wakes == old(store.wakes) - {n}
      && store.gone == old(store.gone) + {old(store.wakes[n])}
    }

    lemma Deleting(q: QueueState, ts: int)
      requires Valid() && store.Registered(q) && ts >= w.clock
      ensures q.name in w.live.queues && Enabled(w.live, Delete(q.name, ts), w.clock)
      ensures Committable(w, Record(QueueDelete, q.name, ts := ts), Acts(w, Delete(q.name, ts)))
    {
      hide Reachable, Acts, Committable, Store.Store.Holds;
      store.ReadsQueue(w.live, q);
      DeleteIs(w, q.name, ts);
    }

    method DeletedNow(q: QueueState, ghost ts: int)
      requires store.Registered(q) && ts >= w.clock && q.name in w.live.queues
      requires ValidAt(w.live, Acts(w, Delete(q.name, ts)))
      modifies this`w, store, store.repr
      ensures Failures() == old(Failures())
      ensures Valid() && Did(old(w), Delete(q.name, ts), w)
      ensures IsGone(q.name) && store.repr == old(store.repr)
    {
      hide Reachable, Store.Store.Holds, Logs, Committable, Acts;
      DeleteIs(w, q.name, ts);
      store.ReadsQueue(w.live, q);
      store.DropQueue(w.live, q);
      w := Acts(w, Delete(q.name, ts));
    }
  }
}
