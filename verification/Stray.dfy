/**
 A record in the log of something that did not happen: an append that failed
 after its bytes had reached the file.
 */
module Stray {
  import opened Wrappers
  import opened Config
  import opened Ids
  import opened Record
  import opened State
  import opened Replay
  import opened Steps
  import opened ReplaySteps
  import opened Sweeping
  import opened Runs
  import opened HistoryLaws

  // ---- what replaying an action's record does ----------------------------

  /** The number an identifier leaves the counter at. */
  function Raised(counter: nat, n: nat): nat {
    if n > counter then n else counter
  }

  /** rep holds what the record of a, logged by live, asks for. */
  predicate CanReplay(live: State, rep: State, a: Action, now: int)
    requires Enabled(live, a, now)
  {
    match a
    case Configure(_, _, _) => true
    case Delete(n, _) => n in rep.queues
    case Post(n, _, _) => n in rep.queues
    case Bury(n, id, _) => Has(rep, n, id) && (TargetOf(live, n) == "" || TargetOf(live, n) in rep.queues)
    case Shift(n, id, to, _) => Has(rep, n, id) && to in rep.queues
    case Grant(n, id, _) => Has(rep, n, id)
    case Settle(n, id, _) => Has(rep, n, id)
    case Return(n, id, _) => Has(rep, n, id)
    case Prolong(n, id, _, _) => Has(rep, n, id)
    case _ => true
  }

  /** The record of a, logged by live, applied to rep. */
  function Replays(live: State, rep: State, a: Action, now: int): State
    requires Enabled(live, a, now) && CanReplay(live, rep, a, now)
  {
    match a
    case Configure(n, cfg, _) => SetConfig(rep, n, cfg)
    case Delete(n, _) => Drop(rep, n)
    case Post(n, body, delay) =>
      var m := NewMsg(live, body, delay, now);
      Put(rep, n, m.(phase := Delayed)).(counter := Raised(rep.counter, live.counter + 1))
    case Grant(n, id, visibility) =>
      var m := LeasedMsg(live, At(live, n, id), visibility, now);
      Put(rep, n, At(rep, n, id).(phase := Leased, receipt := m.receipt, deadline := m.deadline,
                                  receives := m.receives))
      .(counter := Raised(rep.counter, live.counter + 1))
    case Settle(n, id, _) => Take(rep, n, id)
    case Return(n, id, _) => Put(rep, n, At(rep, n, id).MakeReady())
    case Prolong(n, id, deadline, _) => Put(rep, n, At(rep, n, id).(deadline := deadline))
    case Bury(n, id, _) =>
      if TargetOf(live, n) == "" then Take(rep, n, id)
      else Arrive(Take(rep, n, id), TargetOf(live, n), At(rep, n, id))
    case Shift(n, id, to, _) => Arrive(Take(rep, n, id), to, At(rep, n, id).(receives := 0))
    case _ => rep
  }

  lemma RaisedIs(counter: nat, n: nat)
    ensures BumpSeq(counter, FormatId(n)) == Raised(counter, n)
    ensures BumpSeq(counter, FormatReceipt(n)) == Raised(counter, n)
  {
    hide FormatId, FormatReceipt, ParseHex, TrimR;
    IdRoundTrip(n);
  }

  /** Applying the record of an action fails exactly if what it asks for is missing. */
  lemma ReplayIs(live: State, rep: State, a: Action, now: int)
    requires Sound(live) && now >= 0 && Enabled(live, a, now) && Logged(live, a, now).Some?
    ensures var r := Logged(live, a, now).value;
      if CanReplay(live, rep, a, now) then Apply(rep, r) == Ok(Replays(live, rep, a, now)) else Apply(rep, r).Err?
  {
    hide Sound, Base64.Encode, Base64.Decode, Utf8.Valid, FormatId, FormatReceipt, ParseHex, TrimR, IsFirst, ValidName,
      BumpSeq, NumberOf, SeqOf;
    match a
    case Configure(n, cfg, _) => ConfigRoundTrip(cfg);
    case Delete(n, _) =>
    case Post(n, body, delay) => PostReplays(live, rep, n, body, delay, now);
    case Grant(n, id, visibility) =>
      FiledSound(live, n, id);
      RaisedIs(rep.counter, live.counter + 1);
    case Settle(n, id, _) =>
    case Return(n, id, _) =>
    case Prolong(n, id, _, _) =>
    case Bury(n, id, _) => QueueNamed(live, n);
    case Shift(n, id, to, _) => QueueNamed(live, n); QueueNamed(live, to);
  }

  lemma PostReplays(live: State, rep: State, n: string, body: seq<byte>, delay: int, now: int)
    requires Sound(live) && now >= 0 && Enabled(live, Post(n, body, delay), now)
    ensures var r := Logged(live, Post(n, body, delay), now).value;
      if n in rep.queues then Apply(rep, r) == Ok(Replays(live, rep, Post(n, body, delay), now)) else Apply(rep, r).Err?
  {
    hide Sound, Base64.Encode, Base64.Decode, Utf8.Valid, FormatId, FormatReceipt, ParseHex, TrimR, BumpSeq, NumberOf;
    var m := NewMsg(live, body, delay, now);
    IdRoundTrip(live.counter + 1);
    RaisedIs(rep.counter, live.counter + 1);
    BodyRoundTrip(Record(Send, n, id := m.id, ts := now, nbf := m.notBefore), body);
  }

  // ---- the engine after the failure --------------------------------------

  /** m, or m made ready because its delay or lease is over by now. */
  predicate Settles(m: Msg, m': Msg, now: int) {
    m' == m || (m.phase != Ready && m' == m.MakeReady() && m.Due() <= now)
  }

  /** s' is s after actions that log nothing. */
  ghost predicate Quieter(s: State, s': State, now: int) {
    && s.counter <= s'.counter && s.queues.Keys == s'.queues.Keys
    && (forall n :: n in s.queues ==> s.queues[n].cfg == s'.queues[n].cfg)
    && (forall n, id :: Has(s, n, id) <==> Has(s', n, id))
    && (forall n, id :: Has(s, n, id) ==> Settles(At(s, n, id), At(s', n, id), now))
  }

  lemma QuietStep(s: State, a: Action, now: int)
    requires Filed(s) && Enabled(s, a, now) && Logged(s, a, now).None?
    ensures Quieter(s, Effect(s, a, now), ClockAfter(a, now))
  {
    hide FormatId, FormatReceipt;
  }

  lemma QuietJoin(a: State, b: State, c: State, now: int, now': int)
    requires Quieter(a, b, now) && Quieter(b, c, now') && now <= now'
    ensures Quieter(a, c, now')
  {
    forall n, id | Has(a, n, id) ensures Settles(At(a, n, id), At(c, n, id), now')
    {
      assert Has(b, n, id);
    }
    forall n, id ensures Has(a, n, id) <==> Has(c, n, id) { assert Has(a, n, id) <==> Has(b, n, id); }
  }

  lemma {:induction false} QuietRun(w: World, actions: seq<Action>, u: World)
    requires Reachable(w) && After(w, actions) == Some(u) && u.log == w.log
    ensures Quieter(w.live, u.live, u.clock) && w.clock <= u.clock
    decreases |actions|
  {
    hide Reachable, Enabled, Effect, Logged, Outcomes, Deliveries, Quieter;
    if actions == [] {
      QuietNothing(w.live, w.clock);
    } else {
      var k := |actions| - 1;
      var mid := After(w, actions[..k]).value;
      AfterGrows(w, actions[..k], mid);
      QuietRun(w, actions[..k], mid);
      AfterReachable(w, actions[..k], mid);
      LiveFiled(mid);
      QuietStep(mid.live, actions[k], mid.clock);
      ClockForward(mid.live, actions[k], mid.clock);
      QuietJoin(w.live, mid.live, u.live, mid.clock, u.clock);
    }
  }

  lemma QuietNothing(s: State, now: int)
    ensures Quieter(s, s, now)
  {
  }

  lemma LiveFiled(w: World)
    requires Reachable(w)
    ensures Filed(w.live)
  {
    hide Reachable, Sound, Related, Past, HistorySound, LeasesKnown, Load, Filed;
    ReachableInv(w);
    SoundIsFiled(w.live);
  }

  // ---- when a stray record does no harm ----------------------------------

  /** Replaying the return of a message that is ready already files it twice. */
  predicate Doubles(s: State, r: Record) {
    r.op == Nack && Has(s, r.queue, r.id) && At(s, r.queue, r.id).phase == Ready
  }

  /** With the record of b after it, rep1 is again what replay may hold when the live engine has done b. */
  ghost predicate Restored(lu: State, rep1: State, b: Action, now: int)
    requires Enabled(lu, b, now) && Logged(lu, b, now).Some?
  {
    && CanReplay(lu, rep1, b, now) && !Doubles(rep1, Logged(lu, b, now).value)
    && Sound(Replays(lu, rep1, b, now)) && Related(Effect(lu, b, now), Replays(lu, rep1, b, now), now)
  }

  predicate Deletes(b: Action, n: string) {
    b.Delete? && b.queue == n
  }

  /**
   What makes the stray record of a harmless: the next action b overwrites what
   it says, or it says nothing new.  lw is the engine when the append failed, lu
   when b begins.
   */
  predicate Harmless(lw: State, lu: State, a: Action, b: Action, now: int) {
    match a
    case Configure(n, cfg, _) =>
      (n in lu.queues && lu.queues[n].cfg == cfg) || ((b.Configure? || b.Delete?) && b.queue == n)
    case Delete(n, _) => b.Configure? && b.queue == n && n in lu.queues && lu.queues[n].msgs == map[]
    case Post(n, _, _) => if lu.counter == lw.counter then b.Post? && b.queue == n else Deletes(b, n)
    case Grant(n, id, _) => Deletes(b, n) || ((b.Grant? || b.Shift?) && b.id == id)
    case Settle(n, _, _) => Deletes(b, n)
    case Bury(n, _, _) => n in lw.queues && TargetOf(lw, n) == "" && Deletes(b, n)
    case Shift(_, _, _, _) => false
    case Return(n, id, _) =>
      Deletes(b, n) || (Has(lu, n, id) && At(lu, n, id).phase == Ready) || (b.Settle? && b.id == id)
    case Prolong(n, id, deadline, _) =>
      || Deletes(b, n) || Concerns(b, id)
      || (Has(lu, n, id) &&
          if At(lu, n, id).phase == Leased then At(lu, n, id).deadline == deadline else deadline <= now)
    case _ => true
  }

  /** Engine lw failed to log a, came to lu without logging anything, and now does b; the log replays to rep. */
  ghost predicate Astray(lw: State, lu: State, rep: State, a: Action, now0: int, b: Action, now: int) {
    && Sound(lw) && Sound(lu) && Sound(rep) && 0 <= now0 <= now
    && Related(lw, rep, now0) && Related(lu, rep, now) && Quieter(lw, lu, now)
    && Enabled(lw, a, now0) && Logged(lw, a, now0).Some? && Enabled(lu, b, now) && Logged(lu, b, now).Some?
    && (a.Grant? ==> lw.counter < lu.counter)
  }

  lemma RelatedRaised(live: State, rep: State, now: int, c: nat)
    requires Related(live, rep, now) && c <= live.counter
    ensures Related(live, rep.(counter := c), now)
  {
    hide MsgRelated;
    var rep' := rep.(counter := c);
    forall n, id ensures Has(rep', n, id) <==> Has(rep, n, id) { }
    forall n, id | Has(live, n, id) ensures Has(rep, n, id) && At(rep', n, id) == At(rep, n, id) { }
  }

  /** What replays as the log without the stray record does, but for the counter, is restored. */
  lemma Overwritten(lu: State, rep: State, b: Action, now: int, c: nat, rep1: State)
    requires Sound(lu) && Sound(rep) && Related(lu, rep, now) && now >= 0
    requires Enabled(lu, b, now) && Logged(lu, b, now).Some? && rep.counter <= c <= lu.counter
    requires CanReplay(lu, rep1, b, now) && CanReplay(lu, rep.(counter := c), b, now)
    requires Replays(lu, rep1, b, now) == Replays(lu, rep.(counter := c), b, now)
    requires !Doubles(rep1, Logged(lu, b, now).value)
    ensures Restored(lu, rep1, b, now)
  {
    hide Sound, Related, Enabled, Effect, Logged, Replays, CanReplay, Doubles, Apply;
    CounterSound(rep, c);
    RelatedRaised(lu, rep, now, c);
    ReplayFollows(lu, rep.(counter := c), b, now);
    ReplayIs(lu, rep.(counter := c), b, now);
  }

  lemma CanAlways(lu: State, rep: State, b: Action, now: int)
    requires Sound(lu) && Sound(rep) && Related(lu, rep, now) && now >= 0
    requires Enabled(lu, b, now) && Logged(lu, b, now).Some?
    ensures CanReplay(lu, rep, b, now)
  {
    hide Sound, Related, Enabled, Effect, Logged, Replays, CanReplay, Apply;
    ReplayFollows(lu, rep, b, now);
    ReplayIs(lu, rep, b, now);
  }

  // ---- what gives a stray record away ------------------------------------

  lemma HasTells(live: State, rep: State, now: int, n: string, id: string)
    requires Has(live, n, id) != Has(rep, n, id)
    ensures !Related(live, rep, now)
  {
    hide MsgRelated;
  }

  lemma QueueTells(live: State, rep: State, now: int, n: string)
    requires (n in live.queues) != (n in rep.queues)
      || (n in live.queues && live.queues[n].cfg != rep.queues[n].cfg)
    ensures !Related(live, rep, now)
  {
    hide MsgRelated;
  }

  lemma MsgTells(live: State, rep: State, now: int, n: string, id: string)
    requires Has(live, n, id) && Has(rep, n, id) && !MsgRelated(At(live, n, id), At(rep, n, id), now)
    ensures !Related(live, rep, now)
  {
    hide MsgRelated;
  }

  /** A message b is not about stays as it is, live and replayed. */
  lemma Bystander(lu: State, rep1: State, b: Action, now: int, n: string, id: string)
    requires Filed(lu) && Filed(rep1) && Enabled(lu, b, now) && CanReplay(lu, rep1, b, now)
    requires !Concerns(b, id) && !Deletes(b, n) && (b.Post? ==> id != FormatId(lu.counter + 1))
    ensures SameThere(lu, Effect(lu, b, now), n, id) && SameThere(rep1, Replays(lu, rep1, b, now), n, id)
  {
    hide FormatId, FormatReceipt, IsFirst, ValidName, SameThere;
    LiveBystander(lu, b, now, n, id);
    ReplayedBystander(lu, rep1, b, now, n, id);
  }

  predicate SameThere(s: State, s': State, n: string, id: string) {
    (Has(s', n, id) <==> Has(s, n, id)) && (Has(s, n, id) ==> At(s', n, id) == At(s, n, id))
  }

  lemma LiveBystander(lu: State, b: Action, now: int, n: string, id: string)
    requires Filed(lu) && Enabled(lu, b, now) && !Concerns(b, id) && !Deletes(b, n)
    requires b.Post? ==> id != FormatId(lu.counter + 1)
    ensures SameThere(lu, Effect(lu, b, now), n, id)
  {
    hide FormatId, FormatReceipt, IsFirst, ValidName;
  }

  lemma ReplayedBystander(lu: State, rep1: State, b: Action, now: int, n: string, id: string)
    requires Filed(rep1) && Enabled(lu, b, now) && CanReplay(lu, rep1, b, now) && !Concerns(b, id) && !Deletes(b, n)
    requires b.Post? ==> id != FormatId(lu.counter + 1)
    ensures SameThere(rep1, Replays(lu, rep1, b, now), n, id)
  {
    hide FormatId, FormatReceipt, IsFirst, ValidName;
  }

  /** So does a queue b neither configures nor deletes. */
  lemma QueueStays(lu: State, rep1: State, b: Action, now: int, n: string)
    requires Enabled(lu, b, now) && CanReplay(lu, rep1, b, now) && !((b.Configure? || b.Delete?) && b.queue == n)
    ensures var lu', rep2 := Effect(lu, b, now), Replays(lu, rep1, b, now);
      && (n in lu'.queues <==> n in lu.queues) && (n in lu.queues ==> lu'.queues[n].cfg == lu.queues[n].cfg)
      && (n in rep2.queues <==> n in rep1.queues) && (n in rep1.queues ==> rep2.queues[n].cfg == rep1.queues[n].cfg)
  {
    hide FormatId, FormatReceipt, IsFirst, ValidName;
  }

  lemma DoublesIs(lu: State, rep1: State, b: Action, now: int)
    requires Enabled(lu, b, now) && Logged(lu, b, now).Some?
    ensures Doubles(rep1, Logged(lu, b, now).value) <==>
      b.Return? && Has(rep1, b.queue, b.id) && At(rep1, b.queue, b.id).phase == Ready
  {
    hide FormatId, FormatReceipt, IsFirst, ValidName, Base64.Encode, Utf8.Valid;
  }

  /** A message that can be returned is leased in the replayed state too. */
  lemma NoDouble(lu: State, rep: State, b: Action, now: int)
    requires Sound(lu) && Sound(rep) && Related(lu, rep, now) && Enabled(lu, b, now) && Logged(lu, b, now).Some?
    ensures !Doubles(rep, Logged(lu, b, now).value)
    ensures b.Return? ==> Has(rep, b.queue, b.id) && At(rep, b.queue, b.id).phase == Leased
  {
    hide Sound, Related, Logged, Doubles;
    DoublesIs(lu, rep, b, now);
    if b.Return? { BothHave(lu, rep, now, b.queue, b.id); }
  }

  /** A replayed state that is related already stays so. */
  lemma NothingNew(lu: State, rep1: State, b: Action, now: int)
    requires Sound(lu) && Sound(rep1) && Related(lu, rep1, now) && now >= 0
    requires Enabled(lu, b, now) && Logged(lu, b, now).Some?
    ensures Restored(lu, rep1, b, now)
  {
    hide Sound, Related, Enabled, Effect, Logged, Replays, CanReplay, Doubles, Restored;
    SameQueues(lu, rep1, now);
    NoDouble(lu, rep1, b, now);
    CanAlways(lu, rep1, b, now);
    assert rep1.(counter := rep1.counter) == rep1;
    Overwritten(lu, rep1, b, now, rep1.counter, rep1);
  }

  lemma TellsAll(lu: State, rep1: State, b: Action, now: int)
    requires Enabled(lu, b, now) && Logged(lu, b, now).Some?
    requires CanReplay(lu, rep1, b, now) ==> !Related(Effect(lu, b, now), Replays(lu, rep1, b, now), now)
    ensures !Restored(lu, rep1, b, now)
  {
    hide Sound, Related, Enabled, Effect, Logged, Replays, CanReplay, Doubles;
  }

  lemma ConfigsMatch(live: State, rep: State, now: int, n: string)
    requires Related(live, rep, now) && n in live.queues
    ensures n in rep.queues && rep.queues[n].cfg == live.queues[n].cfg
  {
  }

  // ---- one kind of stray record after the other --------------------------

  lemma StrayConfigure(lw: State, lu: State, rep: State, a: Action, now0: int, b: Action, now: int)
    requires Astray(lw, lu, rep, a, now0, b, now) && a.Configure? && CanReplay(lw, rep, a, now0)
    ensures Restored(lu, Replays(lw, rep, a, now0), b, now) <==> Harmless(lw, lu, a, b, now)
  {
    hide Sound, Related, Logged, Doubles, Quieter, ValidName, IsFirst, Restored;
    var n, rep1 := a.queue, Replays(lw, rep, a, now0);
    SameQueues(lu, rep, now);
    CanAlways(lu, rep, b, now);
    if n in lu.queues && lu.queues[n].cfg == a.cfg {
      ConfigsMatch(lu, rep, now, n);
      assert rep1.queues == rep.queues;
      NothingNew(lu, rep, b, now);
    } else if (b.Configure? || b.Delete?) && b.queue == n {
      assert rep.(counter := rep.counter) == rep;
      assert Replays(lu, rep1, b, now).queues == Replays(lu, rep, b, now).queues;
      DoublesIs(lu, rep1, b, now);
      Overwritten(lu, rep, b, now, rep.counter, rep1);
    } else {
      if CanReplay(lu, rep1, b, now) {
        QueueStays(lu, rep1, b, now, n);
        QueueTells(Effect(lu, b, now), Replays(lu, rep1, b, now), now, n);
      }
      TellsAll(lu, rep1, b, now);
    }
  }

  lemma StrayDelete(lw: State, lu: State, rep: State, a: Action, now0: int, b: Action, now: int)
    requires Astray(lw, lu, rep, a, now0, b, now) && a.Delete? && CanReplay(lw, rep, a, now0)
    ensures Restored(lu, Replays(lw, rep, a, now0), b, now) <==> Harmless(lw, lu, a, b, now)
  {
    hide Sound, Related, Logged, Doubles, ValidName, IsFirst, Restored;
    var n, rep1 := a.queue, Replays(lw, rep, a, now0);
    SameQueues(lu, rep, now);
    CanAlways(lu, rep, b, now);
    if b.Configure? && b.queue == n {
      if lu.queues[n].msgs == map[] {
        forall id ensures id !in rep.queues[n].msgs { assert Has(lu, n, id) <==> Has(rep, n, id); }
        assert rep.queues[n].msgs == map[];
        assert Replays(lu, rep1, b, now).queues == Replays(lu, rep, b, now).queues;
        assert rep.(counter := rep.counter) == rep;
        DoublesIs(lu, rep1, b, now);
        Overwritten(lu, rep, b, now, rep.counter, rep1);
      } else {
        var id :| id in lu.queues[n].msgs;
        HasTells(Effect(lu, b, now), Replays(lu, rep1, b, now), now, n, id);
        TellsAll(lu, rep1, b, now);
      }
    } else {
      if CanReplay(lu, rep1, b, now) {
        QueueStays(lu, rep1, b, now, n);
        QueueTells(Effect(lu, b, now), Replays(lu, rep1, b, now), now, n);
      }
      TellsAll(lu, rep1, b, now);
    }
  }

  /** The ID of a message that was not logged names no message. */
  lemma Unissued(lw: State, lu: State, rep: State, a: Action, now0: int, b: Action, now: int)
    requires Astray(lw, lu, rep, a, now0, b, now)
    ensures var id := FormatId(lw.counter + 1);
      && (forall n :: !Has(lu, n, id) && !Has(rep, n, id))
      && (id == FormatId(lu.counter + 1) <==> lw.counter == lu.counter)
    ensures lw.counter <= lu.counter && rep.counter <= lw.counter
  {
    hide Sound, Logged, FormatId, ParseHex, TrimR, SameContents, SameOrder, Enabled, Settles, NumberOf;
    IdRoundTrip(lw.counter + 1);
    IdRoundTrip(lu.counter + 1);
    SameQueues(lw, rep, now0);
    var id := FormatId(lw.counter + 1);
    forall n ensures !Has(lu, n, id) && !Has(rep, n, id)
    {
      NextIdIsFresh(lw, n);
    }
  }

  /** An action is about a message that exists. */
  lemma ConcernsLive(s: State, b: Action, now: int, id: string)
    requires Enabled(s, b, now) && Concerns(b, id)
    ensures Has(s, b.queue, id)
  {
  }

  lemma StrayPost(lw: State, lu: State, rep: State, a: Action, now0: int, b: Action, now: int)
    requires Astray(lw, lu, rep, a, now0, b, now) && a.Post? && CanReplay(lw, rep, a, now0)
    ensures Restored(lu, Replays(lw, rep, a, now0), b, now) <==> Harmless(lw, lu, a, b, now)
  {
    hide Sound, Related, Logged, Doubles, ValidName, IsFirst, Restored, FormatId, Enabled, Quieter, Filed;
    var n, id, rep1 := a.queue, FormatId(lw.counter + 1), Replays(lw, rep, a, now0);
    Unissued(lw, lu, rep, a, now0, b, now);
    SameQueues(lu, rep, now);
    CanAlways(lu, rep, b, now);
    DoublesIs(lu, rep1, b, now);
    if lu.counter == lw.counter && b.Post? && b.queue == n {
      assert Replays(lu, rep1, b, now).queues[n].msgs == Replays(lu, rep, b, now).queues[n].msgs;
      assert Replays(lu, rep1, b, now).queues == Replays(lu, rep, b, now).queues;
      assert rep.(counter := rep.counter) == rep;
      Overwritten(lu, rep, b, now, rep.counter, rep1);
    } else if Deletes(b, n) {
      if lu.counter == lw.counter {
        CounterTells(Effect(lu, b, now), Replays(lu, rep1, b, now), now);
        TellsAll(lu, rep1, b, now);
      } else {
        assert Replays(lu, rep1, b, now).queues == Replays(lu, rep.(counter := lw.counter + 1), b, now).queues;
        Overwritten(lu, rep, b, now, lw.counter + 1, rep1);
      }
    } else {
      StrayStays(lw, lu, rep, a, now0, b, now);
    }
  }

  lemma CounterTells(live: State, rep: State, now: int)
    requires live.counter < rep.counter
    ensures !Related(live, rep, now)
  {
  }

  /** The message that was not sent is still there after the next action. */
  lemma StrayStays(lw: State, lu: State, rep: State, a: Action, now0: int, b: Action, now: int)
    requires Astray(lw, lu, rep, a, now0, b, now) && a.Post? && CanReplay(lw, rep, a, now0)
    requires !(lu.counter == lw.counter && b.Post? && b.queue == a.queue) && !Deletes(b, a.queue)
    ensures !Restored(lu, Replays(lw, rep, a, now0), b, now)
  {
    hide Sound, Related, Logged, Doubles, ValidName, IsFirst, Restored, FormatId, Quieter, Filed;
    var n, id, rep1 := a.queue, FormatId(lw.counter + 1), Replays(lw, rep, a, now0);
    Unissued(lw, lu, rep, a, now0, b, now);
    if CanReplay(lu, rep1, b, now) {
      if b.Post? && lu.counter == lw.counter {
        assert !Has(lu, n, id);
        HasTells(Effect(lu, b, now), Replays(lu, rep1, b, now), now, n, id);
      } else {
        if Concerns(b, id) { ConcernsLive(lu, b, now, id); }
        SoundIsFiled(lu);
        PostedFiled(lw, rep, a, now0);
        Bystander(lu, rep1, b, now, n, id);
        HasTells(Effect(lu, b, now), Replays(lu, rep1, b, now), now, n, id);
      }
    }
    TellsAll(lu, rep1, b, now);
  }

  lemma PostedFiled(lw: State, rep: State, a: Action, now0: int)
    requires Sound(rep) && Sound(lw) && Related(lw, rep, now0) && now0 >= 0 && Enabled(lw, a, now0)
    requires Logged(lw, a, now0).Some? && CanReplay(lw, rep, a, now0)
    ensures Filed(Replays(lw, rep, a, now0)) && Sound(Replays(lw, rep, a, now0))
  {
    hide Sound, Related, Enabled, Logged, Replays, CanReplay, Filed, Apply;
    ReplayFollows(lw, rep, a, now0);
    ReplayIs(lw, rep, a, now0);
    SoundIsFiled(Replays(lw, rep, a, now0));
  }

  // ---- records about one message -----------------------------------------

  lemma WakesQuietly(s: State, b: Action, now: int)
    requires Enabled(s, b, now) && Logged(s, b, now).Some?
    ensures !b.Wake?
  {
  }

  /** The message the stray record is about, in all three states. */
  lemma OneMessage(lw: State, lu: State, rep: State, a: Action, now0: int, b: Action, now: int)
    requires Astray(lw, lu, rep, a, now0, b, now)
    requires a.Grant? || a.Settle? || a.Return? || a.Prolong? || a.Bury? || a.Shift?
    ensures Has(lw, a.queue, a.id) && Has(lu, a.queue, a.id) && Has(rep, a.queue, a.id)
    ensures At(lw, a.queue, a.id).id == At(lu, a.queue, a.id).id == At(rep, a.queue, a.id).id == a.id
    ensures Settles(At(lw, a.queue, a.id), At(lu, a.queue, a.id), now)
    ensures MsgRelated(At(lw, a.queue, a.id), At(rep, a.queue, a.id), now0)
    ensures MsgRelated(At(lu, a.queue, a.id), At(rep, a.queue, a.id), now)
    ensures lu.queues[a.queue].cfg == lw.queues[a.queue].cfg && rep.counter <= lw.counter <= lu.counter
    ensures forall n :: Has(lu, n, a.id) || Has(rep, n, a.id) ==> n == a.queue
    ensures Concerns(b, a.id) ==> b.queue == a.queue && !b.Wake?
  {
    hide Sound, Related, Logged, ValidName, MsgRelated, Settles, IsFirst;
    WakesQuietly(lu, b, now);
    assert Has(lw, a.queue, a.id);
    BothHave(lw, rep, now0, a.queue, a.id);
    BothHave(lu, rep, now, a.queue, a.id);
    SoundIsFiled(lu);
    SoundIsFiled(rep);
    if Concerns(b, a.id) { ConcernsLive(lu, b, now, a.id); }
  }

  /** The next action is about another message, and the two sides differ on this one. */
  lemma Differs(lu: State, rep1: State, b: Action, now: int, n: string, id: string)
    requires Sound(lu) && Filed(rep1) && Enabled(lu, b, now) && Logged(lu, b, now).Some? && Has(lu, n, id)
    requires !Concerns(b, id) && !Deletes(b, n)
    requires Has(rep1, n, id) ==> !MsgRelated(At(lu, n, id), At(rep1, n, id), now)
    ensures !Restored(lu, rep1, b, now)
  {
    hide Sound, Related, Logged, Doubles, IsFirst, Restored, MsgRelated, Replays, CanReplay, Effect, Enabled, Concerns,
      FormatId;
    NextIdIsFresh(lu, n);
    if CanReplay(lu, rep1, b, now) {
      SoundIsFiled(lu);
      Bystander(lu, rep1, b, now, n, id);
      if Has(rep1, n, id) {
        MsgTells(Effect(lu, b, now), Replays(lu, rep1, b, now), now, n, id);
      } else {
        HasTells(Effect(lu, b, now), Replays(lu, rep1, b, now), now, n, id);
      }
    }
    TellsAll(lu, rep1, b, now);
  }

  /** Deleting the queue does away with what a record about one of its messages says. */
  lemma DeletedWith(lu: State, rep: State, rep1: State, b: Action, now: int)
    requires Sound(lu) && Sound(rep) && Related(lu, rep, now) && now >= 0 && b.Delete? && Enabled(lu, b, now)
    requires rep.counter <= rep1.counter <= lu.counter && Drop(rep1, b.queue).queues == Drop(rep, b.queue).queues
    requires b.queue in rep1.queues
    ensures Restored(lu, rep1, b, now)
  {
    hide Sound, Related, Doubles, Restored, Apply;
    CanAlways(lu, rep, b, now);
    DoublesIs(lu, rep1, b, now);
    Overwritten(lu, rep, b, now, rep1.counter, rep1);
  }

  lemma DropsPut(s: State, n: string, m: Msg, c: nat)
    requires n in s.queues
    ensures Drop(Put(s, n, m).(counter := c), n).queues == Drop(s, n).queues
    ensures forall id :: Drop(Take(s, n, id), n).queues == Drop(s, n).queues
  {
  }

  lemma StrayGrant(lw: State, lu: State, rep: State, a: Action, now0: int, b: Action, now: int)
    requires Astray(lw, lu, rep, a, now0, b, now) && a.Grant? && CanReplay(lw, rep, a, now0)
    ensures Restored(lu, Replays(lw, rep, a, now0), b, now) <==> Harmless(lw, lu, a, b, now)
  {
    hide Sound, Related, Logged, Doubles, ValidName, Restored, FormatId, FormatReceipt, Quieter, Filed;
    var n, id, rep1 := a.queue, a.id, Replays(lw, rep, a, now0);
    OneMessage(lw, lu, rep, a, now0, b, now);
    CanAlways(lu, rep, b, now);
    PostedFiled(lw, rep, a, now0);
    DoublesIs(lu, rep1, b, now);
    if Deletes(b, n) {
      DropsPut(rep, n, At(rep1, n, id), rep1.counter);
      DeletedWith(lu, rep, rep1, b, now);
    } else if Concerns(b, id) {
      var rep0 := rep.(counter := rep1.counter);
      assert b.Grant? || b.Shift?;
      if b.Grant? { Regranted(lu, rep0, rep1, b, now, n, id); } else { Reshifted(lu, rep0, rep1, b, now, n, id); }
      Overwritten(lu, rep, b, now, rep1.counter, rep1);
    } else {
      Differs(lu, rep1, b, now, n, id);
    }
  }

  /** rep1 is rep0 with message id of queue n replaced by m1. */
  predicate Edited(rep0: State, rep1: State, n: string, id: string) {
    && Has(rep0, n, id) && Has(rep1, n, id) && rep1 == Put(rep0, n, At(rep1, n, id))
    && At(rep1, n, id).id == id == At(rep0, n, id).id
    && At(rep1, n, id).pos == At(rep0, n, id).pos && At(rep1, n, id).body == At(rep0, n, id).body
    && At(rep1, n, id).sentAt == At(rep0, n, id).sentAt && At(rep1, n, id).notBefore == At(rep0, n, id).notBefore
  }

  lemma PutTwice(s: State, n: string, m: Msg, m': Msg)
    requires n in s.queues && m.id == m'.id
    ensures Put(Put(s, n, m), n, m') == Put(s, n, m') && Take(Put(s, n, m), n, m.id) == Take(s, n, m.id)
  {
    assert s.queues[n].msgs[m.id := m][m'.id := m'] == s.queues[n].msgs[m'.id := m'];
    assert s.queues[n].msgs[m.id := m] - {m.id} == s.queues[n].msgs - {m.id};
    assert Put(Put(s, n, m), n, m').queues == Put(s, n, m').queues;
    assert Take(Put(s, n, m), n, m.id).queues == Take(s, n, m.id).queues;
  }

  lemma Regranted(lu: State, rep0: State, rep1: State, b: Action, now: int, n: string, id: string)
    requires Enabled(lu, b, now) && b.Grant? && b.queue == n && b.id == id && Edited(rep0, rep1, n, id)
    ensures Replays(lu, rep1, b, now) == Replays(lu, rep0, b, now)
  {
    hide FormatReceipt, IsFirst;
    var m := LeasedMsg(lu, At(lu, n, id), b.visibility, now);
    PutTwice(rep0, n, At(rep1, n, id),
             At(rep0, n, id).(phase := Leased, receipt := m.receipt, deadline := m.deadline, receives := m.receives));
  }

  lemma Reshifted(lu: State, rep0: State, rep1: State, b: Action, now: int, n: string, id: string)
    requires Enabled(lu, b, now) && b.Shift? && b.queue == n && b.id == id && Edited(rep0, rep1, n, id)
    requires b.to in rep0.queues
    ensures Replays(lu, rep1, b, now) == Replays(lu, rep0, b, now)
  {
    hide IsFirst;
    PutTwice(rep0, n, At(rep1, n, id), At(rep1, n, id));
  }

  lemma StraySettle(lw: State, lu: State, rep: State, a: Action, now0: int, b: Action, now: int)
    requires Astray(lw, lu, rep, a, now0, b, now) && CanReplay(lw, rep, a, now0)
    requires a.Settle? || (a.Bury? && TargetOf(lw, a.queue) == "")
    ensures Restored(lu, Replays(lw, rep, a, now0), b, now) <==> Harmless(lw, lu, a, b, now)
  {
    hide Sound, Related, Logged, Doubles, ValidName, Restored, FormatId, FormatReceipt, Quieter, Filed, MsgRelated;
    var n, id, rep1 := a.queue, a.id, Replays(lw, rep, a, now0);
    OneMessage(lw, lu, rep, a, now0, b, now);
    CanAlways(lu, rep, b, now);
    PostedFiled(lw, rep, a, now0);
    if Deletes(b, n) {
      DropsPut(rep, n, At(rep, n, id), 0);
      DeletedWith(lu, rep, rep1, b, now);
    } else if Concerns(b, id) {
      assert !CanReplay(lu, rep1, b, now);
      TellsAll(lu, rep1, b, now);
    } else {
      Differs(lu, rep1, b, now, n, id);
    }
  }

  /** A message moved in the log but not in memory: nothing puts that right. */
  lemma StrayMove(lw: State, lu: State, rep: State, a: Action, now0: int, b: Action, now: int)
    requires Astray(lw, lu, rep, a, now0, b, now) && CanReplay(lw, rep, a, now0)
    requires a.Shift? || (a.Bury? && TargetOf(lw, a.queue) != "")
    ensures !Restored(lu, Replays(lw, rep, a, now0), b, now) && !Harmless(lw, lu, a, b, now)
  {
    hide Sound, Related, Logged, Doubles, ValidName, Restored, FormatId, FormatReceipt, Quieter, Filed, MsgRelated;
    var n, id, rep1 := a.queue, a.id, Replays(lw, rep, a, now0);
    OneMessage(lw, lu, rep, a, now0, b, now);
    PostedFiled(lw, rep, a, now0);
    QueueNamed(lw, n);
    if Deletes(b, n) {
      var to := if a.Shift? then a.to else TargetOf(lw, n);
      assert to != n && Has(rep1, to, id) && !Has(lu, to, id);
      HasTells(Effect(lu, b, now), Replays(lu, rep1, b, now), now, to, id);
      TellsAll(lu, rep1, b, now);
    } else if Concerns(b, id) {
      assert !CanReplay(lu, rep1, b, now);
      TellsAll(lu, rep1, b, now);
    } else {
      Differs(lu, rep1, b, now, n, id);
    }
  }

  lemma PutSelf(s: State, n: string, id: string)
    requires Has(s, n, id) && At(s, n, id).id == id
    ensures Put(s, n, At(s, n, id)).(counter := s.counter) == s
  {
    assert s.queues[n].msgs[id := At(s, n, id)] == s.queues[n].msgs;
    assert Put(s, n, At(s, n, id)).queues == s.queues;
  }

  /** The stray record changes the replayed message to m1, which the live one is related to as well. */
  lemma EditedAnyway(lu: State, rep: State, rep1: State, b: Action, now: int, n: string, id: string)
    requires Sound(lu) && Sound(rep) && Sound(rep1) && Related(lu, rep, now) && now >= 0
    requires Enabled(lu, b, now) && Logged(lu, b, now).Some?
    requires Has(lu, n, id) && At(lu, n, id).id == id && Edited(rep, rep1, n, id)
    requires MsgRelated(At(lu, n, id), At(rep1, n, id), now)
    ensures Restored(lu, rep1, b, now)
  {
    hide Sound, Related, Logged, Enabled, Restored, MsgRelated;
    SameQueues(lu, rep, now);
    PutSelf(lu, n, id);
    RelatedReplace(lu, rep, now, n, At(lu, n, id), At(rep1, n, id), lu.counter, rep.counter);
    NothingNew(lu, rep1, b, now);
  }

  lemma StrayReturn(lw: State, lu: State, rep: State, a: Action, now0: int, b: Action, now: int)
    requires Astray(lw, lu, rep, a, now0, b, now) && a.Return? && CanReplay(lw, rep, a, now0)
    ensures Restored(lu, Replays(lw, rep, a, now0), b, now) <==> Harmless(lw, lu, a, b, now)
  {
    hide Sound, Related, Logged, Doubles, ValidName, Restored, FormatId, FormatReceipt, Quieter, Filed;
    var n, id, rep1 := a.queue, a.id, Replays(lw, rep, a, now0);
    OneMessage(lw, lu, rep, a, now0, b, now);
    CanAlways(lu, rep, b, now);
    PostedFiled(lw, rep, a, now0);
    DoublesIs(lu, rep1, b, now);
    if Deletes(b, n) {
      DropsPut(rep, n, At(rep1, n, id), rep.counter);
      DeletedWith(lu, rep, rep1, b, now);
    } else if At(lu, n, id).phase == Ready {
      EditedAnyway(lu, rep, rep1, b, now, n, id);
    } else if b.Settle? && b.id == id {
      PutTwice(rep, n, At(rep1, n, id), At(rep1, n, id));
      assert rep.(counter := rep.counter) == rep;
      Overwritten(lu, rep, b, now, rep.counter, rep1);
    } else if Concerns(b, id) {
      assert b.Return? || b.Prolong?;
      if b.Prolong? {
        MsgTells(Effect(lu, b, now), Replays(lu, rep1, b, now), now, n, id);
        TellsAll(lu, rep1, b, now);
      } else {
        DoublesAll(lu, rep1, b, now);
      }
    } else {
      Differs(lu, rep1, b, now, n, id);
    }
  }

  lemma DoublesAll(lu: State, rep1: State, b: Action, now: int)
    requires Enabled(lu, b, now) && Logged(lu, b, now).Some? && Doubles(rep1, Logged(lu, b, now).value)
    ensures !Restored(lu, rep1, b, now)
  {
    hide Sound, Related, Enabled, Effect, Logged, Replays, CanReplay, Doubles;
  }

  /** Whatever is next logged about a message overwrites its deadline. */
  lemma DeadlineOverwritten(lu: State, rep: State, rep1: State, b: Action, now: int, n: string, id: string)
    requires Enabled(lu, b, now) && Logged(lu, b, now).Some? && Concerns(b, id) && b.queue == n
    requires Edited(rep, rep1, n, id) && At(rep1, n, id) == At(rep, n, id).(deadline := At(rep1, n, id).deadline)
    requires CanReplay(lu, rep, b, now) && !b.Wake?
    ensures CanReplay(lu, rep1, b, now) && Replays(lu, rep1, b, now) == Replays(lu, rep, b, now)
  {
    hide FormatReceipt, IsFirst, FormatId, ValidName, Logged, Edited;
    EditedPut(rep, rep1, n, id);
    var m := At(rep1, n, id);
    PutTwice(rep, n, m, m.MakeReady());
    PutTwice(rep, n, m, m);
    if b.Grant? { Regranted(lu, rep, rep1, b, now, n, id); }
    if b.Prolong? { PutTwice(rep, n, m, At(rep, n, id).(deadline := b.deadline)); }
    if b.Shift? { Reshifted(lu, rep, rep1, b, now, n, id); }
    if b.Return? { PutTwice(rep, n, m, At(rep, n, id).MakeReady()); }
  }

  lemma EditedPut(rep: State, rep1: State, n: string, id: string)
    requires Edited(rep, rep1, n, id)
    ensures Has(rep, n, id) && Has(rep1, n, id) && rep1 == Put(rep, n, At(rep1, n, id)) && At(rep1, n, id).id == id
    ensures At(rep, n, id).id == id && rep1.queues.Keys == rep.queues.Keys && rep1.counter == rep.counter
  {
  }

  lemma StrayProlong(lw: State, lu: State, rep: State, a: Action, now0: int, b: Action, now: int)
    requires Astray(lw, lu, rep, a, now0, b, now) && a.Prolong? && CanReplay(lw, rep, a, now0)
    ensures Restored(lu, Replays(lw, rep, a, now0), b, now) <==> Harmless(lw, lu, a, b, now)
  {
    hide Sound, Related, Logged, Doubles, ValidName, Restored, FormatId, FormatReceipt, Quieter, Filed, IsFirst;
    var n, id, rep1 := a.queue, a.id, Replays(lw, rep, a, now0);
    OneMessage(lw, lu, rep, a, now0, b, now);
    CanAlways(lu, rep, b, now);
    PostedFiled(lw, rep, a, now0);
    DoublesIs(lu, rep1, b, now);
    if Deletes(b, n) {
      DropsPut(rep, n, At(rep1, n, id), rep.counter);
      DeletedWith(lu, rep, rep1, b, now);
    } else if Concerns(b, id) {
      DeadlineOverwritten(lu, rep, rep1, b, now, n, id);
      assert rep.(counter := rep.counter) == rep;
      Overwritten(lu, rep, b, now, rep.counter, rep1);
    } else if MsgRelated(At(lu, n, id), At(rep1, n, id), now) {
      EditedAnyway(lu, rep, rep1, b, now, n, id);
    } else {
      Differs(lu, rep1, b, now, n, id);
    }
  }

  // ---- the log after a stray record --------------------------------------

  /** r is about a message that must exist. */
  predicate AboutMessage(r: Record) {
    r.op != QueueCreate && r.op != QueueDelete && r.op != Op.Send
  }

  /** What replaying r needs of a state, its body and configuration being readable. */
  predicate Needs(s: State, r: Record) {
    && (r.op == QueueDelete || r.op == Op.Send ==> r.queue in s.queues)
    && (AboutMessage(r) ==> Has(s, r.queue, r.id))
    && ((r.op == Dead || r.op == Move) && r.to != "" ==> r.to in s.queues)
  }

  lemma ApplyNeeds(s: State, s': State, r: Record)
    requires Apply(s, r).Ok?
    ensures Apply(s', r).Ok? <==> Needs(s', r)
  {
    hide Base64.Decode, BumpSeq, SeqOf, ParseConfig;
  }

  /** r asks for what action a has taken away. */
  predicate Unseated(a: Action, r: Record) {
    match a
    case Settle(_, id, _) => AboutMessage(r) && r.id == id
    case Bury(_, id, _) => AboutMessage(r) && r.id == id
    case Shift(_, id, _, _) => AboutMessage(r) && r.id == id
    case Delete(n, _) => (r.queue == n && r.op != QueueCreate) || (r.to == n && (r.op == Dead || r.op == Move))
    case _ => false
  }

  /** What the record of an action takes away when it is replayed. */
  lemma StrayTakes(live: State, rep: State, a: Action, now: int)
    requires Sound(live) && Sound(rep) && Related(live, rep, now) && now >= 0
    requires Enabled(live, a, now) && Logged(live, a, now).Some? && Apply(rep, Logged(live, a, now).value).Ok?
    ensures a.Delete? ==> a.queue != ""
    ensures var rep' := Apply(rep, Logged(live, a, now).value).value;
      && (forall n :: n in rep.queues ==> (n in rep'.queues <==> !(a.Delete? && a.queue == n)))
      && (forall n, id :: Has(rep, n, id) ==>
            (Has(rep', n, id) <==>
               !(a.Delete? && a.queue == n) && !((a.Settle? || a.Bury? || a.Shift?) && a.id == id)))
  {
    hide Sound, Related, Base64.Decode, Base64.Encode, Utf8.Valid, FormatId, FormatReceipt, ParseHex, TrimR, IsFirst,
      ValidName, ParseConfig, SeqOf, BumpSeq;
    SoundIsFiled(rep);
    SameQueues(live, rep, now);
    if a.Settle? || a.Bury? || a.Shift? || a.Grant? || a.Return? || a.Prolong? {
      BothHave(live, rep, now, a.queue, a.id);
      QueueNamed(live, a.queue);
    }
    if a.Delete? { QueueNamed(live, a.queue); }
    if a.Shift? { QueueNamed(live, a.to); }
  }

  lemma UnseatedNeeds(live: State, rep: State, a: Action, now: int, r: Record)
    requires Sound(live) && Sound(rep) && Related(live, rep, now) && now >= 0
    requires Enabled(live, a, now) && Logged(live, a, now).Some? && Apply(rep, Logged(live, a, now).value).Ok?
    requires Needs(rep, r)
    ensures Needs(Apply(rep, Logged(live, a, now).value).value, r) <==> !Unseated(a, r)
  {
    hide Sound, Related, Enabled, Logged, Apply;
    StrayTakes(live, rep, a, now);
  }

  /**
   An append that fails after its bytes have reached the file leaves a record of
   what did not happen.  `u` is the engine some time later, having logged nothing
   since: its next record can be replayed after the stray one exactly if it does
   not ask for the message or queue the stray one takes away.
   */
  lemma StrayRecord(w: World, a: Action, u: World, a': Action)
    requires Inv(w) && Enabled(w.live, a, w.clock) && Logged(w.live, a, w.clock).Some?
    requires Inv(u) && Enabled(u.live, a', u.clock) && Logged(u.live, a', u.clock).Some? && u.log == w.log
    ensures var stray, next := Logged(w.live, a, w.clock).value, Logged(u.live, a', u.clock).value;
      Load(EMPTY, w.log + [stray]).Ok? && (Load(EMPTY, w.log + [stray] + [next]).Ok? <==> !Unseated(a, next))
  {
    hide Inv, Sound, Related, Load, Enabled, Logged, Apply, Needs, Unseated;
    InvParts(w);
    InvParts(u);
    var stray, next := Logged(w.live, a, w.clock).value, Logged(u.live, a', u.clock).value;
    var rep := Replayed(w);
    ReplayFollows(w.live, rep, a, w.clock);
    ReplayFollows(u.live, rep, a', u.clock);
    ApplyNeeds(rep, rep, next);
    UnseatedNeeds(w.live, rep, a, w.clock, next);
    LoadOne(w.log, stray);
    ApplyNeeds(rep, Apply(rep, stray).value, next);
    LoadOne(w.log + [stray], next);
  }

  /** Acknowledging again what an append failed to acknowledge can leave a log that no longer loads. */
  lemma StrayAck(w: World, n: string, id: string, ts: int, ts': int)
    requires Inv(w) && Enabled(w.live, Settle(n, id, ts), w.clock) && Enabled(w.live, Settle(n, id, ts'), w.clock)
    ensures var stray, next := Logged(w.live, Settle(n, id, ts), w.clock).value,
                               Logged(w.live, Settle(n, id, ts'), w.clock).value;
      Load(EMPTY, w.log + [stray] + [next]).Err?
  {
    hide Inv, Load, Enabled;
    StrayRecord(w, Settle(n, id, ts), w, Settle(n, id, ts'));
  }

  /** The log replays to a sound state that is related to the live one. */
  ghost predicate Recovers(log: seq<Record>, live: State, now: int) {
    Load(EMPTY, log).Ok? && Sound(Load(EMPTY, log).value) && Related(live, Load(EMPTY, log).value, now)
  }

  /** What the engine is left in by an append that fails. */
  function RolledBack(w: World, a: Action): World {
    if a.Grant? then Acts(w, Burn) else w
  }

  lemma StrayCases(lw: State, lu: State, rep: State, a: Action, now0: int, b: Action, now: int)
    requires Astray(lw, lu, rep, a, now0, b, now) && CanReplay(lw, rep, a, now0)
    ensures Restored(lu, Replays(lw, rep, a, now0), b, now) <==> Harmless(lw, lu, a, b, now)
  {
    hide Sound, Related, Logged, Doubles, ValidName, Restored, Quieter, Replays, CanReplay, IsFirst;
    WakesQuietly(lw, a, now0);
    match a
    case Configure(_, _, _) => StrayConfigure(lw, lu, rep, a, now0, b, now);
    case Delete(_, _) => StrayDelete(lw, lu, rep, a, now0, b, now);
    case Post(_, _, _) => StrayPost(lw, lu, rep, a, now0, b, now);
    case Grant(_, _, _) => StrayGrant(lw, lu, rep, a, now0, b, now);
    case Settle(_, _, _) => StraySettle(lw, lu, rep, a, now0, b, now);
    case Return(_, _, _) => StrayReturn(lw, lu, rep, a, now0, b, now);
    case Prolong(_, _, _, _) => StrayProlong(lw, lu, rep, a, now0, b, now);
    case Bury(n, _, _) =>
      if TargetOf(lw, n) == "" {
        StraySettle(lw, lu, rep, a, now0, b, now);
      } else {
        StrayMove(lw, lu, rep, a, now0, b, now);
      }
    case Shift(_, _, _, _) => StrayMove(lw, lu, rep, a, now0, b, now);
    case Burn => SilentAction(lw, a, now0);
    case Tick(_) => SilentAction(lw, a, now0);
  }

  lemma SilentAction(s: State, a: Action, now: int)
    requires Enabled(s, a, now) && (a.Burn? || a.Tick?)
    ensures Logged(s, a, now).None?
  {
  }

  /** Everything the theorem is about, found in a run. */
  lemma InARun(w: World, a: Action, u: World, b: Action)
    requires Reachable(w) && Enabled(w.live, a, w.clock) && Logged(w.live, a, w.clock).Some?
    requires Continues(RolledBack(w, a), u) && u.log == w.log
    requires Enabled(u.live, b, u.clock) && Logged(u.live, b, u.clock).Some?
    ensures Inv(w) && Inv(u) && Replayed(u) == Replayed(w)
    ensures Astray(w.live, u.live, Replayed(w), a, w.clock, b, u.clock)
    ensures CanReplay(w.live, Replayed(w), a, w.clock)
  {
    hide Reachable, Inv, Sound, Related, Enabled, Effect, Logged, Outcomes, Deliveries, After, Quieter, CanReplay, Load;
    var w0 := RolledBack(w, a);
    RolledQuietly(w, a);
    var actions :| After(w0, actions) == Some(u);
    QuietRun(w0, actions, u);
    QuietJoin(w.live, w0.live, u.live, w.clock, u.clock);
    AfterReachable(w0, actions, u);
    ReachableInv(w);
    ReachableInv(u);
    InvParts(w);
    InvParts(u);
    QuietCounter(w0.live, u.live, u.clock);
    CanAlways(w.live, Replayed(w), a, w.clock);
  }

  lemma QuietCounter(s: State, s': State, now: int)
    requires Quieter(s, s', now)
    ensures s.counter <= s'.counter
  {
    hide Settles;
  }

  lemma RolledQuietly(w: World, a: Action)
    requires Reachable(w)
    ensures var w0 := RolledBack(w, a);
      && Reachable(w0) && w0.log == w.log && w0.clock == w.clock && Quieter(w.live, w0.live, w.clock)
      && (a.Grant? ==> w.live.counter < w0.live.counter)
  {
    hide Reachable, Outcomes, Deliveries, Filed;
    QuietNothing(w.live, w.clock);
    LiveFiled(w);
    if a.Grant? {
      ReachableActs(w, Burn);
      QuietStep(w.live, Burn, w.clock);
    }
  }

  /**
   When a stray record does no harm.  The append for a failed in world w but left
   its record behind; the engine went on to u without logging anything, and then
   logs b.  Replaying the log gives a sound state related to the live one, filing
   no message twice, exactly if b overwrites what the stray record says or it
   says nothing new.
   */
  lemma StrayHarmless(w: World, a: Action, u: World, b: Action)
    requires Reachable(w) && Enabled(w.live, a, w.clock) && Logged(w.live, a, w.clock).Some?
    requires Continues(RolledBack(w, a), u) && u.log == w.log
    requires Enabled(u.live, b, u.clock) && Logged(u.live, b, u.clock).Some?
    ensures var stray, next := Logged(w.live, a, w.clock).value, Logged(u.live, b, u.clock).value;
      && Load(EMPTY, w.log + [stray]).Ok?
      && ((Recovers(w.log + [stray] + [next], Effect(u.live, b, u.clock), u.clock)
           && !Doubles(Load(EMPTY, w.log + [stray]).value, next))
          <==> Harmless(w.live, u.live, a, b, u.clock))
  {
    hide Reachable, Inv, Sound, Related, Enabled, Effect, Logged, Load, Continues, Replays, CanReplay, Harmless,
      Doubles, Quieter, Apply, RolledBack;
    InARun(w, a, u, b);
    var rep := Replayed(w);
    var stray, next := Logged(w.live, a, w.clock).value, Logged(u.live, b, u.clock).value;
    StrayCases(w.live, u.live, rep, a, w.clock, b, u.clock);
    var rep1 := Replays(w.live, rep, a, w.clock);
    ReplayIs(w.live, rep, a, w.clock);
    ReplayIs(u.live, rep1, b, u.clock);
    InvParts(w);
    LoadOne(w.log, stray);
    LoadOne(w.log + [stray], next);
  }

  /** Once the log is right again it stays so. */
  lemma {:induction false} RightFromThenOn(w: World, actions: seq<Action>, w': World)
    requires Recovers(w.log, w.live, w.clock) && Sound(w.live) && w.clock >= 0 && After(w, actions) == Some(w')
    ensures Recovers(w'.log, w'.live, w'.clock) && Sound(w'.live) && w'.clock >= 0
    decreases |actions|
  {
    hide Sound, Related, Enabled, Effect, Logged, Outcomes, Deliveries, Load, Apply;
    if actions != [] {
      var k := |actions| - 1;
      var mid, a := After(w, actions[..k]).value, actions[k];
      RightFromThenOn(w, actions[..k], mid);
      var rep := Load(EMPTY, mid.log).value;
      ReplayFollows(mid.live, rep, a, mid.clock);
      EffectSound(mid.live, a, mid.clock);
      ClockForward(mid.live, a, mid.clock);
      if Logged(mid.live, a, mid.clock).Some? {
        LoadOne(mid.log, Logged(mid.live, a, mid.clock).value);
        LogsNow(mid.live, a, mid.clock);
      }
    }
  }

  lemma LogsNow(s: State, a: Action, now: int)
    requires Enabled(s, a, now) && Logged(s, a, now).Some?
    ensures ClockAfter(a, now) == now
  {
  }

  /** A failed send and the next one to another queue leave one ID in two queues. */
  lemma StrayTwin(w: World, n: string, body: seq<byte>, delay: int, n': string, body': seq<byte>, delay': int)
    requires Inv(w) && n != n'
    requires Enabled(w.live, Post(n, body, delay), w.clock) && Enabled(w.live, Post(n', body', delay'), w.clock)
    ensures var stray, next := Logged(w.live, Post(n, body, delay), w.clock).value,
                               Logged(w.live, Post(n', body', delay'), w.clock).value;
      && Load(EMPTY, w.log + [stray] + [next]).Ok? && stray.id == next.id
      && Has(Load(EMPTY, w.log + [stray] + [next]).value, n, next.id)
      && Has(Load(EMPTY, w.log + [stray] + [next]).value, n', next.id)
  {
    hide Inv, Sound, Related, Load, FormatId, Apply, Base64.Encode, Utf8.Valid;
    InvParts(w);
    var rep := Replayed(w);
    var stray, next := Logged(w.live, Post(n, body, delay), w.clock).value,
      Logged(w.live, Post(n', body', delay'), w.clock).value;
    SameQueues(w.live, rep, w.clock);
    ReplayIs(w.live, rep, Post(n, body, delay), w.clock);
    var rep1 := Replays(w.live, rep, Post(n, body, delay), w.clock);
    ReplayIs(w.live, rep1, Post(n', body', delay'), w.clock);
    LoadOne(w.log, stray);
    LoadOne(w.log + [stray], next);
  }

  /** A failed return and a second try: the record of the second files the message twice when it is replayed. */
  lemma StrayReturnDoubles(w: World, n: string, id: string, ts: int, ts': int)
    requires Inv(w) && Enabled(w.live, Return(n, id, ts), w.clock) && Enabled(w.live, Return(n, id, ts'), w.clock)
    ensures var stray, next := Logged(w.live, Return(n, id, ts), w.clock).value,
                               Logged(w.live, Return(n, id, ts'), w.clock).value;
      Load(EMPTY, w.log + [stray]).Ok? && Doubles(Load(EMPTY, w.log + [stray]).value, next)
  {
    hide Inv, Sound, Related, Load, Apply;
    InvParts(w);
    var rep := Replayed(w);
    BothHave(w.live, rep, w.clock, n, id);
    ReplayIs(w.live, rep, Return(n, id, ts), w.clock);
    LoadOne(w.log, Logged(w.live, Return(n, id, ts), w.clock).value);
  }
}
