/** What the engine's runs of actions amount to: leases in FIFO order, and redrive as a splice. */
module EngineLaws {
  import opened Wrappers
  import opened Errors
  import opened Ids
  import opened State
  import opened Steps
  import opened Snapshot
  import opened Runs
  import opened Waiting
  import opened Order
  import opened Mirror
  import opened Sweeping
  import opened SweepLaws
  import opened QueueSweep
  import opened Journeys
  import opened Agreement
  import opened Replay
  import opened Machine
  import opened Effects
  import opened Engine

  // ---- receive -----------------------------------------------------------

  /** Messages not in ids are as they were. */
  ghost predicate Untouched(s: State, s': State, ids: seq<string>) {
    && (forall n, id :: id !in ids ==> (Has(s', n, id) <==> Has(s, n, id)))
    && (forall n, id :: id !in ids && Has(s, n, id) ==> At(s', n, id) == At(s, n, id))
  }

  /** ds are the first |ds| messages in line. */
  ghost predicate Fifo(s: State, s': State, n: string, ds: seq<Delivered>, deadline: int, line: seq<string>) {
    && |ds| <= |line|
    && (forall i :: 0 <= i < |ds| ==> ds[i].id == line[i] && HandedOut(s, n, ds[i], deadline, s'))
    && IsReadyOrder(s', n, line[|ds|..])
    && Untouched(s, s', line[..|ds|])
  }

  lemma LeasesPrefix(w: World, n: string, ds: seq<Delivered>, visibility: int, actions: seq<Action>, w': World)
    returns (mid: World)
    requires Leases(w, n, ds, visibility, None, actions, w') && ds != []
    ensures var k := |ds| - 1;
      && Leases(w, n, ds[..k], visibility, None, actions[..k], mid)
      && Did(mid, Grant(n, ds[k].id, visibility), w') && Handed(mid, n, ds[k])
  {
    hide Handed, Enabled, Acts;
    var k := |ds| - 1;
    assert LeasesAt(w, n, ds, visibility, actions, k);
    mid := After(w, actions[..k]).value;
    forall i | 0 <= i < k ensures LeasesAt(w, n, ds[..k], visibility, actions[..k], i)
    {
      assert LeasesAt(w, n, ds, visibility, actions, i);
      assert actions[..k][..i] == actions[..i];
    }
  }

  lemma FifoNothing(s: State, n: string, deadline: int, line: seq<string>)
    requires IsReadyOrder(s, n, line)
    ensures Fifo(s, s, n, [], deadline, line)
  {
    assert line[0..] == line;
  }

  lemma FifoMore(s: State, mid: World, n: string, ds: seq<Delivered>, deadline: int, line: seq<string>, d: Delivered,
                 visibility: int, w': World)
    requires IsReadyOrder(s, n, line) && Fifo(s, mid.live, n, ds, deadline, line) && Filed(mid.live)
    requires Did(mid, Grant(n, d.id, visibility), w') && Handed(mid, n, d)
    requires deadline == mid.clock + visibility
    ensures Fifo(s, w'.live, n, ds + [d], deadline, line) && w'.clock == mid.clock
  {
    hide IsReadyOrder, Enabled, Acts, Filed, FormatReceipt;
    var rest := line[|ds|..];
    GrantAdvances(mid, n, d.id, visibility, rest);
    GrantClock(mid, n, d.id, visibility, w');
    assert line[|ds|] == rest[0] == d.id;
    assert rest[1..] == line[|ds + [d]|..];
    LineDistinct(s, n, line);
    InOrder(mid.live, n, rest, 0);
    forall i | 0 <= i < |ds + [d]|
      ensures (ds + [d])[i].id == line[i] && HandedOut(s, n, (ds + [d])[i], deadline, w'.live)
    {
      if i < |ds| {
        assert HandedOut(s, n, ds[i], deadline, mid.live);
      } else {
        assert line[|ds|] !in line[..|ds|];
        assert Has(mid.live, n, d.id);
        assert Has(s, n, d.id);
      }
    }
    assert line[..|ds + [d]|] == line[..|ds|] + [d.id];
    forall n', id | id !in line[..|ds + [d]|]
      ensures Has(w'.live, n', id) <==> Has(s, n', id)
      ensures Has(s, n', id) ==> At(w'.live, n', id) == At(s, n', id)
    {
      assert id !in line[..|ds|] && id != d.id;
      assert Has(mid.live, n', id) <==> Has(s, n', id);
    }
  }

  lemma GrantClock(w: World, n: string, id: string, visibility: int, w': World)
    requires Did(w, Grant(n, id, visibility), w')
    ensures w'.clock == w.clock
  {
    hide Enabled, Effect, Logged, Outcomes, Deliveries;
  }

  lemma LineDistinct(s: State, n: string, line: seq<string>)
    requires IsReadyOrder(s, n, line)
    ensures forall i, j :: 0 <= i < j < |line| ==> line[i] != line[j]
  {
    forall i, j | 0 <= i < j < |line| ensures line[i] != line[j]
    {
      InOrder(s, n, line, i);
      InOrder(s, n, line, j);
    }
  }

  lemma {:induction false} LeasesAreFifo(w: World, n: string, ds: seq<Delivered>, visibility: int, actions: seq<Action>,
                                         w': World, line: seq<string>)
    requires Reachable(w) && Leases(w, n, ds, visibility, None, actions, w') && IsReadyOrder(w.live, n, line)
    ensures Fifo(w.live, w'.live, n, ds, w.clock + visibility, line) && w'.clock == w.clock
    decreases |ds|
  {
    hide Reachable, Fifo, Leases, Handed, IsReadyOrder, Did, Sound, After, Filed;
    if ds == [] {
      NothingLeased(w, n, visibility, actions, w');
      FifoNothing(w.live, n, w.clock + visibility, line);
    } else {
      var k := |ds| - 1;
      LeasesAfter(w, n, ds, visibility, actions, w');
      var mid := LeasesPrefix(w, n, ds, visibility, actions, w');
      LeasesAreFifo(w, n, ds[..k], visibility, actions[..k], mid, line);
      LeasesAfter(w, n, ds[..k], visibility, actions[..k], mid);
      AfterReachable(w, actions[..k], mid);
      ReachableSound(mid);
      SoundIsFiled(mid.live);
      FifoMore(w.live, mid, n, ds[..k], w.clock + visibility, line, ds[k], visibility, w');
      assert ds[..k] + [ds[k]] == ds;
    }
  }

  lemma NothingLeased(w: World, n: string, visibility: int, actions: seq<Action>, w': World)
    requires Leases(w, n, [], visibility, None, actions, w')
    ensures w' == w
  {
    hide Enabled, Acts;
  }

  lemma LeasesAfter(w: World, n: string, ds: seq<Delivered>, visibility: int, actions: seq<Action>, w': World)
    requires Leases(w, n, ds, visibility, None, actions, w')
    ensures After(w, actions) == Some(w') && |actions| == |ds|
  {
    hide After;
  }

  /** A lease that fails burns a number and changes nothing else. */
  lemma FailedLease(w: World, n: string, ds: seq<Delivered>, visibility: int, actions: seq<Action>, w': World)
    returns (mid: World)
    requires Leases(w, n, ds, visibility, Some(AppendFailed), actions, w')
    ensures Leases(w, n, ds, visibility, None, actions[..|ds|], mid)
    ensures w'.live.queues == mid.live.queues
  {
    hide Handed, Enabled, LogAfter;
    mid := After(w, actions[..|ds|]).value;
    forall i | 0 <= i < |ds| ensures LeasesAt(w, n, ds, visibility, actions[..|ds|], i)
    {
      assert LeasesAt(w, n, ds, visibility, actions, i);
      assert actions[..|ds|][..i] == actions[..i];
    }
  }

  lemma FifoQueues(s: State, a: State, b: State, n: string, ds: seq<Delivered>, deadline: int, line: seq<string>)
    requires Fifo(s, a, n, ds, deadline, line) && a.queues == b.queues
    ensures Fifo(s, b, n, ds, deadline, line)
  {
    forall n', id ensures Has(a, n', id) <==> Has(b, n', id) { }
    forall i | 0 <= i < |ds| ensures ds[i].id == line[i] && HandedOut(s, n, ds[i], deadline, b)
    {
      assert HandedOut(s, n, ds[i], deadline, a);
    }
  }

  /**
   A receive leases the messages first in line, in order, and leaves every
   other message alone, whether or not an append fails on the way.  When none
   fails it leases as many as asked for, or all there are.
   */
  lemma ReceiveIsFifo(w: World, n: string, ds: seq<Delivered>, visibility: int, err: Option<Error>,
                      actions: seq<Action>,
                      w': World, line: seq<string>, max: nat)
    requires Reachable(w) && Leases(w, n, ds, visibility, err, actions, w') && IsReadyOrder(w.live, n, line)
    ensures Fifo(w.live, w'.live, n, ds, w.clock + visibility, line)
    ensures |ds| <= max && (|ds| == max || !HasReady(w'.live, n)) ==> |ds| == if max < |line| then max else |line|
  {
    hide Reachable, Leases, Handed, Did, Sound, IsReadyOrder, HandedOut, Untouched;
    LeaseErrors(w, n, ds, visibility, err, actions, w');
    if err.Some? {
      var mid := FailedLease(w, n, ds, visibility, actions, w');
      LeasesAreFifo(w, n, ds, visibility, actions[..|ds|], mid, line);
      FifoQueues(w.live, mid.live, w'.live, n, ds, w.clock + visibility, line);
    } else {
      LeasesAreFifo(w, n, ds, visibility, actions, w', line);
    }
    if |ds| < |line| {
      LineReady(w'.live, n, line[|ds|..]);
    }
  }

  lemma LeaseErrors(w: World, n: string, ds: seq<Delivered>, visibility: int, err: Option<Error>,
                    actions: seq<Action>, w': World)
    requires Leases(w, n, ds, visibility, err, actions, w')
    ensures err.None? || err == Some(AppendFailed)
    ensures |actions| >= |ds|
  {
    hide After;
  }

  lemma LineReady(s: State, n: string, line: seq<string>)
    requires IsReadyOrder(s, n, line) && line != []
    ensures HasReady(s, n)
  {
    InOrder(s, n, line, 0);
  }

  /** The ready messages of a queue always form such a line. */
  lemma ReadyLine(s: State, n: string) returns (line: seq<string>)
    requires Sound(s)
    ensures IsReadyOrder(s, n, line)
  {
    hide SoundMsg;
    if n !in s.queues {
      return [];
    }
    var msgs := s.queues[n].msgs;
    var ids := set id | id in msgs && msgs[id].phase == Ready;
    line := SortByPos(msgs, ids);
    SortedByPos(msgs, ids);
    forall id ensures id in line <==> Has(s, n, id) && At(s, n, id).phase == Ready { }
    forall i, j | 0 <= i < j < |line| ensures At(s, n, line[i]).pos < At(s, n, line[j]).pos
    {
      assert line[i] in ids && line[j] in ids && Has(s, n, line[i]) && Has(s, n, line[j]);
      assert msgs[line[i]].pos <= msgs[line[j]].pos && line[i] != line[j];
    }
  }

  /**
   What is delivered under an ID is what was sent under it: the body, the time of
   the send and the number of deliveries so far, through restarts, redrives,
   dead-letterings and compactions, and not before the delay asked for is over.
   */
  lemma DeliveredAsSent(worlds: seq<World>, events: seq<Event>, j: nat, n: string, d: Delivered, visibility: int)
    returns (i: nat)
    requires IsRun(worlds, events) && j < |events|
    requires events[j] == Do(Grant(n, d.id, visibility)) && Handed(worlds[j], n, d)
    ensures SentBy(worlds, events, i, j, d.id) && events[i].action.Post?
    ensures d.body == events[i].action.body && d.sentAt == worlds[i].clock
    ensures d.receives == DeliveryCount(events, i, j, d.id) + 1
    ensures worlds[j].clock >= worlds[i].clock + events[i].action.delay
  {
    hide Step, FormatReceipt, FormatId;
    i := WasSent(worlds, events, j, n, d.id);
    CarriesWhatWasSent(worlds, events, i, j, n, d.id);
    NotBeforeDelay(worlds, events, i, j, n, d.id, visibility);
  }

  // ---- looking at a queue ------------------------------------------------

  /** What every operation that reads the clock and sweeps queue n makes of its messages, and of the others. */
  lemma LookSettles(w: World, n: string, w': World, well: bool, id: string) returns (failed: bool)
    requires Reachable(w) && Looked(w, n, w', well) && Has(w.live, n, id)
    ensures well ==> !failed
    ensures ComesOf(w.live, n, id, w'.live, w'.clock, failed)
    ensures forall n', id' :: n' != n && Has(w.live, n', id') ==>
      Has(w'.live, n', id') && At(w'.live, n', id') == At(w.live, n', id')
  {
    hide Reachable, Swept, ComesOf, OneHome, Sound, Continues;
    var stuck :| (well ==> stuck == {}) && Swept(w.live, w'.live, w'.clock, PendingOf(w.live, n), stuck);
    failed := id in stuck;
    SweptOutcome(w.live, w'.live, w'.clock, PendingOf(w.live, n), stuck, n, id);
    ReachableSound(w);
    SoundIsFiled(w.live);
    forall n', id' | n' != n && Has(w.live, n', id')
      ensures Has(w'.live, n', id') && At(w'.live, n', id') == At(w.live, n', id')
    {
      ElsewherePending(w.live, n, n', id');
      Unvisited(w.live, w'.live, w'.clock, PendingOf(w.live, n), stuck, n', id');
    }
  }

  lemma ElsewherePending(s: State, n: string, n': string, id: string)
    requires OneHome(s) && n' != n && Has(s, n', id)
    ensures id !in PendingOf(s, n)
  {
    assert id in PendingOf(s, n) ==> Has(s, n, id);
  }

  /**
   The receipt of a message's latest delivery is good: presented before its
   deadline, it names the lease, restarts and compactions or not, unless the
   message was acknowledged, returned, buried or deleted with its queue.
   */
  lemma ReceiptAccepted(worlds: seq<World>, events: seq<Event>, g: nat, j: nat, n: string, id: string,
                        visibility: int, w': World, well: bool)
    requires IsRun(worlds, events) && g < j < |worlds| && events[g] == Do(Grant(n, id, visibility))
    requires forall k :: g < k < j ==> LeavesLease(events[k], n, id)
    requires forall k :: g < k < j ==> worlds[k].clock < DeadlineAt(worlds, events, g, k, id)
    requires Looked(worlds[j], n, w', well) && w'.clock < DeadlineAt(worlds, events, g, j, id)
    ensures var receipt := FormatReceipt(worlds[g].live.counter + 1);
      && InForce(worlds[j].live, n, id, receipt, w'.clock) && InForce(w'.live, n, id, receipt, w'.clock)
      && LeaseError(w'.live, n, id, receipt) == None
  {
    hide IsRun, Looked, FormatReceipt, LeavesLease;
    LeaseLasts(worlds, events, g, j, n, id, visibility);
    LookedInForce(worlds[j], n, w', well, id, FormatReceipt(worlds[g].live.counter + 1));
  }

  // ---- redrive -----------------------------------------------------------

  /**
   The first |ids| messages in line at queue n went behind everybody in line at
   queue `to`, in order, at the positions after s.counter.
   */
  ghost predicate Spliced(s: State, s': State, n: string, to: string, moved: nat, src: seq<string>, dst: seq<string>) {
    && moved <= |src|
    && IsReadyOrder(s', n, src[moved..]) && IsReadyOrder(s', to, dst + src[..moved])
    && (forall i :: 0 <= i < moved ==>
          && Has(s, n, src[i]) && Has(s', to, src[i])
          && At(s', to, src[i]) == At(s, n, src[i]).(pos := s.counter + 1 + i, receives := 0, notBefore := 0))
    && s'.counter == s.counter + moved
    && Untouched(s, s', src[..moved])
  }

  lemma SplicedNothing(s: State, n: string, to: string, src: seq<string>, dst: seq<string>)
    requires IsReadyOrder(s, n, src) && IsReadyOrder(s, to, dst)
    ensures Spliced(s, s, n, to, 0, src, dst)
  {
    assert src[0..] == src && dst + src[..0] == dst;
  }

  lemma SplicedMore(s: State, mid: World, n: string, to: string, moved: nat, src: seq<string>, dst: seq<string>,
                    id: string, ts: int, w': World)
    requires Sound(mid.live) && IsReadyOrder(s, n, src) && Spliced(s, mid.live, n, to, moved, src, dst)
    requires Did(mid, Shift(n, id, to, ts), w')
    ensures Spliced(s, w'.live, n, to, moved + 1, src, dst) && src[moved] == id
  {
    hide IsReadyOrder, Enabled, Acts, Sound;
    var rest, line := src[moved..], dst + src[..moved];
    ShiftAdvances(mid, n, id, to, ts, rest, line);
    assert src[moved] == rest[0] == id && rest[1..] == src[moved + 1..];
    assert line + [id] == dst + src[..moved + 1];
    LineDistinct(s, n, src);
    InOrder(s, n, src, moved);
    assert src[..moved + 1] == src[..moved] + [id];
    assert id !in src[..moved];
    forall i | 0 <= i < moved
      ensures Has(w'.live, to, src[i])
      ensures At(w'.live, to, src[i]) == At(s, n, src[i]).(pos := s.counter + 1 + i, receives := 0, notBefore := 0)
    {
      assert src[i] != id && Has(mid.live, to, src[i]);
    }
    assert Has(s, n, id) && Has(mid.live, n, id);
    forall n', id' | id' !in src[..moved + 1]
      ensures Has(w'.live, n', id') <==> Has(s, n', id')
      ensures Has(s, n', id') ==> At(w'.live, n', id') == At(s, n', id')
    {
      assert id' !in src[..moved] && id' != id;
      assert Has(mid.live, n', id') <==> Has(s, n', id');
    }
  }

  lemma RedrivesPrefix(w: World, n: string, to: string, moved: nat, actions: seq<Action>,
                       w': World) returns (mid: World)
    requires Redrives(w, n, to, moved, actions, w') && moved > 0
    ensures |actions| == moved && actions[moved - 1].Shift?
    ensures Redrives(w, n, to, moved - 1, actions[..moved - 1], mid)
    ensures After(w, actions[..moved - 1]) == Some(mid)
    ensures Did(mid, Shift(n, actions[moved - 1].id, to, actions[moved - 1].ts), w')
  {
    hide Enabled, Acts;
    mid := After(w, actions[..moved - 1]).value;
  }

  lemma NothingMoved(w: World, n: string, to: string, actions: seq<Action>, w': World)
    requires Redrives(w, n, to, 0, actions, w')
    ensures w' == w
  {
    hide Enabled, Acts;
  }

  lemma {:induction false} RedrivesSplice(w: World, n: string, to: string, moved: nat, actions: seq<Action>, w': World,
                                          src: seq<string>, dst: seq<string>)
    requires Reachable(w) && Redrives(w, n, to, moved, actions, w')
    requires IsReadyOrder(w.live, n, src) && IsReadyOrder(w.live, to, dst)
    ensures Spliced(w.live, w'.live, n, to, moved, src, dst)
    decreases moved
  {
    hide Reachable, Spliced, Redrives, IsReadyOrder, Did, Sound, After;
    if moved == 0 {
      NothingMoved(w, n, to, actions, w');
      SplicedNothing(w.live, n, to, src, dst);
    } else {
      var mid := RedrivesPrefix(w, n, to, moved, actions, w');
      RedrivesSplice(w, n, to, moved - 1, actions[..moved - 1], mid, src, dst);
      AfterReachable(w, actions[..moved - 1], mid);
      ReachableSound(mid);
      SplicedMore(w.live, mid, n, to, moved - 1, src, dst, actions[moved - 1].id, actions[moved - 1].ts, w');
    }
  }

  /**
   A redrive is an order-preserving splice: the messages first in line at one
   queue go, in order and with their counts reset, behind everybody in line at
   the other; as many as asked for or all there are, or, when an append fails,
   exactly those moved before it.
   */
  lemma RedriveIsSplice(w: World, n: string, to: string, moved: nat, actions: seq<Action>, w': World,
                        src: seq<string>, dst: seq<string>, max: int)
    requires Reachable(w) && Redrives(w, n, to, moved, actions, w')
    requires IsReadyOrder(w.live, n, src) && IsReadyOrder(w.live, to, dst)
    ensures Spliced(w.live, w'.live, n, to, moved, src, dst)
    ensures (max > 0 ==> moved <= max) && ((max > 0 && moved == max) || !HasReady(w'.live, n)) ==>
      moved == if 0 < max < |src| then max else |src|
  {
    hide Reachable, Redrives, Did, Sound, IsReadyOrder, Untouched;
    RedrivesSplice(w, n, to, moved, actions, w', src, dst);
    if moved < |src| {
      LineReady(w'.live, n, src[moved..]);
    }
  }

  /** A message moved to a queue whose waiters are not woken is missed by them. */
  lemma ShiftAloneLosesWakeup<C>(w: World, n: string, id: string, to: string, ts: int, w': World,
                                 wakes: map<string, C>, gone: set<C>, parked: set<C>)
    requires Did(w, Shift(n, id, to, ts), w') && to in wakes && wakes[to] in parked
    ensures !Heeded(w'.live, wakes, gone, parked, {})
  {
    assert Has(w'.live, to, At(w.live, n, id).id) && At(w'.live, to, At(w.live, n, id).id).phase == Ready;
    assert HasReady(w'.live, to);
  }

  /** The wakeup a redrive that fails midway loses: whoever is parked at the target misses what was moved. */
  lemma RedriveAloneLosesWakeup<C>(w: World, n: string, to: string, moved: nat, actions: seq<Action>, w': World,
                                   wakes: map<string, C>, gone: set<C>, parked: set<C>)
    requires Redrives(w, n, to, moved, actions, w') && moved > 0 && to in wakes && wakes[to] in parked
    ensures !Heeded(w'.live, wakes, gone, parked, {})
  {
    hide Redrives, Did, Heeded;
    var mid := RedrivesPrefix(w, n, to, moved, actions, w');
    var last := actions[moved - 1];
    ShiftAloneLosesWakeup(mid, n, last.id, to, last.ts, w', wakes, gone, parked);
  }

  // ---- after a reload ----------------------------------------------------

  /** x has a meaning on the one side, or has none on either. */
  predicate Translates(f: Names, g: Names, x: string) {
    x in f || x !in g
  }

  /** Engines that mirror each other answer alike whatever they are asked, but for names only one of them has issued. */
  lemma AnswersMirrored(a: State, b: State, f: Names, g: Names, n: string, id: string, receipt: string)
    requires Mirrors(a, b, f, g) && Translates(f, g, id) && Translates(f, g, receipt)
    ensures LeaseError(a, n, id, receipt) == LeaseError(b, n, NameOf(f, id), NameOf(f, receipt))
  {
    hide Numbered;
    if Has(b, n, NameOf(f, id)) {
      Named(b, a, g, f, n, NameOf(f, id));
    }
    if Has(a, n, id) {
      Named(a, b, f, g, n, id);
    }
  }

  /** After a reload, every ID and every receipt, known or not, is answered as it would have been before. */
  lemma AnswersAfterReload(w: World, w': World, n: string, id: string, receipt: string)
    requires Inv(w) && Inv(w') && QuietAt(w.live, w.clock)
    requires SweptAll(Replayed(w), w'.live, w.clock, {}) && NoneStale(w.live, Replayed(w))
    ensures LeaseError(w.live, n, id, receipt) == LeaseError(w'.live, n, id, receipt)
  {
    hide Inv, Sound, QuietAt, SweptAll, NoneStale, Replayed, Mirrors, NamesOf, Numbers, LeaseError, Related, OneHome;
    ReloadMirrors(w, w');
    InvParts(w);
    SoundIsFiled(w.live);
    var f := Identity(w.live, Replayed(w).counter);
    AnswersMirrored(w.live, w'.live, f, f, n, id, receipt);
  }
}
