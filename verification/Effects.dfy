/** What the engine's operations do to the messages and queues, field by field. */
module Effects {
  import opened Wrappers
  import opened Errors
  import opened Config
  import opened Ids
  import opened State
  import opened Steps
  import opened ReplaySteps
  import opened Sweeping
  import opened Runs
  import opened Machine

  // ---- what stays --------------------------------------------------------

  /** Every message but id is where and as it was. */
  ghost predicate Elsewhere(s: State, s': State, id: string) {
    && (forall n, id' :: id' != id ==> (Has(s', n, id') <==> Has(s, n, id')))
    && (forall n, id' :: id' != id && Has(s, n, id') ==> At(s', n, id') == At(s, n, id'))
  }

  /** The queues are the same and configured as they were. */
  ghost predicate SameQueues(s: State, s': State) {
    && (forall n :: n in s'.queues <==> n in s.queues)
    && (forall n :: n in s.queues ==> s'.queues[n].cfg == s.queues[n].cfg)
  }

  // ---- what changes ------------------------------------------------------

  /** Message id, new to every queue, is filed at the back of queue n with this body, due after `delay` from now. */
  ghost predicate Enqueued(s: State, n: string, id: string, body: seq<byte>, delay: int, now: int, s': State) {
    && (forall n' :: !Has(s, n', id)) && Elsewhere(s, s', id) && SameQueues(s, s')
    && Has(s', n, id)
    && var m := At(s', n, id);
       && m.id == id && m.body == body && m.sentAt == now && m.receives == 0 && m.receipt == "" && m.deadline == 0
       && m.pos == s.counter + 1 == s'.counter
       && (if delay > 0 then m.phase == Delayed && m.notBefore == now + delay
           else m.phase == Ready && m.notBefore == 0)
  }

  /** d is a message that was ready in queue n, delivered once more; it is leased under d's receipt until then. */
  ghost predicate HandedOut(s: State, n: string, d: Delivered, deadline: int, s': State) {
    && Has(s, n, d.id) && At(s, n, d.id).phase == Ready && Has(s', n, d.id)
    && d.body == At(s, n, d.id).body && d.sentAt == At(s, n, d.id).sentAt
    && d.receives == At(s, n, d.id).receives + 1
    && At(s', n, d.id)
       == At(s, n, d.id).(phase := Leased, receipt := d.receipt, deadline := deadline, receives := d.receives)
  }

  /** Message id is in no queue any more. */
  ghost predicate Removed(s: State, n: string, id: string, s': State) {
    && Has(s, n, id) && (forall n' :: !Has(s', n', id))
    && Elsewhere(s, s', id) && SameQueues(s, s') && s'.counter == s.counter
  }

  /** Message m.id of queue n is now m. */
  ghost predicate Altered(s: State, n: string, m: Msg, s': State) {
    && Has(s, n, m.id) && Has(s', n, m.id) && At(s', n, m.id) == m && (forall n' :: Has(s', n', m.id) ==> n' == n)
    && Elsewhere(s, s', m.id) && SameQueues(s, s') && s'.counter == s.counter
  }

  /** Message id of queue n can be delivered again, with the deliveries it has had. */
  ghost predicate Requeued(s: State, n: string, id: string, s': State) {
    Has(s, n, id) && Altered(s, n, At(s, n, id).(phase := Ready, receipt := "", deadline := 0), s')
  }

  /** Only the dead-letter queue of queue n may be new; it leases for 30 seconds, without a limit of its own. */
  ghost predicate OnlyTargetNew(s: State, n: string, s': State)
    requires n in s.queues
  {
    var to := s.queues[n].cfg.deadLetter;
    && (forall q :: q in s'.queues <==> q in s.queues || (q == to != "" && to in s'.queues))
    && (forall q :: q in s.queues ==> s'.queues[q].cfg == s.queues[q].cfg)
    && (to in s'.queues && to !in s.queues ==>
          && s'.queues[to].cfg.visibility == 30_000 && s'.queues[to].cfg.maxReceives == 0
          && s'.queues[to].cfg.deadLetter == "")
  }

  lemma NothingPrepared(s: State, n: string)
    ensures n in s.queues ==> Prepared(s, n, s)
  {
  }

  /** Nothing but that queue is new. */
  ghost predicate Prepared(s: State, n: string, s': State) {
    && n in s.queues && OnlyTargetNew(s, n, s') && s'.counter == s.counter
    && (forall q, id :: Has(s', q, id) <==> Has(s, q, id))
    && (forall q, id :: Has(s, q, id) ==> At(s', q, id) == At(s, q, id))
  }

  /** Message id of queue n has gone, with its count, to the back of its dead-letter queue, or for good. */
  ghost predicate Interred(s: State, n: string, id: string, s': State) {
    && Has(s, n, id) && OnlyTargetNew(s, n, s') && Elsewhere(s, s', id)
    && var to := s.queues[n].cfg.deadLetter;
       if to == "" then (forall n' :: !Has(s', n', id)) && s'.counter == s.counter
       else
         && (forall n' :: Has(s', n', id) <==> n' == to)
         && At(s', to, id)
            == At(s, n, id).(phase := Ready, receipt := "", deadline := 0, notBefore := 0, pos := s.counter + 1)
         && s'.counter == s.counter + 1
  }

  /**
   The lease on message id of queue n has been given up: the message can be
   delivered again, or is interred if it has been delivered as often as a limit
   allows.  If an append failed, nothing changed but for the dead-letter queue.
   */
  ghost predicate GivenUp(s: State, n: string, id: string, failed: bool, s': State) {
    && Has(s, n, id)
    && if s.queues[n].cfg.maxReceives > 0 && At(s, n, id).receives >= s.queues[n].cfg.maxReceives
       then if failed then Prepared(s, n, s') else Interred(s, n, id, s')
       else if failed then s' == s else Requeued(s, n, id, s')
  }

  lemma GivesUp(s: State, n: string, id: string, failed: bool, s': State)
    requires Has(s, n, id)
    requires IsExhausted(s, n, id) ==> if failed then Prepared(s, n, s') else Interred(s, n, id, s')
    requires !IsExhausted(s, n, id) ==> if failed then s' == s else Requeued(s, n, id, s')
    ensures GivenUp(s, n, id, failed, s')
  {
    hide Prepared, Interred, Requeued;
  }

  /** Queue n has this configuration and the messages it had, none if it is new; all else is as it was. */
  ghost predicate Configured(s: State, n: string, cfg: Config, s': State) {
    && n in s'.queues && s'.queues[n].cfg == cfg && s'.counter == s.counter
    && s'.queues[n].msgs == (if n in s.queues then s.queues[n].msgs else map[])
    && forall n' :: n' != n ==>
         (n' in s'.queues <==> n' in s.queues) && (n' in s.queues ==> s'.queues[n'] == s.queues[n'])
  }

  /** Queue n is gone with its messages; all else is as it was. */
  ghost predicate WithoutQueue(s: State, n: string, s': State) {
    && n in s.queues && n !in s'.queues && s'.counter == s.counter
    && forall n' :: n' != n ==>
         (n' in s'.queues <==> n' in s.queues) && (n' in s.queues ==> s'.queues[n'] == s.queues[n'])
  }

  /** The answer to a receipt for message id of queue n: what is wrong with it, or that it names the lease. */
  predicate Judged(s: State, n: string, id: string, receipt: string, err: Option<Error>) {
    && (err == Some(MessageNotFound) <==> !Has(s, n, id))
    && (err == Some(NotLeased) <==> Has(s, n, id) && At(s, n, id).phase != Leased)
    && (err == Some(WrongReceipt) <==>
          Has(s, n, id) && At(s, n, id).phase == Leased && At(s, n, id).receipt != receipt)
    && (err.None? || err == Some(AppendFailed) <==>
          Has(s, n, id) && At(s, n, id).phase == Leased && At(s, n, id).receipt == receipt)
  }

  /** Message id of queue n is leased under this receipt until after now. */
  predicate InForce(s: State, n: string, id: string, receipt: string, now: int) {
    Has(s, n, id) && At(s, n, id).phase == Leased && At(s, n, id).receipt == receipt && At(s, n, id).deadline > now
  }

  // ---- that the actions do it --------------------------------------------

  lemma DidIs(w: World, a: Action, w': World)
    requires Did(w, a, w')
    ensures Enabled(w.live, a, w.clock) && w'.live == Effect(w.live, a, w.clock) && w'.clock == ClockAfter(a, w.clock)
  {
    hide Enabled, Effect, Logged, Outcomes, Deliveries;
  }

  /** What the structural invariant says of one message. */
  lemma Home(w: World, n: string, id: string)
    requires Reachable(w) && Has(w.live, n, id)
    ensures At(w.live, n, id).id == id && forall n' :: Has(w.live, n', id) ==> n' == n
    ensures At(w.live, n, id).phase == Ready ==> At(w.live, n, id).receipt == "" && At(w.live, n, id).deadline == 0
    ensures w.live.queues[n].cfg.deadLetter != n
  {
    hide Reachable, Sound, IsId, IsReceipt, SeqOf, NumberOf, ValidName;
    ReachableSound(w);
    FiledSound(w.live, n, id);
    QueueNamed(w.live, n);
  }

  lemma PostEnqueues(w: World, n: string, body: seq<byte>, delay: int, w': World)
    requires Reachable(w) && Did(w, Post(n, body, delay), w')
    ensures Enqueued(w.live, n, FormatId(w.live.counter + 1), body, delay, w.clock, w'.live)
  {
    hide Did, Reachable, Sound, FormatId;
    DidIs(w, Post(n, body, delay), w');
    ReachableSound(w);
    var id := FormatId(w.live.counter + 1);
    forall n' ensures !Has(w.live, n', id) { NextIdIsFresh(w.live, n'); }
  }

  lemma SettleRemoves(w: World, n: string, id: string, ts: int, w': World)
    requires Reachable(w) && Did(w, Settle(n, id, ts), w')
    ensures Removed(w.live, n, id, w'.live)
  {
    hide Did, Reachable;
    DidIs(w, Settle(n, id, ts), w');
    Home(w, n, id);
    forall n' | Has(w'.live, n', id) ensures Has(w.live, n', id) { }
  }

  lemma ReturnRequeues(w: World, n: string, id: string, ts: int, w': World)
    requires Reachable(w) && Did(w, Return(n, id, ts), w')
    ensures Requeued(w.live, n, id, w'.live)
  {
    hide Did, Reachable;
    DidIs(w, Return(n, id, ts), w');
    Home(w, n, id);
    forall n' | Has(w'.live, n', id) ensures Has(w.live, n', id) { }
  }

  lemma ProlongAlters(w: World, n: string, id: string, deadline: int, ts: int, w': World)
    requires Reachable(w) && Did(w, Prolong(n, id, deadline, ts), w')
    ensures Has(w.live, n, id) && Altered(w.live, n, At(w.live, n, id).(deadline := deadline), w'.live)
  {
    hide Did, Reachable;
    DidIs(w, Prolong(n, id, deadline, ts), w');
    Home(w, n, id);
    forall n' | Has(w'.live, n', id) ensures Has(w.live, n', id) { }
  }

  lemma ConfigureConfigures(w: World, n: string, cfg: Config, ts: int, w': World)
    requires Did(w, Configure(n, cfg, ts), w')
    ensures Configured(w.live, n, cfg, w'.live)
  {
    hide Did, ValidName;
    DidIs(w, Configure(n, cfg, ts), w');
  }

  lemma DeleteLeaves(w: World, n: string, ts: int, w': World)
    requires Did(w, Delete(n, ts), w')
    ensures WithoutQueue(w.live, n, w'.live)
  {
    hide Did;
    DidIs(w, Delete(n, ts), w');
  }

  lemma ConfigurePrepares(w: World, n: string, ts: int, w': World)
    requires n in w.live.queues && TargetOf(w.live, n) != "" && TargetOf(w.live, n) !in w.live.queues
    requires Did(w, Configure(TargetOf(w.live, n), DEFAULT_CONFIG, ts), w')
    ensures Prepared(w.live, n, w'.live)
  {
    hide Did, ValidName;
    DidIs(w, Configure(TargetOf(w.live, n), DEFAULT_CONFIG, ts), w');
  }

  lemma BuryInters(w: World, n: string, id: string, ts: int, w': World)
    requires Reachable(w) && Did(w, Bury(n, id, ts), w')
    ensures Interred(w.live, n, id, w'.live)
  {
    hide Did, Reachable, Interred, Arrive, Take;
    DidIs(w, Bury(n, id, ts), w');
    Home(w, n, id);
    if TargetOf(w.live, n) == "" { DropInters(w.live, n, id); } else { MoveInters(w.live, n, id); }
  }

  lemma DropInters(s: State, n: string, id: string)
    requires Has(s, n, id) && TargetOf(s, n) == "" && forall n' :: Has(s, n', id) ==> n' == n
    ensures Interred(s, n, id, Take(s, n, id))
  {
    forall n' ensures !Has(Take(s, n, id), n', id) { assert !Has(s, n', id) || n' == n; }
  }

  lemma MoveInters(s: State, n: string, id: string)
    requires Has(s, n, id) && At(s, n, id).id == id && forall n' :: Has(s, n', id) ==> n' == n
    requires TargetOf(s, n) in s.queues && TargetOf(s, n) != n && TargetOf(s, n) != ""
    ensures Interred(s, n, id, Arrive(Take(s, n, id), TargetOf(s, n), At(s, n, id)))
  {
    var to, s' := TargetOf(s, n), Arrive(Take(s, n, id), TargetOf(s, n), At(s, n, id));
    forall n' ensures Has(s', n', id) <==> n' == to { assert !Has(s, n', id) || n' == n; }
  }

  /** Making the dead-letter queue first comes to the same. */
  lemma InterredToo(s: State, mid: State, n: string, id: string, s': State)
    requires Prepared(s, n, mid) && Interred(mid, n, id, s')
    ensures Interred(s, n, id, s')
  {
    assert Has(s, n, id) && Has(mid, n, id);
  }

  /** An answer that was not a refusal stands, whether the append goes well or not. */
  lemma JudgedStill(s: State, n: string, id: string, receipt: string, err: Option<Error>)
    requires Judged(s, n, id, receipt, None) && (err.None? || err == Some(AppendFailed))
    ensures Judged(s, n, id, receipt, err)
  {
  }

  // ---- a row of leases ---------------------------------------------------

  /** ds were handed out, and what is ready now was ready before and is as it was. */
  ghost predicate Handing(s: State, n: string, ds: seq<Delivered>, deadline: int, s': State) {
    && (forall d :: d in ds ==> HandedOut(s, n, d, deadline, s'))
    && (forall id :: Has(s', n, id) && At(s', n, id).phase == Ready ==> Has(s, n, id) && At(s', n, id) == At(s, n, id))
  }

  lemma HandingGives(s: State, n: string, ds: seq<Delivered>, deadline: int, s': State)
    requires Handing(s, n, ds, deadline, s')
    ensures forall d :: d in ds ==> HandedOut(s, n, d, deadline, s')
  {
    hide HandedOut;
  }

  lemma HandingNothing(s: State, n: string, deadline: int)
    ensures Handing(s, n, [], deadline, s)
  {
  }

  lemma HandingMore(s: State, mid: World, n: string, ds: seq<Delivered>, deadline: int, d: Delivered, visibility: int,
                    w': World)
    requires Reachable(mid) && Handing(s, n, ds, deadline, mid.live)
    requires Did(mid, Grant(n, d.id, visibility), w') && Handed(mid, n, d) && deadline == mid.clock + visibility
    ensures Handing(s, n, ds + [d], deadline, w'.live)
  {
    hide Did, Reachable, FormatReceipt, FormatId;
    DidIs(mid, Grant(n, d.id, visibility), w');
    Home(mid, n, d.id);
    assert Has(w'.live, n, d.id);
    forall e | e in ds + [d] ensures HandedOut(s, n, e, deadline, w'.live)
    {
      if e in ds {
        assert HandedOut(s, n, e, deadline, mid.live);
        assert e.id != d.id;
      }
    }
    forall id | Has(w'.live, n, id) && At(w'.live, n, id).phase == Ready
      ensures Has(s, n, id) && At(w'.live, n, id) == At(s, n, id)
    {
      assert id != d.id && Has(mid.live, n, id);
    }
  }

  lemma HandingBurnt(s: State, mid: World, n: string, ds: seq<Delivered>, deadline: int, w': World)
    requires Handing(s, n, ds, deadline, mid.live) && Did(mid, Burn, w')
    ensures Handing(s, n, ds, deadline, w'.live)
  {
    hide Did;
    DidIs(mid, Burn, w');
    assert forall id :: Has(w'.live, n, id) ==> Has(mid.live, n, id);
    forall e | e in ds ensures HandedOut(s, n, e, deadline, w'.live)
    {
      assert HandedOut(s, n, e, deadline, mid.live);
    }
  }
}
