/**
 When a reloaded engine, once swept, holds what the live engine held: exactly
 when no ready message is remembered as an expired lease that its queue's
 present limit would dead-letter.
 */
module Agreement {
  import opened Ids
  import opened State
  import opened Replay
  import opened Steps
  import opened Sweeping
  import opened SweepLaws

  /** Same queues, configurations and messages; positions may differ. */
  ghost predicate Agrees(a: State, b: State) {
    && a.queues.Keys == b.queues.Keys
    && (forall n :: n in a.queues ==> a.queues[n].cfg == b.queues[n].cfg)
    && (forall n, id :: Has(a, n, id) <==> Has(b, n, id))
    && (forall n, id :: Has(a, n, id) ==> At(b, n, id) == At(a, n, id).(pos := At(b, n, id).pos))
  }

  /** The live engine has the message ready; replay remembers its last allowed lease. */
  predicate Stale(live: State, rep: State, n: string, id: string) {
    && Has(live, n, id) && At(live, n, id).phase == Ready
    && IsLeased(rep, n, id) && IsExhausted(rep, n, id)
  }

  ghost predicate NoneStale(live: State, rep: State) {
    forall n, id :: !Stale(live, rep, n, id)
  }

  /** What the sweep of the reloaded engine does with a message, given what the live engine holds. */
  lemma ReloadedFate(live: State, rep: State, clock: int, now: int, n: string, id: string)
    requires SameContents(live, rep, clock) && clock <= now && QuietAt(live, now) && Has(live, n, id)
    requires SoundMsg(At(live, n, id), id, live.counter) && SoundMsg(At(rep, n, id), id, rep.counter)
    ensures Has(rep, n, id)
    ensures Stale(live, rep, n, id) <==> FateIn(rep, n, id, now) == Dies
    ensures FateIn(rep, n, id, now) == Stays ==> At(live, n, id) == At(rep, n, id).(pos := At(live, n, id).pos)
    ensures FateIn(rep, n, id, now) == Wakes ==>
      At(live, n, id) == At(rep, n, id).MakeReady().(pos := At(live, n, id).pos)
  {
    hide FormatId, FormatReceipt, ParseHex, TrimR;
  }

  lemma SoundAt(s: State, n: string, id: string)
    requires Sound(s)
    ensures OneHome(s)
    ensures Has(s, n, id) ==> SoundMsg(At(s, n, id), id, s.counter)
    ensures n in s.queues ==> s.queues[n].cfg.deadLetter != n
  {
  }

  /** Where a sweep leaves a message. */
  lemma SweptAt(pre: State, post: State, now: int, n: string, id: string)
    requires SweptAll(pre, post, now, {}) && Has(pre, n, id)
    ensures FateIn(pre, n, id, now) == Stays ==> Has(post, n, id) && At(post, n, id) == At(pre, n, id)
    ensures FateIn(pre, n, id, now) == Wakes ==> Has(post, n, id) && At(post, n, id) == At(pre, n, id).MakeReady()
    ensures FateIn(pre, n, id, now) == Dies && TargetOf(pre, n) != n ==> !Has(post, n, id)
  {
    hide Flatten, FateOf, BuriedAs;
    FlatAt(pre, n, id);
    FlatHolds(post);
    assert SweptMsg(ConfigsOf(pre), Flatten(pre)[id], id, Flatten(post), pre.counter, post.counter, now, id in {});
  }

  /** Messages a sweep leaves were there before it, in the same queue unless they died. */
  lemma SweptFrom(pre: State, post: State, now: int, n: string, id: string)
    requires SweptAll(pre, post, now, {}) && Has(post, n, id)
    ensures exists n' :: Has(pre, n', id) && (n' == n || FateIn(pre, n', id, now) == Dies)
  {
    hide Flatten, FateOf, BuriedAs;
    FlatHolds(pre);
    FlatAt(post, n, id);
    var p := Flatten(pre)[id];
    assert Has(pre, p.queue, id);
    assert SweptMsg(ConfigsOf(pre), p, id, Flatten(post), pre.counter, post.counter, now, id in {});
    FlatAt(pre, p.queue, id);
    assert p.queue == n || FateIn(pre, p.queue, id, now) == Dies;
  }

  /** With nobody dying, a sweep creates no queue. */
  lemma SweptQueues(pre: State, post: State, now: int)
    requires SweptAll(pre, post, now, {})
    requires forall n, id :: Has(pre, n, id) ==> FateIn(pre, n, id, now) != Dies
    ensures post.queues.Keys == pre.queues.Keys
    ensures forall n :: n in pre.queues ==> post.queues[n].cfg == pre.queues[n].cfg
  {
    hide Flatten, FateOf, SweptMsgs;
    FlatHolds(pre);
    var cfgs, f, after := ConfigsOf(pre), Flatten(pre), ConfigsOf(post);
    forall n ensures !Wanted(cfgs, f, now, n)
    {
      forall id | id in f ensures !Moves(cfgs, f[id], now)
      {
        assert Has(pre, f[id].queue, id);
        FlatAt(pre, f[id].queue, id);
        assert FateIn(pre, f[id].queue, id, now) != Dies;
      }
    }
    forall n ensures n in post.queues <==> n in pre.queues
    {
      assert n in after <==> n in post.queues;
      assert n in cfgs <==> n in pre.queues;
    }
    forall n | n in pre.queues ensures post.queues[n].cfg == pre.queues[n].cfg
    {
      assert after[n] == cfgs[n];
    }
  }

  lemma StaleDisagrees(live: State, rep: State, rep': State, clock: int, now: int, n: string, id: string)
    requires Sound(live) && Sound(rep) && SameContents(live, rep, clock) && clock <= now && QuietAt(live, now)
    requires SweptAll(rep, rep', now, {}) && Stale(live, rep, n, id)
    ensures !Agrees(live, rep')
  {
    hide Sound, SameContents, SweptAll;
    SoundAt(live, n, id);
    SoundAt(rep, n, id);
    ReloadedFate(live, rep, clock, now, n, id);
    SweptAt(rep, rep', now, n, id);
  }

  lemma FreshAgrees(live: State, rep: State, rep': State, clock: int, now: int)
    requires Sound(live) && Sound(rep) && SameContents(live, rep, clock) && clock <= now && QuietAt(live, now)
    requires SweptAll(rep, rep', now, {}) && NoneStale(live, rep)
    ensures Agrees(live, rep')
    ensures forall n, id :: Has(rep, n, id) ==> Has(rep', n, id) && At(rep', n, id).pos == At(rep, n, id).pos
  {
    hide Sound, QuietAt, SweptAll, Stale, FateOf;
    forall n, id | Has(live, n, id)
      ensures Has(rep, n, id) && FateIn(rep, n, id, now) != Dies && Has(rep', n, id)
      ensures At(rep', n, id) == At(live, n, id).(pos := At(rep', n, id).pos)
      ensures At(rep', n, id).pos == At(rep, n, id).pos
    {
      SoundAt(live, n, id);
      SoundAt(rep, n, id);
      ReloadedFate(live, rep, clock, now, n, id);
      SweptAt(rep, rep', now, n, id);
    }
    assert forall n, id :: Has(rep, n, id) <==> Has(live, n, id);
    forall n, id | Has(rep', n, id)
      ensures Has(live, n, id)
    {
      SweptFrom(rep, rep', now, n, id);
    }
    SweptQueues(rep, rep', now);
  }

  /**
   A state that holds the contents of a live one in replayed form, swept when
   the live engine has nothing due, agrees with it exactly if no message is stale.
   */
  lemma SweptReplayAgrees(live: State, rep: State, rep': State, clock: int, now: int)
    requires Sound(live) && Sound(rep) && SameContents(live, rep, clock) && clock <= now && QuietAt(live, now)
    requires SweptAll(rep, rep', now, {})
    ensures Agrees(live, rep') <==> NoneStale(live, rep)
    ensures NoneStale(live, rep) ==> (SameOrder(live, rep') <==> SameOrder(live, rep))
  {
    hide Sound, SameContents, QuietAt, SweptAll, Stale;
    if NoneStale(live, rep) {
      FreshAgrees(live, rep, rep', clock, now);
      SameContentsHas(live, rep, clock);
    } else {
      var n, id :| Stale(live, rep, n, id);
      StaleDisagrees(live, rep, rep', clock, now, n, id);
    }
  }

  lemma SameContentsHas(live: State, rep: State, now: int)
    requires SameContents(live, rep, now)
    ensures forall n, id :: Has(live, n, id) <==> Has(rep, n, id)
  {
  }
}
