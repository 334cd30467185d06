/** Sweeping one queue, and all queues one after another. */
module QueueSweep {
  import opened State
  import opened Steps
  import opened Sweeping
  import opened SweepLaws

  /** The messages of queue n that wait out a delay or a lease. */
  function PendingOf(s: State, n: string): set<string> {
    if n in s.queues then set id | id in s.queues[n].msgs && s.queues[n].msgs[id].phase != Ready else {}
  }

  /** Where a sweep so far leaves message id if that is still pending. */
  lemma StillPending(pre: State, cur: State, now: int, done: set<string>, stuck: set<string>, n: string, id: string)
    requires Swept(pre, cur, now, done, stuck)
    requires Has(cur, n, id) && At(cur, n, id).phase != Ready
    ensures Has(pre, n, id) && At(cur, n, id) == At(pre, n, id) && cur.queues[n].cfg == pre.queues[n].cfg
    ensures id in done ==> FateIn(pre, n, id, now) == Stays || (id in stuck && FateIn(pre, n, id, now) == Dies)
  {
    hide FateOf, Flatten;
    FlatHolds(pre);
    FlatHolds(cur);
    var p := Flatten(pre)[id];
    FlatAt(pre, p.queue, id);
    assert n in ConfigsOf(cur);
    assert id in done ==>
      SweptMsg(ConfigsOf(pre), p, id, Flatten(cur), pre.counter, cur.counter, now, id in stuck);
    assert n in ConfigsOf(pre) && ConfigsOf(cur)[n] == ConfigsOf(pre)[n];
  }

  /** What a sweep makes of the messages of a queue it has visited. */
  lemma PendingOutcomes(pre: State, post: State, now: int, done: set<string>, stuck: set<string>, n: string)
    requires Swept(pre, post, now, done + PendingOf(pre, n), stuck)
    ensures forall id :: Has(pre, n, id) ==> ComesOf(pre, n, id, post, now, id in stuck)
  {
    hide Swept, ComesOf;
    forall id | Has(pre, n, id) ensures ComesOf(pre, n, id, post, now, id in stuck)
    {
      SweptOutcome(pre, post, now, done + PendingOf(pre, n), stuck, n, id);
    }
  }

  /** A queue not visited yet has the pending messages it had. */
  lemma PendingUnvisited(pre: State, cur: State, now: int, done: set<string>, stuck: set<string>, n: string)
    requires Swept(pre, cur, now, done, stuck) && n in pre.queues && PendingOf(pre, n) !! done
    requires forall id :: id in PendingOf(pre, n) ==> At(pre, n, id).id == id
    ensures PendingOf(cur, n) == PendingOf(pre, n)
    ensures n in cur.queues && cur.queues[n].cfg == pre.queues[n].cfg
  {
    hide Swept, FateOf;
    SweptNames(pre, cur, now, done, stuck, n);
    forall id ensures id in PendingOf(cur, n) <==> id in PendingOf(pre, n)
    {
      if id in PendingOf(cur, n) {
        assert Has(cur, n, id);
        StillPending(pre, cur, now, done, stuck, n, id);
      }
      if id in PendingOf(pre, n) {
        assert Has(pre, n, id);
        Unvisited(pre, cur, now, done, stuck, n, id);
      }
    }
  }

  /** A sweep removes no queue and changes no configuration. */
  lemma SweptNames(pre: State, cur: State, now: int, done: set<string>, stuck: set<string>, n: string)
    requires Swept(pre, cur, now, done, stuck)
    ensures n in pre.queues ==> n in cur.queues && cur.queues[n].cfg == pre.queues[n].cfg
  {
    hide Flatten, SweptMsgs;
    assert n in pre.queues ==> n in ConfigsOf(pre);
    assert n in ConfigsOf(cur) ==> n in cur.queues;
  }

  /** After its queue was swept, a lease still there is in force, or exhausted and waiting to be dead-lettered. */
  lemma LeasesHold(pre: State, post: State, now: int, stuck: set<string>, n: string, id: string)
    requires Swept(pre, post, now, PendingOf(pre, n), stuck) && IsLeased(post, n, id)
    ensures Steps.Holds(post, n, id, now)
  {
    hide Swept;
    StillPending(pre, post, now, PendingOf(pre, n), stuck, n, id);
    assert id in PendingOf(pre, n);
  }

  /** next is the least time later than now at which a message of the queues named is due, 0 if there is none. */
  ghost predicate IsNext(s: State, names: set<string>, now: int, next: int) {
    && (forall n, id :: n in names && Has(s, n, id) && At(s, n, id).phase != Ready && At(s, n, id).Due() > now ==>
          next != 0 && next <= At(s, n, id).Due())
    && (next != 0 ==>
          next > now
          && exists n, id :: n in names && Has(s, n, id) && At(s, n, id).phase != Ready && At(s, n, id).Due() == next)
  }

  /** next is the least time later than now at which one of the given messages of queue n is due, 0 if there is none. */
  ghost predicate IsNextOf(s: State, n: string, ids: set<string>, now: int, next: int) {
    && (forall id :: id in ids && Has(s, n, id) && At(s, n, id).Due() > now ==> next != 0 && next <= At(s, n, id).Due())
    && (next != 0 ==> next > now && exists id :: id in ids && Has(s, n, id) && At(s, n, id).Due() == next)
  }

  /** Once every pending message has been visited, every message has. */
  lemma ReadyNeedsNoVisit(pre: State, post: State, now: int, done: set<string>, stuck: set<string>)
    requires Swept(pre, post, now, done, stuck)
    requires forall n, id :: Has(pre, n, id) && At(pre, n, id).phase != Ready ==> id in done
    ensures SweptAll(pre, post, now, stuck)
  {
    hide FateOf, Flatten, SweptConfigs, BuriedAs;
    FlatHolds(pre);
    var cfgs, f := ConfigsOf(pre), Flatten(pre);
    forall id | id in f && id !in done
      ensures !DiesAt(cfgs, f[id], now) && FateOf(cfgs[f[id].queue], f[id].msg, now) == Stays
    {
      assert Has(pre, f[id].queue, id);
      ReadyStays(cfgs[f[id].queue], f[id].msg, now);
    }
    assert Buried(cfgs, f, now, f.Keys, stuck) == Buried(cfgs, f, now, done, stuck);
  }

  /** The pending messages of the queues named. */
  ghost function PendingIn(s: State, names: set<string>): set<string> {
    set n, id | n in names && id in PendingOf(s, n) :: id
  }

  lemma PendingInMore(s: State, names: set<string>, n: string)
    requires OneHome(s) && n !in names
    ensures PendingIn(s, names + {n}) == PendingIn(s, names) + PendingOf(s, n)
    ensures PendingOf(s, n) !! PendingIn(s, names)
  {
    forall id | id in PendingOf(s, n) ensures id !in PendingIn(s, names)
    {
      if id in PendingIn(s, names) {
        var n' :| n' in names && id in PendingOf(s, n');
        assert Has(s, n, id) && Has(s, n', id);
      }
    }
  }

  lemma NextMore(s: State, names: set<string>, now: int, next: int, n: string, next': int)
    requires IsNext(s, names, now, next) && IsNextOf(s, n, PendingOf(s, n), now, next') && n in s.queues
    ensures IsNext(s, names + {n}, now, if next' != 0 && (next == 0 || next' < next) then next' else next)
  {
    var r := if next' != 0 && (next == 0 || next' < next) then next' else next;
    forall n', id | n' in names + {n} && Has(s, n', id) && At(s, n', id).phase != Ready && At(s, n', id).Due() > now
      ensures r != 0 && r <= At(s, n', id).Due()
    {
      assert n' == n ==> id in PendingOf(s, n);
    }
    if r != 0 {
      if r == next' {
        var id :| id in PendingOf(s, n) && Has(s, n, id) && At(s, n, id).Due() == r;
        assert n in names + {n};
      } else {
        var n', id :| n' in names && Has(s, n', id) && At(s, n', id).phase != Ready && At(s, n', id).Due() == r;
        assert n' in names + {n};
      }
    }
  }

  /** Sweeping every queue visits every message. */
  lemma AllQueuesSwept(pre: State, post: State, now: int, stuck: set<string>)
    requires Swept(pre, post, now, PendingIn(pre, pre.queues.Keys), stuck)
    ensures SweptAll(pre, post, now, stuck)
  {
    hide Swept;
    forall n, id | Has(pre, n, id) && At(pre, n, id).phase != Ready
      ensures id in PendingIn(pre, pre.queues.Keys)
    {
      assert id in PendingOf(pre, n);
    }
    ReadyNeedsNoVisit(pre, post, now, PendingIn(pre, pre.queues.Keys), stuck);
  }

  /**
   After a sweep whose appends all succeeded, the time it returns is the least
   at which anything is still due, 0 if nothing is pending at all.
   */
  lemma NextRemains(pre: State, post: State, now: int, next: int)
    requires SweptAll(pre, post, now, {}) && IsNext(pre, pre.queues.Keys, now, next)
    ensures forall n, id :: Has(post, n, id) && At(post, n, id).phase != Ready ==>
      next != 0 && now < next <= At(post, n, id).Due()
    ensures next != 0 ==>
      exists n, id :: Has(post, n, id) && At(post, n, id).phase != Ready && At(post, n, id).Due() == next
  {
    hide Swept;
    forall n, id | Has(post, n, id) && At(post, n, id).phase != Ready
      ensures next != 0 && now < next <= At(post, n, id).Due()
    {
      StillPending(pre, post, now, AllIds(pre), {}, n, id);
      NotDueAfter(pre, post, now, n, id);
    }
    if next != 0 {
      var n, id :| n in pre.queues && Has(pre, n, id) && At(pre, n, id).phase != Ready && At(pre, n, id).Due() == next;
      LaterStays(pre, post, now, n, id);
    }
  }

  lemma NotDueAfter(pre: State, post: State, now: int, n: string, id: string)
    requires SweptAll(pre, post, now, {}) && Has(post, n, id) && At(post, n, id).phase != Ready
    ensures At(post, n, id).Due() > now
  {
    hide SweptAll;
    if At(post, n, id).Due() <= now { SweepIsComplete(pre, post, now, {}, n, id); }
  }

  lemma LaterStays(pre: State, post: State, now: int, n: string, id: string)
    requires SweptAll(pre, post, now, {}) && Has(pre, n, id) && At(pre, n, id).Due() > now
    ensures Has(post, n, id) && At(post, n, id) == At(pre, n, id)
  {
    hide Flatten;
    FlatAt(pre, n, id);
    FlatHolds(post);
    assert SweptMsg(ConfigsOf(pre), Flatten(pre)[id], id, Flatten(post), pre.counter, post.counter, now, id in {});
  }
}
