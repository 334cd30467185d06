/** What sweeps guarantee: completeness, independence of order, and composition. */
module SweepLaws {
  import opened Config
  import opened State
  import opened Sweeping

  /** The IDs of all messages. */
  ghost function AllIds(s: State): set<string>
    requires OneHome(s)
  {
    Flatten(s).Keys
  }

  /** post is pre after a sweep at now of all messages. */
  ghost predicate SweptAll(pre: State, post: State, now: int, stuck: set<string>) {
    OneHome(pre) && Swept(pre, post, now, AllIds(pre), stuck)
  }

  /** p' is p, but for the position if p was moved. */
  predicate SamePlace(p: Placed, p': Placed, moved: bool) {
    p'.queue == p.queue && (if moved then p'.msg == p.msg.(pos := p'.msg.pos) else p' == p)
  }

  // ---- a sweep is complete -----------------------------------------------

  lemma FlatQuiet(cfgs: Configs, f: map<string, Placed>, g: map<string, Placed>, lo: nat, hi: nat, now: int,
                  stuck: set<string>, id: string)
    requires SweptMsgs(cfgs, f, g, lo, hi, now, f.Keys, stuck)
    requires id in g && g[id].msg.phase != Ready && g[id].msg.Due() <= now
    ensures id in stuck && id in f && DiesAt(cfgs, f[id], now) && g[id] == f[id]
  {
    assert SweptMsg(cfgs, f[id], id, g, lo, hi, now, id in stuck);
  }

  /** After a sweep of everything, all that is due are leases whose dead-letter append failed, unchanged. */
  lemma SweepIsComplete(pre: State, post: State, now: int, stuck: set<string>, n: string, id: string)
    requires SweptAll(pre, post, now, stuck)
    requires Has(post, n, id) && At(post, n, id).phase != Ready && At(post, n, id).Due() <= now
    ensures id in stuck && Has(pre, n, id) && At(post, n, id) == At(pre, n, id) && FateIn(pre, n, id, now) == Dies
  {
    hide SweptMsgs, FateOf, Flatten;
    FlatHolds(pre);
    FlatHolds(post);
    FlatQuiet(ConfigsOf(pre), Flatten(pre), Flatten(post), pre.counter, post.counter, now, stuck, id);
  }

  /**
   What a sweep at now makes of a message.  A delay or a lease that is over makes
   it ready where it is, unless it is leased and has been received as often as a
   limit allows: then it goes, with its count, to the dead-letter queue, or for
   good if there is none.  A failed append, and a time that has not come, leave it
   as it was.
   */
  ghost predicate ComesOf(pre: State, n: string, id: string, post: State, now: int, failed: bool)
    requires Has(pre, n, id)
  {
    var m, cfg := At(pre, n, id), pre.queues[n].cfg;
    var spent := m.phase == Leased && cfg.maxReceives > 0 && m.receives >= cfg.maxReceives;
    var due := (m.phase == Delayed && m.notBefore <= now) || (m.phase == Leased && m.deadline <= now);
    && (!due || (spent && failed) ==> Has(post, n, id) && At(post, n, id) == m)
    && (due && !spent ==> Has(post, n, id) && At(post, n, id) == m.(phase := Ready, receipt := "", deadline := 0))
    && (due && spent && !failed && cfg.deadLetter == "" ==> forall n' :: !Has(post, n', id))
    && (due && spent && !failed && cfg.deadLetter != "" ==>
          && Has(post, cfg.deadLetter, id)
          && var m' := At(post, cfg.deadLetter, id);
             m' == m.(phase := Ready, receipt := "", deadline := 0, notBefore := 0, pos := m'.pos)
             && m'.pos > pre.counter)
  }

  lemma VisitOutcome(pre: State, post: State, now: int, n: string, id: string, failed: bool)
    requires OneHome(post) && Has(pre, n, id)
    requires n in ConfigsOf(pre)
    requires SweptMsg(ConfigsOf(pre), Placed(n, At(pre, n, id)), id, Flatten(post), pre.counter, post.counter, now,
                      failed)
    ensures ComesOf(pre, n, id, post, now, failed)
  {
    hide Flatten;
    FlatHolds(post);
    forall n' | Has(post, n', id) ensures id in Flatten(post) { FlatAt(post, n', id); }
  }

  /** That is what becomes of a message that a sweep visits, or that has nothing to wait for. */
  lemma SweptOutcome(pre: State, post: State, now: int, done: set<string>, stuck: set<string>, n: string, id: string)
    requires Swept(pre, post, now, done, stuck) && Has(pre, n, id) && (id in done || At(pre, n, id).phase == Ready)
    ensures ComesOf(pre, n, id, post, now, id in stuck)
  {
    hide Flatten, SweptMsg, FateOf;
    FlatAt(pre, n, id);
    FlatHolds(post);
    assert n in ConfigsOf(pre);
    if id in done {
      VisitOutcome(pre, post, now, n, id, id in stuck);
    }
  }

  /** A queue that a sweep has made leases for 30 seconds, has no limit, and dead-letters nowhere. */
  lemma SweptNew(pre: State, post: State, now: int, done: set<string>, stuck: set<string>, n: string)
    requires Swept(pre, post, now, done, stuck) && n in post.queues && n !in pre.queues
    ensures var cfg := post.queues[n].cfg; cfg.visibility == 30_000 && cfg.maxReceives == 0 && cfg.deadLetter == ""
  {
    hide Flatten, SweptMsgs, Wanted;
    assert n in ConfigsOf(post) && n !in ConfigsOf(pre);
  }

  /** What a sweep of everything makes of every message, and of every queue it has made. */
  lemma SweptOutcomes(pre: State, post: State, now: int, stuck: set<string>)
    requires SweptAll(pre, post, now, stuck)
    ensures forall n, id :: Has(pre, n, id) ==> ComesOf(pre, n, id, post, now, id in stuck)
    ensures forall n :: n in post.queues && n !in pre.queues ==>
      && post.queues[n].cfg.visibility == 30_000 && post.queues[n].cfg.maxReceives == 0
      && post.queues[n].cfg.deadLetter == ""
  {
    hide Flatten, Swept, ComesOf;
    forall n, id | Has(pre, n, id) ensures ComesOf(pre, n, id, post, now, id in stuck)
    {
      FlatAt(pre, n, id);
      SweptOutcome(pre, post, now, AllIds(pre), stuck, n, id);
    }
    forall n | n in post.queues && n !in pre.queues
      ensures post.queues[n].cfg.visibility == 30_000 && post.queues[n].cfg.maxReceives == 0
      ensures post.queues[n].cfg.deadLetter == ""
    {
      SweptNew(pre, post, now, AllIds(pre), stuck, n);
    }
  }

  // ---- a sweep does not depend on its order ------------------------------

  lemma FlatDeterministic(cfgs: Configs, f: map<string, Placed>, a: map<string, Placed>, b: map<string, Placed>,
                          lo: nat, hi: nat, hi': nat, now: int, done: set<string>, stuck: set<string>)
    requires SweptMsgs(cfgs, f, a, lo, hi, now, done, stuck) && SweptMsgs(cfgs, f, b, lo, hi', now, done, stuck)
    ensures hi == hi' && a.Keys == b.Keys
    ensures forall id :: id in a ==> SamePlace(a[id], b[id], id in Buried(cfgs, f, now, done, stuck))
  {
    forall id | id in f
      ensures id in a <==> id in b
      ensures id in a ==> SamePlace(a[id], b[id], id in Buried(cfgs, f, now, done, stuck))
    {
      if id in done {
        assert SweptMsg(cfgs, f[id], id, a, lo, hi, now, id in stuck);
        assert SweptMsg(cfgs, f[id], id, b, lo, hi', now, id in stuck);
      }
    }
  }

  /** Every queue a dying message needs exists afterwards. */
  lemma TargetsExist(pre: State, post: State, now: int, n: string)
    requires SweptAll(pre, post, now, {})
    ensures n in post.queues <==> n in pre.queues || Wanted(ConfigsOf(pre), Flatten(pre), now, n)
  {
    hide Flatten, FateOf, BuriedAs;
    var cfgs, f, g := ConfigsOf(pre), Flatten(pre), Flatten(post);
    FlatHolds(post);
    if Wanted(cfgs, f, now, n) {
      var id :| id in f && Moves(cfgs, f[id], now) && cfgs[f[id].queue].deadLetter == n;
      assert SweptMsg(cfgs, f[id], id, g, pre.counter, post.counter, now, id in {});
      assert Has(post, g[id].queue, id);
    }
    assert n in post.queues <==> n in ConfigsOf(post);
    assert n in pre.queues <==> n in cfgs;
  }

  /** Both states have the same queues and configurations. */
  ghost predicate SameQueueSet(a: State, b: State) {
    ConfigsOf(a) == ConfigsOf(b)
  }

  /**
   Two sweeps of everything at the same time from the same state, in whatever
   orders, differ at most in the positions of the messages they dead-lettered.
   */
  lemma SweepIsOrderFree(pre: State, a: State, b: State, now: int)
    requires SweptAll(pre, a, now, {}) && SweptAll(pre, b, now, {})
    ensures a.counter == b.counter && SameQueueSet(a, b)
    ensures Flatten(a).Keys == Flatten(b).Keys
    ensures forall id :: id in Flatten(a) ==>
      SamePlace(Flatten(a)[id], Flatten(b)[id], id in Buried(ConfigsOf(pre), Flatten(pre), now, AllIds(pre), {}))
  {
    hide Flatten, SweptMsgs, Buried, Wanted;
    FlatDeterministic(ConfigsOf(pre), Flatten(pre), Flatten(a), Flatten(b),
                      pre.counter, a.counter, b.counter, now, AllIds(pre), {});
    forall n ensures n in ConfigsOf(a) <==> n in ConfigsOf(b)
    {
      TargetsExist(pre, a, now, n);
      TargetsExist(pre, b, now, n);
    }
  }

  // ---- sweeps compose ----------------------------------------------------

  lemma LaterFate(cfg: Config, m: Msg, t1: int, t2: int)
    requires t1 <= t2
    ensures FateOf(cfg, m, t1) == Stays || FateOf(cfg, m, t1) == FateOf(cfg, m, t2)
  {
  }

  lemma ReadyStays(cfg: Config, m: Msg, now: int)
    requires m.phase == Ready
    ensures FateOf(cfg, m, now) == Stays
  {
  }

  /** A message moves in exactly one of the two sweeps if it moves in the single later one. */
  lemma MovesOnce(cfgs: Configs, cfgs1: Configs, f: map<string, Placed>, g: map<string, Placed>,
                     lo: nat, mid: nat, t1: int, t2: int, id: string)
    requires t1 <= t2 && SweptMsgs(cfgs, f, g, lo, mid, t1, f.Keys, {})
    requires forall n :: n in cfgs ==> n in cfgs1 && cfgs1[n] == cfgs[n]
    requires id in f
    ensures Moves(cfgs, f[id], t1) ==> Moves(cfgs, f[id], t2) && !(id in g && Moves(cfgs1, g[id], t2))
    ensures id in g && Moves(cfgs1, g[id], t2) ==> g[id] == f[id] && Moves(cfgs, f[id], t2)
    ensures Moves(cfgs, f[id], t2) && !Moves(cfgs, f[id], t1) ==> id in g && g[id] == f[id] && Moves(cfgs1, g[id], t2)
  {
    hide FateOf;
    LaterFate(cfgs[f[id].queue], f[id].msg, t1, t2);
    assert SweptMsg(cfgs, f[id], id, g, lo, mid, t1, id in {});
    if id in g && g[id].queue in cfgs1 && g[id].msg.phase == Ready { ReadyStays(cfgs1[g[id].queue], g[id].msg, t2); }
  }

  lemma NoneAdded(cfgs: Configs, f: map<string, Placed>, g: map<string, Placed>, lo: nat, mid: nat, now: int)
    requires SweptMsgs(cfgs, f, g, lo, mid, now, f.Keys, {})
    ensures g.Keys <= f.Keys
  {
  }

  lemma BuriedSplits(cfgs: Configs, cfgs1: Configs, f: map<string, Placed>, g: map<string, Placed>,
                     lo: nat, mid: nat, t1: int, t2: int)
    requires t1 <= t2 && SweptMsgs(cfgs, f, g, lo, mid, t1, f.Keys, {})
    requires forall n :: n in cfgs ==> n in cfgs1 && cfgs1[n] == cfgs[n]
    ensures Buried(cfgs, f, t1, f.Keys, {}) !! Buried(cfgs1, g, t2, g.Keys, {})
    ensures Buried(cfgs, f, t1, f.Keys, {}) + Buried(cfgs1, g, t2, g.Keys, {}) == Buried(cfgs, f, t2, f.Keys, {})
  {
    hide Moves, SweptMsgs;
    var a, b, c := Buried(cfgs, f, t1, f.Keys, {}), Buried(cfgs1, g, t2, g.Keys, {}), Buried(cfgs, f, t2, f.Keys, {});
    forall id | id in f
      ensures id in a ==> id !in b
      ensures id in c <==> id in a || id in b
    {
      MovesOnce(cfgs, cfgs1, f, g, lo, mid, t1, t2, id);
    }
    NoneAdded(cfgs, f, g, lo, mid, t1);
    assert a + b == c;
  }

  lemma FlatCompose(cfgs: Configs, cfgs1: Configs, f: map<string, Placed>, g1: map<string, Placed>,
                    g2: map<string, Placed>, g3: map<string, Placed>, lo: nat, h1: nat, h2: nat, h3: nat,
                    t1: int, t2: int, id: string)
    requires t1 <= t2
    requires SweptMsgs(cfgs, f, g1, lo, h1, t1, f.Keys, {})
    requires SweptMsgs(cfgs1, g1, g2, h1, h2, t2, g1.Keys, {})
    requires SweptMsgs(cfgs, f, g3, lo, h3, t2, f.Keys, {})
    requires forall n :: n in cfgs ==> n in cfgs1 && cfgs1[n] == cfgs[n]
    requires id in f
    ensures id in g2 <==> id in g3
    ensures id in g2 ==> SamePlace(g2[id], g3[id], Moves(cfgs, f[id], t2))
  {
    hide FateOf;
    var p := f[id];
    LaterFate(cfgs[p.queue], p.msg, t1, t2);
    assert SweptMsg(cfgs, p, id, g1, lo, h1, t1, id in {});
    assert SweptMsg(cfgs, p, id, g3, lo, h3, t2, id in {});
    if id in g1 {
      assert SweptMsg(cfgs1, g1[id], id, g2, h1, h2, t2, id in {});
      if g1[id].msg.phase == Ready { ReadyStays(cfgs1[g1[id].queue], g1[id].msg, t2); }
    }
  }

  lemma CountsAdd(a: set<string>, b: set<string>)
    requires a !! b
    ensures |a + b| == |a| + |b|
  {
  }

  /** Sweeping at t1 and again at t2 does what one sweep at t2 does, up to positions in dead-letter queues. */
  lemma FlatSweepsCompose(cfgs: Configs, cfgs1: Configs, f: map<string, Placed>, g1: map<string, Placed>,
                          g2: map<string, Placed>, g3: map<string, Placed>, lo: nat, h1: nat, h2: nat, h3: nat,
                          t1: int, t2: int)
    requires t1 <= t2
    requires SweptMsgs(cfgs, f, g1, lo, h1, t1, f.Keys, {})
    requires SweptMsgs(cfgs1, g1, g2, h1, h2, t2, g1.Keys, {})
    requires SweptMsgs(cfgs, f, g3, lo, h3, t2, f.Keys, {})
    requires forall n :: n in cfgs ==> n in cfgs1 && cfgs1[n] == cfgs[n]
    ensures h2 == h3 && g2.Keys == g3.Keys
    ensures forall id :: id in g2 ==> id in f && SamePlace(g2[id], g3[id], Moves(cfgs, f[id], t2))
  {
    hide SweptMsg, Moves, SamePlace, Buried;
    BuriedSplits(cfgs, cfgs1, f, g1, lo, h1, t1, t2);
    CountsAdd(Buried(cfgs, f, t1, f.Keys, {}), Buried(cfgs1, g1, t2, g1.Keys, {}));
    forall id | id in f
      ensures id in g2 <==> id in g3
      ensures id in g2 ==> SamePlace(g2[id], g3[id], Moves(cfgs, f[id], t2))
    {
      FlatCompose(cfgs, cfgs1, f, g1, g2, g3, lo, h1, h2, h3, t1, t2, id);
    }
  }

  /** A queue is wanted by a sweep at t1 or the one at t2 after it exactly if the single sweep at t2 wants it. */
  lemma WantedComposes(s: State, s1: State, t1: int, t2: int, n: string)
    requires t1 <= t2 && SweptAll(s, s1, t1, {}) && OneHome(s1)
    ensures Wanted(ConfigsOf(s), Flatten(s), t2, n) <==>
      Wanted(ConfigsOf(s), Flatten(s), t1, n) || Wanted(ConfigsOf(s1), Flatten(s1), t2, n)
  {
    hide FateOf, Flatten;
    var cfgs, f, cfgs1, g := ConfigsOf(s), Flatten(s), ConfigsOf(s1), Flatten(s1);
    if Wanted(cfgs, f, t2, n) {
      var id :| id in f && Moves(cfgs, f[id], t2) && cfgs[f[id].queue].deadLetter == n;
      MovesOnce(cfgs, cfgs1, f, g, s.counter, s1.counter, t1, t2, id);
    }
    if Wanted(cfgs, f, t1, n) {
      var id :| id in f && Moves(cfgs, f[id], t1) && cfgs[f[id].queue].deadLetter == n;
      MovesOnce(cfgs, cfgs1, f, g, s.counter, s1.counter, t1, t2, id);
    }
    if Wanted(cfgs1, g, t2, n) {
      var id :| id in g && Moves(cfgs1, g[id], t2) && cfgs1[g[id].queue].deadLetter == n;
      MovesOnce(cfgs, cfgs1, f, g, s.counter, s1.counter, t1, t2, id);
    }
  }

  /**
   A sweep at t1 followed by one at t2 leaves the same queues, the same
   counter and the same messages in the same places as the sweep at t2 alone;
   only the positions of dead-lettered messages can differ.
   */
  lemma SweepsCompose(s: State, s1: State, s2: State, s3: State, t1: int, t2: int)
    requires t1 <= t2
    requires SweptAll(s, s1, t1, {}) && SweptAll(s1, s2, t2, {}) && SweptAll(s, s3, t2, {})
    ensures s2.counter == s3.counter && SameQueueSet(s2, s3)
    ensures Flatten(s2).Keys == Flatten(s3).Keys
    ensures forall id :: id in Flatten(s2) ==>
      id in Flatten(s) && SamePlace(Flatten(s2)[id], Flatten(s3)[id], Moves(ConfigsOf(s), Flatten(s)[id], t2))
  {
    hide Flatten, SweptMsgs, Wanted, Moves, SamePlace;
    FlatSweepsCompose(ConfigsOf(s), ConfigsOf(s1), Flatten(s), Flatten(s1), Flatten(s2), Flatten(s3),
                      s.counter, s1.counter, s2.counter, s3.counter, t1, t2);
    forall n ensures n in ConfigsOf(s2) <==> n in ConfigsOf(s3)
    {
      TargetsExist(s, s1, t1, n);
      TargetsExist(s1, s2, t2, n);
      TargetsExist(s, s3, t2, n);
      WantedComposes(s, s1, t1, t2, n);
    }
  }
}
