/**
 Time-driven transitions.  A sweep makes due messages ready and dead-letters
 the due leases of exhausted messages; `Swept` says what a sweep has done
 without saying in which order it visited the messages.
 */
module Sweeping {
  import opened Config
  import opened State

  // ---- messages by ID ----------------------------------------------------

  /** A message and the queue that holds it. */
  datatype Placed = Placed(queue: string, msg: Msg)

  /** All messages of all queues, by ID. */
  ghost function Flatten(s: State): map<string, Placed>
    requires OneHome(s)
  {
    Gather(s)
  }

  ghost function Gather(s: State): (f: map<string, Placed>)
    requires OneHome(s)
    ensures forall n, id :: Has(s, n, id) ==> id in f && f[id] == Placed(n, At(s, n, id))
    ensures forall id :: id in f ==> Has(s, f[id].queue, id)
  {
    assert forall n, id :: Has(s, n, id) <==> n in s.queues && id in s.queues[n].msgs;
    map n, id | n in s.queues && id in s.queues[n].msgs :: id := Placed(n, s.queues[n].msgs[id])
  }

  lemma FlatHolds(s: State)
    requires OneHome(s)
    ensures forall n, id :: Has(s, n, id) ==> id in Flatten(s) && Flatten(s)[id] == Placed(n, At(s, n, id))
    ensures forall id :: id in Flatten(s) ==> Has(s, Flatten(s)[id].queue, id)
  {
  }

  lemma FlatAt(s: State, n: string, id: string)
    requires OneHome(s) && Has(s, n, id)
    ensures id in Flatten(s) && Flatten(s)[id] == Placed(n, At(s, n, id))
  {
  }

  lemma FlatIs(s: State, f: map<string, Placed>)
    requires OneHome(s)
    requires forall n, id :: Has(s, n, id) ==> id in f && f[id] == Placed(n, At(s, n, id))
    requires forall id :: id in f ==> Has(s, f[id].queue, id)
    ensures Flatten(s) == f
  {
    FlatHolds(s);
    var g := Flatten(s);
    forall id ensures id in f <==> id in g { }
    forall id | id in f ensures f[id] == g[id] { }
  }

  lemma FlatPut(s: State, n: string, m: Msg, counter: nat)
    requires OneHome(s) && n in s.queues
    requires forall n' :: Has(s, n', m.id) ==> n' == n
    ensures var s' := Put(s, n, m).(counter := counter);
      OneHome(s') && Flatten(s') == Flatten(s)[m.id := Placed(n, m)]
  {
    hide Flatten;
    FlatHolds(s);
    var s' := Put(s, n, m).(counter := counter);
    forall n', id
      ensures Has(s', n', id) <==> Has(s, n', id) || (n' == n && id == m.id)
      ensures Has(s', n', id) ==> At(s', n', id) == if n' == n && id == m.id then m else At(s, n', id)
    {
    }
    FlatIs(s', Flatten(s)[m.id := Placed(n, m)]);
  }

  lemma FlatTake(s: State, n: string, id: string)
    requires OneHome(s) && Has(s, n, id)
    ensures OneHome(Take(s, n, id)) && Flatten(Take(s, n, id)) == Flatten(s) - {id}
  {
    hide Flatten;
    FlatHolds(s);
    var s' := Take(s, n, id);
    forall n', id'
      ensures Has(s', n', id') <==> Has(s, n', id') && id' != id
      ensures Has(s', n', id') ==> At(s', n', id') == At(s, n', id')
    {
    }
    FlatIs(s', Flatten(s) - {id});
  }

  lemma FlatConfig(s: State, n: string, cfg: Config)
    requires OneHome(s)
    ensures OneHome(SetConfig(s, n, cfg)) && Flatten(SetConfig(s, n, cfg)) == Flatten(s)
  {
    hide Flatten;
    FlatHolds(s);
    var s' := SetConfig(s, n, cfg);
    forall n', id
      ensures Has(s', n', id) <==> Has(s, n', id)
      ensures Has(s', n', id) ==> At(s', n', id) == At(s, n', id)
    {
    }
    FlatIs(s', Flatten(s));
  }

  lemma FlatArrive(s: State, n: string, id: string, to: string, m: Msg)
    requires OneHome(s) && Has(s, n, id) && to in s.queues && m.id == id
    ensures var s' := Arrive(Take(s, n, id), to, m);
      OneHome(s')
      && Flatten(s') == Flatten(s)[id := Placed(to, m.MakeReady().(pos := s.counter + 1, notBefore := 0))]
  {
    hide Flatten, OneHome, Has;
    FlatTake(s, n, id);
    var m' := m.MakeReady().(pos := s.counter + 1, notBefore := 0);
    TakenIsGone(s, n, id);
    FlatPut(Take(s, n, id), to, m', s.counter + 1);
    assert (Flatten(s) - {id})[id := Placed(to, m')] == Flatten(s)[id := Placed(to, m')];
  }

  // ---- what a sweep does -------------------------------------------------

  datatype Fate = Stays | Wakes | Dies

  /** What a sweep at now does with message m of a queue configured as cfg. */
  function FateOf(cfg: Config, m: Msg, now: int): Fate {
    if m.phase == Ready || m.Due() > now then Stays
    else if m.phase == Leased && Exhausted(cfg, m.receives) then Dies
    else Wakes
  }

  /** Nothing waits for a time up to now. */
  ghost predicate QuietAt(s: State, now: int) {
    forall n, id :: Has(s, n, id) && At(s, n, id).phase != Ready ==> At(s, n, id).Due() > now
  }

  /** m' is m as it arrives in a dead-letter queue between counter values lo and hi. */
  predicate BuriedAs(m: Msg, m': Msg, lo: nat, hi: nat) {
    m' == m.MakeReady().(notBefore := 0, pos := m'.pos) && lo < m'.pos <= hi
  }

  type Configs = map<string, Config>

  function ConfigsOf(s: State): Configs {
    map n | n in s.queues :: s.queues[n].cfg
  }

  predicate DiesAt(cfgs: Configs, p: Placed, now: int) {
    p.queue in cfgs && FateOf(cfgs[p.queue], p.msg, now) == Dies
  }

  /** p dies and has a dead-letter queue to go to. */
  predicate Moves(cfgs: Configs, p: Placed, now: int) {
    DiesAt(cfgs, p, now) && cfgs[p.queue].deadLetter != ""
  }

  /** The messages in done but not in stuck that were moved to a dead-letter queue. */
  function Buried(cfgs: Configs, f: map<string, Placed>, now: int, done: set<string>, stuck: set<string>): set<string> {
    set id | id in done && id !in stuck && id in f && Moves(cfgs, f[id], now)
  }

  /** What a sweep that visits message p, known as id, leaves of it in g. */
  predicate SweptMsg(cfgs: Configs, p: Placed, id: string, g: map<string, Placed>, lo: nat, hi: nat, now: int,
                     failed: bool)
    requires p.queue in cfgs
  {
    match FateOf(cfgs[p.queue], p.msg, now)
    case Stays => id in g && g[id] == p
    case Wakes => id in g && g[id] == Placed(p.queue, p.msg.MakeReady())
    case Dies =>
      if failed then id in g && g[id] == p
      else if cfgs[p.queue].deadLetter == "" then id !in g
      else id in g && g[id].queue == cfgs[p.queue].deadLetter && BuriedAs(p.msg, g[id].msg, lo, hi)
  }

  /** The messages f after a sweep at now has visited those in done. */
  ghost predicate SweptMsgs(cfgs: Configs, f: map<string, Placed>, g: map<string, Placed>, lo: nat, hi: nat, now: int,
                            done: set<string>, stuck: set<string>) {
    && (forall id :: id in f ==> f[id].queue in cfgs)
    && g.Keys <= f.Keys
    && stuck <= done <= f.Keys
    && (forall id :: id in f && id !in done ==> id in g && g[id] == f[id])
    && (forall id :: id in f && id in done ==> SweptMsg(cfgs, f[id], id, g, lo, hi, now, id in stuck))
    && hi == lo + |Buried(cfgs, f, now, done, stuck)|
  }

  /** The queues after a sweep: those before it, and default ones created for messages that die. */
  ghost predicate SweptConfigs(cfgs: Configs, f: map<string, Placed>, after: Configs, now: int) {
    && (forall n :: n in cfgs ==> n in after && after[n] == cfgs[n])
    && (forall n :: n in after && n !in cfgs ==> after[n] == DEFAULT_CONFIG && Wanted(cfgs, f, now, n))
  }

  ghost predicate Wanted(cfgs: Configs, f: map<string, Placed>, now: int, n: string) {
    exists id :: id in f && Moves(cfgs, f[id], now) && cfgs[f[id].queue].deadLetter == n
  }

  /**
   post is pre after a sweep at now has visited the messages in done, the
   dead-letter appends of those in stuck having failed.
   */
  ghost predicate Swept(pre: State, post: State, now: int, done: set<string>, stuck: set<string>) {
    && OneHome(pre) && OneHome(post)
    && SweptMsgs(ConfigsOf(pre), Flatten(pre), Flatten(post), pre.counter, post.counter, now, done, stuck)
    && SweptConfigs(ConfigsOf(pre), Flatten(pre), ConfigsOf(post), now)
  }

  // ---- one visit ---------------------------------------------------------

  /** Visiting one more message changes the set of moved messages by at most that one. */
  lemma BuriedGrows(cfgs: Configs, f: map<string, Placed>, now: int, done: set<string>, stuck: set<string>, id: string)
    requires id !in done && id in f
    ensures Buried(cfgs, f, now, done + {id}, stuck + {id}) == Buried(cfgs, f, now, done, stuck)
    ensures id !in stuck && Moves(cfgs, f[id], now) ==>
      |Buried(cfgs, f, now, done + {id}, stuck)| == |Buried(cfgs, f, now, done, stuck)| + 1
    ensures !Moves(cfgs, f[id], now) ==>
      Buried(cfgs, f, now, done + {id}, stuck) == Buried(cfgs, f, now, done, stuck)
  {
    hide Moves;
    if id !in stuck && Moves(cfgs, f[id], now) {
      assert Buried(cfgs, f, now, done + {id}, stuck) == Buried(cfgs, f, now, done, stuck) + {id};
    }
  }

  lemma MsgsNothing(cfgs: Configs, f: map<string, Placed>, lo: nat, now: int)
    requires forall id :: id in f ==> f[id].queue in cfgs
    ensures SweptMsgs(cfgs, f, f, lo, lo, now, {}, {})
  {
    assert Buried(cfgs, f, now, {}, {}) == {};
  }

  /** Visiting a message that is not due, or whose dead-letter append fails. */
  lemma MsgsStay(cfgs: Configs, f: map<string, Placed>, g: map<string, Placed>, lo: nat, hi: nat, now: int,
                 done: set<string>, stuck: set<string>, id: string)
    requires SweptMsgs(cfgs, f, g, lo, hi, now, done, stuck) && id in f && id !in done
    ensures FateOf(cfgs[f[id].queue], f[id].msg, now) == Stays ==>
      SweptMsgs(cfgs, f, g, lo, hi, now, done + {id}, stuck)
    ensures FateOf(cfgs[f[id].queue], f[id].msg, now) == Dies ==>
      SweptMsgs(cfgs, f, g, lo, hi, now, done + {id}, stuck + {id})
  {
    hide FateOf, BuriedAs;
    BuriedGrows(cfgs, f, now, done, stuck, id);
  }

  /** Visiting a message whose delay or lease is over. */
  lemma MsgsWake(cfgs: Configs, f: map<string, Placed>, g: map<string, Placed>, lo: nat, hi: nat, now: int,
                 done: set<string>, stuck: set<string>, id: string)
    requires SweptMsgs(cfgs, f, g, lo, hi, now, done, stuck) && id in f && id !in done
    requires FateOf(cfgs[f[id].queue], f[id].msg, now) == Wakes
    ensures id in g && g[id] == f[id]
    ensures SweptMsgs(cfgs, f, g[id := Placed(f[id].queue, f[id].msg.MakeReady())], lo, hi, now, done + {id}, stuck)
  {
    hide FateOf, BuriedAs;
    BuriedGrows(cfgs, f, now, done, stuck, id);
  }

  /** Visiting a message that is dropped. */
  lemma MsgsDrop(cfgs: Configs, f: map<string, Placed>, g: map<string, Placed>, lo: nat, hi: nat, now: int,
                 done: set<string>, stuck: set<string>, id: string)
    requires SweptMsgs(cfgs, f, g, lo, hi, now, done, stuck) && id in f && id !in done
    requires DiesAt(cfgs, f[id], now) && cfgs[f[id].queue].deadLetter == ""
    ensures SweptMsgs(cfgs, f, g - {id}, lo, hi, now, done + {id}, stuck)
  {
    hide FateOf, BuriedAs;
    BuriedGrows(cfgs, f, now, done, stuck, id);
  }

  /** Visiting a message that moves to its dead-letter queue. */
  lemma MsgsBury(cfgs: Configs, f: map<string, Placed>, g: map<string, Placed>, lo: nat, hi: nat, now: int,
                 done: set<string>, stuck: set<string>, id: string)
    requires SweptMsgs(cfgs, f, g, lo, hi, now, done, stuck) && id in f && id !in done
    requires DiesAt(cfgs, f[id], now) && cfgs[f[id].queue].deadLetter != ""
    ensures id in g && g[id] == f[id]
    ensures var m' := f[id].msg.MakeReady().(pos := hi + 1, notBefore := 0);
      SweptMsgs(cfgs, f, g[id := Placed(cfgs[f[id].queue].deadLetter, m')], lo, hi + 1, now, done + {id}, stuck)
  {
    hide FateOf;
    BuriedGrows(cfgs, f, now, done, stuck, id);
  }

  // ---- one visit, on states ----------------------------------------------

  lemma ConfigsPut(s: State, n: string, m: Msg, counter: nat)
    requires n in s.queues
    ensures ConfigsOf(Put(s, n, m).(counter := counter)) == ConfigsOf(s)
  {
  }

  lemma ConfigsTake(s: State, n: string, id: string)
    requires n in s.queues
    ensures ConfigsOf(Take(s, n, id)) == ConfigsOf(s)
  {
  }

  lemma ConfigsArrive(s: State, n: string, id: string, to: string, m: Msg)
    requires n in s.queues && to in s.queues
    ensures ConfigsOf(Arrive(Take(s, n, id), to, m)) == ConfigsOf(s)
  {
  }

  lemma SweptNothing(s: State, now: int)
    requires OneHome(s)
    ensures Swept(s, s, now, {}, {})
  {
    MsgsNothing(ConfigsOf(s), Flatten(s), s.counter, now);
  }

  /** The state from which a visit to message id of queue n is taken. */
  ghost predicate Visits(pre: State, cur: State, now: int, done: set<string>, stuck: set<string>, n: string,
                         id: string) {
    && Swept(pre, cur, now, done, stuck)
    && Has(pre, n, id) && id !in done && At(pre, n, id).id == id
  }

  function TargetOf(s: State, n: string): string
    requires n in s.queues
  {
    s.queues[n].cfg.deadLetter
  }

  function FateIn(s: State, n: string, id: string, now: int): Fate
    requires Has(s, n, id)
  {
    FateOf(s.queues[n].cfg, At(s, n, id), now)
  }

  lemma VisitedAt(pre: State, cur: State, now: int, done: set<string>, stuck: set<string>, n: string, id: string)
    requires Visits(pre, cur, now, done, stuck, n, id)
    ensures id in Flatten(pre) && Flatten(pre)[id] == Placed(n, At(pre, n, id))
    ensures n in ConfigsOf(pre) && ConfigsOf(pre)[n] == pre.queues[n].cfg
  {
    FlatAt(pre, n, id);
  }

  /** A message not visited yet is where and as it was. */
  lemma Unvisited(pre: State, cur: State, now: int, done: set<string>, stuck: set<string>, n: string, id: string)
    requires Visits(pre, cur, now, done, stuck, n, id)
    ensures Has(cur, n, id) && At(cur, n, id) == At(pre, n, id) && cur.queues[n].cfg == pre.queues[n].cfg
  {
    hide FateOf, BuriedAs, Flatten;
    FlatHolds(pre);
    FlatHolds(cur);
    assert n in ConfigsOf(pre) && ConfigsOf(cur)[n] == ConfigsOf(pre)[n];
  }

  lemma VisitStay(pre: State, cur: State, now: int, done: set<string>, stuck: set<string>, n: string, id: string)
    requires Visits(pre, cur, now, done, stuck, n, id)
    ensures FateIn(pre, n, id, now) == Stays ==> Swept(pre, cur, now, done + {id}, stuck)
    ensures FateIn(pre, n, id, now) == Dies ==> Swept(pre, cur, now, done + {id}, stuck + {id})
  {
    hide FateOf, SweptMsgs, SweptConfigs, Flatten, ConfigsOf, OneHome;
    VisitedAt(pre, cur, now, done, stuck, n, id);
    MsgsStay(ConfigsOf(pre), Flatten(pre), Flatten(cur), pre.counter, cur.counter, now, done, stuck, id);
  }

  lemma VisitWake(pre: State, cur: State, now: int, done: set<string>, stuck: set<string>, n: string, id: string)
    requires Visits(pre, cur, now, done, stuck, n, id) && FateIn(pre, n, id, now) == Wakes
    requires Has(cur, n, id) && At(cur, n, id) == At(pre, n, id)
    ensures Swept(pre, Put(cur, n, At(cur, n, id).MakeReady()), now, done + {id}, stuck)
  {
    hide FateOf, SweptMsgs, SweptConfigs, Flatten, ConfigsOf, OneHome;
    VisitedAt(pre, cur, now, done, stuck, n, id);
    OnlyIn(cur, n, id);
    var m := At(cur, n, id).MakeReady();
    MsgsWake(ConfigsOf(pre), Flatten(pre), Flatten(cur), pre.counter, cur.counter, now, done, stuck, id);
    ConfigsPut(cur, n, m, cur.counter);
    FlatPut(cur, n, m, cur.counter);
    assert Put(cur, n, m).(counter := cur.counter) == Put(cur, n, m);
  }

  lemma OnlyIn(s: State, n: string, id: string)
    requires OneHome(s) && Has(s, n, id)
    ensures forall n' :: Has(s, n', id) ==> n' == n
  {
  }

  /** Creating the dead-letter queue that a dying message needs. */
  lemma CreateTarget(pre: State, cur: State, now: int, done: set<string>, stuck: set<string>, n: string, id: string)
    requires Visits(pre, cur, now, done, stuck, n, id) && FateIn(pre, n, id, now) == Dies
    requires TargetOf(pre, n) != "" && TargetOf(pre, n) !in cur.queues
    ensures Visits(pre, SetConfig(cur, TargetOf(pre, n), DEFAULT_CONFIG), now, done, stuck, n, id)
  {
    hide FateOf, SweptMsgs, SweptConfigs, Flatten, ConfigsOf, OneHome;
    var to := TargetOf(pre, n);
    VisitedAt(pre, cur, now, done, stuck, n, id);
    FlatConfig(cur, to, DEFAULT_CONFIG);
    ConfigsCreate(cur, to, DEFAULT_CONFIG);
    TargetWanted(ConfigsOf(pre), Flatten(pre), ConfigsOf(cur), now, id);
  }

  lemma ConfigsCreate(s: State, n: string, cfg: Config)
    ensures ConfigsOf(SetConfig(s, n, cfg)) == ConfigsOf(s)[n := cfg]
    ensures n in ConfigsOf(s) <==> n in s.queues
  {
  }

  lemma TargetWanted(cfgs: Configs, f: map<string, Placed>, after: Configs, now: int, id: string)
    requires SweptConfigs(cfgs, f, after, now)
    requires id in f && Moves(cfgs, f[id], now) && cfgs[f[id].queue].deadLetter !in after
    ensures SweptConfigs(cfgs, f, after[cfgs[f[id].queue].deadLetter := DEFAULT_CONFIG], now)
  {
    hide Moves;
  }

  lemma VisitDrop(pre: State, cur: State, now: int, done: set<string>, stuck: set<string>, n: string, id: string)
    requires Visits(pre, cur, now, done, stuck, n, id) && FateIn(pre, n, id, now) == Dies
    requires TargetOf(pre, n) == "" && Has(cur, n, id)
    ensures Swept(pre, Take(cur, n, id), now, done + {id}, stuck)
  {
    hide FateOf, SweptMsgs, SweptConfigs, Flatten, ConfigsOf, OneHome;
    VisitedAt(pre, cur, now, done, stuck, n, id);
    MsgsDrop(ConfigsOf(pre), Flatten(pre), Flatten(cur), pre.counter, cur.counter, now, done, stuck, id);
    ConfigsTake(cur, n, id);
    FlatTake(cur, n, id);
  }

  lemma VisitBury(pre: State, cur: State, now: int, done: set<string>, stuck: set<string>, n: string, id: string)
    requires Visits(pre, cur, now, done, stuck, n, id) && FateIn(pre, n, id, now) == Dies
    requires TargetOf(pre, n) != "" && TargetOf(pre, n) in cur.queues
    requires Has(cur, n, id) && At(cur, n, id) == At(pre, n, id)
    ensures Swept(pre, Arrive(Take(cur, n, id), TargetOf(pre, n), At(cur, n, id)), now, done + {id}, stuck)
  {
    hide FateOf, SweptMsgs, SweptConfigs, Flatten, ConfigsOf, OneHome;
    VisitedAt(pre, cur, now, done, stuck, n, id);
    MsgsBury(ConfigsOf(pre), Flatten(pre), Flatten(cur), pre.counter, cur.counter, now, done, stuck, id);
    ConfigsArrive(cur, n, id, TargetOf(pre, n), At(cur, n, id));
    FlatArrive(cur, n, id, TargetOf(pre, n), At(cur, n, id));
  }
}
