/** The engine's queues in memory, kept equal to a state value. */
module Store {
  import opened Config
  import opened Sequences
  import opened State
  import opened Messages

  /** No two queues share a channel. */
  ghost predicate Distinct(wakes: map<string, Chan>) {
    forall n, n' :: n in wakes && n' in wakes && wakes[n] == wakes[n'] ==> n == n'
  }

  class Store {
    var counter: nat
    var queues: map<string, QueueState>
    /** The channel each queue's waiters wait on, and those closed so far. */
    ghost var wakes: map<string, Chan>
    ghost var gone: set<Chan>
    ghost var repr: set<object>

    constructor ()
      ensures Holds(EMPTY) && repr == {this} && wakes == map[] && gone == {}
    {
      counter, queues := 0, map[];
      wakes, gone, repr := map[], {}, {this};
    }

    /** Everything but the contents of the queues and their channels is as s says. */
    ghost predicate Shaped(s: State)
      reads this, repr
    {
      && this in repr
      && counter == s.counter
      && queues.Keys == s.queues.Keys
      && (forall n :: n in queues ==> queues[n] in repr && queues[n].name == n)
      && (forall n :: n in queues ==> queues[n].byID.Values <= repr)
    }

    /** Every queue has a channel of its own, which is open; channels given up are closed. */
    ghost predicate Waking()
      reads `queues, `wakes, `gone, `repr, queues.Values`wake, wakes.Values, gone
    {
      && wakes.Keys == queues.Keys
      && Distinct(wakes)
      && (forall n :: n in wakes ==> n in queues && queues[n].wake == wakes[n] && !wakes[n].closed && wakes[n] in repr)
      && (forall c :: c in gone ==> c.closed && c in repr)
    }

    /** Every queue but n0 holds what s says. */
    ghost predicate Others(s: State, n0: string)
      reads this, repr
    {
      && Shaped(s)
      && forall n :: n in queues && n != n0 ==> queues[n].Is(s.queues[n])
    }

    /** The queues hold exactly what s says. */
    ghost predicate Contents(s: State)
      reads this, repr
    {
      && Shaped(s)
      && forall n :: n in queues ==> queues[n].Is(s.queues[n])
    }

    ghost predicate Holds(s: State)
      reads this, repr, wakes.Values, gone
    {
      Contents(s) && Waking()
    }

    /** As Holds, with message m of queue q in neither its heap nor its pending map. */
    ghost predicate HoldsBut(s: State, q: QueueState, m: Message)
      reads this, repr, wakes.Values, gone
    {
      && Others(s, q.name) && Waking()
      && Registered(q)
      && m in q.byID.Values && q.Out(s.queues[q.name], m)
    }

    ghost predicate Registered(q: QueueState)
      reads this
    {
      q.name in queues && queues[q.name] == q
    }

    /** q is queue q.name and m is one of its messages. */
    ghost predicate Owns(q: QueueState, m: Message)
      reads this, q
    {
      Registered(q) && m.id in q.byID && q.byID[m.id] == m
    }

    // -- reading the fields

    lemma Focus(s: State, q: QueueState)
      requires Contents(s) && Registered(q)
      ensures Others(s, q.name) && q.Is(s.queues[q.name])
      ensures forall n :: n in queues && n != q.name ==> queues[n] != q
    {
    }

    /** Queue q holds v and the others what s says. */
    lemma Whole(s: State, q: QueueState, v: Queue)
      requires Others(s, q.name) && Registered(q) && q.Is(v)
      ensures Contents(s.(queues := s.queues[q.name := v]))
    {
      hide QueueState.Is;
    }

    lemma WholeBut(s: State, q: QueueState, v: Queue, m: Message)
      requires Others(s, q.name) && Waking() && Registered(q)
      requires m in q.byID.Values && q.Out(v, m)
      ensures HoldsBut(s.(queues := s.queues[q.name := v]), q, m)
    {
      hide QueueState.Is, QueueState.Out, Waking;
    }

    /** No queue but q knows its message m. */
    lemma Apart(s: State, q: QueueState, m: Message, n: string)
      requires Others(s, q.name) && OneHome(s) && n in queues && n != q.name && Has(s, q.name, m.id)
      ensures m !in queues[n].byID.Values
    {
      hide QueueState.Is, Shaped;
      SameNames(s, q.name);
      assert queues[n].Is(s.queues[n]);
      queues[n].Named(s.queues[n]);
      var known := Has(s, n, m.id);
      assert m in queues[n].byID.Values ==> known;
    }

    lemma SameNames(s: State, n0: string)
      requires Others(s, n0) || Contents(s)
      ensures queues.Keys == s.queues.Keys
    {
    }

    lemma AllApart(s: State, q: QueueState, m: Message)
      requires Others(s, q.name) && OneHome(s) && Has(s, q.name, m.id)
      ensures forall n :: n in queues && n != q.name ==> m !in queues[n].byID.Values
    {
      hide Others;
      forall n | n in queues && n != q.name ensures m !in queues[n].byID.Values
      {
        Apart(s, q, m, n);
      }
    }

    lemma Filed(s: State, q: QueueState, m: Message)
      requires Contents(s) && Owns(q, m) && OneHome(s)
      ensures Others(s, q.name)
      ensures q.Files(s.queues[q.name], m)
      ensures Has(s, q.name, m.id) && At(s, q.name, m.id) == m.Value()
      ensures forall n :: n in queues && n != q.name ==> queues[n] != q && m !in queues[n].byID.Values
    {
      hide QueueState.Is, QueueState.Files, Contents, Others;
      SameNames(s, q.name);
      Focus(s, q);
      q.FiledIs(s.queues[q.name], m);
      AllApart(s, q, m);
    }

    lemma Taken(s: State, q: QueueState, m: Message)
      requires HoldsBut(s, q, m) && OneHome(s)
      ensures Others(s, q.name)
      ensures q.Out(s.queues[q.name], m)
      ensures Has(s, q.name, m.id) && At(s, q.name, m.id) == m.Value()
      ensures forall n :: n in queues && n != q.name ==> queues[n] != q && m !in queues[n].byID.Values
    {
      hide QueueState.Is, QueueState.Out, Others;
      SameNames(s, q.name);
      OthersNamed(s, q);
      q.OutIs(s.queues[q.name], m);
      AllApart(s, q, m);
    }

    lemma OthersNamed(s: State, q: QueueState)
      requires Others(s, q.name)
      ensures forall n :: n in queues && n != q.name ==> queues[n] != q
    {
    }

    // -- what becomes of one message

    /** A pending message becomes ready. */
    method Release(ghost s: State, q: QueueState, m: Message)
      requires Holds(s) && OneHome(s) && Owns(q, m) && m.phase != Ready
      modifies q`pending, q`ready, m
      ensures Has(s, q.name, m.id) && Holds(Put(s, q.name, At(s, q.name, m.id).MakeReady()))
    {
      hide QueueState.Is, QueueState.Files, Contents, Waking;
      Filed(s, q, m);
      ghost var v := s.queues[q.name];
      q.Release(m, v);
      Whole(s, q, v.(msgs := v.msgs[m.id := v.msgs[m.id].MakeReady()]));
    }

    /** A pending message is deleted. */
    method Remove(ghost s: State, q: QueueState, m: Message)
      requires Holds(s) && OneHome(s) && Owns(q, m) && m.phase != Ready
      modifies q`pending, q`byID
      ensures Holds(Take(s, q.name, m.id))
    {
      hide QueueState.Is, QueueState.Files, Contents, Waking;
      Filed(s, q, m);
      q.Remove(m, s.queues[q.name]);
      assert q.byID.Values <= old(q.byID.Values);
      Whole(s, q, s.queues[q.name].(msgs := s.queues[q.name].msgs - {m.id}));
    }

    /** The first ready message leaves the heap. */
    method TakeFirst(ghost s: State, q: QueueState) returns (m: Message)
      requires Holds(s) && Registered(q) && q.ready != []
      modifies q`ready
      ensures HoldsBut(s, q, m) && m.phase == Ready
      ensures forall id :: Has(s, q.name, id) && At(s, q.name, id).phase == Ready ==> m.pos <= At(s, q.name, id).pos
    {
      hide QueueState.Is, QueueState.Out, Contents, Waking;
      Focus(s, q);
      m := q.TakeFirst(s.queues[q.name]);
    }

    method NextNumber(ghost s: State) returns (n: nat)
      requires Holds(s)
      modifies `counter
      ensures n == s.counter + 1 && Holds(s.(counter := n))
    {
      hide QueueState.Is, Waking;
      counter := counter + 1;
      n := counter;
    }

    /** The same while message m of q is out of its heap. */
    method NextNumberBut(ghost s: State, q: QueueState, m: Message) returns (n: nat)
      requires HoldsBut(s, q, m)
      modifies `counter
      ensures n == s.counter + 1 && HoldsBut(s.(counter := n), q, m)
    {
      hide QueueState.Is, QueueState.Out, Waking;
      counter := counter + 1;
      n := counter;
    }

    method UndoNumber(ghost s: State)
      requires Holds(s) && s.counter > 0
      modifies `counter
      ensures Holds(s.(counter := s.counter - 1))
    {
      hide QueueState.Is, Waking;
      counter := counter - 1;
    }

    /** The deadline of a lease changes. */
    method SetDeadline(ghost s: State, q: QueueState, m: Message, deadline: int)
      requires Holds(s) && OneHome(s) && Owns(q, m) && m.phase != Ready
      modifies m
      ensures Has(s, q.name, m.id) && Holds(Put(s, q.name, At(s, q.name, m.id).(deadline := deadline)))
    {
      hide QueueState.Is, QueueState.Files, Contents, Waking;
      Filed(s, q, m);
      ghost var v := s.queues[q.name];
      q.SetDeadline(m, v, deadline);
      Whole(s, q, v.(msgs := v.msgs[m.id := v.msgs[m.id].(deadline := deadline)]));
    }

    /** The message taken goes back into the heap unchanged. */
    method PutBack(ghost s: State, q: QueueState, m: Message)
      requires HoldsBut(s, q, m) && OneHome(s) && m.Value() == m.Value().MakeReady()
      modifies q`ready, m
      ensures Holds(s)
    {
      hide QueueState.Is, QueueState.Out, Contents, Waking;
      Taken(s, q, m);
      ghost var v := s.queues[q.name];
      assert v.(msgs := v.msgs[m.id := v.msgs[m.id].MakeReady()]) == v;
      q.PutReady(m, v);
      assert s.queues[q.name := v] == s.queues;
      Whole(s, q, v);
    }

    /** The message taken is leased. */
    method SetLease(ghost s: State, q: QueueState, m: Message, receipt: string, deadline: int, receives: int)
      requires HoldsBut(s, q, m) && OneHome(s)
      modifies m
      ensures Has(s, q.name, m.id)
      ensures m.Value() == At(s, q.name, m.id).(phase := Leased, receipt := receipt, deadline := deadline,
                                                receives := receives)
      ensures HoldsBut(Put(s, q.name, m.Value()), q, m)
    {
      hide QueueState.Is, QueueState.Out, Contents, Waking;
      Taken(s, q, m);
      ghost var v := s.queues[q.name];
      q.SetLease(m, v, receipt, deadline, receives);
      WholeBut(s, q, v.(msgs := v.msgs[m.id := m.Value()]), m);
    }

    /** The lease that could not be logged is undone and the message goes back into the heap. */
    method UndoLease(ghost s: State, q: QueueState, m: Message)
      requires HoldsBut(s, q, m) && OneHome(s)
      modifies q`ready, m
      ensures Has(s, q.name, m.id)
      ensures Holds(Put(s, q.name, At(s, q.name, m.id).MakeReady().(receives := At(s, q.name, m.id).receives - 1)))
    {
      hide QueueState.Is, QueueState.Out, Contents, Waking;
      Taken(s, q, m);
      ghost var v := s.queues[q.name];
      q.UndoLease(m, v);
      Whole(s, q, v.(msgs := v.msgs[m.id := v.msgs[m.id].MakeReady().(receives := v.msgs[m.id].receives - 1)]));
    }

    /** The leased message becomes pending. */
    method PutPending(ghost s: State, q: QueueState, m: Message)
      requires HoldsBut(s, q, m) && OneHome(s) && m.phase != Ready
      modifies q`pending
      ensures Holds(s)
    {
      hide QueueState.Is, QueueState.Out, Contents, Waking;
      Taken(s, q, m);
      q.PutPending(m, s.queues[q.name]);
      assert s.queues[q.name := s.queues[q.name]] == s.queues;
      Whole(s, q, s.queues[q.name]);
    }

    /** A message leaves the heap or the pending map, wherever it is. */
    method Detach(ghost s: State, q: QueueState, m: Message)
      requires Holds(s) && OneHome(s) && Owns(q, m)
      modifies q`pending, q`ready
      ensures HoldsBut(s, q, m)
    {
      hide QueueState.Is, QueueState.Files, QueueState.Out, Contents, Waking;
      Filed(s, q, m);
      q.Detach(m, s.queues[q.name]);
    }

    /** The message taken leaves its queue. */
    method Lose(ghost s: State, q: QueueState, m: Message)
      requires HoldsBut(s, q, m) && OneHome(s)
      modifies q`byID
      ensures Holds(Take(s, q.name, m.id)) && m in repr
    {
      hide QueueState.Is, QueueState.Out, Contents, Waking;
      Taken(s, q, m);
      q.Lose(m, s.queues[q.name]);
      assert q.byID.Values <= old(q.byID.Values);
      Whole(s, q, s.queues[q.name].(msgs := s.queues[q.name].msgs - {m.id}));
    }

    // -- messages of no queue

    /** Room is made for a message. */
    ghost method Adopt(s: State, m: Message)
      requires Holds(s)
      modifies `repr
      ensures Holds(s) && repr == old(repr) + {m}
    {
      hide QueueState.Is, Distinct;
      repr := repr + {m};
    }

    /** A message of no queue joins q, unchanged. */
    method Add(ghost s: State, q: QueueState, m: Message)
      requires Holds(s) && Registered(q) && m in repr && forall n :: !Has(s, n, m.id)
      requires m.Value() == m.Value().MakeReady()
      modifies q`byID, q`ready, m
      ensures Holds(Put(s, q.name, old(m.Value())))
    {
      hide QueueState.Is, Contents, Waking;
      Strange(s, q, m);
      Focus(s, q);
      ghost var v, value := s.queues[q.name], m.Value();
      q.Add(m, v);
      assert q.byID.Values <= old(q.byID.Values) + {m};
      Whole(s, q, v.(msgs := v.msgs[m.id := value]));
    }

    /** A message of no queue joins q as delayed. */
    method AddDelayed(ghost s: State, q: QueueState, m: Message)
      requires Holds(s) && Registered(q) && m in repr && forall n :: !Has(s, n, m.id)
      modifies q`byID, q`pending, m
      ensures Holds(Put(s, q.name, old(m.Value()).(phase := Delayed)))
    {
      hide QueueState.Is, Contents, Waking;
      Strange(s, q, m);
      Focus(s, q);
      ghost var v, value := s.queues[q.name], m.Value().(phase := Delayed);
      q.AddDelayed(m, v);
      assert q.byID.Values <= old(q.byID.Values) + {m};
      Whole(s, q, v.(msgs := v.msgs[m.id := value]));
    }

    /** A message of no queue joins the back of q. */
    method Join(ghost s: State, q: QueueState, m: Message, receives: int)
      requires Holds(s) && Registered(q) && m in repr && forall n :: !Has(s, n, m.id)
      modifies q`byID, q`ready, m, `counter
      ensures Holds(Arrive(s, q.name, old(m.Value()).(receives := receives)))
    {
      hide QueueState.Is, Contents, Waking;
      SameNames(s, q.name);
      var n := NextNumber(s);
      ghost var s1, value := s.(counter := n), m.Value().(receives := receives);
      forall n' ensures !Has(s1, n', m.id)
      {
        assert Has(s1, n', m.id) == Has(s, n', m.id);
      }
      JoinAt(s1, q, m, n, receives);
      assert Put(s1, q.name, value.MakeReady().(pos := n, notBefore := 0)) == Arrive(s, q.name, value);
    }

    method JoinAt(ghost s: State, q: QueueState, m: Message, pos: nat, receives: int)
      requires Holds(s) && Registered(q) && m in repr && forall n :: !Has(s, n, m.id)
      modifies q`byID, q`ready, m
      ensures Holds(Put(s, q.name, old(m.Value()).MakeReady().(pos := pos, receives := receives, notBefore := 0)))
    {
      hide QueueState.Is, Contents, Waking;
      Strange(s, q, m);
      Focus(s, q);
      ghost var v, value := s.queues[q.name], m.Value().MakeReady().(pos := pos, receives := receives, notBefore := 0);
      q.Join(m, v, pos, receives);
      assert q.byID.Values <= old(q.byID.Values) + {m};
      Whole(s, q, v.(msgs := v.msgs[m.id := value]));
    }

    lemma Strange(s: State, q: QueueState, m: Message)
      requires Contents(s) && Registered(q) && forall n :: !Has(s, n, m.id)
      ensures m.id !in q.byID
      ensures forall n :: n in queues ==> m !in queues[n].byID.Values
    {
      hide QueueState.Is, Shaped;
      SameNames(s, q.name);
      forall n | n in queues ensures m !in queues[n].byID.Values && m.id !in queues[n].byID
      {
        assert queues[n].Is(s.queues[n]);
        queues[n].Named(s.queues[n]);
        var known := Has(s, n, m.id);
        assert m in queues[n].byID.Values || m.id in queues[n].byID ==> known;
      }
    }

    /** A pending message of q moves to the back of dst. */
    method Transfer(ghost s: State, q: QueueState, m: Message, dst: QueueState, receives: int)
      requires Holds(s) && OneHome(s) && Owns(q, m) && m.phase != Ready && Registered(dst) && dst != q
      modifies q`pending, q`byID, dst`byID, dst`ready, m, `counter
      ensures dst.name in s.queues
      ensures Holds(Arrive(Take(s, q.name, m.id), dst.name, old(m.Value()).(receives := receives)))
    {
      hide QueueState.Is, Holds, OneHome, Arrive, Take;
      ReadsQueue(s, dst);
      ReadsMsg(s, q, m);
      TakenIsGone(s, q.name, m.id);
      Remove(s, q, m);
      Join(Take(s, q.name, m.id), dst, m, receives);
    }

    /** The message taken out of the heap of q moves to the back of dst. */
    method TransferOut(ghost s: State, q: QueueState, m: Message, dst: QueueState, receives: int)
      requires HoldsBut(s, q, m) && OneHome(s) && Registered(dst) && dst != q
      modifies q`byID, dst`byID, dst`ready, m, `counter
      ensures Has(s, q.name, m.id) && dst.name in s.queues
      ensures Holds(Arrive(Take(s, q.name, m.id), dst.name, old(m.Value()).(receives := receives)))
    {
      hide QueueState.Is, Holds, OneHome, Arrive, Take, HoldsBut;
      ReadsOut(s, q, m);
      TakenIsGone(s, q.name, m.id);
      Lose(s, q, m);
      ReadsNames(Take(s, q.name, m.id));
      Join(Take(s, q.name, m.id), dst, m, receives);
    }

    // -- whole queues

    /** q gets a new channel and its old one is closed. */
    method Broadcast(ghost s: State, q: QueueState)
      requires Holds(s) && Registered(q)
      modifies q`wake, q.wake, `repr, `wakes, `gone
      ensures Holds(s) && fresh(q.wake) && repr == old(repr) + {q.wake}
      ensures wakes == old(wakes)[q.name := q.wake] && gone == old(gone) + {old(q.wake)}
    {
      hide QueueState.Is, Contents, Waking;
      Focus(s, q);
      WakeOf(q);
      ghost var wake := q.wake;
      q.Broadcast(s.queues[q.name]);
      Rewire(s, q, wake);
      Rewoken(q);
    }

    /** The channel of q is recorded. */
    ghost method Rewire(s: State, q: QueueState, wake: Chan)
      requires Others(s, q.name) && Registered(q) && q.Is(s.queues[q.name])
      modifies `repr, `wakes, `gone
      ensures Contents(s)
      ensures repr == old(repr) + {q.wake} && wakes == old(wakes)[q.name := q.wake] && gone == old(gone) + {wake}
    {
      hide QueueState.Is;
      wakes, gone, repr := wakes[q.name := q.wake], gone + {wake}, repr + {q.wake};
      assert s.queues[q.name := s.queues[q.name]] == s.queues;
      Whole(s, q, s.queues[q.name]);
    }

    lemma WakeOf(q: QueueState)
      requires Waking() && Registered(q)
      ensures q.name in wakes && q.wake == wakes[q.name]
      ensures forall n :: n in wakes && n != q.name ==> wakes[n] != q.wake && n in queues && queues[n] != q
      ensures q.wake !in gone && q.wake in repr
    {
    }

    /** The channel of q has been closed and replaced. */
    twostate lemma Rewoken(q: QueueState)
      requires old(Waking()) && old(Registered(q)) && queues == old(queues)
      requires fresh(q.wake) && !q.wake.closed && old(q.wake).closed
      requires wakes == old(wakes)[q.name := q.wake] && gone == old(gone) + {old(q.wake)}
      requires forall n :: n in old(wakes) && n != q.name ==>
        unchanged(old(wakes)[n]) && old(queues[n].wake) == old(queues)[n].wake
      requires forall x :: x in old(gone) ==> unchanged(x)
      requires q.wake in repr && old(repr) <= repr
      ensures Waking()
    {
    }

    method Reconfigure(ghost s: State, q: QueueState, cfg: Config)
      requires Holds(s) && Registered(q)
      modifies q`cfg
      ensures Holds(SetConfig(s, q.name, cfg))
    {
      hide QueueState.Is, Contents, Waking;
      Focus(s, q);
      q.SetConfig(s.queues[q.name], cfg);
      Whole(s, q, s.queues[q.name].(cfg := cfg));
    }

    method Create(ghost s: State, n: string, cfg: Config)
      requires Holds(s) && n !in queues
      modifies `queues, `repr, `wakes
      ensures Holds(SetConfig(s, n, cfg)) && n in queues && fresh(queues[n]) && fresh(queues[n].wake)
      ensures repr == old(repr) + {queues[n], queues[n].wake} && queues == old(queues)[n := queues[n]]
      ensures wakes == old(wakes)[n := queues[n].wake]
    {
      hide QueueState.Is, Contents, Waking;
      Names(s);
      var q := new QueueState(n, cfg);
      Enroll(s, q, Queue(cfg, map[]));
      Awoken(q);
    }

    lemma Names(s: State)
      requires Contents(s) && Waking()
      ensures queues.Keys == s.queues.Keys == wakes.Keys
    {
    }

    method Enroll(ghost s: State, q: QueueState, ghost v: Queue)
      requires Contents(s) && q.name !in queues && q.Is(v) && q.byID == map[]
      modifies `queues, `repr, `wakes
      ensures Contents(s.(queues := s.queues[q.name := v]))
      ensures repr == old(repr) + {q, q.wake} && queues == old(queues)[q.name := q]
      ensures wakes == old(wakes)[q.name := q.wake]
    {
      hide QueueState.Is;
      queues, wakes, repr := queues[q.name := q], wakes[q.name := q.wake], repr + {q, q.wake};
    }

    /** A queue with a channel of its own has been added. */
    twostate lemma Awoken(new q: QueueState)
      requires old(Waking()) && q.name !in old(queues) && fresh(q.wake) && !q.wake.closed && gone == old(gone)
      requires queues == old(queues)[q.name := q] && wakes == old(wakes)[q.name := q.wake]
      requires forall n :: n in old(wakes) ==> unchanged(old(wakes)[n]) && old(queues[n].wake) == old(queues)[n].wake
      requires forall x :: x in old(gone) ==> unchanged(x)
      requires q.wake in repr && old(repr) <= repr
      ensures Waking()
    {
    }

    /** A queue disappears with all its messages, and its waiters wake. */
    method DropQueue(ghost s: State, q: QueueState)
      requires Holds(s) && Registered(q)
      modifies `queues, `wakes, `gone, q`wake, q.wake
      ensures Holds(Drop(s, q.name)) && wakes == old(wakes) - {q.name} && gone == old(gone) + {old(wakes[q.name])}
      ensures queues == old(queues) - {q.name}
    {
      hide QueueState.Is, Contents, Waking;
      Focus(s, q);
      WakeOf(q);
      ghost var wake := q.wake;
      Unlist(s, q);
      Dismiss(Drop(s, q.name), q, s.queues[q.name]);
      GiveUp(Drop(s, q.name), wake);
      Unwoken(q);
    }

    ghost method GiveUp(s: State, wake: Chan)
      requires Contents(s)
      modifies `gone
      ensures Contents(s) && gone == old(gone) + {wake}
    {
      hide QueueState.Is;
      gone := gone + {wake};
    }

    /** Wakes the waiters of a queue that is no longer listed. */
    method Dismiss(ghost s: State, q: QueueState, ghost v: Queue)
      requires Contents(s) && (forall n :: n in queues ==> queues[n] != q) && q.Is(v)
      modifies q`wake, q.wake
      ensures Contents(s) && old(q.wake).closed
    {
      hide QueueState.Is;
      q.Broadcast(v);
    }

    method Unlist(ghost s: State, q: QueueState)
      requires Contents(s) && Registered(q)
      modifies `queues, `wakes
      ensures Contents(Drop(s, q.name)) && forall n :: n in queues ==> queues[n] != q
      ensures queues == old(queues) - {q.name} && wakes == old(wakes) - {q.name}
    {
      hide QueueState.Is;
      queues, wakes := queues - {q.name}, wakes - {q.name};
    }

    /** q has gone, and its channel has been closed if it is on record as given up. */
    twostate lemma Unwoken(q: QueueState)
      requires old(Waking()) && old(Registered(q))
      requires queues == old(queues) - {q.name} && wakes == old(wakes) - {q.name}
      requires gone == old(gone) || (gone == old(gone) + {old(q.wake)} && old(q.wake).closed)
      requires forall n :: n in old(wakes) && n != q.name ==>
        unchanged(old(wakes)[n]) && old(queues[n].wake) == old(queues)[n].wake
      requires forall x :: x in old(gone) ==> unchanged(x)
      requires old(repr) <= repr
      ensures Waking()
    {
    }

    /** A queue disappears, waking nobody. */
    method Discard(ghost s: State, q: QueueState)
      requires Holds(s) && Registered(q)
      modifies `queues, `wakes
      ensures Holds(Drop(s, q.name))
    {
      hide QueueState.Is, Contents, Waking;
      WakeOf(q);
      Unlist(s, q);
      Unwoken(q);
    }

    method SetCounter(ghost s: State, n: nat)
      requires Holds(s)
      modifies `counter
      ensures Holds(s.(counter := n))
    {
      hide QueueState.Is, Waking;
      counter := n;
    }

    // -- what the fields say

    /** What the fields of a queue and its messages are. */
    lemma Reads(s: State, q: QueueState)
      requires Holds(s) && Registered(q)
      ensures q.name in s.queues && q.cfg == s.queues[q.name].cfg && q.byID.Keys == s.queues[q.name].msgs.Keys
      ensures forall id :: id in q.byID ==> q.byID[id].Value() == At(s, q.name, id) && q.byID[id].id == id
      ensures q.pending.Keys <= q.byID.Keys && forall id :: id in q.pending ==> q.pending[id] == q.byID[id]
      ensures forall id :: id in q.byID ==> (id in q.pending <==> At(s, q.name, id).phase != Ready)
    {
      hide IsHeap, NoRepeats, Positions;
    }

    lemma ReadsNames(s: State)
      requires Holds(s)
      ensures wakes.Keys == queues.Keys == s.queues.Keys && counter == s.counter && this in repr
      ensures forall n :: n in queues ==>
        queues[n].name == n && queues[n] in repr && queues[n].wake == wakes[n] && queues[n].wake in repr
    {
      hide QueueState.Is;
    }

    lemma ReadsQueue(s: State, q: QueueState)
      requires Holds(s) && Registered(q)
      ensures q.name in s.queues && q.cfg == s.queues[q.name].cfg
      ensures q in repr && q.wake in repr && q.byID.Values <= repr
      ensures wakes.Keys == queues.Keys == s.queues.Keys && counter == s.counter
    {
      hide QueueState.Structured;
    }

    lemma ReadsWake(s: State, q: QueueState)
      requires Holds(s) && Registered(q)
      ensures q.name in wakes && wakes[q.name] == q.wake
      ensures forall n :: n in wakes && wakes[n] == q.wake ==> n == q.name
    {
      hide QueueState.Is;
    }

    lemma ReadsMsg(s: State, q: QueueState, m: Message)
      requires Holds(s) && Owns(q, m)
      ensures Has(s, q.name, m.id) && At(s, q.name, m.id) == m.Value() && m in repr
    {
      hide QueueState.Structured;
    }

    lemma ReadsOut(s: State, q: QueueState, m: Message)
      requires HoldsBut(s, q, m)
      ensures Has(s, q.name, m.id) && At(s, q.name, m.id) == m.Value() && m in repr
      ensures q in repr && Registered(q) && queues.Keys == s.queues.Keys
      ensures forall n :: n in queues ==> queues[n] in repr && queues[n].name == n
    {
      hide QueueState.Structured;
    }

    lemma Filing(s: State, q: QueueState, id: string)
      requires Holds(s) && Registered(q)
      ensures q.name in s.queues && (id in q.byID <==> Has(s, q.name, id))
      ensures id in q.byID ==> Owns(q, q.byID[id]) && q.byID[id].id == id
    {
      hide IsHeap, NoRepeats, Positions;
    }

    lemma ReadsReady(s: State, q: QueueState)
      requires Holds(s) && Registered(q)
      ensures q.ready == [] <==> forall id :: Has(s, q.name, id) ==> At(s, q.name, id).phase != Ready
    {
      hide IsHeap, NoRepeats, Positions;
      if q.ready != [] {
        var m := q.ready[0];
        assert m in q.ready;
        assert Has(s, q.name, m.id) && At(s, q.name, m.id).phase == Ready;
      }
    }
  }
}
