/** Replaying a log into the queues in memory. */
module Loading {
  import opened Wrappers
  import opened Errors
  import opened Config
  import opened Ids
  import opened Record
  import opened State
  import opened Runs
  import opened OrderlyLogs
  import opened Messages
  import Replay
  import Store

  /** Applies one record. */
  method Apply(st: Store.Store, r: Record, ghost s: State) returns (err: Option<Error>)
    requires st.Holds(s) && Filed(s) && Orderly(s, r)
    modifies st, st.repr
    ensures match Replay.Apply(s, r)
      case Ok(s') => err.None? && st.Holds(s')
      case Err(e) => err == Some(e)
    ensures fresh(st.repr - old(st.repr))
  {
    hide Store.Store.Holds, OneHome, ValidName, Base64.Decode, SeqOf, BumpSeq, SetConfig, Drop;
    st.ReadsNames(s);
    if r.op == QueueCreate {
      var cfg := ParseConfig(r.config);
      if cfg.Err? {
        return Some(cfg.error);
      }
      if r.queue in st.queues {
        st.Reconfigure(s, st.queues[r.queue], cfg.value);
      } else {
        st.Create(s, r.queue, cfg.value);
      }
      return None;
    }
    if r.queue !in st.queues {
      return Some(QueueNotFound);
    }
    var q := st.queues[r.queue];
    if r.op == QueueDelete {
      st.Discard(s, q);
      return None;
    }
    if r.op == Send {
      err := ApplySend(st, r, s, q);
      return;
    }
    st.Filing(s, q, r.id);
    if r.id !in q.byID {
      return Some(MessageNotFound);
    }
    err := ApplyToMessage(st, r, s, q, q.byID[r.id]);
  }

  /** A send parks the message as delayed, whatever its delay. */
  method ApplySend(st: Store.Store, r: Record, ghost s: State, q: QueueState) returns (err: Option<Error>)
    requires st.Holds(s) && st.Registered(q) && q.name == r.queue && r.op == Send && forall n :: !Has(s, n, r.id)
    modifies st, st.repr
    ensures match Replay.Apply(s, r)
      case Ok(s') => err.None? && st.Holds(s')
      case Err(e) => err == Some(e)
    ensures fresh(st.repr - old(st.repr))
  {
    hide Store.Store.Holds, Base64.Decode, SeqOf, BumpSeq;
    st.ReadsQueue(s, q);
    var body := r.GetBody();
    if body.Err? {
      return Some(body.error);
    }
    st.SetCounter(s, BumpSeq(st.counter, r.id));
    var m := new Message(Replay.SentMsg(r, body.value));
    ghost var s1 := s.(counter := BumpSeq(s.counter, r.id));
    forall n ensures !Has(s1, n, m.id)
    {
      assert Has(s1, n, m.id) == Has(s, n, m.id);
    }
    st.Adopt(s1, m);
    st.AddDelayed(s1, q, m);
    assert st.repr == old(st.repr) + {m};
    return None;
  }

  /** Records about the message m of q. */
  method ApplyToMessage(st: Store.Store, r: Record, ghost s: State, q: QueueState,
                        m: Message) returns (err: Option<Error>)
    requires st.Holds(s) && OneHome(s) && Orderly(s, r) && st.Owns(q, m) && q.name == r.queue && m.id == r.id
    requires r.op != QueueCreate && r.op != QueueDelete && r.op != Send
    modifies st, st.repr
    ensures match Replay.Apply(s, r)
      case Ok(s') => err.None? && st.Holds(s')
      case Err(e) => err == Some(e)
    ensures st.repr == old(st.repr)
  {
    hide Store.Store.Holds, Store.Store.HoldsBut, OneHome, SeqOf, BumpSeq, Take, Arrive;
    st.ReadsQueue(s, q);
    st.ReadsMsg(s, q, m);
    match r.op
    case Receive =>
      ApplyReceive(st, r, s, q, m);
      return None;
    case Ack =>
      st.Detach(s, q, m);
      st.Lose(s, q, m);
      return None;
    case Nack =>
      st.Release(s, q, m);
      return None;
    case Extend =>
      st.SetDeadline(s, q, m, r.deadline);
      return None;
    case Dead =>
      err := ApplyMove(st, r, s, q, m, m.receives);
    case Move =>
      err := ApplyMove(st, r, s, q, m, 0);
    case Other(_) =>
      return None;
  }

  method ApplyReceive(st: Store.Store, r: Record, ghost s: State, q: QueueState, m: Message)
    requires st.Holds(s) && OneHome(s) && st.Owns(q, m) && q.name == r.queue && m.id == r.id && r.op == Receive
    modifies st, st.repr
    ensures Replay.Apply(s, r).Ok? && st.Holds(Replay.Apply(s, r).value)
    ensures st.repr == old(st.repr)
  {
    hide Store.Store.Holds, Store.Store.HoldsBut, OneHome, SeqOf, BumpSeq;
    st.ReadsNames(s);
    st.ReadsQueue(s, q);
    st.ReadsMsg(s, q, m);
    var n := BumpSeq(st.counter, r.receipt);
    st.SetCounter(s, n);
    ghost var s1 := s.(counter := n);
    SameHomes(s, n);
    st.Detach(s1, q, m);
    st.SetLease(s1, q, m, r.receipt, r.deadline, r.count);
    HomesPut(s1, q.name, m.Value(), n);
    st.PutPending(Put(s1, q.name, m.Value()), q, m);
  }

  method ApplyMove(st: Store.Store, r: Record, ghost s: State, q: QueueState, m: Message, receives: int)
    returns (err: Option<Error>)
    requires st.Holds(s) && OneHome(s) && st.Owns(q, m) && q.name == r.queue && m.id == r.id && r.to != r.queue
    requires Has(s, r.queue, r.id) && At(s, r.queue, r.id) == m.Value()
    modifies st, st.repr
    ensures match Replay.ApplyMove(s, r, At(s, r.queue, r.id).(receives := receives))
      case Ok(s') => err.None? && st.Holds(s')
      case Err(e) => err == Some(e)
    ensures st.repr == old(st.repr)
  {
    hide Store.Store.Holds, Store.Store.HoldsBut, OneHome, Arrive;
    st.ReadsNames(s);
    st.ReadsQueue(s, q);
    st.ReadsMsg(s, q, m);
    st.Detach(s, q, m);
    if r.to == "" {
      st.Lose(s, q, m);
      return None;
    }
    if r.to !in st.queues {
      st.Lose(s, q, m);
      return Some(QueueNotFound);
    }
    st.TransferOut(s, q, m, st.queues[r.to], receives);
    return None;
  }

  /** Replays records into a store with no queues, stopping at the first error. */
  method Load(st: Store.Store, recs: seq<Record>) returns (err: Option<Error>)
    requires st.Holds(EMPTY) && OrderlyLog(recs)
    modifies st, st.repr
    ensures match Replay.Load(EMPTY, recs)
      case Ok(s) => err.None? && st.Holds(s)
      case Err(e) => err == Some(e)
    ensures fresh(st.repr - old(st.repr))
  {
    hide Store.Store.Holds, Replay.Apply, Orderly, Filed, Replay.Load;
    var i := 0;
    ghost var s := EMPTY;
    NothingLoaded(recs);
    while i < |recs|
      invariant 0 <= i <= |recs|
      invariant Replay.Load(EMPTY, recs[..i]) == Ok(s) && st.Holds(s)
      invariant fresh(st.repr - old(st.repr))
    {
      OneMore(recs, i, s);
      err := Apply(st, recs[i], s);
      if err.Some? {
        return;
      }
      s := Replay.Apply(s, recs[i]).value;
      i := i + 1;
    }
    assert recs[..i] == recs;
    return None;
  }

  lemma NothingLoaded(recs: seq<Record>)
    ensures Replay.Load(EMPTY, recs[..0]) == Ok(EMPTY)
  {
  }

  /** Loading one more record, and what an error makes of the whole. */
  lemma OneMore(recs: seq<Record>, i: nat, s: State)
    requires i < |recs| && OrderlyLog(recs) && Replay.Load(EMPTY, recs[..i]) == Ok(s)
    ensures Filed(s) && Orderly(s, recs[i])
    ensures Replay.Load(EMPTY, recs[..i + 1]) == Replay.Apply(s, recs[i])
    ensures Replay.Apply(s, recs[i]).Err? ==> Replay.Load(EMPTY, recs) == Err(Replay.Apply(s, recs[i]).error)
  {
    hide Replay.Apply, Orderly, Filed;
    OrderlyPrefix(recs, i);
    LoadedIds(recs[..i]);
    Replay.LoadOne(recs[..i], recs[i]);
    assert recs[..i + 1] == recs[..i] + [recs[i]];
    Replay.LoadAppend(EMPTY, recs[..i + 1], recs[i + 1..]);
    assert recs == recs[..i + 1] + recs[i + 1..];
    assert Orderly(Replay.Load(EMPTY, recs[..i]).value, recs[i]);
  }
}
