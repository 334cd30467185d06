/** Rebuilding the state from log records. */
module Replay {
  import opened Wrappers
  import opened Errors
  import opened Config
  import opened Ids
  import opened Record
  import opened State

  /**
   Replays one record.  A send parks the message as delayed, whatever its
   delay; a lease that has expired is not noticed here but by the next sweep.
   */
  function Apply(s: State, r: Record): Result<State, Error> {
    match r.op
    case QueueCreate =>
      (match ParseConfig(r.config)
       case Err(e) => Err(e)
       case Ok(cfg) => Ok(SetConfig(s, r.queue, cfg)))
    case QueueDelete =>
      if r.queue !in s.queues then Err(QueueNotFound) else Ok(Drop(s, r.queue))
    case Send =>
      if r.queue !in s.queues then Err(QueueNotFound)
      else
        (match r.GetBody()
         case Err(e) => Err(e)
         case Ok(body) =>
           Ok(Put(s, r.queue, SentMsg(r, body)).(counter := BumpSeq(s.counter, r.id))))
    case _ =>
      if r.queue !in s.queues then Err(QueueNotFound)
      else if !Has(s, r.queue, r.id) then Err(MessageNotFound)
      else ApplyToMsg(s, r, At(s, r.queue, r.id))
  }

  function SentMsg(r: Record, body: seq<byte>): Msg {
    Msg(r.id, SeqOf(r.id), body, r.ts, if r.nbf > 0 then r.nbf else 0, Delayed, "", 0, r.count)
  }

  /** Records about the existing message m. */
  function ApplyToMsg(s: State, r: Record, m: Msg): Result<State, Error>
    requires Has(s, r.queue, r.id)
  {
    match r.op
    case Receive =>
      var m' := m.(phase := Leased, receipt := r.receipt, deadline := r.deadline, receives := r.count);
      Ok(Put(s, r.queue, m').(counter := BumpSeq(s.counter, r.receipt)))
    case Ack =>
      Ok(Take(s, r.queue, r.id))
    case Nack =>
      Ok(Put(s, r.queue, m.MakeReady()))
    case Extend =>
      Ok(Put(s, r.queue, m.(deadline := r.deadline)))
    case Dead => ApplyMove(s, r, m)
    case Move => ApplyMove(s, r, m.(receives := 0))
    case _ => Ok(s)
  }

  function ApplyMove(s: State, r: Record, m: Msg): Result<State, Error>
    requires Has(s, r.queue, r.id)
  {
    var s1 := Take(s, r.queue, r.id);
    if r.to == "" then Ok(s1)
    else if r.to !in s1.queues then Err(QueueNotFound)
    else Ok(Arrive(s1, r.to, m))
  }

  /** The records that cannot be replayed, and why. */
  lemma ReplayErrors(s: State, r: Record)
    ensures Apply(s, r) == Err(BadConfig) <==> r.op == QueueCreate && ParseConfig(r.config).Err?
    ensures Apply(s, r) == Err(BadBody) <==> r.op == Send && r.queue in s.queues && r.GetBody().Err?
    ensures Apply(s, r) == Err(MessageNotFound) <==>
      r.op !in {QueueCreate, QueueDelete, Send} && r.queue in s.queues && r.id !in s.queues[r.queue].msgs
    ensures Apply(s, r) == Err(QueueNotFound) <==>
      || (r.op != QueueCreate && r.queue !in s.queues)
      || (r.op in {Dead, Move} && Has(s, r.queue, r.id) && r.to != "" && r.to !in s.queues)
    ensures Apply(s, r).Err? ==> Apply(s, r).error in {BadConfig, BadBody, MessageNotFound, QueueNotFound}
  {
    hide Base64.Decode, ValidName;
  }

  /** Replays records in order, stopping at the first error. */
  function Load(s: State, recs: seq<Record>): Result<State, Error>
    decreases |recs|
  {
    if recs == [] then Ok(s)
    else
      match Apply(s, recs[0])
      case Err(e) => Err(e)
      case Ok(s') => Load(s', recs[1..])
  }

  lemma {:induction false} LoadAppend(s: State, a: seq<Record>, b: seq<Record>)
    ensures Load(s, a + b) == match Load(s, a) case Err(e) => Err(e) case Ok(s') => Load(s', b)
    decreases |a|
  {
    if a == [] {
      assert a + b == b;
    } else {
      assert (a + b)[1..] == a[1..] + b;
      if Apply(s, a[0]).Ok? {
        LoadAppend(Apply(s, a[0]).value, a[1..], b);
      }
    }
  }

  /** Loading one more record. */
  lemma LoadOne(recs: seq<Record>, r: Record)
    requires Load(EMPTY, recs).Ok?
    ensures Load(EMPTY, recs + [r]) == Apply(Load(EMPTY, recs).value, r)
  {
    LoadAppend(EMPTY, recs, [r]);
    var s := Load(EMPTY, recs).value;
    assert [r][1..] == [];
    assert Load(s, [r]) == match Apply(s, r) case Err(e) => Err(e) case Ok(s') => Load(s', []);
  }

  // ---- the relation between a live state and the replay of its log -------

  /**
   How replay may hold a message: as the live engine does, except that a
   message the live engine has already made ready may still be waiting out a
   delay or a lease that is over by now.
   */
  predicate MsgRelated(live: Msg, rep: Msg, now: int) {
    && rep.body == live.body && rep.sentAt == live.sentAt
    && rep.notBefore == live.notBefore && rep.receives == live.receives
    && match live.phase
       case Leased => rep.phase == Leased && rep.receipt == live.receipt && rep.deadline == live.deadline
       case Delayed => rep.phase == Delayed
       case Ready => rep.phase == Ready || rep.Due() <= now
  }

  /** Same queues, configurations and messages. */
  ghost predicate SameContents(live: State, rep: State, now: int) {
    && live.queues.Keys == rep.queues.Keys
    && (forall n :: n in live.queues ==> live.queues[n].cfg == rep.queues[n].cfg)
    && (forall n, id :: Has(live, n, id) <==> Has(rep, n, id))
    && (forall n, id :: Has(live, n, id) ==> MsgRelated(At(live, n, id), At(rep, n, id), now))
  }

  /** Any two messages of a queue are in the same order on both sides. */
  ghost predicate SameOrder(live: State, rep: State) {
    forall n, id, id' :: Has(live, n, id) && Has(live, n, id') && Has(rep, n, id) && Has(rep, n, id') ==>
      (At(live, n, id).pos < At(live, n, id').pos <==> At(rep, n, id).pos < At(rep, n, id').pos)
  }

  /** rep is what replay may hold when the live engine holds live. */
  ghost predicate Related(live: State, rep: State, now: int) {
    rep.counter <= live.counter && SameContents(live, rep, now) && SameOrder(live, rep)
  }

  lemma RelatedRefl(s: State, now: int)
    ensures Related(s, s, now)
  {
  }

  lemma RelatedLater(live: State, rep: State, now: int, later: int)
    requires Related(live, rep, now) && now <= later
    ensures Related(live, rep, later)
  {
  }

  lemma RelatedCounters(live: State, rep: State, now: int)
    requires Related(live, rep, now)
    ensures rep.counter <= live.counter
  {
  }

  /** Both sides replace one message, keeping its position. */
  lemma RelatedReplace(live: State, rep: State, now: int, n: string, a: Msg, b: Msg, c: nat, d: nat)
    requires Related(live, rep, now) && Has(live, n, a.id) && a.id == b.id && d <= c
    requires MsgRelated(a, b, now)
    requires a.pos == At(live, n, a.id).pos && b.pos == At(rep, n, a.id).pos
    ensures Related(Put(live, n, a).(counter := c), Put(rep, n, b).(counter := d), now)
  {
    var live', rep' := Put(live, n, a).(counter := c), Put(rep, n, b).(counter := d);
    forall n', id | Has(live', n', id) || Has(rep', n', id)
      ensures Has(live, n', id) && Has(rep, n', id) && Has(live', n', id) && Has(rep', n', id)
      ensures MsgRelated(At(live', n', id), At(rep', n', id), now)
      ensures At(live', n', id).pos == At(live, n', id).pos && At(rep', n', id).pos == At(rep, n', id).pos
    {
      assert Has(live, n, a.id) && Has(rep, n, a.id);
      assert n' == n && id != a.id ==> (Has(live, n, id) <==> Has(rep, n, id));
      assert n' != n ==> (Has(live, n', id) <==> Has(rep, n', id));
    }
  }

  /** Both sides file a new message behind all others. */
  lemma RelatedInsert(live: State, rep: State, now: int, n: string, a: Msg, b: Msg, c: nat, d: nat)
    requires Sound(live) && Sound(rep)
    requires Related(live, rep, now) && n in live.queues && !Has(live, n, a.id) && a.id == b.id && d <= c
    requires MsgRelated(a, b, now)
    requires a.pos > live.counter && b.pos > rep.counter
    ensures Related(Put(live, n, a).(counter := c), Put(rep, n, b).(counter := d), now)
  {
    hide Sound, MsgRelated;
    Positioned(live);
    Positioned(rep);
    var live', rep' := Put(live, n, a).(counter := c), Put(rep, n, b).(counter := d);
    forall n', id | Has(live', n', id) || Has(rep', n', id)
      ensures Has(live', n', id) && Has(rep', n', id)
      ensures MsgRelated(At(live', n', id), At(rep', n', id), now)
      ensures n' == n && id == a.id ==> At(live', n', id) == a && At(rep', n', id) == b
      ensures !(n' == n && id == a.id) ==>
        && Has(live, n', id) && Has(rep, n', id)
        && At(live', n', id) == At(live, n', id) && At(rep', n', id) == At(rep, n', id)
        && At(live', n', id).pos <= live.counter && At(rep', n', id).pos <= rep.counter
    {
      assert !(n' == n && id == a.id) ==> (Has(live, n', id) <==> Has(rep, n', id));
    }
  }

  lemma Positioned(s: State)
    requires Sound(s)
    ensures forall n, id :: Has(s, n, id) ==> At(s, n, id).pos <= s.counter
  {
    hide IsId, IsReceipt, SeqOf, NumberOf;
  }

  lemma RelatedTake(live: State, rep: State, now: int, n: string, id: string)
    requires Related(live, rep, now) && n in live.queues
    ensures Related(Take(live, n, id), Take(rep, n, id), now)
  {
    var live', rep' := Take(live, n, id), Take(rep, n, id);
    forall n', id' | Has(live', n', id') || Has(rep', n', id')
      ensures Has(live, n', id') && Has(rep, n', id') && Has(live', n', id') && Has(rep', n', id')
      ensures At(live', n', id') == At(live, n', id') && At(rep', n', id') == At(rep, n', id')
    {
      assert Has(live, n', id') <==> Has(rep, n', id');
    }
  }

  lemma RelatedConfig(live: State, rep: State, now: int, n: string, cfg: Config)
    requires Related(live, rep, now)
    ensures Related(SetConfig(live, n, cfg), SetConfig(rep, n, cfg), now)
  {
    var live', rep' := SetConfig(live, n, cfg), SetConfig(rep, n, cfg);
    forall n', id' | Has(live', n', id') || Has(rep', n', id')
      ensures Has(live, n', id') && Has(rep, n', id') && Has(live', n', id') && Has(rep', n', id')
      ensures At(live', n', id') == At(live, n', id') && At(rep', n', id') == At(rep, n', id')
    {
      assert Has(live, n', id') <==> Has(rep, n', id');
    }
  }

  lemma RelatedDrop(live: State, rep: State, now: int, n: string)
    requires Related(live, rep, now)
    ensures Related(Drop(live, n), Drop(rep, n), now)
  {
    var live', rep' := Drop(live, n), Drop(rep, n);
    forall n', id' | Has(live', n', id') || Has(rep', n', id')
      ensures Has(live, n', id') && Has(rep, n', id') && Has(live', n', id') && Has(rep', n', id')
      ensures At(live', n', id') == At(live, n', id') && At(rep', n', id') == At(rep, n', id')
    {
      assert Has(live, n', id') <==> Has(rep, n', id');
    }
  }

  /** Both sides file a message that was taken out of its queue. */
  lemma RelatedArrive(live: State, rep: State, now: int, to: string, a: Msg, b: Msg)
    requires Sound(live) && Sound(rep) && Related(live, rep, now)
    requires to in live.queues && to in rep.queues && !Has(live, to, a.id) && a.id == b.id
    requires a.body == b.body && a.sentAt == b.sentAt && a.receives == b.receives
    ensures Related(Arrive(live, to, a), Arrive(rep, to, b), now)
  {
    hide Related, Sound;
    RelatedCounters(live, rep, now);
    var a' := a.MakeReady().(pos := live.counter + 1, notBefore := 0);
    var b' := b.MakeReady().(pos := rep.counter + 1, notBefore := 0);
    RelatedInsert(live, rep, now, to, a', b', live.counter + 1, rep.counter + 1);
  }

  /** Both sides move a message out of queue n and behind every message of queue to. */
  lemma RelatedMove(live: State, rep: State, now: int, n: string, to: string, a: Msg, b: Msg)
    requires Sound(live) && Sound(rep) && Related(live, rep, now)
    requires Has(live, n, a.id) && Has(rep, n, a.id) && a.id == b.id && to in live.queues && to in rep.queues
    requires a.body == b.body && a.sentAt == b.sentAt && a.receives == b.receives
    ensures Related(Arrive(Take(live, n, a.id), to, a), Arrive(Take(rep, n, a.id), to, b), now)
  {
    hide Sound, Related;
    RelatedTake(live, rep, now, n, a.id);
    TakeSound(live, n, a.id);
    TakeSound(rep, n, a.id);
    var live1, rep1 := Take(live, n, a.id), Take(rep, n, a.id);
    assert to in live1.queues && to in rep1.queues && !Has(live1, to, a.id);
    hide Take;
    RelatedArrive(live1, rep1, now, to, a, b);
  }
}
