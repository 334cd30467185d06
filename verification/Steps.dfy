/**
 The engine as a state machine.  An action is one atomic transition together
 with the log record that commits it, if it has one; the engine's operations
 are runs of these actions, and a crash can fall between any two.

 `now` is the time an operation works with, its first reading of the clock;
 `ts` is the later reading that stamps a record.
 */
module Steps {
  import opened Wrappers
  import opened Config
  import opened Ids
  import opened Record
  import opened State

  datatype Action =
    | Configure(queue: string, cfg: Config, ts: int)  // create or reconfigure a queue
    | Delete(queue: string, ts: int)
    | Post(queue: string, body: seq<byte>, delay: int) // send
    | Grant(queue: string, id: string, visibility: int) // lease one message
    | Burn                                            // a lease whose append failed
    | Settle(queue: string, id: string, ts: int)      // ack
    | Return(queue: string, id: string, ts: int)      // nack
    | Prolong(queue: string, id: string, deadline: int, ts: int) // extend
    | Bury(queue: string, id: string, ts: int)        // dead-letter or drop
    | Shift(queue: string, id: string, to: string, ts: int) // redrive one message
    | Wake(queue: string, id: string)                 // a delay or lease is over
    | Tick(time: int)                                 // the clock is read

  predicate IsFirst(s: State, n: string, id: string)
    requires Has(s, n, id)
  {
    && At(s, n, id).phase == Ready
    && forall id' :: id' in s.queues[n].msgs && s.queues[n].msgs[id'].phase == Ready ==>
         At(s, n, id).pos <= s.queues[n].msgs[id'].pos
  }

  predicate IsLeased(s: State, n: string, id: string) {
    Has(s, n, id) && At(s, n, id).phase == Leased
  }

  predicate IsExhausted(s: State, n: string, id: string)
    requires Has(s, n, id)
  {
    Exhausted(s.queues[n].cfg, At(s, n, id).receives)
  }

  /** The lease is in force at now, or is over but waits to be dead-lettered. */
  predicate Holds(s: State, n: string, id: string, now: int) {
    IsLeased(s, n, id) && (At(s, n, id).deadline > now || IsExhausted(s, n, id))
  }

  predicate Enabled(s: State, a: Action, now: int) {
    match a
    case Configure(n, cfg, ts) => SoundConfig(n, cfg) && ts >= now
    case Delete(n, ts) => n in s.queues && ts >= now
    case Post(n, _, delay) => n in s.queues && 0 <= delay <= MAX_DELAY
    case Grant(n, id, visibility) => Has(s, n, id) && IsFirst(s, n, id) && 0 < visibility <= MAX_VISIBILITY
    case Burn => true
    case Settle(n, id, ts) => Holds(s, n, id, now) && ts >= now
    case Return(n, id, ts) => Holds(s, n, id, now) && !IsExhausted(s, n, id) && ts >= now
    case Prolong(n, id, deadline, ts) => Holds(s, n, id, now) && ts >= now && now < deadline <= ts + MAX_VISIBILITY
    case Bury(n, id, ts) =>
      IsLeased(s, n, id) && IsExhausted(s, n, id) && ts >= now
      && (s.queues[n].cfg.deadLetter == "" || s.queues[n].cfg.deadLetter in s.queues)
    case Shift(n, id, to, ts) => Has(s, n, id) && IsFirst(s, n, id) && n != to && to in s.queues && ts >= now
    case Wake(n, id) =>
      Has(s, n, id) && At(s, n, id).phase != Ready && At(s, n, id).Due() <= now
      && !(IsLeased(s, n, id) && IsExhausted(s, n, id))
    case Tick(t) => t >= now
  }

  function NewMsg(s: State, body: seq<byte>, delay: int, now: int): Msg {
    Msg(FormatId(s.counter + 1), s.counter + 1, body, now,
        if delay > 0 then now + delay else 0, if delay > 0 then Delayed else Ready, "", 0, 0)
  }

  function LeasedMsg(s: State, m: Msg, visibility: int, now: int): Msg {
    m.(phase := Leased, receipt := FormatReceipt(s.counter + 1), deadline := now + visibility,
       receives := m.receives + 1)
  }

  function Effect(s: State, a: Action, now: int): State
    requires Enabled(s, a, now)
  {
    match a
    case Configure(n, cfg, ts) => SetConfig(s, n, cfg)
    case Delete(n, ts) => Drop(s, n)
    case Post(n, body, delay) => Put(s, n, NewMsg(s, body, delay, now)).(counter := s.counter + 1)
    case Grant(n, id, visibility) =>
      Put(s, n, LeasedMsg(s, At(s, n, id), visibility, now)).(counter := s.counter + 1)
    case Burn => s.(counter := s.counter + 1)
    case Settle(n, id, ts) => Take(s, n, id)
    case Return(n, id, ts) => Put(s, n, At(s, n, id).MakeReady())
    case Prolong(n, id, deadline, ts) => Put(s, n, At(s, n, id).(deadline := deadline))
    case Bury(n, id, ts) =>
      var to := s.queues[n].cfg.deadLetter;
      if to == "" then Take(s, n, id) else Arrive(Take(s, n, id), to, At(s, n, id))
    case Shift(n, id, to, ts) => Arrive(Take(s, n, id), to, At(s, n, id).(receives := 0))
    case Wake(n, id) => Put(s, n, At(s, n, id).MakeReady())
    case Tick(_) => s
  }

  /** The record appended before the action takes effect; Burn, Wake and Tick log nothing. */
  function Logged(s: State, a: Action, now: int): Option<Record>
    requires Enabled(s, a, now)
  {
    match a
    case Configure(n, cfg, ts) => Some(Record(QueueCreate, n, ts := ts, config := Marshal(cfg)))
    case Delete(n, ts) => Some(Record(QueueDelete, n, ts := ts))
    case Post(n, body, delay) =>
      var m := NewMsg(s, body, delay, now);
      Some(Record(Send, n, id := m.id, ts := now, nbf := m.notBefore).SetBody(body))
    case Grant(n, id, visibility) =>
      var m := LeasedMsg(s, At(s, n, id), visibility, now);
      Some(Record(Receive, n, id := m.id, ts := now, receipt := m.receipt, deadline := m.deadline, count := m.receives))
    case Settle(n, id, ts) => Some(Record(Ack, n, id := id, receipt := At(s, n, id).receipt, ts := ts))
    case Return(n, id, ts) => Some(Record(Nack, n, id := id, receipt := At(s, n, id).receipt, ts := ts))
    case Prolong(n, id, deadline, ts) =>
      Some(Record(Extend, n, id := id, receipt := At(s, n, id).receipt, deadline := deadline, ts := ts))
    case Bury(n, id, ts) => Some(Record(Dead, n, id := id, to := s.queues[n].cfg.deadLetter, ts := ts))
    case Shift(n, id, to, ts) => Some(Record(Move, n, id := id, to := to, ts := ts))
    case _ => None
  }

  /** What goes on record, field by field: who, when, under which receipt, until when, and where to. */
  lemma LoggedFields(s: State, a: Action, now: int)
    requires Enabled(s, a, now)
    ensures Logged(s, a, now).None? <==> a.Burn? || a.Wake? || a.Tick?
    ensures Logged(s, a, now).Some? ==>
      var r := Logged(s, a, now).value;
      && r.queue == a.queue
      && r.ts == (if a.Post? || a.Grant? then now else a.ts)
      && (a.Configure? ==> r.op == QueueCreate && r.config == Some(a.cfg))
      && (a.Delete? ==> r.op == QueueDelete)
      && (a.Post? ==>
            && r.op == Send && r.id == FormatId(s.counter + 1) && r.GetBody() == Ok(a.body) && r.count == 0
            && r.nbf == if a.delay > 0 then now + a.delay else 0)
      && (a.Grant? ==>
            && r.op == Receive && r.id == At(s, a.queue, a.id).id && r.receipt == FormatReceipt(s.counter + 1)
            && r.deadline == now + a.visibility && r.count == At(s, a.queue, a.id).receives + 1)
      && (a.Settle? ==> r.op == Ack && r.id == a.id && r.receipt == At(s, a.queue, a.id).receipt)
      && (a.Return? ==> r.op == Nack && r.id == a.id && r.receipt == At(s, a.queue, a.id).receipt)
      && (a.Prolong? ==>
            r.op == Extend && r.id == a.id && r.receipt == At(s, a.queue, a.id).receipt && r.deadline == a.deadline)
      && (a.Bury? ==> r.op == Dead && r.id == a.id && r.to == s.queues[a.queue].cfg.deadLetter)
      && (a.Shift? ==> r.op == Move && r.id == a.id && r.to == a.to)
  {
    hide FormatId, FormatReceipt, ValidName, IsFirst, Base64.Encode, Base64.Decode, Utf8.Valid;
    if a.Post? {
      var m := NewMsg(s, a.body, a.delay, now);
      BodyRoundTrip(Record(Send, a.queue, id := m.id, ts := now, nbf := m.notBefore), a.body);
    }
  }

  /** Every action keeps the structural invariant. */
  lemma EffectSound(s: State, a: Action, now: int)
    requires Sound(s) && Enabled(s, a, now) && now >= 0
    ensures Sound(Effect(s, a, now))
  {
    hide Sound;
    match a
    case Configure(n, cfg, ts) => ConfigSound(s, n, cfg);
    case Delete(n, ts) => DropSound(s, n);
    case Post(n, body, delay) => PostSound(s, n, body, delay, now);
    case Grant(n, id, visibility) => GrantSound(s, n, id, visibility, now);
    case Burn => CounterSound(s, s.counter + 1);
    case Settle(n, id, ts) => TakeSound(s, n, id);
    case Return(n, id, ts) => ReadySound(s, n, id);
    case Prolong(n, id, deadline, ts) =>
      ProlongSound(s, n, id, deadline);
    case Bury(n, id, ts) =>
      FiledSound(s, n, id);
      var to := s.queues[n].cfg.deadLetter;
      if to == "" { TakeSound(s, n, id); } else { ArriveSound(s, n, to, At(s, n, id)); }
    case Shift(n, id, to, ts) =>
      FiledSound(s, n, id);
      ArriveSound(s, n, to, At(s, n, id).(receives := 0));
    case Wake(n, id) => ReadySound(s, n, id);
    case Tick(_) =>
  }

  /** The counter is fresh: the ID it yields next names no message of any queue. */
  lemma NextIdIsFresh(s: State, n: string)
    requires Sound(s)
    ensures !Has(s, n, FormatId(s.counter + 1))
  {
    hide Sound, FormatId, FormatReceipt, ParseHex, TrimR;
    IdRoundTrip(s.counter + 1);
    if Has(s, n, FormatId(s.counter + 1)) { FiledSound(s, n, FormatId(s.counter + 1)); }
  }

  lemma ProlongSound(s: State, n: string, id: string, deadline: int)
    requires Sound(s) && IsLeased(s, n, id) && deadline > 0
    ensures Sound(Put(s, n, At(s, n, id).(deadline := deadline)))
  {
    ReplaceSound(s, n, At(s, n, id).(deadline := deadline), s.counter);
  }

  lemma PostSound(s: State, n: string, body: seq<byte>, delay: int, now: int)
    requires Sound(s) && n in s.queues && delay >= 0 && now >= 0
    ensures Sound(Put(s, n, NewMsg(s, body, delay, now)).(counter := s.counter + 1))
  {
    IssuedForms(s.counter + 1);
    IdRoundTrip(s.counter + 1);
    var m := NewMsg(s, body, delay, now);
    forall n' ensures !Has(s, n', m.id) { NextIdIsFresh(s, n'); }
    InsertSound(s, n, m, s.counter + 1);
  }

  lemma GrantSound(s: State, n: string, id: string, visibility: int, now: int)
    requires Sound(s) && Has(s, n, id) && visibility > 0 && now >= 0
    ensures Sound(Put(s, n, LeasedMsg(s, At(s, n, id), visibility, now)).(counter := s.counter + 1))
  {
    hide Sound, FormatId, FormatReceipt, ParseHex, TrimR;
    FiledSound(s, n, id);
    IssuedForms(s.counter + 1);
    IdRoundTrip(s.counter + 1);
    ReplaceSound(s, n, LeasedMsg(s, At(s, n, id), visibility, now), s.counter + 1);
  }

  lemma ReadySound(s: State, n: string, id: string)
    requires Sound(s) && Has(s, n, id)
    ensures Sound(Put(s, n, At(s, n, id).MakeReady()))
  {
    ReplaceSound(s, n, At(s, n, id).MakeReady(), s.counter);
  }
}
