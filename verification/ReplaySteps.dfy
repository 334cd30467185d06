/** Replay keeps up with every action of the live engine. */
module ReplaySteps {
  import opened Wrappers
  import opened Config
  import opened Ids
  import opened Record
  import opened State
  import opened Replay
  import opened Steps

  /** The clock after an action. */
  function ClockAfter(a: Action, now: int): int {
    match a
    case Tick(t) => t
    case _ => now
  }

  lemma BothHave(live: State, rep: State, now: int, n: string, id: string)
    requires Sound(live) && Sound(rep) && Related(live, rep, now) && Has(live, n, id)
    ensures Has(rep, n, id) && rep.counter <= live.counter
    ensures MsgRelated(At(live, n, id), At(rep, n, id), now)
    ensures At(live, n, id).id == id && At(rep, n, id).id == id
    ensures SoundMsg(At(live, n, id), id, live.counter) && SoundMsg(At(rep, n, id), id, rep.counter)
    ensures live.queues[n].cfg == rep.queues[n].cfg
    ensures live.queues.Keys == rep.queues.Keys
  {
  }

  lemma SameQueues(live: State, rep: State, now: int)
    requires Related(live, rep, now)
    ensures live.queues.Keys == rep.queues.Keys && rep.counter <= live.counter
    ensures forall n, id :: Has(live, n, id) <==> Has(rep, n, id)
  {
  }

  lemma ReplayPost(live: State, rep: State, now: int, n: string, body: seq<byte>, delay: int)
    requires Sound(live) && Sound(rep) && Related(live, rep, now) && now >= 0
    requires Enabled(live, Post(n, body, delay), now)
    ensures var r := Logged(live, Post(n, body, delay), now).value;
      Apply(rep, r).Ok? && Sound(Apply(rep, r).value)
      && Related(Effect(live, Post(n, body, delay), now), Apply(rep, r).value, now)
  {
    hide Sound, Related, Base64.Encode, Base64.Decode, Utf8.Valid, FormatId, FormatReceipt, ParseHex, TrimR;
    SameQueues(live, rep, now);
    IdRoundTrip(live.counter + 1);
    IssuedForms(live.counter + 1);
    NextIdIsFresh(live, n);
    var a := NewMsg(live, body, delay, now);
    forall n' ensures !Has(rep, n', a.id) { NextIdIsFresh(live, n'); }
    var r := Logged(live, Post(n, body, delay), now).value;
    var b := SentMsg(r, body);
    BodyRoundTrip(Record(Send, n, id := a.id, ts := now, nbf := a.notBefore), body);
    assert Apply(rep, r) == Ok(Put(rep, n, b).(counter := live.counter + 1));
    InsertSound(rep, n, b, live.counter + 1);
    RelatedInsert(live, rep, now, n, a, b, live.counter + 1, live.counter + 1);
  }

  lemma ReplayGrant(live: State, rep: State, now: int, n: string, id: string, visibility: int)
    requires Sound(live) && Sound(rep) && Related(live, rep, now) && now >= 0
    requires Enabled(live, Grant(n, id, visibility), now)
    ensures var r := Logged(live, Grant(n, id, visibility), now).value;
      Apply(rep, r).Ok? && Sound(Apply(rep, r).value)
      && Related(Effect(live, Grant(n, id, visibility), now), Apply(rep, r).value, now)
  {
    hide Sound, Related, FormatId, FormatReceipt, ParseHex, TrimR, IsFirst;
    BothHave(live, rep, now, n, id);
    IdRoundTrip(live.counter + 1);
    IssuedForms(live.counter + 1);
    var a := LeasedMsg(live, At(live, n, id), visibility, now);
    var r := Logged(live, Grant(n, id, visibility), now).value;
    var b := At(rep, n, id).(phase := Leased, receipt := r.receipt, deadline := r.deadline, receives := r.count);
    assert Apply(rep, r) == Ok(Put(rep, n, b).(counter := live.counter + 1));
    ReplaceSound(rep, n, b, live.counter + 1);
    RelatedReplace(live, rep, now, n, a, b, live.counter + 1, live.counter + 1);
  }

  lemma ReplayConfigure(live: State, rep: State, now: int, n: string, cfg: Config, ts: int)
    requires Sound(live) && Sound(rep) && Related(live, rep, now)
    requires Enabled(live, Configure(n, cfg, ts), now)
    ensures var r := Logged(live, Configure(n, cfg, ts), now).value;
      Apply(rep, r).Ok? && Sound(Apply(rep, r).value)
      && Related(Effect(live, Configure(n, cfg, ts), now), Apply(rep, r).value, now)
  {
    hide Sound, Related, ValidName;
    ConfigRoundTrip(cfg);
    ConfigSound(rep, n, cfg);
    RelatedConfig(live, rep, now, n, cfg);
  }

  lemma ReplayDelete(live: State, rep: State, now: int, n: string, ts: int)
    requires Sound(live) && Sound(rep) && Related(live, rep, now)
    requires Enabled(live, Delete(n, ts), now)
    ensures var r := Logged(live, Delete(n, ts), now).value;
      Apply(rep, r).Ok? && Sound(Apply(rep, r).value)
      && Related(Effect(live, Delete(n, ts), now), Apply(rep, r).value, now)
  {
    hide Sound, Related;
    SameQueues(live, rep, now);
    DropSound(rep, n);
    RelatedDrop(live, rep, now, n);
  }

  lemma ReplaySettle(live: State, rep: State, now: int, n: string, id: string, ts: int)
    requires Sound(live) && Sound(rep) && Related(live, rep, now)
    requires Enabled(live, Settle(n, id, ts), now)
    ensures var r := Logged(live, Settle(n, id, ts), now).value;
      Apply(rep, r).Ok? && Sound(Apply(rep, r).value)
      && Related(Effect(live, Settle(n, id, ts), now), Apply(rep, r).value, now)
  {
    hide Sound, Related, FormatId, FormatReceipt, ParseHex, TrimR, SoundMsg;
    BothHave(live, rep, now, n, id);
    TakeSound(rep, n, id);
    RelatedTake(live, rep, now, n, id);
  }

  lemma ReplayReturn(live: State, rep: State, now: int, n: string, id: string, ts: int)
    requires Sound(live) && Sound(rep) && Related(live, rep, now)
    requires Enabled(live, Return(n, id, ts), now)
    ensures var r := Logged(live, Return(n, id, ts), now).value;
      Apply(rep, r).Ok? && Sound(Apply(rep, r).value)
      && Related(Effect(live, Return(n, id, ts), now), Apply(rep, r).value, now)
  {
    hide Sound, Related, FormatId, FormatReceipt, ParseHex, TrimR;
    BothHave(live, rep, now, n, id);
    ReadySound(rep, n, id);
    RelatedReplace(live, rep, now, n, At(live, n, id).MakeReady(), At(rep, n, id).MakeReady(),
                   live.counter, rep.counter);
  }

  lemma ReplayProlong(live: State, rep: State, now: int, n: string, id: string, deadline: int, ts: int)
    requires Sound(live) && Sound(rep) && Related(live, rep, now) && now >= 0
    requires Enabled(live, Prolong(n, id, deadline, ts), now)
    ensures var r := Logged(live, Prolong(n, id, deadline, ts), now).value;
      Apply(rep, r).Ok? && Sound(Apply(rep, r).value)
      && Related(Effect(live, Prolong(n, id, deadline, ts), now), Apply(rep, r).value, now)
  {
    hide Sound, Related, FormatId, FormatReceipt, ParseHex, TrimR;
    BothHave(live, rep, now, n, id);
    ProlongSound(rep, n, id, deadline);
    RelatedReplace(live, rep, now, n, At(live, n, id).(deadline := deadline),
                   At(rep, n, id).(deadline := deadline), live.counter, rep.counter);
  }

  lemma ReplayBury(live: State, rep: State, now: int, n: string, id: string, ts: int)
    requires Sound(live) && Sound(rep) && Related(live, rep, now)
    requires Enabled(live, Bury(n, id, ts), now)
    ensures var r := Logged(live, Bury(n, id, ts), now).value;
      Apply(rep, r).Ok? && Sound(Apply(rep, r).value)
      && Related(Effect(live, Bury(n, id, ts), now), Apply(rep, r).value, now)
  {
    hide Sound, Related, FormatId, FormatReceipt, ParseHex, TrimR;
    BothHave(live, rep, now, n, id);
    var to := live.queues[n].cfg.deadLetter;
    if to == "" {
      TakeSound(rep, n, id);
      RelatedTake(live, rep, now, n, id);
    } else {
      ArriveSound(rep, n, to, At(rep, n, id));
      RelatedMove(live, rep, now, n, to, At(live, n, id), At(rep, n, id));
    }
  }

  lemma ReplayShift(live: State, rep: State, now: int, n: string, id: string, to: string, ts: int)
    requires Sound(live) && Sound(rep) && Related(live, rep, now)
    requires Enabled(live, Shift(n, id, to, ts), now)
    requires to != ""
    ensures var r := Logged(live, Shift(n, id, to, ts), now).value;
      Apply(rep, r).Ok? && Sound(Apply(rep, r).value)
      && Related(Effect(live, Shift(n, id, to, ts), now), Apply(rep, r).value, now)
  {
    hide Sound, Related, FormatId, FormatReceipt, ParseHex, TrimR, IsFirst;
    BothHave(live, rep, now, n, id);
    ArriveSound(rep, n, to, At(rep, n, id).(receives := 0));
    RelatedMove(live, rep, now, n, to, At(live, n, id).(receives := 0), At(rep, n, id).(receives := 0));
  }

  lemma ReplayWake(live: State, rep: State, now: int, n: string, id: string)
    requires Sound(live) && Sound(rep) && Related(live, rep, now)
    requires Enabled(live, Wake(n, id), now)
    ensures Related(Effect(live, Wake(n, id), now), rep, now)
  {
    hide Sound, Related, FormatId, FormatReceipt, ParseHex, TrimR;
    BothHave(live, rep, now, n, id);
    var b := At(rep, n, id);
    RelatedReplace(live, rep, now, n, At(live, n, id).MakeReady(), b, live.counter, rep.counter);
    assert rep.queues[n].msgs[id := b] == rep.queues[n].msgs;
    assert Put(rep, n, b).(counter := rep.counter) == rep;
  }

  lemma RelatedBurn(live: State, rep: State, now: int)
    requires Related(live, rep, now)
    ensures Related(live.(counter := live.counter + 1), rep, now)
  {
  }

  lemma QueueNamed(s: State, n: string)
    requires Sound(s) && n in s.queues
    ensures n != "" && SoundConfig(n, s.queues[n].cfg)
  {
  }

  /**
   One action, live and replayed: if the action logs a record, applying it to
   the replayed state succeeds and leads to a related state; if it logs none,
   the live state stays related to the same replayed state.
   */
  lemma ReplayFollows(live: State, rep: State, a: Action, now: int)
    requires Sound(live) && Sound(rep) && Related(live, rep, now) && now >= 0
    requires Enabled(live, a, now)
    ensures match Logged(live, a, now)
      case None => Related(Effect(live, a, now), rep, ClockAfter(a, now))
      case Some(r) =>
        Apply(rep, r).Ok? && Sound(Apply(rep, r).value) && Related(Effect(live, a, now), Apply(rep, r).value, now)
  {
    hide Sound, Related, Apply;
    match a
    case Configure(n, cfg, ts) => ReplayConfigure(live, rep, now, n, cfg, ts);
    case Delete(n, ts) => ReplayDelete(live, rep, now, n, ts);
    case Post(n, body, delay) => ReplayPost(live, rep, now, n, body, delay);
    case Grant(n, id, visibility) => ReplayGrant(live, rep, now, n, id, visibility);
    case Burn => RelatedBurn(live, rep, now);
    case Settle(n, id, ts) => ReplaySettle(live, rep, now, n, id, ts);
    case Return(n, id, ts) => ReplayReturn(live, rep, now, n, id, ts);
    case Prolong(n, id, deadline, ts) => ReplayProlong(live, rep, now, n, id, deadline, ts);
    case Bury(n, id, ts) => ReplayBury(live, rep, now, n, id, ts);
    case Shift(n, id, to, ts) =>
      QueueNamed(live, to);
      ReplayShift(live, rep, now, n, id, to, ts);
    case Wake(n, id) => ReplayWake(live, rep, now, n, id);
    case Tick(t) => RelatedLater(live, rep, now, t);
  }
}
