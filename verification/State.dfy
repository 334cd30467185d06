/**
 The engine's state as a value: queues, their messages, and the one counter
 that feeds message IDs, receipts and FIFO positions.

 Times are milliseconds; 0 stands for the zero time, which is before every
 clock value.
 */
module State {
  import opened Wrappers
  import opened Config
  import opened Ids

  datatype Phase = Ready | Delayed | Leased

  /** `pos` is the FIFO position; the lease fields are set only while the message is leased. */
  datatype Msg = Msg(
    id: string,
    pos: nat,
    body: seq<byte>,
    sentAt: int,
    notBefore: int,
    phase: Phase,
    receipt: string,
    deadline: int,
    receives: int)
  {
    function MakeReady(): Msg {
      this.(phase := Ready, receipt := "", deadline := 0)
    }

    /** When a pending message must be swept. */
    function Due(): int {
      if phase == Delayed then notBefore else deadline
    }
  }

  datatype Queue = Queue(cfg: Config, msgs: map<string, Msg>)

  datatype State = State(counter: nat, queues: map<string, Queue>)

  const EMPTY := State(0, map[])

  predicate Has(s: State, n: string, id: string) {
    n in s.queues && id in s.queues[n].msgs
  }

  function At(s: State, n: string, id: string): Msg
    requires Has(s, n, id)
  {
    s.queues[n].msgs[id]
  }

  function Put(s: State, n: string, m: Msg): State
    requires n in s.queues
  {
    s.(queues := s.queues[n := s.queues[n].(msgs := s.queues[n].msgs[m.id := m])])
  }

  function Take(s: State, n: string, id: string): State
    requires n in s.queues
  {
    s.(queues := s.queues[n := s.queues[n].(msgs := s.queues[n].msgs - {id})])
  }

  function SetConfig(s: State, n: string, cfg: Config): State {
    s.(queues := s.queues[n := Queue(cfg, if n in s.queues then s.queues[n].msgs else map[])])
  }

  function Drop(s: State, n: string): State {
    s.(queues := s.queues - {n})
  }

  /** Moves m, already taken out of its queue, behind every message of queue n. */
  function Arrive(s: State, n: string, m: Msg): State
    requires n in s.queues
  {
    Put(s, n, m.MakeReady().(pos := s.counter + 1, notBefore := 0)).(counter := s.counter + 1)
  }

  /** No message is in two queues. */
  ghost predicate OneHome(s: State) {
    forall n, n', id :: Has(s, n, id) && Has(s, n', id) ==> n == n'
  }

  // ---- the structural invariant ------------------------------------------

  predicate SoundMsg(m: Msg, id: string, counter: nat) {
    && m.id == id && IsId(id) && SeqOf(id) <= counter
    && m.pos <= counter
    && m.notBefore >= 0 && m.receives >= 0
    && (if m.phase == Leased
        then m.receipt != "" && IsReceipt(m.receipt) && NumberOf(m.receipt) <= counter && m.deadline > 0
        else m.receipt == "" && m.deadline == 0)
  }

  predicate SoundConfig(n: string, cfg: Config) {
    ValidName(n) && InRange(cfg) && cfg.deadLetter != n
  }

  /**
   Every message is filed under its own ID in one queue only, positions and
   outstanding receipts are unique, and every number in use was handed out by
   the counter.
   */
  ghost predicate Sound(s: State) {
    && (forall n :: n in s.queues ==> SoundConfig(n, s.queues[n].cfg))
    && (forall n, id :: Has(s, n, id) ==> SoundMsg(At(s, n, id), id, s.counter))
    && OneHome(s)
    && (forall n, id, n', id' :: Has(s, n, id) && Has(s, n', id') && At(s, n, id).pos == At(s, n', id').pos
          ==> id == id')
    && (forall n, id, n', id' :: Has(s, n, id) && Has(s, n', id')
          && At(s, n, id).phase == Leased && At(s, n, id).receipt == At(s, n', id').receipt
          ==> id == id')
  }

  /** A message may be replaced by one that keeps or freshens its position and receipt. */
  lemma ReplaceSound(s: State, n: string, m: Msg, counter: nat)
    requires Sound(s) && Has(s, n, m.id) && counter >= s.counter
    requires SoundMsg(m, m.id, counter)
    requires m.pos == At(s, n, m.id).pos || m.pos > s.counter
    requires m.phase == Leased ==>
      NumberOf(m.receipt) > s.counter
      || (At(s, n, m.id).phase == Leased && m.receipt == At(s, n, m.id).receipt)
    ensures Sound(Put(s, n, m).(counter := counter))
  {
    hide SoundMsg, SoundConfig, NumberOf;
    var s' := Put(s, n, m).(counter := counter);
    NumbersBounded(s);
    StillSound(m, m.id, counter, counter);
    forall n', id | Has(s', n', id)
      ensures Has(s, n', id)
      ensures At(s', n', id) == if n' == n && id == m.id then m else At(s, n', id)
      ensures SoundMsg(At(s', n', id), id, s'.counter)
    {
      StillSound(At(s, n', id), id, s.counter, counter);
    }
  }

  /** No number in use is above the counter. */
  lemma NumbersBounded(s: State)
    requires Sound(s)
    ensures forall n, id :: Has(s, n, id) ==>
      && At(s, n, id).pos <= s.counter && (At(s, n, id).phase == Leased <==> At(s, n, id).receipt != "")
      && (At(s, n, id).phase == Leased ==> NumberOf(At(s, n, id).receipt) <= s.counter)
  {
    hide IsId, IsReceipt, SeqOf, NumberOf, SoundConfig;
  }

  lemma StillSound(m: Msg, id: string, counter: nat, counter': nat)
    requires SoundMsg(m, id, counter) && counter <= counter'
    ensures SoundMsg(m, id, counter') && (m.phase == Leased <==> m.receipt != "")
  {
    hide IsId, IsReceipt, SeqOf, NumberOf;
  }

  /** A message with a new ID may be filed at the back of a queue. */
  lemma InsertSound(s: State, n: string, m: Msg, counter: nat)
    requires Sound(s) && n in s.queues && counter >= s.counter
    requires forall n' :: !Has(s, n', m.id)
    requires SoundMsg(m, m.id, counter) && m.pos > s.counter && m.phase != Leased
    ensures Sound(Put(s, n, m).(counter := counter))
  {
    hide IsId, IsReceipt, SeqOf, NumberOf, ValidName;
    var s' := Put(s, n, m).(counter := counter);
    forall n', id | Has(s', n', id)
      ensures if id == m.id then n' == n && At(s', n', id) == m
              else Has(s, n', id) && At(s', n', id) == At(s, n', id)
      ensures SoundMsg(At(s', n', id), id, s'.counter)
    {
      assert n' != n ==> Has(s, n', id);
    }
    forall n1, id1, n2, id2 | Has(s', n1, id1) && Has(s', n2, id2)
      && At(s', n1, id1).phase == Leased && At(s', n1, id1).receipt == At(s', n2, id2).receipt
      ensures id1 == id2
    {
      assert id1 != m.id;
    }
  }

  lemma TakeSound(s: State, n: string, id: string)
    requires Sound(s) && n in s.queues
    ensures Sound(Take(s, n, id))
    ensures Has(s, n, id) ==> forall n' :: !Has(Take(s, n, id), n', id)
  {
    hide IsId, IsReceipt, SeqOf, NumberOf, ValidName;
    var s' := Take(s, n, id);
    forall n', id' | Has(s', n', id')
      ensures Has(s, n', id') && At(s', n', id') == At(s, n', id')
    {
    }
  }

  lemma ConfigSound(s: State, n: string, cfg: Config)
    requires Sound(s) && SoundConfig(n, cfg)
    ensures Sound(SetConfig(s, n, cfg))
  {
    hide IsId, IsReceipt, SeqOf, NumberOf, ValidName;
    var s' := SetConfig(s, n, cfg);
    forall n', id' | Has(s', n', id')
      ensures Has(s, n', id') && At(s', n', id') == At(s, n', id')
    {
    }
  }

  lemma DropSound(s: State, n: string)
    requires Sound(s)
    ensures Sound(Drop(s, n))
  {
    hide IsId, IsReceipt, SeqOf, NumberOf, ValidName;
    var s' := Drop(s, n);
    forall n', id' | Has(s', n', id')
      ensures Has(s, n', id') && At(s', n', id') == At(s, n', id')
    {
    }
  }

  lemma CounterSound(s: State, counter: nat)
    requires Sound(s) && counter >= s.counter
    ensures Sound(s.(counter := counter))
  {
    hide IsId, IsReceipt, SeqOf, NumberOf, ValidName;
    var s' := s.(counter := counter);
    forall n', id' | Has(s', n', id')
      ensures Has(s, n', id') && At(s', n', id') == At(s, n', id')
    {
    }
  }

  /** Taking a message out of one queue and filing it at the back of another. */
  lemma ArriveSound(s: State, n: string, n': string, m: Msg)
    requires Sound(s) && Has(s, n, m.id) && n' in s.queues
    requires m.(receives := 0) == At(s, n, m.id).(receives := 0) && m.receives >= 0
    ensures Sound(Arrive(Take(s, n, m.id), n', m))
  {
    hide Sound, IsId, IsReceipt, SeqOf, NumberOf, Take;
    TakeSound(s, n, m.id);
    FiledSound(s, n, m.id);
    TakeKeeps(s, n, m.id);
    var s1 := Take(s, n, m.id);
    var m1 := m.MakeReady().(pos := s.counter + 1, notBefore := 0);
    InsertSound(s1, n', m1, s.counter + 1);
  }

  lemma FiledSound(s: State, n: string, id: string)
    requires Sound(s) && Has(s, n, id)
    ensures SoundMsg(At(s, n, id), id, s.counter)
  {
  }

  lemma TakeKeeps(s: State, n: string, id: string)
    requires n in s.queues
    ensures Take(s, n, id).queues.Keys == s.queues.Keys && Take(s, n, id).counter == s.counter
  {
  }

  lemma TakenIsGone(s: State, n: string, id: string)
    requires OneHome(s) && Has(s, n, id)
    ensures n in s.queues && Take(s, n, id).queues.Keys == s.queues.Keys
    ensures forall n' :: !Has(Take(s, n, id), n', id)
  {
    forall n' ensures !Has(Take(s, n, id), n', id)
    {
      assert n' != n && Has(Take(s, n, id), n', id) ==> Has(s, n', id);
    }
  }

  lemma SameHomes(s: State, n: nat)
    requires OneHome(s)
    ensures OneHome(s.(counter := n))
  {
    forall a, b, id | Has(s.(counter := n), a, id) && Has(s.(counter := n), b, id) ensures a == b
    {
      assert Has(s, a, id) && Has(s, b, id);
    }
  }

  lemma HomesPut(s: State, n: string, m: Msg, counter: nat)
    requires OneHome(s) && Has(s, n, m.id)
    ensures OneHome(Put(s, n, m).(counter := counter))
  {
    var s' := Put(s, n, m).(counter := counter);
    forall a, b, id | Has(s', a, id) && Has(s', b, id) ensures a == b
    {
      assert Has(s, a, id) && Has(s, b, id);
    }
  }
}
