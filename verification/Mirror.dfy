/**
 Two engines with the same contents under different numbers.  A reloaded engine
 may hand out other IDs and receipts than the engine it replaces would have;
 apart from that, nobody can tell them apart afterwards.
 */
module Mirror {
  import opened Wrappers
  import opened Config
  import opened Ids
  import opened State
  import opened Replay
  import opened Steps
  import opened ReplaySteps
  import opened Sweeping
  import opened SweepLaws
  import opened Agreement
  import opened Runs

  /** What the IDs and receipts of one engine are called in the other. */
  type Names = map<string, string>

  ghost predicate Inverse(f: Names, g: Names) {
    forall x :: x in f ==> f[x] in g && g[f[x]] == x
  }

  /** Every name was issued. */
  ghost predicate Numbered(f: Names, counter: nat) {
    forall x :: x in f ==> NumberOf(x) <= counter
  }

  /** The same message under other names, wherever it stands. */
  predicate Alike(m: Msg, m': Msg, f: Names) {
    && m'.body == m.body && m'.sentAt == m.sentAt && m'.notBefore == m.notBefore && m'.phase == m.phase
    && m'.deadline == m.deadline && m'.receives == m.receives
    && (m.phase == Leased ==> m.receipt in f && f[m.receipt] == m'.receipt)
  }

  /** Every message of a is in b, in the same queue and the same order. */
  ghost predicate Onto(a: State, b: State, f: Names) {
    && (forall n, id :: Has(a, n, id) ==> id in f && Has(b, n, f[id]) && Alike(At(a, n, id), At(b, n, f[id]), f))
    && (forall n, id, id' :: Has(a, n, id) && Has(a, n, id') ==>
          (At(a, n, id).pos < At(a, n, id').pos <==> At(b, n, f[id]).pos < At(b, n, f[id']).pos))
  }

  ghost predicate SameConfigs(a: State, b: State) {
    a.queues.Keys == b.queues.Keys && forall n :: n in a.queues ==> a.queues[n].cfg == b.queues[n].cfg
  }

  /** a and b hold the same, f and g translating the names between them. */
  ghost predicate Mirrors(a: State, b: State, f: Names, g: Names) {
    && SameConfigs(a, b)
    && Inverse(f, g) && Inverse(g, f) && Numbered(f, a.counter) && Numbered(g, b.counter)
    && Onto(a, b, f) && Onto(b, a, g)
  }

  lemma NumberedMore(f: Names, counter: nat, counter': nat)
    requires Numbered(f, counter) && counter <= counter'
    ensures Numbered(f, counter')
  {
    hide NumberOf;
  }

  lemma MirrorsSwap(a: State, b: State, f: Names, g: Names)
    requires Mirrors(a, b, f, g)
    ensures Mirrors(b, a, g, f)
  {
    hide Inverse, Numbered, Onto;
  }

  lemma AlikeBack(m: Msg, m': Msg, f: Names, g: Names)
    requires Inverse(f, g) && Alike(m, m', f)
    ensures Alike(m', m, g)
  {
  }

  lemma Named(a: State, b: State, f: Names, g: Names, n: string, id: string)
    requires Mirrors(a, b, f, g) && Has(a, n, id)
    ensures id in f && Has(b, n, f[id]) && Alike(At(a, n, id), At(b, n, f[id]), f)
    ensures f[id] in g && g[f[id]] == id && b.queues[n].cfg == a.queues[n].cfg
  {
    hide Alike, Numbered;
  }

  // ---- what both sides do alike ------------------------------------------

  lemma OntoReplace(a: State, b: State, f: Names, g: Names, n: string, m: Msg, m': Msg, c: nat, c': nat)
    requires Onto(a, b, f) && Inverse(f, g) && Has(a, n, m.id) && f[m.id] == m'.id && Alike(m, m', f)
    requires m.pos == At(a, n, m.id).pos && m'.pos == At(b, n, m'.id).pos
    ensures Onto(Put(a, n, m).(counter := c), Put(b, n, m').(counter := c'), f)
  {
    hide Alike;
    var a', b' := Put(a, n, m).(counter := c), Put(b, n, m').(counter := c');
    forall n', id | Has(a', n', id)
      ensures Has(a, n', id) && id in f && Has(b', n', f[id]) && Alike(At(a', n', id), At(b', n', f[id]), f)
      ensures At(a', n', id).pos == At(a, n', id).pos && At(b', n', f[id]).pos == At(b, n', f[id]).pos
    {
      assert Has(a, n', id);
      assert f[id] == m'.id ==> id == m.id;
    }
  }

  /** Both sides replace a message, keeping its place. */
  lemma MirrorReplace(a: State, b: State, f: Names, g: Names, n: string, m: Msg, m': Msg, c: nat, c': nat)
    requires Mirrors(a, b, f, g) && Has(a, n, m.id) && f[m.id] == m'.id && Alike(m, m', f)
    requires m.pos == At(a, n, m.id).pos && m'.pos == At(b, n, m'.id).pos && c >= a.counter && c' >= b.counter
    ensures Mirrors(Put(a, n, m).(counter := c), Put(b, n, m').(counter := c'), f, g)
  {
    hide Alike, Onto;
    Named(a, b, f, g, n, m.id);
    AlikeBack(m, m', f, g);
    OntoReplace(a, b, f, g, n, m, m', c, c');
    OntoReplace(b, a, g, f, n, m', m, c', c);
  }

  /** m would stand behind every message of queue n. */
  ghost predicate Behind(s: State, n: string, m: Msg) {
    forall id :: Has(s, n, id) ==> At(s, n, id).pos < m.pos
  }

  lemma LaterBehind(s: State, n: string, m: Msg)
    requires Sound(s) && m.pos > s.counter
    ensures Behind(s, n, m)
  {
    hide Sound;
    Positioned(s);
  }

  lemma OntoFile(a: State, b: State, f: Names, g: Names, n: string, m: Msg, m': Msg, c: nat, c': nat)
    requires Onto(a, b, f) && Inverse(f, g) && n in a.queues && n in b.queues
    requires m.id in f && f[m.id] == m'.id && Alike(m, m', f)
    requires Behind(a, n, m) && Behind(b, n, m')
    ensures Onto(Put(a, n, m).(counter := c), Put(b, n, m').(counter := c'), f)
  {
    hide Alike;
    var a', b' := Put(a, n, m).(counter := c), Put(b, n, m').(counter := c');
    forall n', id | Has(a', n', id)
      ensures id in f && Has(b', n', f[id]) && Alike(At(a', n', id), At(b', n', f[id]), f)
      ensures if n' == n && id == m.id then At(a', n', id) == m && At(b', n', f[id]) == m'
              else Has(a, n', id) && At(a', n', id) == At(a, n', id)
                   && Has(b, n', f[id]) && At(b', n', f[id]) == At(b, n', f[id])
    {
      if !(n' == n && id == m.id) {
        assert Has(a, n', id);
        assert f[id] == m'.id ==> id == m.id;
      }
    }
  }

  /** Both sides file a message behind all others. */
  lemma MirrorFile(a: State, b: State, f: Names, g: Names, n: string, m: Msg, m': Msg, c: nat, c': nat)
    requires Mirrors(a, b, f, g) && n in a.queues && m.id in f && f[m.id] == m'.id && Alike(m, m', f)
    requires Behind(a, n, m) && Behind(b, n, m') && c >= a.counter && c' >= b.counter
    ensures Mirrors(Put(a, n, m).(counter := c), Put(b, n, m').(counter := c'), f, g)
  {
    hide Alike, Onto, Numbered;
    assert m'.id in g && g[m'.id] == m.id;
    NumberedMore(f, a.counter, c);
    NumberedMore(g, b.counter, c');
    AlikeBack(m, m', f, g);
    OntoFile(a, b, f, g, n, m, m', c, c');
    OntoFile(b, a, g, f, n, m', m, c', c);
  }

  lemma OntoTake(a: State, b: State, f: Names, g: Names, n: string, id: string)
    requires Onto(a, b, f) && Inverse(f, g) && n in a.queues && n in b.queues && id in f
    ensures Onto(Take(a, n, id), Take(b, n, f[id]), f)
  {
    hide Alike;
    var a', b' := Take(a, n, id), Take(b, n, f[id]);
    forall n', i | Has(a', n', i)
      ensures Has(a, n', i) && At(a', n', i) == At(a, n', i)
      ensures i in f && Has(b', n', f[i]) && At(b', n', f[i]) == At(b, n', f[i])
    {
      assert Has(a, n', i);
      assert f[i] == f[id] ==> i == id;
    }
  }

  lemma MirrorTake(a: State, b: State, f: Names, g: Names, n: string, id: string)
    requires Mirrors(a, b, f, g) && n in a.queues && id in f
    ensures Mirrors(Take(a, n, id), Take(b, n, f[id]), f, g)
  {
    hide Onto;
    OntoTake(a, b, f, g, n, id);
    OntoTake(b, a, g, f, n, f[id]);
  }

  /** Both sides move a message behind the messages of another queue. */
  lemma MirrorMove(a: State, b: State, f: Names, g: Names, n: string, to: string, m: Msg, m': Msg)
    requires Sound(a) && Sound(b) && Mirrors(a, b, f, g) && n in a.queues && to in a.queues
    requires m.id in f && f[m.id] == m'.id
    requires m.body == m'.body && m.sentAt == m'.sentAt && m.receives == m'.receives
    ensures Mirrors(Arrive(Take(a, n, m.id), to, m), Arrive(Take(b, n, m'.id), to, m'), f, g)
  {
    hide Onto, Sound, Inverse, Numbered, Take, Behind;
    MirrorTake(a, b, f, g, n, m.id);
    TakeSound(a, n, m.id);
    TakeSound(b, n, m'.id);
    TakeKeeps(a, n, m.id);
    TakeKeeps(b, n, m'.id);
    var moved, moved' := m.MakeReady().(pos := a.counter + 1, notBefore := 0),
      m'.MakeReady().(pos := b.counter + 1, notBefore := 0);
    LaterBehind(Take(a, n, m.id), to, moved);
    LaterBehind(Take(b, n, m'.id), to, moved');
    MirrorFile(Take(a, n, m.id), Take(b, n, m'.id), f, g, to, moved, moved', a.counter + 1, b.counter + 1);
  }

  lemma OntoConfig(a: State, b: State, f: Names, n: string, cfg: Config)
    requires Onto(a, b, f) && a.queues.Keys == b.queues.Keys
    ensures Onto(SetConfig(a, n, cfg), SetConfig(b, n, cfg), f)
  {
    hide Alike;
    var a', b' := SetConfig(a, n, cfg), SetConfig(b, n, cfg);
    forall n', id | Has(a', n', id)
      ensures Has(a, n', id) && At(a', n', id) == At(a, n', id)
      ensures id in f && Has(b', n', f[id]) && At(b', n', f[id]) == At(b, n', f[id])
    {
      assert Has(a, n', id);
    }
  }

  lemma MirrorConfig(a: State, b: State, f: Names, g: Names, n: string, cfg: Config)
    requires Mirrors(a, b, f, g)
    ensures Mirrors(SetConfig(a, n, cfg), SetConfig(b, n, cfg), f, g)
  {
    hide Onto;
    OntoConfig(a, b, f, n, cfg);
    OntoConfig(b, a, g, n, cfg);
  }

  lemma OntoDrop(a: State, b: State, f: Names, n: string)
    requires Onto(a, b, f)
    ensures Onto(Drop(a, n), Drop(b, n), f)
  {
    hide Alike;
    var a', b' := Drop(a, n), Drop(b, n);
    forall n', id | Has(a', n', id)
      ensures Has(a, n', id) && At(a', n', id) == At(a, n', id)
      ensures id in f && Has(b', n', f[id]) && At(b', n', f[id]) == At(b, n', f[id])
    {
      assert Has(a, n', id);
    }
  }

  lemma MirrorDrop(a: State, b: State, f: Names, g: Names, n: string)
    requires Mirrors(a, b, f, g)
    ensures Mirrors(Drop(a, n), Drop(b, n), f, g)
  {
    hide Onto;
    OntoDrop(a, b, f, n);
    OntoDrop(b, a, g, n);
  }

  // ---- new names ---------------------------------------------------------

  /** Both sides have used another number. */
  lemma MirrorBurn(a: State, b: State, f: Names, g: Names)
    requires Mirrors(a, b, f, g)
    ensures Mirrors(a.(counter := a.counter + 1), b.(counter := b.counter + 1), f, g)
  {
    hide Onto, Numbered, Inverse;
    NumberedMore(f, a.counter, a.counter + 1);
    NumberedMore(g, b.counter, b.counter + 1);
    OntoCounters(a, b, f, a.counter + 1, b.counter + 1);
    OntoCounters(b, a, g, b.counter + 1, a.counter + 1);
  }

  lemma OntoCounters(a: State, b: State, f: Names, c: nat, c': nat)
    requires Onto(a, b, f)
    ensures Onto(a.(counter := c), b.(counter := c'), f)
  {
    hide Alike;
    var a', b' := a.(counter := c), b.(counter := c');
    forall n, id | Has(a', n, id)
      ensures Has(a, n, id) && id in f && Has(b', n, f[id])
      ensures At(a', n, id) == At(a, n, id) && At(b', n, f[id]) == At(b, n, f[id])
    {
      assert Has(a, n, id);
    }
  }

  lemma OntoExtend(a: State, b: State, f: Names, x: string, y: string)
    requires Onto(a, b, f) && x !in f
    ensures Onto(a, b, f[x := y])
  {
    var f' := f[x := y];
    forall n, id | Has(a, n, id) ensures id in f && f'[id] == f[id] && Alike(At(a, n, id), At(b, n, f[id]), f') { }
  }

  /** The next name on either side. */
  lemma MirrorExtend(a: State, b: State, f: Names, g: Names, x: string, y: string)
    requires Mirrors(a, b, f, g) && NumberOf(x) == a.counter + 1 && NumberOf(y) == b.counter + 1
    ensures x !in f && y !in g
    ensures Mirrors(a.(counter := a.counter + 1), b.(counter := b.counter + 1), f[x := y], g[y := x])
  {
    hide Onto, NumberOf;
    MirrorBurn(a, b, f, g);
    var a', b' := a.(counter := a.counter + 1), b.(counter := b.counter + 1);
    OntoExtend(a', b', f, x, y);
    OntoExtend(b', a', g, y, x);
  }

  // ---- actions -----------------------------------------------------------

  function NameOf(f: Names, id: string): string {
    if id in f then f[id] else id
  }

  /** The action on the message of the other side. */
  function Renamed(a: Action, f: Names): Action {
    match a
    case Grant(n, id, visibility) => Grant(n, NameOf(f, id), visibility)
    case Settle(n, id, ts) => Settle(n, NameOf(f, id), ts)
    case Return(n, id, ts) => Return(n, NameOf(f, id), ts)
    case Prolong(n, id, deadline, ts) => Prolong(n, NameOf(f, id), deadline, ts)
    case Bury(n, id, ts) => Bury(n, NameOf(f, id), ts)
    case Shift(n, id, to, ts) => Shift(n, NameOf(f, id), to, ts)
    case Wake(n, id) => Wake(n, NameOf(f, id))
    case _ => a
  }

  /** The action names no message, or one that f knows. */
  predicate Known(a: Action, f: Names) {
    match a
    case Grant(n, id, visibility) => id in f
    case Settle(n, id, ts) => id in f
    case Return(n, id, ts) => id in f
    case Prolong(n, id, deadline, ts) => id in f
    case Bury(n, id, ts) => id in f
    case Shift(n, id, to, ts) => id in f
    case Wake(n, id) => id in f
    case _ => true
  }

  /** What an action issues on side a goes by the name of what it issues on side b. */
  function NewNames(a: State, b: State, act: Action, f: Names): Names {
    match act
    case Post(_, _, _) => f[FormatId(a.counter + 1) := FormatId(b.counter + 1)]
    case Grant(_, _, _) => f[FormatReceipt(a.counter + 1) := FormatReceipt(b.counter + 1)]
    case _ => f
  }

  /** The message first in line is first on both sides. */
  lemma FirstMirrored(a: State, b: State, f: Names, g: Names, n: string, id: string)
    requires Mirrors(a, b, f, g) && Has(a, n, id) && IsFirst(a, n, id)
    ensures Has(b, n, f[id]) && IsFirst(b, n, f[id])
  {
    hide Numbered;
    Named(a, b, f, g, n, id);
    forall i | i in b.queues[n].msgs && b.queues[n].msgs[i].phase == Ready
      ensures At(b, n, f[id]).pos <= b.queues[n].msgs[i].pos
    {
      assert Has(b, n, i);
      assert Has(a, n, g[i]) && a.queues[n].msgs[g[i]].phase == Ready;
      assert At(a, n, g[i]).pos < At(a, n, id).pos <==> At(b, n, f[g[i]]).pos < At(b, n, f[id]).pos;
    }
  }

  /** What one side can do the other can. */
  lemma EnabledMirrored(a: State, b: State, f: Names, g: Names, act: Action, now: int)
    requires Mirrors(a, b, f, g) && Enabled(a, act, now)
    ensures Enabled(b, Renamed(act, f), now) && Known(act, f)
  {
    hide Mirrors, IsFirst, ValidName;
    QueuesMirrored(a, b, f, g);
    match act
    case Grant(n, id, _) => Named(a, b, f, g, n, id); FirstMirrored(a, b, f, g, n, id);
    case Settle(n, id, _) => Named(a, b, f, g, n, id);
    case Return(n, id, _) => Named(a, b, f, g, n, id);
    case Prolong(n, id, _, _) => Named(a, b, f, g, n, id);
    case Bury(n, id, _) => Named(a, b, f, g, n, id);
    case Shift(n, id, _, _) => Named(a, b, f, g, n, id); FirstMirrored(a, b, f, g, n, id);
    case Wake(n, id) => Named(a, b, f, g, n, id);
    case _ =>
  }

  lemma QueuesMirrored(a: State, b: State, f: Names, g: Names)
    requires Mirrors(a, b, f, g)
    ensures a.queues.Keys == b.queues.Keys
  {
    hide Onto, Inverse, Numbered;
  }

  lemma MirrorPost(a: State, b: State, f: Names, g: Names, n: string, body: seq<byte>, delay: int, now: int)
    requires Sound(a) && Sound(b) && Mirrors(a, b, f, g) && n in a.queues
    ensures Mirrors(Put(a, n, NewMsg(a, body, delay, now)).(counter := a.counter + 1),
                    Put(b, n, NewMsg(b, body, delay, now)).(counter := b.counter + 1),
                    f[FormatId(a.counter + 1) := FormatId(b.counter + 1)],
                    g[FormatId(b.counter + 1) := FormatId(a.counter + 1)])
  {
    hide Mirrors, Sound, FormatId, ParseHex, TrimR, Behind;
    IdRoundTrip(a.counter + 1);
    IdRoundTrip(b.counter + 1);
    var x, y := FormatId(a.counter + 1), FormatId(b.counter + 1);
    MirrorExtend(a, b, f, g, x, y);
    var a1, b1 := a.(counter := a.counter + 1), b.(counter := b.counter + 1);
    BehindCounter(a, n, NewMsg(a, body, delay, now), a.counter + 1);
    BehindCounter(b, n, NewMsg(b, body, delay, now), b.counter + 1);
    MirrorFile(a1, b1, f[x := y], g[y := x], n, NewMsg(a, body, delay, now), NewMsg(b, body, delay, now),
               a.counter + 1, b.counter + 1);
  }

  lemma BehindCounter(s: State, n: string, m: Msg, c: nat)
    requires Sound(s) && m.pos > s.counter
    ensures Behind(s.(counter := c), n, m)
  {
    hide Sound;
    LaterBehind(s, n, m);
    forall id | Has(s.(counter := c), n, id) ensures At(s.(counter := c), n, id).pos < m.pos
    {
      assert Has(s, n, id);
    }
  }

  lemma MirrorGrant(a: State, b: State, f: Names, g: Names, n: string, id: string, visibility: int, now: int)
    requires Sound(a) && Sound(b) && Mirrors(a, b, f, g) && Has(a, n, id) && id in f && Has(b, n, f[id])
    ensures Mirrors(Put(a, n, LeasedMsg(a, At(a, n, id), visibility, now)).(counter := a.counter + 1),
                    Put(b, n, LeasedMsg(b, At(b, n, f[id]), visibility, now)).(counter := b.counter + 1),
                    f[FormatReceipt(a.counter + 1) := FormatReceipt(b.counter + 1)],
                    g[FormatReceipt(b.counter + 1) := FormatReceipt(a.counter + 1)])
  {
    hide Mirrors, Sound, FormatId, FormatReceipt, ParseHex, TrimR, NumberOf;
    Named(a, b, f, g, n, id);
    FiledSound(a, n, id);
    FiledSound(b, n, f[id]);
    IdRoundTrip(a.counter + 1);
    IdRoundTrip(b.counter + 1);
    var x, y := FormatReceipt(a.counter + 1), FormatReceipt(b.counter + 1);
    MirrorExtend(a, b, f, g, x, y);
    var a1, b1 := a.(counter := a.counter + 1), b.(counter := b.counter + 1);
    var m, m' := LeasedMsg(a, At(a, n, id), visibility, now), LeasedMsg(b, At(b, n, f[id]), visibility, now);
    assert Has(a1, n, m.id) && f[x := y][m.id] == m'.id;
    MirrorReplace(a1, b1, f[x := y], g[y := x], n, m, m', a.counter + 1, b.counter + 1);
  }

  /** Both sides make a change to a message that leaves its place. */
  lemma MirrorEdit(a: State, b: State, f: Names, g: Names, n: string, m: Msg, m': Msg)
    requires Sound(a) && Sound(b) && Mirrors(a, b, f, g) && Has(a, n, m.id) && f[m.id] == m'.id && Alike(m, m', f)
    requires m.pos == At(a, n, m.id).pos && Has(b, n, m'.id) && m'.pos == At(b, n, m'.id).pos
    ensures Mirrors(Put(a, n, m), Put(b, n, m'), f, g)
  {
    hide Mirrors, Sound, Alike;
    Named(a, b, f, g, n, m.id);
    MirrorReplace(a, b, f, g, n, m, m', a.counter, b.counter);
  }

  /**
   One action, on both sides: what one can do the other can, on the message it
   calls by another name, and they hold the same afterwards, their new names
   translating each other.
   */
  lemma ActionMirrored(a: State, b: State, f: Names, g: Names, act: Action, now: int)
    requires Sound(a) && Sound(b) && Mirrors(a, b, f, g) && Enabled(a, act, now)
    ensures Known(act, f) && Enabled(b, Renamed(act, f), now)
    ensures Mirrors(Effect(a, act, now), Effect(b, Renamed(act, f), now),
                    NewNames(a, b, act, f), NewNames(b, a, act, g))
  {
    hide Mirrors, Sound, IsFirst, FormatId, FormatReceipt, ParseHex, TrimR, ValidName, Arrive, Take;
    EnabledMirrored(a, b, f, g, act, now);
    match act
    case Configure(n, cfg, _) => MirrorConfig(a, b, f, g, n, cfg);
    case Delete(n, _) => MirrorDrop(a, b, f, g, n);
    case Post(n, body, delay) => MirrorPost(a, b, f, g, n, body, delay, now);
    case Grant(n, id, visibility) => MirrorGrant(a, b, f, g, n, id, visibility, now);
    case Burn => MirrorBurn(a, b, f, g);
    case Settle(n, id, _) => MirrorTake(a, b, f, g, n, id);
    case Return(n, id, _) => MirrorReady(a, b, f, g, n, id);
    case Prolong(n, id, deadline, _) => MirrorProlong(a, b, f, g, n, id, deadline);
    case Bury(n, id, _) => MirrorBury(a, b, f, g, n, id);
    case Shift(n, id, to, _) => MirrorShift(a, b, f, g, n, id, to);
    case Wake(n, id) => MirrorReady(a, b, f, g, n, id);
    case Tick(_) =>
  }

  lemma MirrorReady(a: State, b: State, f: Names, g: Names, n: string, id: string)
    requires Sound(a) && Sound(b) && Mirrors(a, b, f, g) && Has(a, n, id) && id in f && Has(b, n, f[id])
    ensures Mirrors(Put(a, n, At(a, n, id).MakeReady()), Put(b, n, At(b, n, f[id]).MakeReady()), f, g)
  {
    hide Mirrors, Sound, FormatId, FormatReceipt, ParseHex, TrimR;
    Named(a, b, f, g, n, id);
    FiledSound(a, n, id);
    FiledSound(b, n, f[id]);
    MirrorEdit(a, b, f, g, n, At(a, n, id).MakeReady(), At(b, n, f[id]).MakeReady());
  }

  lemma MirrorProlong(a: State, b: State, f: Names, g: Names, n: string, id: string, deadline: int)
    requires Sound(a) && Sound(b) && Mirrors(a, b, f, g) && Has(a, n, id) && id in f && Has(b, n, f[id])
    ensures Mirrors(Put(a, n, At(a, n, id).(deadline := deadline)),
                    Put(b, n, At(b, n, f[id]).(deadline := deadline)), f, g)
  {
    hide Mirrors, Sound, FormatId, FormatReceipt, ParseHex, TrimR;
    Named(a, b, f, g, n, id);
    FiledSound(a, n, id);
    FiledSound(b, n, f[id]);
    MirrorEdit(a, b, f, g, n, At(a, n, id).(deadline := deadline), At(b, n, f[id]).(deadline := deadline));
  }

  lemma MirrorBury(a: State, b: State, f: Names, g: Names, n: string, id: string)
    requires Sound(a) && Sound(b) && Mirrors(a, b, f, g) && Has(a, n, id) && id in f && Has(b, n, f[id])
    requires TargetOf(a, n) == "" || TargetOf(a, n) in a.queues
    ensures var to := TargetOf(a, n);
      && to == TargetOf(b, n) && (to == "" || to in b.queues)
      && Mirrors(if to == "" then Take(a, n, id) else Arrive(Take(a, n, id), to, At(a, n, id)),
                 if to == "" then Take(b, n, f[id]) else Arrive(Take(b, n, f[id]), to, At(b, n, f[id])), f, g)
  {
    hide Mirrors, Sound, FormatId, FormatReceipt, ParseHex, TrimR, Arrive, Take;
    Named(a, b, f, g, n, id);
    QueuesMirrored(a, b, f, g);
    FiledSound(a, n, id);
    FiledSound(b, n, f[id]);
    MirrorTake(a, b, f, g, n, id);
    if TargetOf(a, n) != "" {
      MirrorMove(a, b, f, g, n, TargetOf(a, n), At(a, n, id), At(b, n, f[id]));
    }
  }

  lemma MirrorShift(a: State, b: State, f: Names, g: Names, n: string, id: string, to: string)
    requires Sound(a) && Sound(b) && Mirrors(a, b, f, g) && Has(a, n, id) && id in f && Has(b, n, f[id])
    requires to in a.queues && to in b.queues
    ensures Mirrors(Arrive(Take(a, n, id), to, At(a, n, id).(receives := 0)),
                    Arrive(Take(b, n, f[id]), to, At(b, n, f[id]).(receives := 0)), f, g)
  {
    hide Mirrors, Sound, FormatId, FormatReceipt, ParseHex, TrimR, Arrive, Take;
    Named(a, b, f, g, n, id);
    FiledSound(a, n, id);
    FiledSound(b, n, f[id]);
    MirrorMove(a, b, f, g, n, to, At(a, n, id).(receives := 0), At(b, n, f[id]).(receives := 0));
  }

  // ---- runs --------------------------------------------------------------

  ghost predicate Extends(f: Names, f': Names) {
    forall x :: x in f ==> x in f' && f'[x] == f[x]
  }

  /** Names once given are kept. */
  lemma NewNamesExtend(a: State, b: State, f: Names, g: Names, act: Action)
    requires Mirrors(a, b, f, g)
    ensures Extends(f, NewNames(a, b, act, f))
  {
    hide Onto, Inverse, FormatId, FormatReceipt, ParseHex, TrimR;
    IdRoundTrip(a.counter + 1);
  }

  /**
   Acting on `actions` in w and on `actions'` in w' comes to the same: both can
   be done, the actions are the same but for names, in the end the engines hold
   the same under other names, and no name changes its meaning on the way.
   */
  ghost predicate Echoes(w: World, actions: seq<Action>, w': World, actions': seq<Action>, f: Names, f': Names,
                         g': Names) {
    && After(w, actions).Some? && After(w', actions').Some?
    && var end, end' := After(w, actions).value, After(w', actions').value;
    && Mirrors(end.live, end'.live, f', g') && end.clock == end'.clock
    && Extends(f, f') && |actions'| == |actions|
    && forall i :: 0 <= i < |actions| ==> Known(actions[i], f') && actions'[i] == Renamed(actions[i], f')
  }

  lemma RenamedLater(act: Action, f: Names, f': Names)
    requires Known(act, f) && Extends(f, f')
    ensures Known(act, f') && Renamed(act, f') == Renamed(act, f)
  {
  }

  /** One more action on both sides. */
  lemma EchoOne(w: World, actions: seq<Action>, mid: World, w': World, actions': seq<Action>, mid': World,
                f: Names, f1: Names, g1: Names, act: Action)
    requires Echoes(w, actions, w', actions', f, f1, g1)
    requires After(w, actions) == Some(mid) && After(w', actions') == Some(mid')
    requires Sound(mid.live) && Sound(mid'.live) && Enabled(mid.live, act, mid.clock)
    ensures Enabled(mid'.live, Renamed(act, f1), mid'.clock)
    ensures Echoes(w, actions + [act], w', actions' + [Renamed(act, f1)], f,
                   NewNames(mid.live, mid'.live, act, f1), NewNames(mid'.live, mid.live, act, g1))
  {
    hide Mirrors, Sound, Enabled, Effect, Logged, Outcomes, Deliveries, After, Renamed, Known, NewNames;
    var f2 := NewNames(mid.live, mid'.live, act, f1);
    ActionMirrored(mid.live, mid'.live, f1, g1, act, mid.clock);
    NewNamesExtend(mid.live, mid'.live, f1, g1, act);
    AfterOne(w, actions, mid, act);
    AfterOne(w', actions', mid', Renamed(act, f1));
    SameKind(act, f1, mid.clock);
    forall i | 0 <= i < |actions + [act]|
      ensures Known((actions + [act])[i], f2)
           && (actions' + [Renamed(act, f1)])[i] == Renamed((actions + [act])[i], f2)
    {
      RenamedLater((actions + [act])[i], f1, f2);
    }
  }

  lemma SameKind(act: Action, f: Names, now: int)
    ensures ClockAfter(Renamed(act, f), now) == ClockAfter(act, now)
  {
  }

  /** Engines that hold the same under other names stay so, whatever is done with them. */
  lemma {:induction false} RunsMirrored(w: World, w': World, f: Names, g: Names, actions: seq<Action>)
    returns (actions': seq<Action>, f': Names, g': Names)
    requires Sound(w.live) && Sound(w'.live) && w.clock == w'.clock >= 0 && Mirrors(w.live, w'.live, f, g)
    requires After(w, actions).Some?
    ensures Echoes(w, actions, w', actions', f, f', g')
    ensures var end, end' := After(w, actions).value, After(w', actions').value;
      Sound(end.live) && Sound(end'.live) && end.clock >= 0
    decreases |actions|
  {
    hide Mirrors, Sound, Enabled, Effect, Logged, Outcomes, Deliveries, Renamed, Known, NewNames;
    if actions == [] {
      actions', f', g' := [], f, g;
    } else {
      var k := |actions| - 1;
      var before, act := actions[..k], actions[k];
      var mid := After(w, before).value;
      var before', f1, g1 := RunsMirrored(w, w', f, g, before);
      var mid' := After(w', before').value;
      EchoOne(w, before, mid, w', before', mid', f, f1, g1, act);
      EffectSound(mid.live, act, mid.clock);
      EffectSound(mid'.live, Renamed(act, f1), mid'.clock);
      assert actions == before + [act];
      actions' := before' + [Renamed(act, f1)];
      f', g' := NewNames(mid.live, mid'.live, act, f1), NewNames(mid'.live, mid.live, act, g1);
      AfterOne(w', before', mid', Renamed(act, f1));
      ClockStays(act, mid.live, mid.clock);
    }
  }

  lemma ClockStays(act: Action, s: State, now: int)
    requires Enabled(s, act, now) && now >= 0
    ensures ClockAfter(act, now) >= 0
  {
  }

  // ---- after a reload ----------------------------------------------------

  /** The names in use: the IDs of the messages and the receipts of the leases. */
  ghost function NamesOf(s: State): set<string>
    requires OneHome(s)
  {
    var p := Flatten(s);
    p.Keys + (set id | id in p && p[id].msg.phase == Leased :: p[id].msg.receipt)
  }

  /** Every name in use, and every other one numbered up to limit, stands for itself. */
  ghost function Identity(s: State, limit: nat): Names
    requires OneHome(s)
  {
    map x | x in NamesOf(s) + Numbers(limit) :: x
  }

  /** The IDs and receipts issued so far, if limit is the number issued last. */
  ghost function Numbers(limit: nat): set<string> {
    (set k: nat | k <= limit :: FormatId(k)) + (set k: nat | k <= limit :: FormatReceipt(k))
  }

  lemma NumbersWithin(limit: nat)
    ensures forall x :: x in Numbers(limit) ==> NumberOf(x) <= limit
  {
    hide FormatId, FormatReceipt, ParseHex, TrimR;
    forall x | x in Numbers(limit) ensures NumberOf(x) <= limit
    {
      var k: nat :| k <= limit && (x == FormatId(k) || x == FormatReceipt(k));
      IdRoundTrip(k);
    }
  }

  lemma NamesAre(s: State)
    requires OneHome(s)
    ensures forall n, id :: Has(s, n, id) ==> id in NamesOf(s)
    ensures forall n, id :: IsLeased(s, n, id) ==> At(s, n, id).receipt in NamesOf(s)
    ensures forall x :: x in NamesOf(s) ==> NamedIn(s, x)
  {
    hide Flatten;
    FlatHolds(s);
    var p := Flatten(s);
    forall n, id | IsLeased(s, n, id) ensures At(s, n, id).receipt in NamesOf(s)
    {
      assert id in p && p[id].msg == At(s, n, id);
    }
    forall x | x in NamesOf(s) ensures NamedIn(s, x)
    {
      if x in p {
        assert Has(s, p[x].queue, x);
      } else {
        var id :| id in p && p[id].msg.phase == Leased && p[id].msg.receipt == x;
        assert IsLeased(s, p[id].queue, id);
      }
    }
  }

  ghost predicate NamedIn(s: State, x: string) {
    exists n, id :: Has(s, n, id) && (id == x || (IsLeased(s, n, id) && At(s, n, id).receipt == x))
  }

  lemma NamesNumbered(s: State, x: string)
    requires Sound(s) && NamedIn(s, x)
    ensures NumberOf(x) <= s.counter
  {
    hide FormatId, FormatReceipt, ParseHex, TrimR, Sound;
    var n, id :| Has(s, n, id) && (id == x || (IsLeased(s, n, id) && At(s, n, id).receipt == x));
    FiledSound(s, n, id);
    IdRoundTrip(SeqOf(id));
  }

  /** Engines that agree and keep the same order mirror each other, every name standing for itself. */
  lemma AgreeingMirror(a: State, b: State, limit: nat)
    requires Sound(a) && Sound(b) && OneHome(a) && Agrees(a, b) && SameOrder(a, b)
    requires limit <= a.counter && limit <= b.counter
    ensures Mirrors(a, b, Identity(a, limit), Identity(a, limit))
  {
    hide Sound, NamesOf, Numbers, NumberOf, NamedIn, OneHome;
    NamesAre(a);
    NumbersWithin(limit);
    var f := Identity(a, limit);
    forall x | x in f ensures NumberOf(x) <= a.counter && NumberOf(x) <= b.counter
    {
      if x in NamesOf(a) {
        NamesNumbered(a, x);
        NamedAlike(a, b, x);
        NamesNumbered(b, x);
      }
    }
    AgreeingOnto(a, b, f);
    AgreeingBack(a, b);
    AgreeingOnto(b, a, f);
  }

  lemma NamedAlike(a: State, b: State, x: string)
    requires Agrees(a, b) && NamedIn(a, x)
    ensures NamedIn(b, x)
  {
    var n, id :| Has(a, n, id) && (id == x || (IsLeased(a, n, id) && At(a, n, id).receipt == x));
    assert Has(b, n, id);
  }

  lemma AgreeingBack(a: State, b: State)
    requires Agrees(a, b) && SameOrder(a, b)
    ensures Agrees(b, a) && SameOrder(b, a)
    ensures forall n, id :: IsLeased(b, n, id) ==> IsLeased(a, n, id) && At(b, n, id).receipt == At(a, n, id).receipt
  {
    forall n, id | Has(b, n, id) ensures Has(a, n, id) && At(a, n, id) == At(b, n, id).(pos := At(a, n, id).pos)
    {
      assert Has(a, n, id);
    }
  }

  lemma AgreeingOnto(a: State, b: State, f: Names)
    requires Agrees(a, b) && SameOrder(a, b) && forall x :: x in f ==> f[x] == x
    requires forall n, id :: Has(a, n, id) ==> id in f
    requires forall n, id :: IsLeased(a, n, id) ==> At(a, n, id).receipt in f
    ensures Onto(a, b, f)
  {
    forall n, id | Has(a, n, id) ensures Has(b, n, id) && Alike(At(a, n, id), At(b, n, id), f)
    {
      assert IsLeased(a, n, id) ==> At(a, n, id).receipt in f;
    }
  }

  /** Whatever can be done with w can be done with w', to the same effect but for names. */
  ghost predicate Follows(w: World, w': World, f: Names) {
    forall actions :: After(w, actions).Some? ==>
      exists actions', f', g' :: Echoes(w, actions, w', actions', f, f', g')
  }

  lemma MirrorsFollow(w: World, w': World, f: Names, g: Names)
    requires Sound(w.live) && Sound(w'.live) && w.clock == w'.clock >= 0 && Mirrors(w.live, w'.live, f, g)
    ensures Follows(w, w', f) && Follows(w', w, g)
  {
    hide Mirrors, Sound, Echoes, After;
    forall actions | After(w, actions).Some?
      ensures exists actions', f', g' :: Echoes(w, actions, w', actions', f, f', g')
    {
      var actions', f', g' := RunsMirrored(w, w', f, g, actions);
    }
    MirrorsSwap(w.live, w'.live, f, g);
    forall actions | After(w', actions).Some?
      ensures exists actions', f', g' :: Echoes(w', actions, w, actions', g, f', g')
    {
      var actions', f', g' := RunsMirrored(w', w, g, f, actions);
    }
  }

  lemma SweptCounter(pre: State, post: State, now: int)
    requires SweptAll(pre, post, now, {})
    ensures pre.counter <= post.counter
  {
    hide Flatten, FateOf, BuriedAs, SweptMsg;
  }

  /** The reloaded engine, once swept, mirrors the one it replaces. */
  lemma ReloadMirrors(w: World, w': World)
    requires Inv(w) && Inv(w') && QuietAt(w.live, w.clock)
    requires SweptAll(Replayed(w), w'.live, w.clock, {}) && NoneStale(w.live, Replayed(w))
    ensures var f := Identity(w.live, Replayed(w).counter); Mirrors(w.live, w'.live, f, f)
  {
    hide Inv, Sound, SameContents, SameOrder, QuietAt, SweptAll, Agrees, NoneStale, Replayed, Mirrors, Identity,
      OneHome;
    InvParts(w);
    InvParts(w');
    SweptReplayAgrees(w.live, Replayed(w), w'.live, w.clock, w.clock);
    SweptCounter(Replayed(w), w'.live, w.clock);
    SoundIsFiled(w.live);
    AgreeingMirror(w.live, w'.live, Replayed(w).counter);
  }

  /**
   A reload cannot be noticed.  w is a live engine with nothing due, w' the one
   that reopening its log and sweeping gives.  If no message is stale, then
   whatever anybody does with the one could be done with the other, in the same
   order and to the same effect, but for the IDs and receipts issued from now
   on; those issued before mean the same to both.
   */
  lemma ReloadIsUnobservable(w: World, w': World)
    requires Inv(w) && Inv(w') && w'.clock == w.clock && QuietAt(w.live, w.clock)
    requires SweptAll(Replayed(w), w'.live, w.clock, {}) && NoneStale(w.live, Replayed(w))
    ensures var f := Identity(w.live, Replayed(w).counter); Follows(w, w', f) && Follows(w', w, f)
  {
    hide Inv, Sound, Related, QuietAt, SweptAll, NoneStale, Replayed, Follows, Mirrors, Identity, OneHome;
    InvParts(w);
    InvParts(w');
    SoundIsFiled(w.live);
    ReloadMirrors(w, w');
    var f := Identity(w.live, Replayed(w).counter);
    MirrorsFollow(w, w', f, f);
  }
}
