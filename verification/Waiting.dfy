/**
 Long polling.  A waiter parks on the channel its queue has at that moment and
 is woken when that channel is closed; `Heeded` says that no parked waiter is
 missing a message.
 */
module Waiting {
  import opened Config
  import opened Ids
  import opened State
  import opened Steps

  ghost predicate HasReady(s: State, n: string) {
    exists id :: Has(s, n, id) && At(s, n, id).phase == Ready
  }

  /**
   Nobody waits on the channel of a queue that has ready messages, but for the
   queues in `but`; and every channel waited on is a queue's or is closed.
   */
  ghost predicate Heeded<C>(s: State, wakes: map<string, C>, gone: set<C>, parked: set<C>, but: set<string>) {
    && (forall n :: n in wakes && wakes[n] in parked && n !in but ==> !HasReady(s, n))
    && (forall c :: c in parked ==> c in gone || c in wakes.Values)
  }

  /** The queue in which an action may make a message ready. */
  function Arrivals(s: State, a: Action): set<string> {
    match a
    case Post(n, _, delay) => if delay > 0 then {} else {n}
    case Return(n, _, _) => {n}
    case Wake(n, _) => {n}
    case Bury(n, _, _) => if n in s.queues && s.queues[n].cfg.deadLetter != "" then {s.queues[n].cfg.deadLetter} else {}
    case Shift(_, _, to, _) => {to}
    case _ => {}
  }

  /** No other queue gains its first ready message by an action. */
  lemma OnlyArrivals(s: State, a: Action, now: int, n: string)
    requires Enabled(s, a, now) && HasReady(Effect(s, a, now), n) && n !in Arrivals(s, a)
    ensures HasReady(s, n)
  {
    hide FormatId, FormatReceipt, ValidName, IsFirst;
    var id :| Has(Effect(s, a, now), n, id) && At(Effect(s, a, now), n, id).phase == Ready;
    assert Has(s, n, id) && At(s, n, id).phase == Ready;
  }

  lemma ActHeeded<C>(s: State, a: Action, now: int, wakes: map<string, C>, gone: set<C>, parked: set<C>,
                     but: set<string>, but': set<string>)
    requires Enabled(s, a, now) && Heeded(s, wakes, gone, parked, but) && but + Arrivals(s, a) <= but'
    ensures Heeded(Effect(s, a, now), wakes, gone, parked, but')
  {
    hide Enabled, Effect, Arrivals, HasReady;
    forall n | n in wakes && wakes[n] in parked && n !in but'
      ensures !HasReady(Effect(s, a, now), n)
    {
      if HasReady(Effect(s, a, now), n) { OnlyArrivals(s, a, now, n); }
    }
  }

  /** Closing the channel of queue n and giving it a new one wakes everybody who waits on it. */
  lemma BroadcastHeeded<C>(s: State, wakes: map<string, C>, gone: set<C>, parked: set<C>, but: set<string>, n: string,
                           c: C)
    requires Heeded(s, wakes, gone, parked, but + {n}) && n in wakes && c !in parked
    ensures Heeded(s, wakes[n := c], gone + {wakes[n]}, parked, but)
  {
    hide HasReady;
    forall x | x in parked ensures x in gone + {wakes[n]} || x in wakes[n := c].Values
    {
      if x in wakes.Values && x != wakes[n] {
        var n' :| n' in wakes && wakes[n'] == x;
        assert n' in wakes[n := c] && wakes[n := c][n'] == x;
      }
    }
  }

  lemma CreateHeeded<C>(s: State, wakes: map<string, C>, gone: set<C>, parked: set<C>, but: set<string>, n: string,
                        c: C)
    requires Heeded(s, wakes, gone, parked, but) && n !in wakes && c !in parked
    ensures Heeded(s, wakes[n := c], gone, parked, but)
  {
    hide HasReady;
    forall x | x in parked ensures x in gone || x in wakes[n := c].Values
    {
      if x in wakes.Values {
        var n' :| n' in wakes && wakes[n'] == x;
        assert n' in wakes[n := c] && wakes[n := c][n'] == x;
      }
    }
  }

  lemma DropHeeded<C>(s: State, wakes: map<string, C>, gone: set<C>, parked: set<C>, but: set<string>, n: string)
    requires Heeded(s, wakes, gone, parked, but) && n in wakes
    ensures Heeded(s, wakes - {n}, gone + {wakes[n]}, parked, but)
  {
    hide HasReady;
    forall x | x in parked ensures x in gone + {wakes[n]} || x in (wakes - {n}).Values
    {
      if x in wakes.Values && x != wakes[n] {
        var n' :| n' in wakes && wakes[n'] == x;
        assert n' in wakes - {n} && (wakes - {n})[n'] == x;
      }
    }
  }

  /** Giving up on the waiters of queue n. */
  lemma StrandHeeded<C>(s: State, wakes: map<string, C>, gone: set<C>, parked: set<C>, n: string)
    requires Heeded(s, wakes, gone, parked, {n}) && n in wakes
    ensures Heeded(s, wakes, gone, parked - {wakes[n]}, {})
  {
    hide HasReady;
  }

  /** A waiter may park on the channel of a queue with nothing ready. */
  lemma ParkHeeded<C>(s: State, wakes: map<string, C>, gone: set<C>, parked: set<C>, n: string)
    requires Heeded(s, wakes, gone, parked, {}) && n in wakes && !HasReady(s, n)
    requires forall n' :: n' in wakes && wakes[n'] == wakes[n] ==> n' == n
    ensures Heeded(s, wakes, gone, parked + {wakes[n]}, {})
  {
    hide HasReady;
  }
}
