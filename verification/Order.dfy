/** FIFO order: what leases take, what redrives move, and what going back to the queue restores. */
module Order {
  import opened Wrappers
  import opened Config
  import opened Ids
  import opened State
  import opened Steps
  import opened Runs
  import opened HistoryLaws

  /** ids are the ready messages of queue n, first in line first. */
  ghost predicate IsReadyOrder(s: State, n: string, ids: seq<string>) {
    && (forall id :: id in ids <==> Has(s, n, id) && At(s, n, id).phase == Ready)
    && (forall i, j :: 0 <= i < j < |ids| ==> At(s, n, ids[i]).pos < At(s, n, ids[j]).pos)
  }

  lemma InOrder(s: State, n: string, ids: seq<string>, i: nat)
    requires IsReadyOrder(s, n, ids) && i < |ids|
    ensures Has(s, n, ids[i]) && At(s, n, ids[i]).phase == Ready
  {
    assert ids[i] in ids;
  }

  /** The message a lease or redrive takes is the first in line. */
  lemma FirstInLine(s: State, n: string, ids: seq<string>, id: string)
    requires IsReadyOrder(s, n, ids) && Has(s, n, id) && IsFirst(s, n, id)
    ensures ids != [] && ids[0] == id
  {
    assert id in ids;
    InOrder(s, n, ids, 0);
    var i :| 0 <= i < |ids| && ids[i] == id;
    assert At(s, n, ids[0]).pos >= At(s, n, id).pos;
  }

  /** The rest of the line, when only its first message has left it. */
  lemma RestOfLine(s: State, s': State, n: string, ids: seq<string>)
    requires IsReadyOrder(s, n, ids) && ids != []
    requires forall id :: Has(s', n, id) && At(s', n, id).phase == Ready <==>
      Has(s, n, id) && At(s, n, id).phase == Ready && id != ids[0]
    requires forall id :: Has(s', n, id) && Has(s, n, id) && id != ids[0] ==> At(s', n, id) == At(s, n, id)
    ensures IsReadyOrder(s', n, ids[1..])
  {
    var rest := ids[1..];
    forall i | 0 <= i < |rest| ensures Has(s', n, rest[i]) && At(s', n, rest[i]) == At(s, n, rest[i])
    {
      assert rest[i] == ids[i + 1];
      InOrder(s, n, ids, i + 1);
      InOrder(s, n, ids, 0);
    }
    forall id ensures id in rest <==> Has(s', n, id) && At(s', n, id).phase == Ready
    {
      if Has(s', n, id) && At(s', n, id).phase == Ready {
        assert id in ids;
        var i :| 0 <= i < |ids| && ids[i] == id;
        assert rest[i - 1] == id;
      }
      if id in rest {
        var i :| 0 <= i < |rest| && rest[i] == id;
        assert ids[i + 1] == id;
        InOrder(s, n, ids, i + 1);
      }
    }
    forall i, j | 0 <= i < j < |rest| ensures At(s', n, rest[i]).pos < At(s', n, rest[j]).pos
    {
      assert rest[i] == ids[i + 1] && rest[j] == ids[j + 1];
    }
  }

  /** A lease takes the first message in line and leaves the others as they were. */
  lemma GrantAdvances(w: World, n: string, id: string, visibility: int, ids: seq<string>)
    requires Filed(w.live) && IsReadyOrder(w.live, n, ids) && Enabled(w.live, Grant(n, id, visibility), w.clock)
    ensures var w' := Acts(w, Grant(n, id, visibility));
      && ids != [] && ids[0] == id && IsReadyOrder(w'.live, n, ids[1..])
      && (forall n', id' :: id' != id ==> (Has(w'.live, n', id') <==> Has(w.live, n', id')))
      && (forall n', id' :: id' != id && Has(w.live, n', id') ==> At(w'.live, n', id') == At(w.live, n', id'))
      && Has(w'.live, n, id) && At(w'.live, n, id) == LeasedMsg(w.live, At(w.live, n, id), visibility, w.clock)
  {
    hide FormatId, FormatReceipt, ValidName, IsReadyOrder, Outcomes, Deliveries, LogAfter;
    var w' := Acts(w, Grant(n, id, visibility));
    FirstInLine(w.live, n, ids, id);
    forall n', id' ensures Has(w'.live, n', id') <==> Has(w.live, n', id') { }
    RestOfLine(w.live, w'.live, n, ids);
  }

  /** A line with one more message behind it. */
  lemma LongerLine(s: State, s': State, n: string, ids: seq<string>, id: string)
    requires IsReadyOrder(s, n, ids)
    requires Has(s', n, id) && At(s', n, id).phase == Ready && !Has(s, n, id)
    requires forall id' :: id' != id ==> (Has(s', n, id') <==> Has(s, n, id'))
    requires forall id' :: Has(s, n, id') ==>
      Has(s', n, id') && At(s', n, id') == At(s, n, id') && At(s, n, id').pos < At(s', n, id).pos
    ensures IsReadyOrder(s', n, ids + [id])
  {
    var line := ids + [id];
    forall i | 0 <= i < |ids| ensures Has(s, n, ids[i]) && At(s', n, ids[i]) == At(s, n, ids[i])
    {
      InOrder(s, n, ids, i);
    }
    forall i, j | 0 <= i < j < |line| ensures At(s', n, line[i]).pos < At(s', n, line[j]).pos
    {
      if j < |ids| { assert At(s, n, ids[i]).pos < At(s, n, ids[j]).pos; }
    }
    forall id' ensures id' in line <==> Has(s', n, id') && At(s', n, id').phase == Ready
    {
      assert id' in line <==> id' in ids || id' == id;
    }
  }

  /** The message a redrive takes goes from the front of one line to the back of the other. */
  lemma ShiftAdvances(w: World, n: string, id: string, to: string, ts: int, src: seq<string>, dst: seq<string>)
    requires Sound(w.live) && Enabled(w.live, Shift(n, id, to, ts), w.clock)
    requires IsReadyOrder(w.live, n, src) && IsReadyOrder(w.live, to, dst)
    ensures var s' := Acts(w, Shift(n, id, to, ts)).live;
      && src != [] && src[0] == id && IsReadyOrder(s', n, src[1..]) && IsReadyOrder(s', to, dst + [id])
      && s'.counter == w.live.counter + 1 && s'.queues.Keys == w.live.queues.Keys
      && (forall n', id' :: id' != id ==> (Has(s', n', id') <==> Has(w.live, n', id')))
      && (forall n', id' :: id' != id && Has(w.live, n', id') ==> At(s', n', id') == At(w.live, n', id'))
      && Has(s', to, id)
      && At(s', to, id) == At(w.live, n, id).(pos := s'.counter, receives := 0, notBefore := 0)
  {
    hide FormatId, FormatReceipt, ParseHex, TrimR, ValidName, IsReadyOrder, Outcomes, Deliveries, LogAfter, Sound;
    var s, s' := w.live, Acts(w, Shift(n, id, to, ts)).live;
    FirstInLine(s, n, src, id);
    InOrder(s, n, src, 0);
    FiledSound(s, n, id);
    OneQueue(s, n, to, id);
    forall n', id' ensures id' != id ==> (Has(s', n', id') <==> Has(s, n', id')) { }
    RestOfLine(s, s', n, src);
    forall id' | Has(s, to, id') ensures At(s, to, id').pos <= s.counter { FiledSound(s, to, id'); }
    LongerLine(s, s', to, dst, id);
  }

  lemma OneQueue(s: State, n: string, n': string, id: string)
    requires Sound(s) && Has(s, n, id) && n' != n
    ensures !Has(s, n', id)
  {
  }

  // ---- going back to the queue -------------------------------------------

  /** Nothing but a redrive or dead-lettering of the message moves it or changes its position. */
  lemma ActKeepsPlace(w: World, a: Action, n: string, n': string, id: string)
    requires Sound(w.live) && Enabled(w.live, a, w.clock) && Has(w.live, n, id) && Has(Acts(w, a).live, n', id)
    requires !((a.Shift? || a.Bury?) && a.id == id)
    ensures n' == n && At(Acts(w, a).live, n, id).pos == At(w.live, n, id).pos
  {
    hide FormatReceipt, ParseHex, TrimR, ValidName, Outcomes, Deliveries, LogAfter, Sound, FormatId, IsFirst;
    if a.Post? { NextIdIsFresh(w.live, n); }
    if a.Grant? || a.Return? || a.Prolong? || a.Wake? || a.Shift? || a.Bury? { FiledSound(w.live, a.queue, a.id); }
    if n' != n { OneQueue(w.live, n, n', id); }
  }

  /** A message issued stays on record. */
  lemma {:induction false} KnownStays(w: World, actions: seq<Action>, w': World, id: string)
    requires Reachable(w) && After(w, actions) == Some(w') && id in w.hist.outcomes
    ensures id in w'.hist.outcomes
    decreases |actions|
  {
    hide Reachable, Enabled, Acts, Inv, FormatId;
    if actions != [] {
      var k := |actions| - 1;
      var mid := After(w, actions[..k]).value;
      KnownStays(w, actions[..k], mid, id);
      AfterReachable(w, actions[..k], mid);
      ReachableInv(mid);
      OnlyPostsAdd(mid, actions[k]);
    }
  }

  /** A message known before an action and live after it was live before it. */
  lemma LiveBefore(w: World, a: Action, n: string, id: string) returns (n': string)
    requires Reachable(w) && Enabled(w.live, a, w.clock) && id in w.hist.outcomes && Has(Acts(w, a).live, n, id)
    ensures Has(w.live, n', id)
  {
    hide Reachable, Enabled, Acts, Inv, DeliveriesSound, LeasesKnown, Filed, Sound, OneHome, IsId, SeqOf;
    ReachableInv(w);
    DoKeepsInv(w, a);
    InvHistory(w);
    InvHistory(Acts(w, a));
    if !w.hist.outcomes[id].In? { GoneIsFinal(w, a, id); }
    n' := w.hist.outcomes[id].queue;
  }

  lemma LiveIsKnown(w: World, n: string, id: string)
    requires Reachable(w) && Has(w.live, n, id)
    ensures id in w.hist.outcomes && Sound(w.live)
  {
    hide Reachable, Inv, DeliveriesSound, LeasesKnown, Filed, Sound, OneHome, IsId, SeqOf;
    ReachableInv(w);
    InvHistory(w);
  }

  /**
   A message keeps its queue and its position through any actions that do not
   redrive or dead-letter it: one that is returned, or whose lease expires,
   stands where it stood.
   */
  lemma {:induction false} KeepsPlace(w: World, actions: seq<Action>, w': World, n: string, n': string, id: string)
    requires Reachable(w) && After(w, actions) == Some(w') && Has(w.live, n, id) && Has(w'.live, n', id)
    requires forall i :: 0 <= i < |actions| ==> !((actions[i].Shift? || actions[i].Bury?) && actions[i].id == id)
    ensures n' == n && At(w'.live, n, id).pos == At(w.live, n, id).pos
    decreases |actions|
  {
    hide Reachable, Enabled, Acts, Sound;
    LiveIsKnown(w, n, id);
    if actions == [] {
      if n' != n { OneQueue(w.live, n, n', id); }
    } else {
      var k := |actions| - 1;
      var mid := After(w, actions[..k]).value;
      AfterReachable(w, actions[..k], mid);
      KnownStays(w, actions[..k], mid, id);
      var n1 := LiveBefore(mid, actions[k], n', id);
      KeepsPlace(w, actions[..k], mid, n, n1, id);
      LiveIsKnown(mid, n1, id);
      ActKeepsPlace(mid, actions[k], n1, n', id);
    }
  }
}
