/** What compaction keeps and what it loses. */
module Compaction {
  import opened Ids
  import opened State
  import opened Snapshot

  // ---- the counter -------------------------------------------------------

  /** k is a number in use by m: its ID's, or that of its outstanding receipt. */
  predicate Carries(m: Msg, k: nat) {
    SeqOf(m.id) == k || (m.phase == Leased && NumberOf(m.receipt) == k)
  }

  ghost predicate Within(m: Msg, limit: nat) {
    forall k: nat :: Carries(m, k) ==> k <= limit
  }

  /** limit is the largest number in use anywhere in s, or 0. */
  ghost predicate IsLargest(s: State, limit: nat) {
    && (forall n, id :: Has(s, n, id) ==> Within(At(s, n, id), limit))
    && (limit == 0 || exists n, id :: Has(s, n, id) && Carries(At(s, n, id), limit))
  }

  lemma BumpMsgIs(counter: nat, m: Msg, limit: nat)
    requires SoundMsg(m, m.id, limit)
    ensures BumpMsg(counter, m) >= counter && Within(m, BumpMsg(counter, m))
    ensures BumpMsg(counter, m) == counter || Carries(m, BumpMsg(counter, m))
  {
    hide FormatId, ParseHex, TrimR;
    IdRoundTrip(SeqOf(m.id));
  }

  lemma {:induction false} BumpMsgsIs(counter: nat, msgs: map<string, Msg>, ids: seq<string>, limit: nat)
    requires forall id :: id in ids ==> id in msgs && SoundMsg(msgs[id], id, limit)
    ensures var r := BumpMsgs(counter, msgs, ids);
      && r >= counter
      && (forall id :: id in ids ==> Within(msgs[id], r))
      && (r == counter || exists id :: id in ids && Carries(msgs[id], r))
    decreases |ids|
  {
    hide SoundMsg, Carries, BumpMsg;
    if ids != [] {
      MsgFiled(msgs[ids[0]], ids[0], limit);
      BumpMsgIs(counter, msgs[ids[0]], limit);
      var c := BumpMsg(counter, msgs[ids[0]]);
      BumpMsgsIs(c, msgs, ids[1..], limit);
      var r := BumpMsgs(counter, msgs, ids);
      assert r == BumpMsgs(c, msgs, ids[1..]);
      assert ids[0] in ids;
    }
  }

  lemma {:induction false} BumpQueuesIs(counter: nat, s: State, names: seq<string>)
    requires Sound(s)
    requires forall n :: n in names ==> n in s.queues
    ensures var r := BumpQueues(counter, s, names);
      && r >= counter
      && (forall n, id :: n in names && Has(s, n, id) ==> Within(At(s, n, id), r))
      && (r == counter || exists n, id :: Has(s, n, id) && Carries(At(s, n, id), r))
    decreases |names|
  {
    hide Sound, SoundMsg, Carries, BumpMsgs, SortByPos;
    if names != [] {
      var n := names[0];
      var msgs := s.queues[n].msgs;
      QueueParts(s, n);
      var ids := SortedIds(msgs);
      BumpMsgsIs(counter, msgs, ids, s.counter);
      var c := BumpMsgs(counter, msgs, ids);
      if c != counter {
        var id :| id in ids && Carries(msgs[id], c);
        assert Has(s, n, id) && Carries(At(s, n, id), c);
      }
      BumpQueuesIs(c, s, names[1..]);
    }
  }

  lemma CompactedCounter(s: State)
    requires Sound(s)
    ensures IsLargest(s, Compacted(s).counter)
  {
    hide Sound, Carries, BumpQueues, SortNames, Within;
    var names := SortedNamesOf(s);
    BumpQueuesIs(0, s, names);
  }

  lemma LargestIsUnique(s: State, a: nat, b: nat)
    requires IsLargest(s, a) && IsLargest(s, b)
    ensures a == b
  {
  }

  // ---- the compacted state -----------------------------------------------

  lemma KeptAt(s: State, n: string, id: string)
    ensures Has(Compacted(s), n, id) <==> Has(s, n, id)
    ensures Has(s, n, id) ==> At(Compacted(s), n, id) == Kept(At(s, n, id))
  {
    hide BumpQueues, SortNames, Kept;
  }

  /** Compaction yields a sound state: positions fall back to the ID numbers, which are unique. */
  lemma CompactedSound(s: State)
    requires Sound(s)
    ensures Sound(Compacted(s))
  {
    hide BumpQueues, SortNames, FormatId, FormatReceipt, ParseHex, TrimR;
    CompactedCounter(s);
    var c := Compacted(s);
    forall n, id | Has(c, n, id)
      ensures Has(s, n, id) && At(c, n, id) == Kept(At(s, n, id)) && SoundMsg(At(c, n, id), id, c.counter)
    {
      KeptAt(s, n, id);
      assert Carries(At(s, n, id), SeqOf(id));
      assert At(s, n, id).phase == Leased ==> Carries(At(s, n, id), NumberOf(At(s, n, id).receipt));
    }
  }

  /** Compacting again changes nothing. */
  lemma CompactedIsFixed(s: State)
    requires Sound(s)
    ensures Compacted(Compacted(s)) == Compacted(s)
  {
    hide BumpQueues, SortNames, Sound;
    var c := Compacted(s);
    CompactedSound(s);
    CompactedCounter(s);
    CompactedCounter(c);
    SameNumbers(s, c.counter);
    SameNumbers(s, Compacted(c).counter);
    LargestIsUnique(s, c.counter, Compacted(c).counter);
    assert forall n :: n in c.queues ==> KeptQueue(c.queues[n]).msgs == c.queues[n].msgs;
    assert KeptQueues(c) == c.queues;
  }

  lemma SameNumbers(s: State, limit: nat)
    ensures IsLargest(s, limit) <==> IsLargest(Compacted(s), limit)
  {
    hide Compacted;
    var c := Compacted(s);
    forall n, id
      ensures Has(c, n, id) <==> Has(s, n, id)
      ensures Has(s, n, id) ==> forall k :: Carries(At(c, n, id), k) <==> Carries(At(s, n, id), k)
    {
      KeptAt(s, n, id);
    }
    if IsLargest(s, limit) && limit > 0 {
      var n, id :| Has(s, n, id) && Carries(At(s, n, id), limit);
      assert Has(c, n, id) && Carries(At(c, n, id), limit);
    }
    if IsLargest(c, limit) && limit > 0 {
      var n, id :| Has(c, n, id) && Carries(At(c, n, id), limit);
      assert Has(s, n, id) && Carries(At(s, n, id), limit);
    }
  }
}
