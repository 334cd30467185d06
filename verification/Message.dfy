/** Messages and queues as the engine holds them in memory, and the ready heap. */
module Messages {
  import opened Wrappers
  import opened Config
  import opened Sequences
  import opened State

  /** A broadcast channel that long-polling receivers wait on. */
  class Chan {
    var closed: bool

    constructor ()
      ensures !closed
    {
      closed := false;
    }

    method Close()
      modifies this
      ensures closed
    {
      closed := true;
    }
  }

  class Message {
    const id: string
    const body: seq<byte>
    const sentAt: int
    var pos: nat
    var notBefore: int
    var phase: Phase
    var receipt: string
    var deadline: int
    var receives: int

    constructor (m: Msg)
      ensures Value() == m
    {
      id, body, sentAt := m.id, m.body, m.sentAt;
      pos, notBefore, phase := m.pos, m.notBefore, m.phase;
      receipt, deadline, receives := m.receipt, m.deadline, m.receives;
    }

    function Value(): Msg
      reads this
    {
      Msg(id, pos, body, sentAt, notBefore, phase, receipt, deadline, receives)
    }

    method MarkReady()
      modifies this
      ensures Value() == old(Value()).MakeReady()
    {
      phase, receipt, deadline := Ready, "", 0;
    }

    method MarkLeased(receipt: string, deadline: int, receives: int)
      modifies this
      ensures Value() == old(Value()).(phase := Leased, receipt := receipt, deadline := deadline, receives := receives)
    {
      phase, this.receipt, this.deadline, this.receives := Leased, receipt, deadline, receives;
    }

    method MarkDeadline(deadline: int)
      modifies this
      ensures Value() == old(Value()).(deadline := deadline)
    {
      this.deadline := deadline;
    }

    method MarkUnreceived()
      modifies this
      ensures Value() == old(Value()).(receives := old(Value()).receives - 1)
    {
      receives := receives - 1;
    }

    method MarkDelayed()
      modifies this
      ensures Value() == old(Value()).(phase := Delayed)
    {
      phase := Delayed;
    }

    /** The message as it joins the back of another queue. */
    method MarkMoved(pos: nat, receives: int)
      modifies this
      ensures Value() == old(Value()).(pos := pos, receives := receives, notBefore := 0)
    {
      this.pos, this.receives, notBefore := pos, receives, 0;
    }
  }

  // ---- heap order --------------------------------------------------------

  function Parent(k: nat): nat
    requires k > 0
  {
    (k - 1) / 2
  }

  /** The positions of a slice of messages. */
  ghost function Positions(h: seq<Message>): (keys: seq<nat>)
    reads h
    ensures |keys| == |h| && forall k :: 0 <= k < |h| ==> keys[k] == h[k].pos
  {
    seq(|h|, k requires 0 <= k < |h| reads h => h[k].pos)
  }

  ghost predicate IsHeap(keys: seq<nat>) {
    forall k :: 0 < k < |keys| ==> keys[Parent(k)] <= keys[k]
  }

  /** The first n elements are a heap but for element j, which may be smaller than its ancestors. */
  ghost predicate HeapAbove(keys: seq<nat>, n: nat, j: nat) {
    && n <= |keys|
    && (forall k :: 0 < k < n && k != j ==> keys[Parent(k)] <= keys[k])
    && (forall k :: 0 < k < n && j > 0 && Parent(k) == j ==> keys[Parent(j)] <= keys[k])
  }

  /** The first n elements are a heap but for element i, which may be out of place in either direction. */
  ghost predicate HeapBelow(keys: seq<nat>, n: nat, i: nat) {
    && n <= |keys|
    && (forall k :: 0 < k < n && k != i && Parent(k) != i ==> keys[Parent(k)] <= keys[k])
    && (forall k :: 0 < k < n && i > 0 && Parent(k) == i ==> keys[Parent(i)] <= keys[k])
  }

  function Swapped<T>(s: seq<T>, i: nat, j: nat): (r: seq<T>)
    requires i < |s| && j < |s|
    ensures |r| == |s| && multiset(r) == multiset(s)
  {
    var r := s[i := s[j]][j := s[i]];
    SwapKeeps(s, i, j);
    r
  }

  lemma SwapKeeps<T>(s: seq<T>, i: nat, j: nat)
    requires i < |s| && j < |s|
    ensures multiset(s[i := s[j]][j := s[i]]) == multiset(s)
  {
  }

  /** Sifting up one level. */
  lemma UpStep(keys: seq<nat>, n: nat, j: nat)
    requires HeapAbove(keys, n, j) && 0 < j < n && keys[j] < keys[Parent(j)]
    ensures HeapAbove(Swapped(keys, Parent(j), j), n, Parent(j))
  {
    var i := Parent(j);
    var r := Swapped(keys, i, j);
    forall k | 0 < k < n && k != i
      ensures r[Parent(k)] <= r[k]
    {
    }
  }

  /** The element sifted up is in place. */
  lemma UpDone(keys: seq<nat>, n: nat, j: nat)
    requires HeapAbove(keys, n, j) && j < n && (j > 0 ==> keys[Parent(j)] <= keys[j])
    ensures HeapAbove(keys, n, 0)
  {
  }

  /** Sifting down one level, to the smaller child c. */
  lemma DownStep(keys: seq<nat>, n: nat, i: nat, c: nat)
    requires HeapBelow(keys, n, i) && SmallerChild(keys, n, i, c) && keys[c] < keys[i]
    ensures HeapBelow(Swapped(keys, i, c), n, c)
    ensures Swapped(keys, i, c)[Parent(c)] <= Swapped(keys, i, c)[c]
  {
    var r := Swapped(keys, i, c);
    forall k | 0 < k < n && k != c && Parent(k) != c
      ensures r[Parent(k)] <= r[k]
    {
    }
  }

  lemma {:induction false} RootIsLeast(keys: seq<nat>, k: nat)
    requires IsHeap(keys) && k < |keys|
    ensures keys[0] <= keys[k]
  {
    if k > 0 { RootIsLeast(keys, Parent(k)); }
  }

  /** The children of i are 2i+1 and 2i+2. */
  lemma Children(i: nat, k: nat)
    requires k > 0
    ensures Parent(k) == i <==> k == 2 * i + 1 || k == 2 * i + 2
  {
  }

  /** c is the smaller child of i among the first n. */
  ghost predicate SmallerChild(keys: seq<nat>, n: nat, i: nat, c: nat) {
    && 0 < c < n <= |keys| && Parent(c) == i
    && forall k :: 0 < k < n && Parent(k) == i ==> keys[c] <= keys[k]
  }

  lemma ChildChosen(keys: seq<nat>, n: nat, i: nat, c: nat)
    requires n <= |keys| && 2 * i + 1 < n
    requires c == if 2 * i + 2 < n && keys[2 * i + 2] < keys[2 * i + 1] then 2 * i + 2 else 2 * i + 1
    ensures SmallerChild(keys, n, i, c)
  {
    Children(i, c);
    forall k | 0 < k < n && Parent(k) == i
      ensures keys[c] <= keys[k]
    {
      Children(i, k);
    }
  }

  /** The element sifted down is in place: it has no child, or its smaller child is no smaller. */
  lemma DownDone(keys: seq<nat>, n: nat, i: nat)
    requires HeapBelow(keys, n, i) && i <= n
    requires forall k :: 0 < k < n && Parent(k) == i ==> keys[i] <= keys[k]
    ensures HeapAbove(keys, n, i)
    ensures 0 < i < n && keys[Parent(i)] <= keys[i] ==> HeapAbove(keys, n, 0)
  {
  }

  lemma InPlace(keys: seq<nat>, n: nat, i: nat, c: nat)
    requires HeapBelow(keys, n, i) && SmallerChild(keys, n, i, c) && keys[c] >= keys[i]
    ensures HeapAbove(keys, n, i)
    ensures 0 < i < n && keys[Parent(i)] <= keys[i] ==> HeapAbove(keys, n, 0)
  {
  }

  lemma SwapTail<T>(s: seq<T>, i: nat, j: nat, n: nat)
    requires i < n <= |s| && j < n
    ensures Swapped(s, i, j)[n..] == s[n..]
  {
  }

  lemma NoChild(keys: seq<nat>, n: nat, i: nat)
    requires n <= |keys| && 2 * i + 1 >= n
    ensures forall k :: 0 < k < n ==> Parent(k) != i
  {
  }

  /** An element appended to a heap may only be too small. */
  lemma Appended(keys: seq<nat>, key: nat)
    requires IsHeap(keys)
    ensures HeapAbove(keys + [key], |keys| + 1, |keys|)
  {
  }

  /** Swapping the last element into place i leaves a heap of the others but for i. */
  lemma LastMoved(keys: seq<nat>, i: nat)
    requires IsHeap(keys) && i < |keys|
    ensures HeapBelow(Swapped(keys, i, |keys| - 1), |keys| - 1, i)
  {
    forall k | 0 < k < |keys| - 1 && i > 0 && Parent(k) == i
      ensures keys[Parent(i)] <= keys[k]
    {
      assert keys[Parent(k)] <= keys[k];
    }
  }

  lemma AboveRoot(keys: seq<nat>, n: nat)
    requires HeapAbove(keys, n, 0)
    ensures IsHeap(keys[..n])
  {
  }

  lemma PositionsPrefix(h: seq<Message>, n: nat)
    requires n <= |h|
    ensures Positions(h[..n]) == Positions(h)[..n]
  {
  }

  lemma PositionsMore(h: seq<Message>, m: Message)
    ensures Positions(h + [m]) == Positions(h) + [m.pos]
  {
  }

  lemma DropLast<T>(s: seq<T>)
    requires |s| > 0
    ensures multiset(s[..|s| - 1]) == multiset(s) - multiset{s[|s| - 1]}
  {
    assert s == s[..|s| - 1] + [s[|s| - 1]];
  }

  lemma SwapPositions(h: seq<Message>, i: nat, j: nat)
    requires i < |h| && j < |h|
    ensures Positions(Swapped(h, i, j)) == Swapped(Positions(h), i, j)
  {
  }

  /** Every message is in the heap if it is ready and pending if not, those in out being in neither. */
  ghost predicate Arranged(byID: map<string, Message>, pending: map<string, Message>, ready: seq<Message>,
                           out: set<Message>)
    reads byID.Values - out
  {
    && (forall id :: id in byID ==> byID[id].id == id)
    && (forall id :: id in pending ==>
          id in byID && pending[id] == byID[id] && byID[id] !in out && byID[id].phase != Ready)
    && (forall id :: id in byID && byID[id] !in out && byID[id].phase != Ready ==> id in pending)
    && (forall m :: m in ready ==>
          m in byID.Values && m.id in byID && byID[m.id] == m && m !in out && m.phase == Ready)
    && (forall id :: id in byID && byID[id] !in out && byID[id].phase == Ready ==> byID[id] in ready)
    && NoRepeats(ready)
    && IsHeap(Positions(ready))
  }

  ghost predicate SameMessages(byID: map<string, Message>, msgs: map<string, Msg>)
    reads byID.Values
  {
    byID.Keys == msgs.Keys && forall id :: id in byID ==> byID[id].Value() == msgs[id]
  }

  /** A pending message taken out of the pending map. */
  lemma Lifted(byID: map<string, Message>, pending: map<string, Message>, ready: seq<Message>, m: Message)
    requires Arranged(byID, pending, ready, {}) && m.id in pending && pending[m.id] == m
    ensures Arranged(byID, pending - {m.id}, ready, {m}) && m.id in byID && byID[m.id] == m
  {
    hide IsHeap, NoRepeats, Positions;
  }

  /** A message put into the pending map. */
  lemma Lowered(byID: map<string, Message>, pending: map<string, Message>, ready: seq<Message>, m: Message)
    requires Arranged(byID, pending, ready, {m}) && m.id in byID && byID[m.id] == m && m.phase != Ready
    ensures Arranged(byID, pending[m.id := m], ready, {})
  {
    hide IsHeap, NoRepeats, Positions;
  }

  /** A message filed, in neither the heap nor the pending map yet. */
  lemma Entered(byID: map<string, Message>, pending: map<string, Message>, ready: seq<Message>, m: Message)
    requires Arranged(byID, pending, ready, {}) && m.id !in byID
    ensures Arranged(byID[m.id := m], pending, ready, {m})
  {
    hide IsHeap, Positions, NoRepeats;
  }

  /** A ready message put into the heap. */
  lemma Joined(byID: map<string, Message>, pending: map<string, Message>, before: seq<Message>, after: seq<Message>,
               m: Message)
    requires Arranged(byID, pending, before, {m}) && m.id in byID && byID[m.id] == m && m.phase == Ready
    requires multiset(after) == multiset(before) + multiset{m} && IsHeap(Positions(after))
    ensures Arranged(byID, pending, after, {})
  {
    hide IsHeap, Positions;
    Pushed(before, after, m);
  }

  /** A ready message taken out of the heap. */
  lemma Left(byID: map<string, Message>, pending: map<string, Message>, before: seq<Message>, after: seq<Message>,
             m: Message)
    requires Arranged(byID, pending, before, {}) && m in before
    requires multiset(after) == multiset(before) - multiset{m} && IsHeap(Positions(after))
    ensures Arranged(byID, pending, after, {m}) && m.id in byID && byID[m.id] == m && m.phase == Ready
  {
    hide IsHeap, Positions;
    Popped(before, after, m);
  }

  lemma FirstOfAll(byID: map<string, Message>, pending: map<string, Message>, ready: seq<Message>, m: Message)
    requires Arranged(byID, pending, ready, {}) && forall x :: x in ready ==> m.pos <= x.pos
    ensures forall id :: id in byID && byID[id].phase == Ready ==> m.pos <= byID[id].pos
  {
    hide IsHeap, Positions, NoRepeats;
  }

  /** One queue's live state. */
  class QueueState {
    const name: string
    var cfg: Config
    var byID: map<string, Message>
    var ready: seq<Message>
    var pending: map<string, Message>
    var wake: Chan

    constructor (name: string, cfg: Config)
      ensures this.name == name && this.cfg == cfg && byID == map[] && ready == [] && pending == map[]
      ensures fresh(wake) && !wake.closed && Is(Queue(cfg, map[]))
    {
      this.name, this.cfg := name, cfg;
      byID, ready, pending := map[], [], map[];
      wake := new Chan();
    }

    // -- the ready heap: container/heap over Less, Swap, Push and Pop

    /** Moves element j up to its place among the first n. */
    method Up(j0: nat, ghost n: nat)
      requires j0 < n <= |ready| && HeapAbove(Positions(ready), n, j0)
      modifies `ready
      ensures HeapAbove(Positions(ready), n, 0) && multiset(ready) == old(multiset(ready))
      ensures |ready| == |old(ready)| && ready[n..] == old(ready[n..])
    {
      hide HeapAbove, Swapped;
      var j: nat := j0;
      while j > 0 && ready[j].pos < ready[Parent(j)].pos
        invariant j < n <= |ready| == |old(ready)|
        invariant HeapAbove(Positions(ready), n, j)
        invariant multiset(ready) == old(multiset(ready))
        invariant ready[n..] == old(ready[n..])
        decreases j
      {
        var i := Parent(j);
        UpStep(Positions(ready), n, j);
        SwapPositions(ready, i, j);
        SwapTail(ready, i, j, n);
        ready := Swapped(ready, i, j);
        j := i;
      }
      UpDone(Positions(ready), n, j);
    }

    /** Moves element i down to its place among the first n; reports whether it moved. */
    method Down(i0: nat, n: nat) returns (moved: bool)
      requires i0 <= n <= |ready| && HeapBelow(Positions(ready), n, i0)
      modifies `ready
      ensures multiset(ready) == old(multiset(ready))
      ensures |ready| == |old(ready)| && ready[n..] == old(ready[n..])
      ensures if moved then HeapAbove(Positions(ready), n, 0)
              else ready == old(ready) && HeapAbove(Positions(ready), n, i0)
    {
      hide HeapAbove, HeapBelow, SmallerChild, Swapped;
      var i := i0;
      while true
        invariant i0 <= i <= n <= |ready| == |old(ready)|
        invariant HeapBelow(Positions(ready), n, i)
        invariant multiset(ready) == old(multiset(ready))
        invariant ready[n..] == old(ready[n..])
        invariant i == i0 ==> ready == old(ready)
        invariant i > i0 ==> i < n && Positions(ready)[Parent(i)] <= Positions(ready)[i]
        decreases n - i
      {
        var c := 2 * i + 1;
        if c >= n {
          NoChild(Positions(ready), n, i);
          DownDone(Positions(ready), n, i);
          break;
        }
        if c + 1 < n && ready[c + 1].pos < ready[c].pos {
          c := c + 1;
        }
        ChildChosen(Positions(ready), n, i, c);
        if ready[c].pos >= ready[i].pos {
          InPlace(Positions(ready), n, i, c);
          break;
        }
        DownStep(Positions(ready), n, i, c);
        SwapPositions(ready, i, c);
        SwapTail(ready, i, c, n);
        ready := Swapped(ready, i, c);
        i := c;
      }
      return i > i0;
    }

    /** heap.Push. */
    method HeapPush(m: Message)
      requires IsHeap(Positions(ready))
      modifies `ready
      ensures IsHeap(Positions(ready)) && multiset(ready) == old(multiset(ready)) + multiset{m}
    {
      hide HeapAbove, IsHeap;
      Appended(Positions(ready), m.pos);
      PositionsMore(ready, m);
      ready := ready + [m];
      Up(|ready| - 1, |ready|);
      AboveRoot(Positions(ready), |ready|);
      assert Positions(ready)[..|ready|] == Positions(ready);
    }

    /** Removes a message of least position. */
    method HeapPop() returns (m: Message)
      requires ready != [] && IsHeap(Positions(ready))
      modifies `ready
      ensures m in old(ready) && forall x :: x in old(ready) ==> m.pos <= x.pos
      ensures IsHeap(Positions(ready)) && multiset(ready) == old(multiset(ready)) - multiset{m}
    {
      hide HeapAbove, HeapBelow, IsHeap, Swapped;
      forall k | 0 <= k < |ready| ensures ready[0].pos <= ready[k].pos
      {
        RootIsLeast(Positions(ready), k);
      }
      var n := |ready| - 1;
      LastMoved(Positions(ready), 0);
      SwapPositions(ready, 0, n);
      SwapLast(ready, 0);
      ready := Swapped(ready, 0, n);
      var _ := Down(0, n);
      m := PopLast();
    }

    /** readyHeap.Pop: removes the last element of the slice. */
    method PopLast() returns (m: Message)
      requires ready != [] && HeapAbove(Positions(ready), |ready| - 1, 0)
      modifies `ready
      ensures [m] == old(ready[|ready| - 1..])
      ensures IsHeap(Positions(ready)) && multiset(ready) == old(multiset(ready)) - multiset{m}
    {
      hide HeapAbove, IsHeap;
      var n := |ready| - 1;
      AboveRoot(Positions(ready), n);
      PositionsPrefix(ready, n);
      DropLast(ready);
      m := ready[n];
      ready := ready[..n];
    }

    /** heap.Remove: removes the message at index i. */
    method HeapRemove(i: nat)
      requires i < |ready| && IsHeap(Positions(ready))
      modifies `ready
      ensures IsHeap(Positions(ready)) && multiset(ready) == old(multiset(ready)) - multiset{old(ready)[i]}
    {
      hide HeapAbove, HeapBelow, IsHeap, Swapped;
      var n := |ready| - 1;
      LastMoved(Positions(ready), i);
      SwapPositions(ready, i, n);
      SwapLast(ready, i);
      if n != i {
        ready := Swapped(ready, i, n);
        var moved := Down(i, n);
        if !moved {
          Up(i, n);
        }
      } else {
        SwapSelf(ready, n);
        BelowEnd(Positions(ready), n);
      }
      var m := PopLast();
      assert [m][0] == m;
    }

    // -- where messages are

    ghost predicate Structured(out: set<Message>)
      reads this, byID.Values
    {
      Arranged(byID, pending, ready, out)
    }

    ghost predicate Valid()
      reads this, byID.Values
    {
      Structured({})
    }

    /** This queue holds exactly what the value q says. */
    ghost predicate Matches(q: Queue)
      reads this, byID.Values
    {
      cfg == q.cfg && SameMessages(byID, q.msgs)
    }

    /** m is filed here but is in neither the heap nor pending. */
    ghost predicate Holds(m: Message)
      reads this, byID.Values
    {
      Structured({m}) && m.id in byID && byID[m.id] == m
    }

    /** A message in neither place becomes ready. */
    method PushReady(m: Message)
      requires Holds(m)
      modifies `ready, m
      ensures Valid() && m.Value() == old(m.Value()).MakeReady()
    {
      hide Arranged, IsHeap;
      m.MarkReady();
      HeapAndOrder({m});
      ghost var before := ready;
      HeapPush(m);
      Joined(byID, pending, before, ready, m);
    }

    lemma HeapAndOrder(out: set<Message>)
      requires Structured(out)
      ensures IsHeap(Positions(ready)) && NoRepeats(ready)
    {
    }

    /** Takes the first ready message out of the heap. */
    method PopReady() returns (m: Message)
      requires Valid() && ready != []
      modifies `ready
      ensures Holds(m) && m.phase == Ready
      ensures forall id :: id in byID && byID[id].phase == Ready ==> m.pos <= byID[id].pos
    {
      hide Arranged, IsHeap;
      HeapAndOrder({});
      ghost var before := ready;
      m := HeapPop();
      FirstOfAll(byID, pending, before, m);
      Left(byID, pending, before, ready, m);
    }

    /** A pending message is no longer pending. */
    method Unpend(m: Message)
      requires Valid() && m.id in pending && pending[m.id] == m
      modifies `pending
      ensures Holds(m) && pending == old(pending) - {m.id}
    {
      hide Arranged;
      Lifted(byID, pending, ready, m);
      pending := pending - {m.id};
    }

    /** A message that is not ready becomes pending. */
    method Park(m: Message)
      requires Holds(m) && m.phase != Ready
      modifies `pending
      ensures Valid() && pending == old(pending)[m.id := m]
    {
      hide Arranged;
      Lowered(byID, pending, ready, m);
      pending := pending[m.id := m];
    }

    /** A message new to this queue is filed under its ID. */
    method File(m: Message)
      requires Valid() && m.id !in byID
      modifies `byID
      ensures byID == old(byID)[m.id := m] && Holds(m)
    {
      hide Arranged;
      Entered(byID, pending, ready, m);
      byID := byID[m.id := m];
    }

    lemma NotReady(m: Message)
      requires Valid() && m.id !in byID
      ensures m !in ready && m !in byID.Values
    {
    }

    /** The message is no longer filed here. */
    method Forget(m: Message)
      requires Holds(m)
      modifies `byID
      ensures byID == old(byID) - {m.id} && Valid()
    {
      byID := byID - {m.id};
    }

    // -- what becomes of one message, q being the queue as a value

    ghost predicate Is(q: Queue)
      reads this, byID.Values
    {
      Valid() && Matches(q)
    }

    /** m is filed here. */
    ghost predicate Files(q: Queue, m: Message)
      reads this, byID.Values, m
    {
      Is(q) && m.id in byID && byID[m.id] == m && m.id in q.msgs && q.msgs[m.id] == m.Value()
    }

    /** m is filed here but is in neither the heap nor pending. */
    ghost predicate Out(q: Queue, m: Message)
      reads this, byID.Values, m
    {
      Holds(m) && Matches(q) && m.id in q.msgs && q.msgs[m.id] == m.Value()
    }

    lemma OutIs(q: Queue, m: Message)
      requires Out(q, m)
      ensures m.id in byID && byID[m.id] == m && m.id in q.msgs && q.msgs[m.id] == m.Value()
    {
    }

    lemma Named(q: Queue)
      requires Is(q)
      ensures byID.Keys == q.msgs.Keys && forall x :: x in byID.Values ==> x.id in q.msgs
    {
    }

    lemma FiledIs(q: Queue, m: Message)
      requires Is(q) && m.id in byID && byID[m.id] == m
      ensures Files(q, m) && m.id in q.msgs && q.msgs[m.id] == m.Value()
    {
    }

    /** m is filed under its ID only. */
    lemma Alone(m: Message)
      requires Holds(m)
      ensures forall id :: id in byID && id != m.id ==> byID[id] != m
    {
    }

    /** A pending message leaves the pending map. */
    method Withdraw(m: Message, ghost q: Queue)
      requires Files(q, m) && m.phase != Ready
      modifies `pending
      ensures Out(q, m)
    {
      hide Arranged;
      IsPending(m);
      Unpend(m);
    }

    /** The first ready message leaves the heap. */
    method TakeFirst(ghost q: Queue) returns (m: Message)
      requires Is(q) && ready != []
      modifies `ready
      ensures Out(q, m) && m.phase == Ready && m in byID.Values
      ensures forall id :: id in q.msgs && q.msgs[id].phase == Ready ==> m.pos <= q.msgs[id].pos
    {
      hide Arranged;
      m := PopReady();
    }

    /** m goes into the heap. */
    method PutReady(m: Message, ghost q: Queue)
      requires Out(q, m)
      modifies `ready, m
      ensures Is(q.(msgs := q.msgs[m.id := q.msgs[m.id].MakeReady()]))
    {
      hide Arranged;
      Alone(m);
      PushReady(m);
    }

    /** m goes into the pending map. */
    method PutPending(m: Message, ghost q: Queue)
      requires Out(q, m) && m.phase != Ready
      modifies `pending
      ensures Is(q)
    {
      hide Arranged;
      Park(m);
    }

    /** m is leased. */
    method SetLease(m: Message, ghost q: Queue, receipt: string, deadline: int, receives: int)
      requires Out(q, m)
      modifies m
      ensures m.Value() == q.msgs[m.id].(phase := Leased, receipt := receipt, deadline := deadline,
                                         receives := receives)
      ensures Out(q.(msgs := q.msgs[m.id := m.Value()]), m)
    {
      hide Arranged;
      Alone(m);
      m.MarkLeased(receipt, deadline, receives);
    }

    /** Drops m from the ready heap if it is there. */
    method RemoveReady(m: Message)
      requires Valid() && m.id in byID && byID[m.id] == m
      modifies `ready
      ensures if m.phase == Ready then Holds(m) else Valid() && ready == old(ready)
    {
      var i := 0;
      while i < |ready|
        invariant 0 <= i <= |ready| && ready == old(ready)
        invariant m !in ready[..i]
      {
        if ready[i] == m {
          Extract(i);
          return;
        }
        assert ready[..i + 1] == ready[..i] + [ready[i]];
        i := i + 1;
      }
      assert ready[..i] == ready;
    }

    /** heap.Remove of the message at index i. */
    method Extract(i: nat)
      requires Valid() && i < |ready|
      modifies `ready
      ensures Holds(old(ready[i])) && old(ready[i]).phase == Ready
    {
      hide Arranged, IsHeap;
      ghost var before, m := ready, ready[i];
      HeapAndOrder({});
      HeapRemove(i);
      Left(byID, pending, before, ready, m);
    }

    /** m leaves the heap or the pending map, wherever it is. */
    method Detach(m: Message, ghost q: Queue)
      requires Files(q, m)
      modifies `ready, `pending
      ensures Out(q, m) && m in byID.Values
    {
      hide Arranged, SameMessages;
      RemoveReady(m);
      Placed(m);
      if m.id in pending {
        Unpend(m);
      }
    }

    lemma Placed(m: Message)
      requires m.id in byID && byID[m.id] == m && if m.phase == Ready then Holds(m) else Valid()
      ensures m.id in pending <==> m.phase != Ready
      ensures m.id in pending ==> pending[m.id] == m
    {
    }

    /** A pending message becomes ready. */
    method Release(m: Message, ghost q: Queue)
      requires Files(q, m) && m.phase != Ready
      modifies `pending, `ready, m
      ensures Is(q.(msgs := q.msgs[m.id := q.msgs[m.id].MakeReady()]))
    {
      hide Is, Files, Out;
      Withdraw(m, q);
      PutReady(m, q);
    }

    /** A pending message is deleted. */
    method Remove(m: Message, ghost q: Queue)
      requires Files(q, m) && m.phase != Ready
      modifies `pending, `byID
      ensures Is(q.(msgs := q.msgs - {m.id})) && byID == old(byID) - {m.id}
    {
      hide Is, Files, Out;
      Withdraw(m, q);
      Lose(m, q);
    }

    /** A lease that could not be logged is undone. */
    method UndoLease(m: Message, ghost q: Queue)
      requires Out(q, m)
      modifies `ready, m
      ensures Is(q.(msgs := q.msgs[m.id := q.msgs[m.id].MakeReady().(receives := q.msgs[m.id].receives - 1)]))
    {
      hide Is, Matches, Structured;
      Unreceive(m, q);
      var v := q.msgs[m.id].(receives := q.msgs[m.id].receives - 1);
      assert q.msgs[m.id := v][m.id := v.MakeReady()] == q.msgs[m.id := v.MakeReady()];
      PutReady(m, q.(msgs := q.msgs[m.id := v]));
    }

    method Unreceive(m: Message, ghost q: Queue)
      requires Out(q, m)
      modifies m
      ensures m.Value() == q.msgs[m.id].(receives := q.msgs[m.id].receives - 1)
      ensures Out(q.(msgs := q.msgs[m.id := m.Value()]), m)
    {
      hide Arranged;
      Alone(m);
      m.MarkUnreceived();
    }

    lemma IsPending(m: Message)
      requires Valid() && m.id in byID && byID[m.id] == m && m.phase != Ready
      ensures m.id in pending && pending[m.id] == m
      ensures forall id :: id in byID && id != m.id ==> byID[id] != m
    {
    }

    method SetDeadline(m: Message, ghost q: Queue, deadline: int)
      requires Files(q, m) && m.phase != Ready
      modifies m
      ensures Is(q.(msgs := q.msgs[m.id := q.msgs[m.id].(deadline := deadline)]))
    {
      hide Arranged;
      IsPending(m);
      Lifted(byID, pending, ready, m);
      m.MarkDeadline(deadline);
      Lowered(byID, pending - {m.id}, ready, m);
      assert (pending - {m.id})[m.id := m] == pending;
    }

    /** m leaves this queue. */
    method Lose(m: Message, ghost q: Queue)
      requires Out(q, m)
      modifies `byID
      ensures Is(q.(msgs := q.msgs - {m.id})) && byID == old(byID) - {m.id}
    {
      hide Arranged;
      Forget(m);
    }

    /** A message of no queue is filed here. */
    method Gain(m: Message, ghost q: Queue)
      requires Is(q) && m.id !in byID
      modifies `byID
      ensures Out(q.(msgs := q.msgs[m.id := m.Value()]), m) && byID == old(byID)[m.id := m]
    {
      hide Arranged;
      File(m);
    }

    /** A message of no queue joins this one as ready. */
    method Add(m: Message, ghost q: Queue)
      requires Is(q) && m.id !in byID
      modifies `byID, `ready, m
      ensures Is(q.(msgs := q.msgs[m.id := old(m.Value()).MakeReady()])) && byID == old(byID)[m.id := m]
    {
      hide Is, Out;
      Gain(m, q);
      ghost var v := q.msgs[m.id := m.Value()];
      assert v[m.id := v[m.id].MakeReady()] == q.msgs[m.id := m.Value().MakeReady()];
      PutReady(m, q.(msgs := v));
    }

    /** A message of no queue joins this one as delayed. */
    method AddDelayed(m: Message, ghost q: Queue)
      requires Is(q) && m.id !in byID
      modifies `byID, `pending, m
      ensures Is(q.(msgs := q.msgs[m.id := old(m.Value()).(phase := Delayed)])) && byID == old(byID)[m.id := m]
    {
      hide Is, Out;
      Delay(m, q);
      Gain(m, q);
      PutPending(m, q.(msgs := q.msgs[m.id := m.Value()]));
    }

    method Delay(m: Message, ghost q: Queue)
      requires Is(q) && m.id !in byID
      modifies m
      ensures Is(q) && m.Value() == old(m.Value()).(phase := Delayed)
    {
      hide Arranged, SameMessages;
      NotReady(m);
      m.MarkDelayed();
    }

    method Move(m: Message, ghost q: Queue, pos: nat, receives: int)
      requires Is(q) && m.id !in byID
      modifies m
      ensures Is(q) && m.Value() == old(m.Value()).(pos := pos, receives := receives, notBefore := 0)
    {
      hide Arranged, SameMessages;
      NotReady(m);
      m.MarkMoved(pos, receives);
    }

    /** A message of no queue joins this one at position pos. */
    method Join(m: Message, ghost q: Queue, pos: nat, receives: int)
      requires Is(q) && m.id !in byID
      modifies `byID, `ready, m
      ensures Is(q.(msgs := q.msgs[m.id := old(m.Value()).MakeReady().(pos := pos, receives := receives,
                                                                       notBefore := 0)]))
      ensures byID == old(byID)[m.id := m]
    {
      hide Is;
      Move(m, q, pos, receives);
      Add(m, q);
    }

    method SetConfig(ghost q: Queue, cfg: Config)
      requires Is(q)
      modifies `cfg
      ensures Is(q.(cfg := cfg))
    {
      hide Arranged, SameMessages;
      this.cfg := cfg;
    }

    /** The channel is closed, which wakes all who wait on it, and replaced. */
    method Broadcast(ghost q: Queue)
      requires Is(q)
      modifies `wake, wake
      ensures old(wake).closed && fresh(wake) && !wake.closed && Is(q)
    {
      hide Is;
      wake.Close();
      Renew(q);
    }

    method Renew(ghost q: Queue)
      requires Is(q)
      modifies `wake
      ensures fresh(wake) && !wake.closed && Is(q)
    {
      hide Arranged, SameMessages;
      var c := new Chan();
      wake := c;
    }
  }

  lemma SwapLast<T>(s: seq<T>, i: nat)
    requires i < |s|
    ensures Swapped(s, i, |s| - 1)[|s| - 1] == s[i] && Swapped(s, i, |s| - 1)[|s| - 1..] == [s[i]]
  {
  }

  lemma SwapSelf<T>(s: seq<T>, n: nat)
    requires n < |s|
    ensures Swapped(s, n, n) == s
  {
  }

  lemma BelowEnd(keys: seq<nat>, n: nat)
    requires HeapBelow(keys, n, n)
    ensures HeapAbove(keys, n, 0)
  {
  }
}
