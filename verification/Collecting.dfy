/** Taking a snapshot of the queues in memory. */
module Collecting {
  import opened Config
  import opened Record
  import opened State
  import opened Messages
  import opened Snapshot
  import Store

  lemma LeastIsOne(n: string, m: string, names: set<string>)
    requires IsLeastName(n, names) && IsLeastName(m, names)
    ensures n == m
  {
    NameTotal(n, m);
  }

  /** One more element of a sorted list. */
  lemma Shifted(done: seq<string>, x: string, rest: seq<string>)
    ensures done + ([x] + rest) == done + [x] + rest
  {
  }

  lemma SortStarts(names: set<string>, n: string)
    requires IsLeastName(n, names)
    ensures SortNames(names) == [n] + SortNames(names - {n})
  {
    var r := SortNames(names);
    assert r == [r[0]] + SortNames(names - {r[0]});
    assert IsLeastName(r[0], names);
    LeastIsOne(n, r[0], names);
  }

  /** The first of the names. */
  method First(names: set<string>) returns (n: string)
    requires names != {}
    ensures n in names && IsLeastName(n, names)
  {
    n :| n in names;
    var todo, seen := names - {n}, {n};
    while todo != {}
      invariant todo + seen == names && IsLeastName(n, seen)
      decreases todo
    {
      var m :| m in todo;
      NameTotal(m, n);
      if NameLess(m, n) {
        forall x | x in seen && x != n ensures NameLess(m, x) { NameTransitive(m, n, x); }
        n := m;
      }
      todo, seen := todo - {m}, seen + {m};
    }
    assert seen == names;
  }

  lemma NoNames()
    ensures SortNames({}) == []
  {
  }

  /** The names in order. */
  method Sorted(names: set<string>) returns (r: seq<string>)
    ensures r == SortNames(names)
  {
    hide IsLeastName, SortNames;
    NoNames();
    r := [];
    var todo := names;
    while todo != {}
      invariant r + SortNames(todo) == SortNames(names)
      decreases todo
    {
      var n := First(todo);
      SortStarts(todo, n);
      Shifted(r, n, SortNames(todo - {n}));
      r, todo := r + [n], todo - {n};
    }
    assert r + [] == r;
  }

  /** No two messages of a queue have the same position. */
  ghost predicate Placed(msgs: map<string, Msg>) {
    forall id, id' :: id in msgs && id' in msgs && msgs[id].pos == msgs[id'].pos ==> id == id'
  }

  lemma PositionsPlaced(s: State, n: string)
    requires Sound(s) && n in s.queues
    ensures Placed(s.queues[n].msgs)
  {
    hide SoundMsg, SoundConfig;
    var msgs := s.queues[n].msgs;
    forall id, id' | id in msgs && id' in msgs && msgs[id].pos == msgs[id'].pos ensures id == id'
    {
      assert Has(s, n, id) && Has(s, n, id') && At(s, n, id).pos == At(s, n, id').pos;
    }
  }

  lemma SortStartsWith(msgs: map<string, Msg>, ids: set<string>, id: string)
    requires ids <= msgs.Keys && Placed(msgs) && IsLowest(msgs, ids, id)
    ensures SortByPos(msgs, ids) == [id] + SortByPos(msgs, ids - {id})
  {
    var r := SortByPos(msgs, ids);
    assert r == [r[0]] + SortByPos(msgs, ids - {r[0]});
    assert IsLowest(msgs, ids, r[0]);
    assert msgs[r[0]].pos == msgs[id].pos;
  }

  /** The fields of q's messages are as v says. */
  ghost predicate Shows(q: QueueState, v: Queue)
    reads q, q.byID.Values
  {
    && q.cfg == v.cfg && q.byID.Keys == v.msgs.Keys && Placed(v.msgs)
    && forall id :: id in q.byID ==> q.byID[id].Value() == v.msgs[id] && q.byID[id].id == id
  }

  lemma Showing(q: QueueState, v: Queue)
    requires Shows(q, v)
    ensures q.byID.Keys == v.msgs.Keys && Placed(v.msgs) && q.cfg == v.cfg
    ensures forall id :: id in q.byID ==> q.byID[id].Value() == v.msgs[id]
  {
    hide Placed;
  }

  /** The message of q that is first among ids. */
  method Oldest(q: QueueState, ids: set<string>, ghost v: Queue) returns (id: string)
    requires Shows(q, v) && ids != {} && ids <= q.byID.Keys
    ensures id in ids && IsLowest(v.msgs, ids, id)
  {
    id :| id in ids;
    var todo, seen := ids - {id}, {id};
    while todo != {}
      invariant todo + seen == ids && IsLowest(v.msgs, seen, id)
      decreases todo
    {
      var other :| other in todo;
      if q.byID[other].pos < q.byID[id].pos {
        id := other;
      }
      todo, seen := todo - {other}, seen + {other};
    }
    assert seen == ids;
  }

  /** r is the line of msgs but for the messages still to do. */
  ghost predicate Lined(msgs: map<string, Msg>, r: seq<string>, todo: set<string>) {
    todo <= msgs.Keys && r + SortByPos(msgs, todo) == SortByPos(msgs, msgs.Keys)
  }

  lemma LinedStarts(msgs: map<string, Msg>)
    ensures Lined(msgs, [], msgs.Keys)
  {
    hide SortByPos;
  }

  lemma LinedMore(msgs: map<string, Msg>, r: seq<string>, todo: set<string>, id: string)
    requires Lined(msgs, r, todo) && Placed(msgs) && IsLowest(msgs, todo, id)
    ensures Lined(msgs, r + [id], todo - {id})
  {
    hide SortByPos, Placed, IsLowest;
    SortStartsWith(msgs, todo, id);
    Shifted(r, id, SortByPos(msgs, todo - {id}));
  }

  lemma LinedEnds(msgs: map<string, Msg>, r: seq<string>)
    requires Lined(msgs, r, {})
    ensures r == SortByPos(msgs, msgs.Keys)
  {
    assert r + [] == r;
  }

  /** The messages of q in FIFO order. */
  method InLine(q: QueueState, ghost v: Queue) returns (r: seq<string>)
    requires Shows(q, v)
    ensures r == SortByPos(v.msgs, v.msgs.Keys)
  {
    hide SortByPos, Shows, IsLowest, Placed, Lined;
    Showing(q, v);
    LinedStarts(v.msgs);
    r := [];
    var todo := q.byID.Keys;
    while todo != {}
      invariant todo <= q.byID.Keys && Lined(v.msgs, r, todo)
      decreases todo
    {
      var id := Oldest(q, todo, v);
      LinedMore(v.msgs, r, todo, id);
      r, todo := r + [id], todo - {id};
    }
    LinedEnds(v.msgs, r);
  }

  /** The records of one message. */
  method OneMessage(n: string, m: Message) returns (recs: seq<Record>)
    ensures recs == MsgRecords(n, m.Value())
  {
    var send := Record(Send, n, id := m.id, ts := m.sentAt, nbf := m.notBefore,
                       count := if m.phase != Leased then m.receives else 0);
    recs := [send.SetBody(m.body)];
    if m.phase == Leased {
      recs := recs + [Record(Receive, n, id := m.id, receipt := m.receipt, deadline := m.deadline,
                             count := m.receives)];
    }
  }

  /** The records of one queue. */
  method OneQueue(q: QueueState, ghost v: Queue) returns (recs: seq<Record>)
    requires Shows(q, v)
    ensures recs == QueueRecords(q.name, v)
  {
    hide SortByPos, MsgRecords, Placed;
    var ids := InLine(q, v);
    recs := [Record(QueueCreate, q.name, config := Marshal(q.cfg))];
    var i := 0;
    while i < |ids|
      invariant 0 <= i <= |ids|
      invariant recs + MsgsRecords(q.name, v.msgs, ids[i..]) == QueueRecords(q.name, v)
    {
      var some := OneMessage(q.name, q.byID[ids[i]]);
      assert ids[i..][0] == ids[i] && ids[i..][1..] == ids[i + 1..];
      assert MsgsRecords(q.name, v.msgs, ids[i..]) == some + MsgsRecords(q.name, v.msgs, ids[i + 1..]);
      recs := recs + some;
      i := i + 1;
    }
  }

  lemma Reading(st: Store.Store, s: State, q: QueueState)
    requires st.Holds(s) && st.Registered(q) && Sound(s)
    ensures q.name in s.queues && Shows(q, s.queues[q.name])
  {
    hide Store.Store.Holds, Sound, Placed;
    st.Reads(s, q);
    PositionsPlaced(s, q.name);
    forall id | id in q.byID ensures q.byID[id].Value() == s.queues[q.name].msgs[id] && q.byID[id].id == id { }
  }

  /** The queues in memory as a log that rebuilds them. */
  method Collect(st: Store.Store, ghost s: State) returns (recs: seq<Record>)
    requires st.Holds(s) && Sound(s)
    ensures recs == SnapshotOf(s)
  {
    hide Store.Store.Holds, Sound, SortNames, QueueRecords, Shows;
    st.ReadsNames(s);
    var names := Sorted(st.queues.Keys);
    recs := [];
    var i := 0;
    while i < |names|
      invariant 0 <= i <= |names|
      invariant recs + QueuesRecords(s, names[i..]) == SnapshotOf(s)
    {
      var q := st.queues[names[i]];
      Reading(st, s, q);
      var some := OneQueue(q, s.queues[names[i]]);
      assert names[i..][0] == names[i] && names[i..][1..] == names[i + 1..];
      assert QueuesRecords(s, names[i..]) == some + QueuesRecords(s, names[i + 1..]);
      recs := recs + some;
      i := i + 1;
    }
  }
}
