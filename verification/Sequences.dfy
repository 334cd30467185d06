/** Sequences without repetitions. */
module Sequences {
  /** No element of s occurs twice. */
  ghost predicate NoRepeats<T>(s: seq<T>) {
    forall x :: x in s ==> multiset(s)[x] == 1
  }

  lemma Pushed<T>(before: seq<T>, after: seq<T>, m: T)
    requires multiset(after) == multiset(before) + multiset{m} && m !in before && NoRepeats(before)
    ensures NoRepeats(after) && m in after
    ensures (forall x :: x in after ==> x in before || x == m) && (forall x :: x in before ==> x in after)
  {
    assert m in multiset(after);
    forall x | x in after ensures (x in before || x == m) && multiset(after)[x] == 1
    {
      assert x in multiset(after);
      assert x in before <==> x in multiset(before);
    }
    forall x | x in before ensures x in after
    {
      assert x in multiset(after);
    }
  }

  lemma Popped<T>(before: seq<T>, after: seq<T>, m: T)
    requires multiset(after) == multiset(before) - multiset{m} && m in before && NoRepeats(before)
    ensures NoRepeats(after) && m !in after
    ensures (forall x :: x in after ==> x in before) && (forall x :: x in before && x != m ==> x in after)
  {
    assert m !in multiset(after);
    forall x | x in after ensures x in before && multiset(after)[x] == 1
    {
      assert x in multiset(after);
      assert x in before <==> x in multiset(before);
    }
    forall x | x in before && x != m ensures x in after
    {
      assert x in multiset(after);
    }
  }

  lemma NoRepeatsSplit<T>(a: seq<T>, b: seq<T>)
    requires NoRepeats(a + b)
    ensures NoRepeats(a) && NoRepeats(b) && forall x :: x in b ==> x !in a
  {
    assert multiset(a + b) == multiset(a) + multiset(b);
    forall x | x in a ensures multiset(a)[x] == 1 && x !in b
    {
      assert x in a + b && x in multiset(a);
      assert x in b ==> x in multiset(b);
    }
    forall x | x in b ensures multiset(b)[x] == 1
    {
      assert x in a + b && x in multiset(b);
    }
  }

  lemma NoRepeatsJoin<T>(a: seq<T>, b: seq<T>)
    requires NoRepeats(a) && NoRepeats(b) && forall x :: x in b ==> x !in a
    ensures NoRepeats(a + b)
  {
    assert multiset(a + b) == multiset(a) + multiset(b);
    forall x | x in a + b ensures multiset(a + b)[x] == 1
    {
      assert x in a <==> x in multiset(a);
      assert x in b <==> x in multiset(b);
    }
  }

  lemma {:induction false} DistinctHasNoRepeats<T>(s: seq<T>)
    requires forall i, j :: 0 <= i < j < |s| ==> s[i] != s[j]
    ensures NoRepeats(s)
    decreases |s|
  {
    if s != [] {
      DistinctHasNoRepeats(s[1..]);
      assert s == [s[0]] + s[1..];
      NoRepeatsJoin([s[0]], s[1..]);
    }
  }
}
