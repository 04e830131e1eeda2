/** Facts about sets and sequences that several components need. */
module Collections {
  lemma SubsetSize(small: set<nat>, big: set<nat>)
    requires small <= big
    ensures |small| <= |big|
  {
    assert big == small + (big - small);
  }

  lemma AtMostOne(s: set<nat>)
    requires forall i, j :: i in s && j in s ==> i == j
    ensures |s| <= 1
  {
    if s != {} {
      var i :| i in s;
      assert s == {i};
    }
  }

  lemma {:induction false} IntervalSize(low: nat, high: nat, s: set<nat>)
    requires low <= high && forall i: nat :: i in s <==> low <= i < high
    ensures |s| == high - low
    decreases high - low
  {
    if low == high {
      assert s == {};
    } else {
      IntervalSize(low, high - 1, s - {high - 1});
    }
  }

  lemma FirstApart<T>(first: seq<T>, second: seq<T>)
    requires first != []
    ensures first == [first[0]] + first[1..] && first + second == [first[0]] + (first[1..] + second)
  {
  }

  lemma Associative<T>(a: seq<T>, b: seq<T>, c: seq<T>)
    ensures a + b + c == a + (b + c)
  {
  }
}
