/** Applying the collected edits from right to left, against simultaneous substitution. */
module Splice {
  import opened Rebind

  ghost predicate InText(code: string, edits: seq<Edit>) {
    forall i :: 0 <= i < |edits| ==> edits[i].start < edits[i].end <= |code|
  }

  /** No two edits overlap. */
  ghost predicate Apart(edits: seq<Edit>) {
    forall i, j :: 0 <= i < j < |edits| ==> edits[i].end <= edits[j].start || edits[j].end <= edits[i].start
  }

  // ---- the reference ----

  ghost predicate StartsAt(edits: seq<Edit>, i: nat) {
    exists k :: 0 <= k < |edits| && edits[k].start == i
  }

  ghost function EditAt(edits: seq<Edit>, i: nat): (e: Edit)
    requires StartsAt(edits, i)
    ensures e in edits && e.start == i
  {
    var k :| 0 <= k < |edits| && edits[k].start == i;
    edits[k]
  }

  /** Simultaneous substitution from position `i` on: a span becomes its text, any other character stays.
      The order in which the edits are listed plays no part. */
  ghost function Substitute(code: string, edits: seq<Edit>, i: nat): string
    requires i <= |code| && InText(code, edits)
    decreases |code| - i
  {
    if StartsAt(edits, i) then EditAt(edits, i).text + Substitute(code, edits, EditAt(edits, i).end)
    else if i == |code| then ""
    else [code[i]] + Substitute(code, edits, i + 1)
  }

  // ---- sorting and splicing ----

  ghost predicate Descending(edits: seq<Edit>) {
    forall i, j :: 0 <= i < j < |edits| ==> edits[i].start >= edits[j].start
  }

  ghost predicate SortedOf(edits: seq<Edit>, sorted: seq<Edit>) {
    && Descending(sorted) && (forall e :: e in sorted <==> e in edits)
    && (forall i :: 0 < i < |sorted| ==> sorted[i].end <= sorted[i - 1].start)
  }

  /** The stable sort by descending start. */
  function Insert(sorted: seq<Edit>, e: Edit): seq<Edit> {
    if sorted == [] || sorted[0].start < e.start then [e] + sorted else [sorted[0]] + Insert(sorted[1..], e)
  }

  function SortDescending(edits: seq<Edit>): seq<Edit> {
    if edits == [] then [] else Insert(SortDescending(edits[..|edits| - 1]), edits[|edits| - 1])
  }

  lemma {:induction false} InsertAdds(sorted: seq<Edit>, e: Edit)
    ensures multiset(Insert(sorted, e)) == multiset(sorted) + multiset{e}
  {
    if !(sorted == [] || sorted[0].start < e.start) {
      InsertAdds(sorted[1..], e);
      assert sorted == [sorted[0]] + sorted[1..];
    }
  }

  lemma {:induction false} InsertSorts(sorted: seq<Edit>, e: Edit)
    requires Descending(sorted)
    ensures Descending(Insert(sorted, e))
    ensures forall i :: 0 <= i < |Insert(sorted, e)| ==> Insert(sorted, e)[i] == e || Insert(sorted, e)[i] in sorted
  {
    if !(sorted == [] || sorted[0].start < e.start) {
      InsertSorts(sorted[1..], e);
    }
  }

  lemma {:induction false} SortSorts(edits: seq<Edit>)
    ensures Descending(SortDescending(edits)) && multiset(SortDescending(edits)) == multiset(edits)
  {
    if edits != [] {
      var n := |edits| - 1;
      SortSorts(edits[..n]);
      InsertAdds(SortDescending(edits[..n]), edits[n]);
      InsertSorts(SortDescending(edits[..n]), edits[n]);
      assert edits == edits[..n] + [edits[n]];
    }
  }

  /** Sorting keeps the spans apart and puts each one before the next. */
  lemma SortedSpans(code: string, edits: seq<Edit>)
    requires InText(code, edits) && Apart(edits)
    ensures var sorted := SortDescending(edits);
            InText(code, sorted) && SortedOf(edits, sorted)
  {
    var sorted := SortDescending(edits);
    SortSorts(edits);
    hide SortDescending;
    forall e ensures e in sorted <==> e in edits {
      assert e in sorted <==> e in multiset(sorted);
      assert e in edits <==> e in multiset(edits);
    }
    forall i | 0 <= i < |sorted| ensures sorted[i].start < sorted[i].end <= |code| {
      assert sorted[i] in edits;
    }
    forall i | 0 < i < |sorted| ensures sorted[i].end <= sorted[i - 1].start {
      NoRepeat(edits, sorted, i);
      assert sorted[i] in edits && sorted[i - 1] in edits;
      assert sorted[i - 1].start >= sorted[i].start;
    }
  }

  /** Neighbours of the sorted list are different edits: overlapping spans would have been apart. */
  lemma NoRepeat(edits: seq<Edit>, sorted: seq<Edit>, i: nat)
    requires Apart(edits) && multiset(sorted) == multiset(edits) && 0 < i < |sorted|
    requires forall k :: 0 <= k < |edits| ==> edits[k].start < edits[k].end
    ensures sorted[i] != sorted[i - 1]
  {
    if sorted[i] == sorted[i - 1] {
      var e := sorted[i];
      assert sorted == sorted[..i - 1] + [e] + [e] + sorted[i + 1..];
      assert multiset(sorted)[e] >= 2;
      OneOccurrence(edits, e);
    }
  }

  lemma {:induction false} OneOccurrence(edits: seq<Edit>, e: Edit)
    requires Apart(edits) && forall k :: 0 <= k < |edits| ==> edits[k].start < edits[k].end
    ensures multiset(edits)[e] <= 1
  {
    if edits != [] {
      var rest := edits[1..];
      assert forall i :: 0 <= i < |rest| ==> rest[i] == edits[i + 1];
      OneOccurrence(rest, e);
      assert edits == [edits[0]] + rest;
      forall j | 0 <= j < |rest| ensures rest[j] != edits[0] {
        assert rest[j] == edits[j + 1];
      }
    }
  }

  lemma CopiedOnce(code: string, edits: seq<Edit>, i: nat)
    requires i < |code| && InText(code, edits) && !StartsAt(edits, i)
    ensures Substitute(code, edits, i) == [code[i]] + Substitute(code, edits, i + 1)
  {
  }

  /** Between two positions with no edit in between the text is copied. */
  lemma {:induction false} CopiedBetween(code: string, edits: seq<Edit>, i: nat, j: nat)
    requires i <= j <= |code| && InText(code, edits)
    requires forall k :: i <= k < j ==> !StartsAt(edits, k)
    ensures Substitute(code, edits, i) == code[i..j] + Substitute(code, edits, j)
    decreases j - i
  {
    if i == j {
      assert code[i..j] == "";
    } else {
      hide *;
      CopiedOnce(code, edits, i);
      CopiedBetween(code, edits, i + 1, j);
      assert code[i..j] == [code[i]] + code[i + 1..j];
    }
  }

  lemma OnlyOneStarts(edits: seq<Edit>, a: Edit, b: Edit)
    requires Apart(edits) && a in edits && b in edits && a.start == b.start
    requires forall k :: 0 <= k < |edits| ==> edits[k].start < edits[k].end
    ensures a == b
  {
    var i :| 0 <= i < |edits| && edits[i] == a;
    var j :| 0 <= j < |edits| && edits[j] == b;
  }

  lemma ReplacedOnce(code: string, edits: seq<Edit>, e: Edit)
    requires InText(code, edits) && Apart(edits) && e in edits
    ensures e.start < e.end <= |code| && Substitute(code, edits, e.start) == e.text + Substitute(code, edits, e.end)
  {
    var k :| 0 <= k < |edits| && edits[k] == e;
    assert StartsAt(edits, e.start);
    OnlyOneStarts(edits, EditAt(edits, e.start), e);
  }

  lemma SameStarts(edits: seq<Edit>, others: seq<Edit>, i: nat)
    requires forall e :: e in edits <==> e in others
    ensures StartsAt(edits, i) <==> StartsAt(others, i)
  {
    if k :| 0 <= k < |edits| && edits[k].start == i {
      assert edits[k] in others;
    }
    if k :| 0 <= k < |others| && others[k].start == i {
      assert others[k] in edits;
    }
  }

  /** The order in which the walk finds the edits is irrelevant to what they do. */
  lemma {:induction false} OrderIsIrrelevant(code: string, edits: seq<Edit>, others: seq<Edit>, i: nat)
    requires i <= |code| && InText(code, edits) && InText(code, others) && Apart(edits) && Apart(others)
    requires forall e :: e in edits <==> e in others
    ensures Substitute(code, edits, i) == Substitute(code, others, i)
    decreases |code| - i
  {
    hide *;
    SameStarts(edits, others, i);
    if StartsAt(edits, i) {
      var e := EditAt(edits, i);
      ReplacedOnce(code, edits, e);
      ReplacedOnce(code, others, e);
      OrderIsIrrelevant(code, edits, others, e.end);
    } else if i < |code| {
      CopiedOnce(code, edits, i);
      CopiedOnce(code, others, i);
      OrderIsIrrelevant(code, edits, others, i + 1);
    } else {
      NothingFollows(code, edits);
      NothingFollows(code, others);
    }
  }

  lemma NothingFollows(code: string, edits: seq<Edit>)
    requires InText(code, edits)
    ensures Substitute(code, edits, |code|) == ""
  {
  }

  /** The loop: each edit is spliced into what the edits to its right have already become. */
  method ApplyEdits(code: string, edits: seq<Edit>) returns (bound: string)
    requires InText(code, edits) && Apart(edits)
    ensures bound == Substitute(code, edits, 0)
  {
    hide *;
    var sorted := SortDescending(edits);
    SortedSpans(code, edits);
    bound := code;
    ghost var edge := |code|;
    NothingFollows(code, edits);
    assert code == code[..edge] + "";
    for n := 0 to |sorted|
      invariant edge <= |code| && edge == (if n == 0 then |code| else sorted[n - 1].start)
      invariant bound == code[..edge] + Substitute(code, edits, edge)
    {
      var edit := sorted[n];
      SpliceOne(code, edits, sorted, n, edge);
      Spliced(code, edits, edit, edge);
      bound := bound[..edit.start] + edit.text + bound[edit.end..];
      edge := edit.start;
    }
    NothingBefore(code, edits, sorted, edge);
    CopiedBetween(code, edits, 0, edge);
    assert code[0..edge] == code[..edge];
  }

  lemma Spliced(code: string, edits: seq<Edit>, edit: Edit, edge: nat)
    requires InText(code, edits) && edit.start < edit.end <= edge <= |code|
    requires Substitute(code, edits, edit.start) == edit.text + (code[edit.end..edge] + Substitute(code, edits, edge))
    ensures var bound := code[..edge] + Substitute(code, edits, edge);
            edit.end <= |bound| &&
            bound[..edit.start] + edit.text + bound[edit.end..] == code[..edit.start] + Substitute(code, edits, edit.start)
  {
    var tail := Substitute(code, edits, edge);
    var bound := code[..edge] + tail;
    assert bound[..edit.start] == code[..edit.start];
    assert bound[edit.end..] == code[edit.end..edge] + tail;
  }

  lemma SpliceOne(code: string, edits: seq<Edit>, sorted: seq<Edit>, n: nat, edge: nat)
    requires InText(code, edits) && Apart(edits) && InText(code, sorted) && SortedOf(edits, sorted) && n < |sorted|
    requires edge == (if n == 0 then |code| else sorted[n - 1].start)
    ensures sorted[n].start < sorted[n].end <= edge <= |code|
    ensures Substitute(code, edits, sorted[n].start)
         == sorted[n].text + (code[sorted[n].end..edge] + Substitute(code, edits, edge))
  {
    var edit := sorted[n];
    assert edit in edits;
    var m :| 0 <= m < |edits| && edits[m] == edit;
    assert StartsAt(edits, edit.start);
    OnlyOneStarts(edits, EditAt(edits, edit.start), edit);
    forall e | e in edits ensures e.start < edit.end || edge <= e.start {
      var i :| 0 <= i < |sorted| && sorted[i] == e;
      if i < n {
        assert sorted[i].start >= sorted[n - 1].start;
      } else if i > n {
        assert sorted[i].start <= sorted[n].start;
      }
    }
    CopiedBetween(code, edits, edit.end, edge);
  }

  lemma NothingBefore(code: string, edits: seq<Edit>, sorted: seq<Edit>, edge: nat)
    requires InText(code, sorted) && SortedOf(edits, sorted)
    requires edge == (if sorted == [] then |code| else sorted[|sorted| - 1].start)
    ensures forall k :: 0 <= k < edge ==> !StartsAt(edits, k)
  {
    forall e | e in edits ensures edge <= e.start {
      var i :| 0 <= i < |sorted| && sorted[i] == e;
    }
  }
}
