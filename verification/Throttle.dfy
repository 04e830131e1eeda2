/** The sign-in throttle: one counter row a bucket, restarted by the first attempt after it expired. */
module Throttle {
  import opened Collections
  import opened Domain

  /** Five minutes, in the microseconds of the database's clock. */
  const WINDOW: int := 5 * 60 * 1_000_000

  datatype Bucket = Bucket(count: nat, expires: int)

  datatype Attempt = Attempt(key: string, at: int)

  /** The row the upsert leaves: inserted, restarted or incremented. */
  function Upsert(row: Option<Bucket>, at: int): Bucket {
    match row
    case None => Bucket(1, at + WINDOW)
    case Some(b) => if b.expires < at then Bucket(1, at + WINDOW) else Bucket(b.count + 1, b.expires)
  }

  function Lookup(rows: map<string, Bucket>, key: string): Option<Bucket> {
    if key in rows then Some(rows[key]) else None
  }

  class AuthAttempts {
    var rows: map<string, Bucket>

    constructor ()
      ensures rows == map[]
    {
      rows := map[];
    }

    /** `throttle`; a refused attempt is counted too. */
    method Attempt(key: string, at: int, limit: nat) returns (accepted: bool)
      modifies this
      ensures rows == old(rows)[key := Upsert(Lookup(old(rows), key), at)]
      ensures accepted <==> rows[key].count <= limit
    {
      if key !in rows {
        rows := rows[key := Bucket(1, at + WINDOW)];
      } else {
        var row := rows[key];
        var count := if row.expires < at then 1 else row.count + 1;
        var expires := if row.expires < at then at + WINDOW else row.expires;
        rows := rows[key := Bucket(count, expires)];
      }
      accepted := rows[key].count <= limit;
    }
  }

  /** The table after all attempts, in commit order. */
  function Rows(attempts: seq<Attempt>): map<string, Bucket> {
    if attempts == [] then map[]
    else
      var before := Rows(attempts[..|attempts| - 1]);
      var last := attempts[|attempts| - 1];
      before[last.key := Upsert(Lookup(before, last.key), last.at)]
  }

  /** The counter row right after attempt `i`. */
  function RowAfter(attempts: seq<Attempt>, i: nat): Bucket
    requires i < |attempts|
  {
    Upsert(Lookup(Rows(attempts[..i]), attempts[i].key), attempts[i].at)
  }

  predicate Accepted(attempts: seq<Attempt>, i: nat, limit: nat)
    requires i < |attempts|
  {
    RowAfter(attempts, i).count <= limit
  }

  /** The accepted attempts of one bucket within a closed interval. */
  function AcceptedWithin(attempts: seq<Attempt>, key: string, limit: nat, from: int, to: int): set<nat> {
    set i: nat | i < |attempts| && attempts[i].key == key && from <= attempts[i].at <= to && Accepted(attempts, i, limit)
  }

  ghost predicate Nondecreasing(attempts: seq<Attempt>) {
    forall i, j :: 0 <= i < j < |attempts| ==> attempts[i].at <= attempts[j].at
  }

  // ---- windows ----

  /** `later` belongs to the same window and counts on, or to one that starts after the window of `earlier`
      expired. */
  predicate Follows(earlier: Bucket, later: Bucket) {
    || (later.expires == earlier.expires && earlier.count <= later.count)
    || later.expires - WINDOW > earlier.expires
  }

  lemma {:induction false} RowFollowsAttempts(attempts: seq<Attempt>, n: nat, i: nat)
    requires i < n <= |attempts|
    ensures attempts[i].key in Rows(attempts[..n]) && Follows(RowAfter(attempts, i), Rows(attempts[..n])[attempts[i].key])
    decreases n
  {
    assert attempts[..n][..n - 1] == attempts[..n - 1];
    if i < n - 1 {
      RowFollowsAttempts(attempts, n - 1, i);
    }
  }

  /** An attempt after `i` in the same bucket has a higher count in the same window, or a later window. */
  lemma LaterAttempts(attempts: seq<Attempt>, i: nat, j: nat)
    requires i < j < |attempts| && attempts[i].key == attempts[j].key
    ensures var a, b := RowAfter(attempts, i), RowAfter(attempts, j);
            (b.expires == a.expires && a.count < b.count) || b.expires - WINDOW > a.expires
  {
    RowFollowsAttempts(attempts, j, i);
  }

  /** An attempt lies in the window it is counted in, and the first one of a window lies at its start. */
  lemma {:induction false} AttemptInWindow(attempts: seq<Attempt>, i: nat)
    requires i < |attempts| && Nondecreasing(attempts)
    ensures var b := RowAfter(attempts, i);
            && b.count >= 1 && b.expires - WINDOW <= attempts[i].at <= b.expires
            && (b.count == 1 ==> attempts[i].at == b.expires - WINDOW)
  {
    RowWindow(attempts, i, attempts[i].key);
  }

  lemma {:induction false} RowWindow(attempts: seq<Attempt>, n: nat, key: string)
    requires n <= |attempts| && Nondecreasing(attempts)
    ensures key in Rows(attempts[..n]) ==>
              var b := Rows(attempts[..n])[key];
              b.count >= 1 && forall i :: n <= i < |attempts| ==> b.expires - WINDOW <= attempts[i].at
  {
    if n > 0 {
      assert attempts[..n][..n - 1] == attempts[..n - 1];
      RowWindow(attempts, n - 1, key);
    }
  }

  // ---- counting ----

  /** Within one window counts are distinct, so attempts with counts between `low` and `high` are few. */
  lemma {:induction false} DistinctCounts(attempts: seq<Attempt>, key: string, indices: set<nat>, expires: int, low: nat, high: nat)
    requires low <= high + 1
    requires forall i :: i in indices ==> i < |attempts| && attempts[i].key == key && RowAfter(attempts, i).expires == expires &&
                                          low <= RowAfter(attempts, i).count <= high
    ensures |indices| <= high + 1 - low
    decreases high + 1 - low
  {
    if low == high + 1 {
      assert indices == {};
    } else {
      var top := set i | i in indices && RowAfter(attempts, i).count == low;
      forall i, j | i in top && j in top ensures i == j {
        if i < j {
          LaterAttempts(attempts, i, j);
        } else if j < i {
          LaterAttempts(attempts, j, i);
        }
      }
      AtMostOne(top);
      DistinctCounts(attempts, key, indices - top, expires, low + 1, high);
      assert indices == top + (indices - top);
    }
  }

  /** Two attempts of the interval that are not in the earlier window are in the same one: a third window
      would start after the interval ends. */
  lemma NoThirdWindow(attempts: seq<Attempt>, key: string, from: int, first: nat, i: nat, j: nat)
    requires Nondecreasing(attempts) && first < i < j < |attempts|
    requires attempts[first].key == attempts[i].key == attempts[j].key == key
    requires from <= attempts[first].at && attempts[j].at <= from + WINDOW
    requires RowAfter(attempts, first).expires != RowAfter(attempts, i).expires
    ensures RowAfter(attempts, i).expires == RowAfter(attempts, j).expires
  {
    LaterAttempts(attempts, first, i);
    LaterAttempts(attempts, i, j);
    AttemptInWindow(attempts, first);
    AttemptInWindow(attempts, j);
  }

  lemma SecondWindow(attempts: seq<Attempt>, key: string, from: int, first: nat, i: nat, j: nat)
    requires Nondecreasing(attempts) && first < i < |attempts| && first < j < |attempts|
    requires attempts[first].key == attempts[i].key == attempts[j].key == key
    requires from <= attempts[first].at && attempts[i].at <= from + WINDOW && attempts[j].at <= from + WINDOW
    requires RowAfter(attempts, first).expires != RowAfter(attempts, i).expires
    requires RowAfter(attempts, first).expires != RowAfter(attempts, j).expires
    ensures RowAfter(attempts, i).expires == RowAfter(attempts, j).expires
  {
    if i < j {
      NoThirdWindow(attempts, key, from, first, i, j);
    } else if j < i {
      NoThirdWindow(attempts, key, from, first, j, i);
    }
  }

  /** If a closed interval reaches into a second window, it has missed the first attempt of the first one. */
  lemma FirstAttemptMissed(attempts: seq<Attempt>, key: string, from: int, i: nat, j: nat)
    requires Nondecreasing(attempts) && i < |attempts| && j < |attempts| && attempts[i].key == attempts[j].key == key
    requires from <= attempts[i].at && attempts[j].at <= from + WINDOW
    requires RowAfter(attempts, j).expires - WINDOW > RowAfter(attempts, i).expires
    ensures RowAfter(attempts, i).count >= 2
  {
    AttemptInWindow(attempts, i);
    AttemptInWindow(attempts, j);
  }

  lemma MinimumExists(s: set<nat>) returns (m: nat)
    requires s != {}
    ensures m in s && forall i :: i in s ==> m <= i
  {
    m :| m in s;
    if s != {m} {
      var rest := s - {m};
      assert s == rest + {m};
      var r := MinimumExists(rest);
      if r < m {
        m := r;
      }
    }
  }

  /** In every closed five-minute interval (in microseconds) a bucket accepts at most `2 * limit - 1` attempts, one fewer than
      the two full windows such an interval can meet. */
  lemma ThrottleBound(attempts: seq<Attempt>, key: string, limit: nat, from: int)
    requires Nondecreasing(attempts) && limit > 0
    ensures |AcceptedWithin(attempts, key, limit, from, from + 300_000_000)| <= 2 * limit - 1
  {
    var all := AcceptedWithin(attempts, key, limit, from, from + WINDOW);
    if all != {} {
      var first := MinimumExists(all);
      var expires := RowAfter(attempts, first).expires;
      var head := set i | i in all && RowAfter(attempts, i).expires == expires;
      var tail := all - head;
      forall i | i in all ensures 1 <= RowAfter(attempts, i).count <= limit {
        AttemptInWindow(attempts, i);
      }
      if tail == {} {
        DistinctCounts(attempts, key, head, expires, 1, limit);
        assert all == head + tail;
      } else {
        TwoWindows(attempts, key, limit, from, first, head, tail);
        assert all == head + tail;
      }
    }
  }

  lemma TwoWindows(attempts: seq<Attempt>, key: string, limit: nat, from: int, first: nat, head: set<nat>, tail: set<nat>)
    requires Nondecreasing(attempts) && limit > 0 && first in head && tail != {}
    requires forall i :: i in head + tail ==>
               first <= i < |attempts| && attempts[i].key == key && from <= attempts[i].at <= from + WINDOW &&
               1 <= RowAfter(attempts, i).count <= limit
    requires forall i :: i in head ==> RowAfter(attempts, i).expires == RowAfter(attempts, first).expires
    requires forall i :: i in tail ==> RowAfter(attempts, i).expires != RowAfter(attempts, first).expires
    ensures |head| <= limit - 1 && |tail| <= limit
  {
    var j :| j in tail;
    LaterAttempts(attempts, first, j);
    forall i | i in head ensures 2 <= RowAfter(attempts, i).count {
      FirstAttemptMissed(attempts, key, from, i, j);
    }
    DistinctCounts(attempts, key, head, RowAfter(attempts, first).expires, 2, limit);
    forall i | i in tail ensures RowAfter(attempts, i).expires == RowAfter(attempts, j).expires {
      SecondWindow(attempts, key, from, first, i, j);
    }
    DistinctCounts(attempts, key, tail, RowAfter(attempts, j).expires, 1, limit);
  }

  // ---- no attempt is refused without a cause ----

  /** A counter row is the one its last attempt left. */
  lemma {:induction false} LastAttempt(attempts: seq<Attempt>, n: nat, key: string) returns (j: nat)
    requires n <= |attempts| && key in Rows(attempts[..n])
    ensures j < n && attempts[j].key == key && RowAfter(attempts, j) == Rows(attempts[..n])[key]
  {
    assert attempts[..n][..n - 1] == attempts[..n - 1];
    if attempts[n - 1].key == key {
      j := n - 1;
    } else {
      j := LastAttempt(attempts, n - 1, key);
    }
  }

  /** The attempts up to `i` of its bucket that are counted in its window. */
  function SameWindow(attempts: seq<Attempt>, i: nat): set<nat>
    requires i < |attempts|
  {
    set j: nat | j <= i && attempts[j].key == attempts[i].key && RowAfter(attempts, j).expires == RowAfter(attempts, i).expires
  }

  lemma {:induction false} CountIsWitnessed(attempts: seq<Attempt>, i: nat)
    requires i < |attempts|
    ensures RowAfter(attempts, i).count <= |SameWindow(attempts, i)|
    decreases i
  {
    var own := SameWindow(attempts, i);
    assert i in own;
    if RowAfter(attempts, i).count > 1 {
      var j := LastAttempt(attempts, i, attempts[i].key);
      CountIsWitnessed(attempts, j);
      SubsetSize(SameWindow(attempts, j) + {i}, own);
    } else {
      SubsetSize({i}, own);
    }
  }

  /** Whoever is refused has made at least `limit` other attempts in the five minutes before. */
  lemma RefusalsHaveACause(attempts: seq<Attempt>, i: nat, limit: nat)
    requires i < |attempts| && Nondecreasing(attempts) && !Accepted(attempts, i, limit)
    ensures limit <= |set j: nat | j < i && attempts[j].key == attempts[i].key && attempts[i].at - 300_000_000 <= attempts[j].at <= attempts[i].at|
  {
    var recent := set j: nat | j < i && attempts[j].key == attempts[i].key && attempts[i].at - WINDOW <= attempts[j].at <= attempts[i].at;
    CountIsWitnessed(attempts, i);
    AttemptInWindow(attempts, i);
    forall j | j in SameWindow(attempts, i) - {i} ensures j in recent {
      AttemptInWindow(attempts, j);
    }
    SubsetSize(SameWindow(attempts, i) - {i}, recent);
    assert i in SameWindow(attempts, i);
  }

  // ---- the bound is attained ----

  /** One attempt at time 0, the rest of the window at its last moment, a full window right after. */
  function Burst(limit: nat): seq<Attempt>
    requires limit > 0
  {
    seq(2 * limit, i => Attempt("", if i == 0 then 0 else if i < limit then WINDOW else WINDOW + 1))
  }

  lemma {:induction false} BurstRows(limit: nat, n: nat)
    requires 0 < n <= 2 * limit
    ensures Rows(Burst(limit)[..n]) == map["" := if n <= limit then Bucket(n, WINDOW) else Bucket(n - limit, 2 * WINDOW + 1)]
    decreases n
  {
    var b := Burst(limit);
    assert b[..n][..n - 1] == b[..n - 1];
    if n > 1 {
      BurstRows(limit, n - 1);
    }
  }

  lemma ThrottleBoundIsAttained(limit: nat)
    requires limit > 0
    ensures Nondecreasing(Burst(limit))
    ensures |AcceptedWithin(Burst(limit), "", limit, 1, 1 + 300_000_000)| == 2 * limit - 1
  {
    var b := Burst(limit);
    forall i | 0 <= i < 2 * limit ensures Accepted(b, i, limit) {
      BurstRows(limit, i + 1);
      assert b[..i + 1][..i] == b[..i];
      assert Rows(b[..i + 1])[""] == RowAfter(b, i);
    }
    var indices := AcceptedWithin(b, "", limit, 1, 1 + WINDOW);
    assert forall i: nat :: i in indices <==> 1 <= i < 2 * limit;
    IntervalSize(1, 2 * limit, indices);
  }
}
