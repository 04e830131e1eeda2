/** Startup recovery: every run or recording the previous process left active is closed as an error. */
module Recovery {
  import opened Domain
  import opened Store

  const RUN_INTERRUPTED := "API process interrupted before completion; create a new run"
  const RECORDING_INTERRUPTED := "Recording controller interrupted; start a new session"
  const CLEANUP_NEEDED := "; runtime cleanup requires Docker availability"

  predicate Active(kind: Kind, body: Body)
    requires kind in {Run, Recording} ==> HasStatus(body)
  {
    || (kind == Run && StatusOf(body) in {Queued, Running})
    || (kind == Recording && StatusOf(body) in ACTIVE_RECORDINGS)
  }

  /** The statuses an interrupted process leaves behind. */
  predicate Interruptible(kind: Kind, status: Status) {
    if kind == Run then status in {Queued, Running} else status in {Starting, Ready, Stopping}
  }

  function Interruption(kind: Kind, now: int): Body {
    if kind == Run then
      map[StatusKey := Word(Error), ErrorKey := Text(RUN_INTERRUPTED), FinishedAt := Num(now)]
    else
      map[StatusKey := Word(Error), ErrorKey := Text(RECORDING_INTERRUPTED), ViewerUrl := Null]
  }

  function Recovered(kind: Kind, body: Body, now: int): Body
    requires kind in {Run, Recording} ==> HasStatus(body)
  {
    if Active(kind, body) then Merge(body, Interruption(kind, now), now) else body
  }

  /** The second pass, taken when the controller could not clean up. */
  function Annotated(body: Body, now: int): Body
    requires ErrorKey in body && body[ErrorKey].Text?
  {
    Merge(body, map[ErrorKey := Text(body[ErrorKey].text + CLEANUP_NEEDED)], now)
  }

  ghost predicate Distinct(rows: seq<Resource>) {
    forall i, j :: 0 <= i < j < |rows| ==> rows[i] != rows[j]
  }

  ghost predicate Recoverable(rows: seq<Resource>)
    reads rows
  {
    && Distinct(rows)
    && (forall i :: 0 <= i < |rows| ==> rows[i].kind in {Run, Recording} && HasStatus(rows[i].body))
  }

  ghost predicate Holds(rows: seq<Resource>, bodies: seq<Body>)
    reads rows
  {
    |bodies| == |rows| && forall i :: 0 <= i < |rows| ==> rows[i].body == bodies[i]
  }

  ghost predicate Increasing(positions: seq<nat>) {
    forall i, j :: 0 <= i < j < |positions| ==> positions[i] < positions[j]
  }

  /** One turn of the loop. */
  method CloseRow(row: Resource, now: int) returns (closed: bool)
    requires row.kind in {Run, Recording} && HasStatus(row.body)
    modifies row
    ensures closed <==> Interruptible(row.kind, old(StatusOf(row.body)))
    ensures row.body == Recovered(row.kind, old(row.body), now)
  {
    closed := false;
    if row.kind == Run && StatusOf(row.body) in {Queued, Running} {
      closed := true;
      var r := row.Update(map[StatusKey := Word(Error), ErrorKey := Text(RUN_INTERRUPTED), FinishedAt := Num(now)], now);
    }
    if row.kind == Recording && StatusOf(row.body) in {Starting, Ready, Stopping} {
      closed := true;
      var r := row.Update(map[StatusKey := Word(Error), ErrorKey := Text(RECORDING_INTERRUPTED), ViewerUrl := Null], now);
    }
  }

  /** What `recover` leaves in a row: closed if it was active, and then annotated if the clean-up failed. */
  function AfterRecovery(kind: Kind, body: Body, now: int, cleanupFails: bool): Body
    requires kind in {Run, Recording} && HasStatus(body)
  {
    var closed := Recovered(kind, body, now);
    if cleanupFails && Active(kind, body) then Annotated(closed, now) else closed
  }

  /** The first pass: an error that names the interruption, and no viewer of a recording. */
  lemma RecoveredShape(kind: Kind, body: Body, now: int)
    requires kind in {Run, Recording} && HasStatus(body) && Active(kind, body)
    ensures var after := Recovered(kind, body, now);
            && OnlyChanges(body, after, {StatusKey, ErrorKey, if kind == Run then FinishedAt else ViewerUrl})
            && HasStatus(after) && StatusOf(after) == Error
            && ErrorKey in after
            && after[ErrorKey] == Text(if kind == Run then "API process interrupted before completion; create a new run"
                                       else "Recording controller interrupted; start a new session")
            && (kind == Run ==> FinishedAt in after && after[FinishedAt] == Num(now))
            && (kind == Recording ==> ViewerUrl in after && after[ViewerUrl] == Null)
  {
    MergeWritesTheChanges(body, Interruption(kind, now), now);
    hide Merge;
    assert Interruption(kind, now).Keys == {StatusKey, ErrorKey, if kind == Run then FinishedAt else ViewerUrl};
  }

  /** The second pass adds the clean-up to the error and moves nothing else. */
  lemma AnnotatedShape(body: Body, now: int)
    requires ErrorKey in body && body[ErrorKey].Text?
    ensures var after := Annotated(body, now);
            && OnlyChanges(body, after, {ErrorKey}) && ErrorKey in after
            && after[ErrorKey] == Text(body[ErrorKey].text + "; runtime cleanup requires Docker availability")
  {
    var changes: Body := map[ErrorKey := Text(body[ErrorKey].text + CLEANUP_NEEDED)];
    MergeWritesTheChanges(body, changes, now);
    assert changes.Keys == {ErrorKey};
  }

  /** What both passes leave of a row that was active: an error that names the interruption and, if the clean-up
      failed, the clean-up; no viewer of a recording; and every other key. */
  lemma ClosedRowShape(kind: Kind, body: Body, now: int, cleanupFails: bool)
    requires kind in {Run, Recording} && HasStatus(body) && Active(kind, body)
    ensures var after := AfterRecovery(kind, body, now, cleanupFails);
            && OnlyChanges(body, after, {StatusKey, ErrorKey, if kind == Run then FinishedAt else ViewerUrl})
            && HasStatus(after) && StatusOf(after) == Error
            && ErrorKey in after
            && after[ErrorKey] == Text((if kind == Run then "API process interrupted before completion; create a new run"
                                        else "Recording controller interrupted; start a new session")
                                       + if cleanupFails then "; runtime cleanup requires Docker availability" else "")
            && (kind == Run ==> FinishedAt in after && after[FinishedAt] == Num(now))
            && (kind == Recording ==> ViewerUrl in after && after[ViewerUrl] == Null)
  {
    var closed := Recovered(kind, body, now);
    RecoveredShape(kind, body, now);
    AnnotatedShape(closed, now);
    hide Recovered, Annotated, Active;
    assert closed[ErrorKey] == Text(closed[ErrorKey].text + "");
    KeptByTwoPasses(body, closed, Annotated(closed, now), {StatusKey, ErrorKey, if kind == Run then FinishedAt else ViewerUrl});
    if cleanupFails && kind == Recording {
      assert ViewerUrl in closed.Keys - {ErrorKey} - {UpdatedAt};
    }
    if cleanupFails {
      assert StatusKey in closed.Keys - {ErrorKey} - {UpdatedAt};
      assert kind == Run ==> FinishedAt in closed.Keys - {ErrorKey} - {UpdatedAt};
    }
  }

  lemma KeptByTwoPasses(body: Body, closed: Body, noted: Body, keys: set<Field>)
    requires ErrorKey in keys && OnlyChanges(body, closed, keys) && OnlyChanges(closed, noted, {ErrorKey})
    ensures OnlyChanges(body, noted, keys)
  {
    assert noted.Keys - keys - {UpdatedAt} == noted.Keys - {ErrorKey} - {UpdatedAt} - keys;
    assert closed.Keys - keys - {UpdatedAt} == closed.Keys - {ErrorKey} - {UpdatedAt} - keys;
  }

  /** Afterwards no run is queued or running and no recording starting, ready or stopping; and exactly the rows
      that were have changed. */
  lemma NothingIsLeftOpen(kind: Kind, body: Body, now: int, cleanupFails: bool)
    requires kind in {Run, Recording} && HasStatus(body)
    ensures var after := AfterRecovery(kind, body, now, cleanupFails);
            && HasStatus(after)
            && (kind == Run ==> StatusOf(after) !in {Queued, Running})
            && (kind == Recording ==> StatusOf(after) !in {Starting, Ready, Stopping})
            && (after != body <==> Interruptible(kind, StatusOf(body)))
            && (Interruptible(kind, StatusOf(body)) ==> StatusOf(after) == Error)
  {
    if Active(kind, body) {
      ClosedRowShape(kind, body, now, cleanupFails);
    }
  }

  /** `recover`, with the controller's answer as a parameter; `before` names the bodies it finds. `events`
      lists, by position, the runs that gained a `run.error` event; `interrupted` what the controller
      cleans up. */
  method Recover(rows: seq<Resource>, ghost before: seq<Body>, now: int, cleanupFails: bool)
    returns (interrupted: seq<nat>, events: seq<nat>)
    requires Recoverable(rows) && Holds(rows, before)
    modifies rows
    ensures interrupted == ActivePositions(rows, before, |rows|, false)
    ensures events == ActivePositions(rows, before, |rows|, true)
    ensures forall i :: 0 <= i < |rows| ==> rows[i].body == AfterRecovery(rows[i].kind, before[i], now, cleanupFails)
  {
    interrupted, events := CloseRows(rows, before, now);
    if cleanupFails {
      ghost var closed: seq<Body> := RecoveredBodies(rows, before, now);
      InterruptedAreActive(rows, before, interrupted);
      hide Active, Interruptible, Recovered, Annotated, ActivePositions;
      forall i: nat | i in interrupted ensures ErrorKey in closed[i] && closed[i][ErrorKey].Text? {
        ClosedRowsNameTheirError(rows[i].kind, before[i], now);
      }
      Annotate(rows, closed, interrupted, now);
    }
  }

  lemma InterruptedAreActive(rows: seq<Resource>, before: seq<Body>, interrupted: seq<nat>)
    requires |rows| == |before|
    requires forall i :: 0 <= i < |rows| ==> rows[i].kind in {Run, Recording} && HasStatus(before[i])
    requires interrupted == ActivePositions(rows, before, |rows|, false)
    ensures Increasing(interrupted)
    ensures forall i :: i in interrupted <==> 0 <= i < |rows| && Active(rows[i].kind, before[i])
  {
    ActivePositionsAreExact(rows, before, |rows|, false);
    forall i | 0 <= i < |rows| ensures Active(rows[i].kind, before[i]) <==> Interruptible(rows[i].kind, StatusOf(before[i])) {
      ActiveByStatus(rows[i].kind, before[i]);
    }
  }

  lemma ClosedRowsNameTheirError(kind: Kind, body: Body, now: int)
    requires kind in {Run, Recording} && HasStatus(body) && Active(kind, body)
    ensures var closed := Recovered(kind, body, now); ErrorKey in closed && closed[ErrorKey].Text?
  {
  }

  ghost function RecoveredBodies(rows: seq<Resource>, before: seq<Body>, now: int): (closed: seq<Body>)
    requires |before| == |rows|
    requires forall i :: 0 <= i < |rows| ==> rows[i].kind in {Run, Recording} && HasStatus(before[i])
    ensures |closed| == |rows| && forall i :: 0 <= i < |rows| ==> closed[i] == Recovered(rows[i].kind, before[i], now)
  {
    seq(|rows|, i requires 0 <= i < |rows| => Recovered(rows[i].kind, before[i], now))
  }

  /** The active rows among the first `n`, in row order. */
  ghost function ActivePositions(rows: seq<Resource>, before: seq<Body>, n: nat, runsOnly: bool): seq<nat>
    requires n <= |rows| == |before|
    requires forall i :: 0 <= i < |rows| ==> rows[i].kind in {Run, Recording} && HasStatus(before[i])
  {
    if n == 0 then []
    else
      ActivePositions(rows, before, n - 1, runsOnly) +
      if Active(rows[n - 1].kind, before[n - 1]) && (runsOnly ==> rows[n - 1].kind == Run) then [n - 1] else []
  }

  lemma ActiveByStatus(kind: Kind, body: Body)
    requires kind in {Run, Recording} && HasStatus(body)
    ensures Active(kind, body) <==> Interruptible(kind, StatusOf(body))
  {
  }

  /** They are listed once each, and none is missing. */
  lemma {:induction false} ActivePositionsAreExact(rows: seq<Resource>, before: seq<Body>, n: nat, runsOnly: bool)
    requires n <= |rows| == |before|
    requires forall i :: 0 <= i < |rows| ==> rows[i].kind in {Run, Recording} && HasStatus(before[i])
    ensures var positions := ActivePositions(rows, before, n, runsOnly);
            && Increasing(positions)
            && (forall i :: i in positions <==>
                  0 <= i < n && Interruptible(rows[i].kind, StatusOf(before[i])) && (runsOnly ==> rows[i].kind == Run))
  {
    if n > 0 {
      ActiveByStatus(rows[n - 1].kind, before[n - 1]);
      hide Active, Interruptible;
      ActivePositionsAreExact(rows, before, n - 1, runsOnly);
      var shorter := ActivePositions(rows, before, n - 1, runsOnly);
      assert forall k :: 0 <= k < |shorter| ==> shorter[k] in shorter;
    }
  }

  method CloseRows(rows: seq<Resource>, ghost before: seq<Body>, now: int)
    returns (interrupted: seq<nat>, events: seq<nat>)
    requires Recoverable(rows) && Holds(rows, before)
    modifies rows
    ensures interrupted == ActivePositions(rows, before, |rows|, false)
    ensures events == ActivePositions(rows, before, |rows|, true)
    ensures forall i :: 0 <= i < |rows| ==> rows[i].body == Recovered(rows[i].kind, before[i], now)
  {
    hide Recovered, Active;
    interrupted, events := [], [];
    for n := 0 to |rows|
      invariant interrupted == ActivePositions(rows, before, n, false)
      invariant events == ActivePositions(rows, before, n, true)
      invariant forall i :: 0 <= i < n ==> rows[i].body == Recovered(rows[i].kind, before[i], now)
      invariant forall i :: n <= i < |rows| ==> rows[i].body == before[i]
    {
      ActiveByStatus(rows[n].kind, before[n]);
      var closed := CloseRow(rows[n], now);
      if closed {
        interrupted := interrupted + [n];
        if rows[n].kind == Run {
          events := events + [n];
        }
      }
    }
  }

  /** The fallback when the controller could not clean up. */
  method Annotate(rows: seq<Resource>, ghost before: seq<Body>, interrupted: seq<nat>, now: int)
    requires Distinct(rows) && Holds(rows, before) && forall i :: 0 <= i < |rows| ==> rows[i].kind != Version
    requires forall i :: i in interrupted ==> 0 <= i < |rows| && ErrorKey in before[i] && before[i][ErrorKey].Text?
    requires Increasing(interrupted)
    modifies rows
    ensures forall i :: 0 <= i < |rows| ==>
              rows[i].body == if i in interrupted then Annotated(before[i], now) else before[i]
  {
    for k := 0 to |interrupted|
      invariant forall i :: 0 <= i < |rows| ==>
                  rows[i].body == if i in interrupted[..k] then Annotated(before[i], now) else before[i]
    {
      assert interrupted[k] in interrupted && interrupted[k] !in interrupted[..k];
      var row := rows[interrupted[k]];
      assert interrupted[..k + 1] == interrupted[..k] + [interrupted[k]];
      var r := row.Update(map[ErrorKey := Text(row.body[ErrorKey].text + CLEANUP_NEEDED)], now);
    }
    assert interrupted[..|interrupted|] == interrupted;
  }

  /** Closing is an update the store accepts: a legal transition to error. */
  lemma RecoveryIsLegal(kind: Kind, body: Body, now: int)
    requires kind in {Run, Recording} && HasStatus(body) && Interruptible(kind, StatusOf(body))
    ensures Updated(kind, body, Interruption(kind, now), now) == Success(Recovered(kind, body, now))
    ensures StatusOf(Recovered(kind, body, now)) == Error
  {
    assert CheckTransition(kind, StatusOf(body), Error);
  }
}
