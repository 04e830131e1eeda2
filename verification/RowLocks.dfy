/** Why replacing the whole JSON body loses no update. Any number of database sessions interleave on
    one row; each runs a script of the statements its service issues, with its own cached copy. */
module RowLocks {
  import opened Domain
  import opened Store

  datatype Statement =
    | Read                               // plain select: an already loaded copy is kept
    | Lock                               // select for update with refresh: waits, then re-reads
    | Change(changes: Body, now: int)    // update_resource on the cached copy
    | Commit                             // writes the whole cached body, releases the lock
    | Rollback

  datatype Session = Session(script: seq<Statement>, copy: Option<Body>, locked: bool, pending: seq<(Body, int)>)

  /** `log` holds every change ever committed, oldest first. */
  datatype Row = Row(body: Body, log: seq<(Body, int)>, sessions: seq<Session>)

  function Start(body: Body, scripts: seq<seq<Statement>>): Row {
    Row(body, [], seq(|scripts|, i requires 0 <= i < |scripts| => Session(scripts[i], None, false, [])))
  }

  predicate LockedByOther(row: Row, i: nat) {
    exists j :: 0 <= j < |row.sessions| && j != i && row.sessions[j].locked
  }

  /** Session `i` issues its next statement; a statement that has to wait changes nothing. */
  function Step(row: Row, i: nat): Row {
    if i >= |row.sessions| || |row.sessions[i].script| == 0 then row
    else
      var s := row.sessions[i];
      var next := s.(script := s.script[1..]);
      match s.script[0]
      case Read =>
        row.(sessions := row.sessions[i := next.(copy := if s.copy.None? then Some(row.body) else s.copy)])
      case Lock =>
        if LockedByOther(row, i) then row
        else row.(sessions := row.sessions[i := next.(copy := Some(row.body), locked := true, pending := [])])
      case Change(changes, now) =>
        if s.copy.None? then row
        else row.(sessions := row.sessions[i := next.(copy := Some(Merge(s.copy.value, changes, now)),
                                                      pending := s.pending + [(changes, now)])])
      case Commit =>
        var done := row.sessions[i := next.(locked := false, pending := [])];
        if s.pending == [] || s.copy.None? then row.(sessions := done)
        else if LockedByOther(row, i) then row
        else Row(s.copy.value, row.log + s.pending, done)
      case Rollback =>
        row.(sessions := row.sessions[i := next.(copy := None, locked := false, pending := [])])
  }

  /** The state after the sessions named by `schedule` moved in that order. */
  function Exec(row: Row, schedule: seq<nat>): Row
    decreases |schedule|
  {
    if schedule == [] then row else Exec(Step(row, schedule[0]), schedule[1..])
  }

  /** Every change is preceded, inside its own transaction, by a locking re-read. */
  predicate Disciplined(script: seq<Statement>, locked: bool) {
    if script == [] then true
    else match script[0]
      case Read => Disciplined(script[1..], locked)
      case Lock => Disciplined(script[1..], true)
      case Change(_, _) => locked && Disciplined(script[1..], locked)
      case Commit | Rollback => Disciplined(script[1..], false)
  }

  ghost predicate SessionOk(s: Session, body: Body) {
    && Disciplined(s.script, s.locked)
    && (s.locked ==> s.copy == Some(Fold(body, s.pending)))
    && (!s.locked ==> s.pending == [])
  }

  ghost predicate Inv(initial: Body, row: Row) {
    && row.body == Fold(initial, row.log)
    && (forall i :: 0 <= i < |row.sessions| ==> SessionOk(row.sessions[i], row.body))
    && (forall i, j | 0 <= i < |row.sessions| && 0 <= j < |row.sessions| ::
          row.sessions[i].locked && row.sessions[j].locked ==> i == j)
  }

  lemma {:induction false} FoldAppend(body: Body, first: seq<(Body, int)>, second: seq<(Body, int)>)
    ensures Fold(body, first + second) == Fold(Fold(body, first), second)
    decreases |second|
  {
    if second == [] {
      assert first + second == first;
    } else {
      var n := |second| - 1;
      FoldAppend(body, first, second[..n]);
      assert (first + second)[..|first + second| - 1] == first + second[..n];
    }
  }

  /** One session moves on; the committed body may change only under the mover's lock. */
  lemma ReplaceKeepsInv(initial: Body, row: Row, i: nat, next: Session, body: Body, log: seq<(Body, int)>)
    requires Inv(initial, row) && i < |row.sessions|
    requires SessionOk(next, body) && body == Fold(initial, log)
    requires body == row.body || row.sessions[i].locked
    requires next.locked ==> row.sessions[i].locked || !LockedByOther(row, i)
    ensures Inv(initial, Row(body, log, row.sessions[i := next]))
  {
    var after := row.sessions[i := next];
    forall k | 0 <= k < |after| ensures SessionOk(after[k], body) {
      if k != i {
        assert SessionOk(row.sessions[k], row.body);
      }
    }
  }

  /** A commit that has something to write holds the lock, so its copy is the committed body plus its own
      changes. */
  lemma CommitKeepsInv(initial: Body, row: Row, i: nat)
    requires Inv(initial, row) && i < |row.sessions| && |row.sessions[i].script| > 0 && row.sessions[i].script[0].Commit?
    ensures Inv(initial, Step(row, i))
  {
    hide Merge;
    var s := row.sessions[i];
    var done := s.(script := s.script[1..], locked := false, pending := []);
    assert SessionOk(s, row.body);
    FoldAppend(initial, row.log, s.pending);
    if s.pending == [] || s.copy.None? {
      ReplaceKeepsInv(initial, row, i, done, row.body, row.log);
    } else if !LockedByOther(row, i) {
      ReplaceKeepsInv(initial, row, i, done, s.copy.value, row.log + s.pending);
    }
  }

  lemma StepKeepsInv(initial: Body, row: Row, i: nat)
    requires Inv(initial, row)
    ensures Inv(initial, Step(row, i))
  {
    hide Merge;
    if i < |row.sessions| && |row.sessions[i].script| > 0 {
      var s := row.sessions[i];
      var next := s.(script := s.script[1..]);
      assert SessionOk(s, row.body);
      match s.script[0] {
        case Read =>
          ReplaceKeepsInv(initial, row, i, next.(copy := if s.copy.None? then Some(row.body) else s.copy), row.body, row.log);
        case Lock =>
          if !LockedByOther(row, i) {
            ReplaceKeepsInv(initial, row, i, next.(copy := Some(row.body), locked := true, pending := []), row.body, row.log);
          }
        case Change(changes, now) =>
          var grown := s.pending + [(changes, now)];
          assert grown[..|grown| - 1] == s.pending;
          ReplaceKeepsInv(initial, row, i, next.(copy := Some(Merge(s.copy.value, changes, now)), pending := grown), row.body, row.log);
        case Commit => CommitKeepsInv(initial, row, i);
        case Rollback =>
          ReplaceKeepsInv(initial, row, i, next.(copy := None, locked := false, pending := []), row.body, row.log);
      }
    }
  }

  lemma {:induction false} ExecKeepsInv(initial: Body, row: Row, schedule: seq<nat>)
    requires Inv(initial, row)
    ensures Inv(initial, Exec(row, schedule))
    decreases |schedule|
  {
    if schedule != [] {
      StepKeepsInv(initial, row, schedule[0]);
      ExecKeepsInv(initial, Step(row, schedule[0]), schedule[1..]);
    }
  }

  /** Whatever the interleaving, the committed body is the fold of every committed change, each merged
      into the body committed before it. */
  lemma NoLostUpdate(initial: Body, scripts: seq<seq<Statement>>, schedule: seq<nat>)
    requires forall i :: 0 <= i < |scripts| ==> Disciplined(scripts[i], false)
    ensures var end := Exec(Start(initial, scripts), schedule); end.body == Fold(initial, end.log)
  {
    ExecKeepsInv(initial, Start(initial, scripts), schedule);
  }

  // ---- the scripts of the services ----

  /** Settling a start, publishing a flush, starting, finishing or cancelling a run, any patch. */
  function LockedChange(changes: Body, now: int): seq<Statement> {
    [Lock, Change(changes, now), Commit]
  }

  /** A poll: read, release, ask the controller, re-read under lock, publish. */
  function PollScript(changes: Body, now: int): seq<Statement> {
    [Read, Commit, Lock, Change(changes, now), Commit]
  }

  /** A stop that waits for the start, and the scenario half of a save: lock, release, lock again. */
  function RelockedChange(changes: Body, now: int): seq<Statement> {
    [Lock, Commit, Lock, Change(changes, now), Commit]
  }

  lemma ServiceScriptsAreDisciplined(changes: Body, now: int)
    ensures Disciplined(LockedChange(changes, now), false)
    ensures Disciplined(PollScript(changes, now), false)
    ensures Disciplined(RelockedChange(changes, now), false)
  {
    var end: seq<Statement> := [Commit];
    var tail: seq<Statement> := [Change(changes, now), Commit];
    assert end[1..] == [] && tail[1..] == end;
    assert Disciplined(end, true) && Disciplined(tail, true);
    var locked: seq<Statement> := [Lock] + tail;
    assert locked[1..] == tail && locked == LockedChange(changes, now);
    var released: seq<Statement> := [Commit] + locked;
    assert released[1..] == locked && Disciplined(released, false) && Disciplined(released, true);
    assert PollScript(changes, now)[1..] == released;
    assert RelockedChange(changes, now)[1..] == released;
  }

  /** The save without its second lock: the change is merged into the copy of the first transaction. */
  function StaleChange(changes: Body, now: int): seq<Statement> {
    [Lock, Commit, Change(changes, now), Commit]
  }

  /** The second lock is needed: without it every key a concurrent patch wrote, and the save does not,
      silently returns to its old value. */
  lemma WithoutSecondLockThePatchIsLost(initial: Body, patch: Body, save: Body, key: Field)
    requires key in patch && key !in save && key in initial && key != UpdatedAt && patch[key] != initial[key]
    ensures var end := Exec(Start(initial, [StaleChange(save, 2), LockedChange(patch, 1)]), [0, 0, 1, 1, 1, 0, 0]);
            && end.log == [(patch, 1), (save, 2)]
            && key in end.body && end.body[key] == initial[key]
            && end.body != Fold(initial, end.log)
  {
    var start := Start(initial, [StaleChange(save, 2), LockedChange(patch, 1)]);
    var saver := Session([Change(save, 2), Commit], Some(initial), false, []);
    var merged := Merge(initial, patch, 1);
    var released := Row(initial, [], [saver, Session(LockedChange(patch, 1), None, false, [])]);
    var patched := Row(merged, [(patch, 1)], [saver, Session([], Some(merged), false, [])]);
    SaverReleases(initial, patch, save);
    PatchCommits(initial, patch, saver);
    StaleCopyWins(initial, patched, save);
    assert [0, 0, 1, 1, 1, 0, 0][1..][1..] == [1, 1, 1, 0, 0];
    assert [1, 1, 1, 0, 0][1..][1..][1..] == [0, 0];
    var end := Exec(start, [0, 0, 1, 1, 1, 0, 0]);
    assert end == Exec(released, [1, 1, 1, 0, 0]) == Exec(patched, [0, 0]);
    assert end.log[..1] == [(patch, 1)] && end.log[..1][..0] == [];
    assert Fold(initial, end.log[..1]) == merged;
    assert Fold(initial, end.log) == Merge(merged, save, 2);
  }

  lemma SaverReleases(initial: Body, patch: Body, save: Body)
    ensures Step(Step(Start(initial, [StaleChange(save, 2), LockedChange(patch, 1)]), 0), 0)
         == Row(initial, [], [Session([Change(save, 2), Commit], Some(initial), false, []),
                              Session(LockedChange(patch, 1), None, false, [])])
  {
    var start := Start(initial, [StaleChange(save, 2), LockedChange(patch, 1)]);
    assert start.sessions == [Session(StaleChange(save, 2), None, false, []),
                              Session(LockedChange(patch, 1), None, false, [])];
    assert StaleChange(save, 2)[1..][1..] == [Change(save, 2), Commit];
  }

  lemma PatchCommits(initial: Body, patch: Body, other: Session)
    requires !other.locked
    ensures Step(Step(Step(Row(initial, [], [other, Session(LockedChange(patch, 1), None, false, [])]), 1), 1), 1)
         == Row(Merge(initial, patch, 1), [(patch, 1)], [other, Session([], Some(Merge(initial, patch, 1)), false, [])])
  {
    var merged := Merge(initial, patch, 1);
    var r0 := Row(initial, [], [other, Session(LockedChange(patch, 1), None, false, [])]);
    var r1 := Step(r0, 1);
    assert r1.sessions == [other, Session([Change(patch, 1), Commit], Some(initial), true, [])];
    assert [Change(patch, 1), Commit][1..] == [Commit] && [] + [(patch, 1)] == [(patch, 1)];
    var r2 := Step(r1, 1);
    assert r2.sessions == [other, Session([Commit], Some(merged), true, [(patch, 1)])];
    assert [Commit][1..] == [];
    assert Step(r2, 1).sessions == [other, Session([], Some(merged), false, [])];
  }

  lemma StaleCopyWins(initial: Body, row: Row, save: Body)
    requires |row.sessions| == 2 && !row.sessions[1].locked
    requires row.sessions[0] == Session([Change(save, 2), Commit], Some(initial), false, [])
    ensures var end := Step(Step(row, 0), 0);
            end.body == Merge(initial, save, 2) && end.log == row.log + [(save, 2)]
  {
    assert [Change(save, 2), Commit][1..] == [Commit] && [] + [(save, 2)] == [(save, 2)];
    var next := Step(row, 0);
    assert next.sessions == [Session([Commit], Some(Merge(initial, save, 2)), false, [(save, 2)]), row.sessions[1]];
  }

  // ---- no change vanishes ----

  function ChangesOf(script: seq<Statement>): multiset<(Body, int)> {
    if script == [] then multiset{}
    else (if script[0].Change? then multiset{(script[0].changes, script[0].now)} else multiset{}) + ChangesOf(script[1..])
  }

  /** Nothing is rolled back or read over, and the last change is committed. */
  predicate Thorough(script: seq<Statement>, changed: bool) {
    if script == [] then !changed
    else match script[0]
      case Read => Thorough(script[1..], changed)
      case Lock => !changed && Thorough(script[1..], false)
      case Change(_, _) => Thorough(script[1..], true)
      case Commit => Thorough(script[1..], false)
      case Rollback => false
  }

  /** The changes a session has not committed yet. */
  function Owes(s: Session): multiset<(Body, int)> {
    multiset(s.pending) + ChangesOf(s.script)
  }

  function AllOwed(sessions: seq<Session>): multiset<(Body, int)> {
    if sessions == [] then multiset{} else Owes(sessions[0]) + AllOwed(sessions[1..])
  }

  ghost predicate AllThorough(sessions: seq<Session>) {
    forall i :: 0 <= i < |sessions| ==> Thorough(sessions[i].script, sessions[i].pending != [])
  }

  lemma Regroup<T>(head: multiset<T>, a: multiset<T>, b: multiset<T>, c: multiset<T>, d: multiset<T>)
    requires a + b == c + d
    ensures head + a + b == head + c + d
  {
    assert head + a + b == head + (a + b) && head + c + d == head + (c + d);
  }

  lemma {:induction false} OneSessionMoves(sessions: seq<Session>, i: nat, next: Session)
    requires i < |sessions|
    ensures AllOwed(sessions[i := next]) + Owes(sessions[i]) == AllOwed(sessions) + Owes(next)
  {
    hide Owes;
    var rest := sessions[1..];
    if i == 0 {
      assert sessions[0 := next][1..] == rest;
      assert AllOwed(sessions[0 := next]) == Owes(next) + AllOwed(rest);
    } else {
      assert sessions[i := next][1..] == rest[i - 1 := next];
      OneSessionMoves(rest, i - 1, next);
      assert AllOwed(sessions[i := next]) == Owes(sessions[0]) + AllOwed(rest[i - 1 := next]);
      assert AllOwed(sessions) == Owes(sessions[0]) + AllOwed(rest);
      hide AllOwed;
      Regroup(Owes(sessions[0]), AllOwed(rest[i - 1 := next]), Owes(sessions[i]), AllOwed(rest), Owes(next));
    }
  }

  /** What one statement of one session does to its debt and to the log. */
  predicate Pays(row: Row, after: Row, i: nat)
    requires i < |row.sessions|
  {
    && |after.sessions| == |row.sessions| && after.sessions == row.sessions[i := after.sessions[i]]
    && Thorough(after.sessions[i].script, after.sessions[i].pending != [])
    && multiset(after.log) + Owes(after.sessions[i]) == multiset(row.log) + Owes(row.sessions[i])
  }

  lemma ReadPays(row: Row, i: nat)
    requires i < |row.sessions| && row.sessions[i].script != []
    requires Thorough(row.sessions[i].script, row.sessions[i].pending != [])
    requires row.sessions[i].script[0].Read? || row.sessions[i].script[0].Lock?
    ensures Pays(row, Step(row, i), i)
  {
    hide LockedByOther;
    assert row.sessions[i := row.sessions[i]] == row.sessions;
  }

  lemma ChangePays(row: Row, i: nat)
    requires i < |row.sessions| && row.sessions[i].script != []
    requires Thorough(row.sessions[i].script, row.sessions[i].pending != [])
    requires row.sessions[i].script[0].Change? && row.sessions[i].copy.Some?
    ensures Pays(row, Step(row, i), i)
  {
    hide Merge;
    var s := row.sessions[i];
    var change := (s.script[0].changes, s.script[0].now);
    var next := Step(row, i).sessions[i];
    assert next.pending == s.pending + [change] && multiset(next.pending) == multiset(s.pending) + multiset{change};
    assert ChangesOf(s.script) == multiset{change} + ChangesOf(next.script);
    hide Step, ChangesOf;
    assert Owes(next) == Owes(s);
  }

  lemma CommitPays(row: Row, i: nat)
    requires i < |row.sessions| && row.sessions[i].script != []
    requires Thorough(row.sessions[i].script, row.sessions[i].pending != [])
    requires row.sessions[i].script[0].Commit? && (row.sessions[i].pending != [] ==> row.sessions[i].copy.Some?)
    ensures Pays(row, Step(row, i), i)
  {
    hide LockedByOther;
    var s := row.sessions[i];
    var after := Step(row, i);
    assert row.sessions[i := s] == row.sessions;
    if after != row {
      assert after.log == row.log + s.pending && after.sessions[i].pending == [];
      assert after.sessions[i].script == s.script[1..] && ChangesOf(s.script) == multiset{} + ChangesOf(s.script[1..]);
      assert after.sessions == row.sessions[i := after.sessions[i]];
      hide Step, ChangesOf;
      assert multiset(row.log + s.pending) == multiset(row.log) + multiset(s.pending);
    }
  }

  lemma StatementPays(initial: Body, row: Row, i: nat)
    requires Inv(initial, row) && AllThorough(row.sessions) && i < |row.sessions| && row.sessions[i].script != []
    ensures Pays(row, Step(row, i), i)
  {
    var s := row.sessions[i];
    assert SessionOk(s, row.body) && Thorough(s.script, s.pending != []);
    hide Pays, Step, Inv, AllThorough, Fold;
    match s.script[0] {
      case Read => ReadPays(row, i);
      case Lock => ReadPays(row, i);
      case Change(_, _) => ChangePays(row, i);
      case Commit => CommitPays(row, i);
      case Rollback =>
    }
  }

  lemma Settled<T>(paid: multiset<T>, owes: multiset<T>, log: multiset<T>, owed: multiset<T>, after: multiset<T>, before: multiset<T>)
    requires paid + owes == log + owed && after + owed == before + owes
    ensures paid + after == log + before
  {
    forall x: T ensures (paid + after)[x] == (log + before)[x] {
      assert (paid + owes)[x] == (log + owed)[x] && (after + owed)[x] == (before + owes)[x];
    }
  }

  lemma NothingToDo(row: Row, i: nat)
    requires i >= |row.sessions| || row.sessions[i].script == []
    ensures Step(row, i) == row
  {
  }

  lemma StartOk(initial: Body, scripts: seq<seq<Statement>>)
    requires forall i :: 0 <= i < |scripts| ==> Disciplined(scripts[i], false) && Thorough(scripts[i], false)
    ensures Inv(initial, Start(initial, scripts)) && AllThorough(Start(initial, scripts).sessions)
  {
  }

  lemma {:induction false} DebtsArePaid(initial: Body, row: Row, schedule: seq<nat>)
    requires Inv(initial, row) && AllThorough(row.sessions)
    ensures var end := Exec(row, schedule);
            AllThorough(end.sessions) && multiset(end.log) + AllOwed(end.sessions) == multiset(row.log) + AllOwed(row.sessions)
    decreases |schedule|
  {
    hide Step, Inv, Owes, Thorough;
    if schedule != [] {
      var i := schedule[0];
      var next := Step(row, i);
      StepKeepsInv(initial, row, i);
      if i < |row.sessions| && row.sessions[i].script != [] {
        StatementPays(initial, row, i);
        OneSessionMoves(row.sessions, i, next.sessions[i]);
        Settled(multiset(next.log), Owes(next.sessions[i]), multiset(row.log), Owes(row.sessions[i]),
                AllOwed(next.sessions), AllOwed(row.sessions));
      } else {
        NothingToDo(row, i);
      }
      DebtsArePaid(initial, next, schedule[1..]);
    }
  }

  function AllChanges(scripts: seq<seq<Statement>>): multiset<(Body, int)> {
    if scripts == [] then multiset{} else ChangesOf(scripts[0]) + AllChanges(scripts[1..])
  }

  lemma {:induction false} OwedAtTheStart(sessions: seq<Session>, scripts: seq<seq<Statement>>)
    requires |sessions| == |scripts|
    requires forall i :: 0 <= i < |scripts| ==> sessions[i].script == scripts[i] && sessions[i].pending == []
    ensures AllOwed(sessions) == AllChanges(scripts)
  {
    if sessions != [] {
      OwedAtTheStart(sessions[1..], scripts[1..]);
    }
  }

  lemma {:induction false} NothingOwed(sessions: seq<Session>)
    requires AllThorough(sessions) && forall i :: 0 <= i < |sessions| ==> sessions[i].script == []
    ensures AllOwed(sessions) == multiset{}
  {
    if sessions != [] {
      assert Thorough(sessions[0].script, sessions[0].pending != []);
      assert forall i :: 0 <= i < |sessions[1..]| ==> sessions[1..][i] == sessions[i + 1];
      NothingOwed(sessions[1..]);
    }
  }

  /** Whatever the interleaving, once all sessions are through, the log holds every change of every script, each as
      often as the scripts do; with `NoLostUpdate`, the body is all of them merged one into the other. */
  lemma NoChangeVanishes(initial: Body, scripts: seq<seq<Statement>>, schedule: seq<nat>)
    requires forall i :: 0 <= i < |scripts| ==> Disciplined(scripts[i], false) && Thorough(scripts[i], false)
    requires var end := Exec(Start(initial, scripts), schedule);
             forall i :: 0 <= i < |end.sessions| ==> end.sessions[i].script == []
    ensures multiset(Exec(Start(initial, scripts), schedule).log) == AllChanges(scripts)
  {
    var start := Start(initial, scripts);
    StartOk(initial, scripts);
    var end := Exec(start, schedule);
    hide Inv, AllThorough, Exec, Step, AllOwed, AllChanges;
    DebtsArePaid(initial, start, schedule);
    OwedAtTheStart(start.sessions, scripts);
    NothingOwed(end.sessions);
    assert start.log == [];
    assert multiset(end.log) + multiset{} == multiset(end.log);
    assert multiset(start.log) + AllChanges(scripts) == AllChanges(scripts);
  }

  lemma ServiceScriptsAreThorough(changes: Body, now: int)
    ensures Thorough(LockedChange(changes, now), false) && ChangesOf(LockedChange(changes, now)) == multiset{(changes, now)}
    ensures Thorough(PollScript(changes, now), false) && ChangesOf(PollScript(changes, now)) == multiset{(changes, now)}
    ensures Thorough(RelockedChange(changes, now), false) && ChangesOf(RelockedChange(changes, now)) == multiset{(changes, now)}
  {
    var end: seq<Statement> := [Commit];
    var tail: seq<Statement> := [Change(changes, now), Commit];
    assert end[1..] == [] && tail[1..] == end;
    assert ChangesOf(end) == multiset{} + ChangesOf(end[1..]) == multiset{};
    assert ChangesOf(tail) == multiset{(changes, now)} + ChangesOf(end) == multiset{(changes, now)};
    assert Thorough(end, true) && Thorough(tail, false);
    var locked: seq<Statement> := [Lock] + tail;
    assert locked[1..] == tail && locked == LockedChange(changes, now);
    var released: seq<Statement> := [Commit] + locked;
    assert ChangesOf(locked) == multiset{} + ChangesOf(tail) == multiset{(changes, now)};
    assert released[1..] == locked && Thorough(locked, false) && Thorough(released, false);
    assert ChangesOf(released) == multiset{} + ChangesOf(locked) == multiset{(changes, now)};
    assert PollScript(changes, now)[1..] == released;
    assert RelockedChange(changes, now)[1..] == released;
  }
}
