/** Numbering the versions of one scenario. Version creations, saves of recordings and scenario patches
    interleave on the scenario row; each keeps a cached copy of it between statements. Any caller may also try
    to update a version row. */
module ScenarioVersions {
  import opened Domain
  import opened Store

  /** A row of kind version; `body` is what the run snapshots copy. */
  datatype VersionRow = VersionRow(id: string, number: nat, body: Body)

  /** The highest number, or none: `select max(version_number)`. */
  function MaxNumber(versions: seq<VersionRow>): nat {
    if versions == [] then 0
    else
      var last := versions[|versions| - 1].number;
      var rest := MaxNumber(versions[..|versions| - 1]);
      if rest < last then last else rest
  }

  /** The stored body: the caller's content, then the keys the service decides. */
  function VersionBody(content: Body, id: string, scenario: string, number: nat, user: string, now: int): Body {
    content + map[ScenarioId := Text(scenario), NumberKey := Num(number), CreatedBy := Text(user)]
            + map[Id := Text(id), CreatedAt := Num(now), UpdatedAt := Num(now)]
  }

  /** The scenario with its versions as the service's session changes them in place. */
  class ScenarioStore {
    const scenario: Resource
    var versions: seq<VersionRow>

    constructor (scenario: Resource)
      requires scenario.kind == Scenario
      ensures this.scenario == scenario && versions == []
    {
      this.scenario := scenario;
      versions := [];
    }

    /** `add_version`; the caller holds the scenario's lock. */
    method AddVersion(id: string, scenarioId: string, content: Body, user: string, now: int) returns (version: VersionRow)
      requires scenario.kind == Scenario
      modifies this, scenario
      ensures version == VersionRow(id, old(MaxNumber(versions)) + 1,
                                    VersionBody(content, id, scenarioId, old(MaxNumber(versions)) + 1, user, now))
      ensures versions == old(versions) + [version]
      ensures scenario.body == Merge(old(scenario.body), map[CurrentVersionId := Text(id)], now)
    {
      var number := 0;
      var i := 0;
      while i < |versions|
        invariant 0 <= i <= |versions| && versions == old(versions) && scenario.body == old(scenario.body)
        invariant number == MaxNumber(versions[..i])
      {
        if number < versions[i].number {
          number := versions[i].number;
        }
        assert versions[..i + 1][..i] == versions[..i];
        i := i + 1;
      }
      assert versions[..i] == versions;
      version := VersionRow(id, number + 1, VersionBody(content, id, scenarioId, number + 1, user, now));
      versions := versions + [version];
      var r := scenario.Update(map[CurrentVersionId := Text(id)], now);
    }
  }

  // ---- the interleaving ----

  /** A session's cached scenario body and, once read, the number it will give. Both survive a commit. */
  datatype Local = Local(copy: Body, number: Option<nat>)

  datatype Sys = Sys(scenario: Body, versions: seq<VersionRow>, holder: Option<nat>, locals: map<nat, Local>)

  datatype Action =
    | Lock(pid: nat)
    | Release(pid: nat)                   // finish_recording's commit between the two locks of a save
    | ReadMax(pid: nat)
    | CommitVersion(pid: nat, id: string, scenarioId: string, content: Body, user: string, now: int)
    | CommitPatch(pid: nat, changes: Body, now: int)
    | ChangeVersion(i: nat, changes: Body, now: int)    // any attempt to update a version row

  /** A patch may name any key the request schema has; the current version is not one of them. */
  predicate PatchKeys(changes: Body) {
    changes.Keys <= {Name, Description, GroupId}
  }

  function Start(scenario: Body): Sys {
    Sys(scenario, [], None, map[])
  }

  predicate Fresh(versions: seq<VersionRow>, id: string) {
    forall i :: 0 <= i < |versions| ==> versions[i].id != id
  }

  function Step(s: Sys, a: Action): Sys {
    match a
    case Lock(pid) =>
      if s.holder.None? then s.(holder := Some(pid), locals := s.locals[pid := Local(s.scenario, None)]) else s
    case Release(pid) =>
      if s.holder == Some(pid) then s.(holder := None) else s
    case ReadMax(pid) =>
      if s.holder == Some(pid) && pid in s.locals then
        s.(locals := s.locals[pid := s.locals[pid].(number := Some(MaxNumber(s.versions)))])
      else s
    case CommitVersion(pid, id, scenarioId, content, user, now) =>
      if s.holder == Some(pid) && pid in s.locals && s.locals[pid].number.Some? && Fresh(s.versions, id) then
        var number := s.locals[pid].number.value + 1;
        Sys(Merge(s.locals[pid].copy, map[CurrentVersionId := Text(id)], now),
            s.versions + [VersionRow(id, number, VersionBody(content, id, scenarioId, number, user, now))],
            None, s.locals)
      else s
    case CommitPatch(pid, changes, now) =>
      if s.holder == Some(pid) && pid in s.locals && PatchKeys(changes) then
        s.(scenario := Merge(s.locals[pid].copy, changes, now), holder := None)
      else s
    case ChangeVersion(i, changes, now) =>
      if i >= |s.versions| then s
      else (
        match Updated(Version, s.versions[i].body, changes, now)
        case Success(merged) => s.(versions := s.versions[i := s.versions[i].(body := merged)])
        case Failure(_) => s
      )
  }

  function Exec(s: Sys, run: seq<Action>): Sys
    decreases |run|
  {
    if run == [] then s else Exec(Step(s, run[0]), run[1..])
  }

  ghost predicate Numbered(versions: seq<VersionRow>) {
    forall i :: 0 <= i < |versions| ==> versions[i].number == i + 1
  }

  /** No two versions share an id, so `currentVersionId` names one version. */
  ghost predicate DistinctIds(versions: seq<VersionRow>) {
    forall i, j :: 0 <= i < j < |versions| ==> versions[i].id != versions[j].id
  }

  ghost predicate PointsAtLast(scenario: Body, versions: seq<VersionRow>) {
    versions != [] ==>
      CurrentVersionId in scenario && scenario[CurrentVersionId] == Text(versions[|versions| - 1].id)
  }

  ghost predicate Inv(s: Sys) {
    && Numbered(s.versions) && DistinctIds(s.versions) && PointsAtLast(s.scenario, s.versions)
    && (s.holder.Some? ==>
          && s.holder.value in s.locals
          && s.locals[s.holder.value].copy == s.scenario
          && (s.locals[s.holder.value].number.Some? ==> s.locals[s.holder.value].number.value == |s.versions|))
  }

  lemma {:induction false} MaxIsLength(versions: seq<VersionRow>)
    requires Numbered(versions)
    ensures MaxNumber(versions) == |versions|
  {
    if versions != [] {
      MaxIsLength(versions[..|versions| - 1]);
    }
  }

  lemma StepKeepsInv(s: Sys, a: Action)
    requires Inv(s)
    ensures Inv(Step(s, a)) && s.versions <= Step(s, a).versions
  {
    MaxIsLength(s.versions);
  }

  lemma {:induction false} ExecKeepsInv(s: Sys, run: seq<Action>)
    requires Inv(s)
    ensures Inv(Exec(s, run)) && s.versions <= Exec(s, run).versions
    decreases |run|
  {
    if run != [] {
      StepKeepsInv(s, run[0]);
      ExecKeepsInv(Step(s, run[0]), run[1..]);
    }
  }

  // ---- main results ----

  /** In every reachable state the committed numbers are exactly 1 to n, in order, the ids are distinct and
      the scenario points at version n. */
  lemma VersionsAreGapless(scenario: Body, run: seq<Action>)
    ensures var end := Exec(Start(scenario), run);
            Numbered(end.versions) && DistinctIds(end.versions) && PointsAtLast(end.scenario, end.versions)
  {
    ExecKeepsInv(Start(scenario), run);
  }

  /** Whatever follows, the versions of a reachable state stay where they are with the bodies they have. */
  lemma VersionsNeverChange(scenario: Body, run: seq<Action>, more: seq<Action>, i: nat)
    requires i < |Exec(Start(scenario), run).versions|
    ensures var end := Exec(Start(scenario), run + more);
            i < |end.versions| && end.versions[i] == Exec(Start(scenario), run).versions[i]
  {
    ExecKeepsInv(Start(scenario), run);
    ExecConcat(Start(scenario), run, more);
    ExecKeepsInv(Exec(Start(scenario), run), more);
  }

  lemma {:induction false} ExecConcat(s: Sys, run: seq<Action>, more: seq<Action>)
    ensures Exec(s, run + more) == Exec(Exec(s, run), more)
    decreases |run|
  {
    if run == [] {
      assert run + more == more;
    } else {
      assert (run + more)[1..] == run[1..] + more;
      ExecConcat(Step(s, run[0]), run[1..], more);
    }
  }

  /** The second half of a save, after its second lock: however stale the copy the saver kept from its
      first lock, every key of the committed scenario survives except the version the save sets as current. */
  lemma SaveKeepsWhatSlippedIn(s: Sys, saver: nat, id: string, content: Body, now: int)
    requires s.holder.None? && Fresh(s.versions, id)
    ensures var after := Step(Step(Step(s, Lock(saver)), ReadMax(saver)), CommitVersion(saver, id, "", content, "", now));
            && |after.versions| == |s.versions| + 1
            && after.scenario == Merge(s.scenario, map[CurrentVersionId := Text(id)], now)
  {
    var locked := Step(s, Lock(saver));
    assert locked.locals[saver] == Local(s.scenario, None);
    var numbered := Step(locked, ReadMax(saver));
    assert numbered.locals[saver] == Local(s.scenario, Some(MaxNumber(s.versions)));
  }

  // ---- what the writes leave alone ----

  /** A version holds the content it was given, under the number, scenario, user and identity of its creation. */
  lemma ContentSurvives(content: Body, id: string, scenario: string, number: nat, user: string, now: int)
    ensures var body := VersionBody(content, id, scenario, number, user, now);
            && OnlyChanges(content, body, {ScenarioId, NumberKey, CreatedBy, Id, CreatedAt})
            && {ScenarioId, NumberKey, CreatedBy, Id, CreatedAt} <= body.Keys
            && body[ScenarioId] == Text(scenario) && body[NumberKey] == Num(number) && body[CreatedBy] == Text(user)
            && body[Id] == Text(id) && body[CreatedAt] == Num(now)
  {
    var body := VersionBody(content, id, scenario, number, user, now);
    assert body.Keys == content.Keys + {ScenarioId, NumberKey, CreatedBy} + {Id, CreatedAt, UpdatedAt};
  }

  /** Whoever asks for a free scenario gets its lock and its committed body, and nobody else does meanwhile. */
  lemma LocksAreExclusive(s: Sys, pid: nat)
    ensures Step(s, Lock(pid)) ==
            if s.holder.None? then s.(holder := Some(pid), locals := s.locals[pid := Local(s.scenario, None)]) else s
  {
  }

  /** The holder reads the number of the latest version, and may let the scenario go without a write. */
  lemma HoldersReadAndRelease(s: Sys, pid: nat)
    requires Inv(s) && s.holder == Some(pid)
    ensures pid in s.locals
    ensures Step(s, ReadMax(pid)) == s.(locals := s.locals[pid := s.locals[pid].(number := Some(|s.versions|))])
    ensures Step(s, Release(pid)) == s.(holder := None)
  {
    MaxIsLength(s.versions);
  }

  lemma VersionCommits(s: Sys, pid: nat, id: string, scenarioId: string, content: Body, user: string, now: int)
    requires Inv(s) && s.holder == Some(pid) && pid in s.locals && s.locals[pid].number.Some? && Fresh(s.versions, id)
    ensures var after := Step(s, CommitVersion(pid, id, scenarioId, content, user, now));
            && after.holder.None? && after.scenario == Merge(s.scenario, map[CurrentVersionId := Text(id)], now)
            && after.versions == s.versions + [VersionRow(id, |s.versions| + 1,
                                                         VersionBody(content, id, scenarioId, |s.versions| + 1, user, now))]
  {
    hide Merge, VersionBody, Numbered, DistinctIds, PointsAtLast;
  }

  lemma PatchCommits(s: Sys, pid: nat, changes: Body, now: int)
    requires Inv(s) && s.holder == Some(pid) && pid in s.locals && changes.Keys <= {Name, Description, GroupId}
    ensures var after := Step(s, CommitPatch(pid, changes, now));
            after.holder.None? && after.scenario == Merge(s.scenario, changes, now) && after.versions == s.versions
  {
    hide Merge, Numbered, DistinctIds, PointsAtLast;
  }

  /** In every reachable state the holder's version is committed as the next one and becomes current, and its
      patch changes what it names; either way every other key of the scenario stays and the lock is released. */
  lemma HoldersCommit(scenario: Body, run: seq<Action>, pid: nat, id: string, scenarioId: string, content: Body, user: string,
                      changes: Body, now: int)
    requires var s := Exec(Start(scenario), run);
             s.holder == Some(pid) && pid in s.locals && s.locals[pid].number.Some? && Fresh(s.versions, id) && changes.Keys <= {Name, Description, GroupId}
    ensures var s := Exec(Start(scenario), run);
            var versioned := Step(s, CommitVersion(pid, id, scenarioId, content, user, now));
            var patched := Step(s, CommitPatch(pid, changes, now));
            && versioned.holder.None? && patched.holder.None? && patched.versions == s.versions
            && versioned.versions == s.versions + [VersionRow(id, |s.versions| + 1,
                                                             VersionBody(content, id, scenarioId, |s.versions| + 1, user, now))]
            && OnlyChanges(s.scenario, versioned.scenario, {CurrentVersionId})
            && CurrentVersionId in versioned.scenario && versioned.scenario[CurrentVersionId] == Text(id)
            && OnlyChanges(s.scenario, patched.scenario, changes.Keys)
            && (forall key :: key in changes ==> key in patched.scenario && patched.scenario[key] == changes[key])
  {
    hide Merge, OnlyChanges, Exec, Step, Inv, VersionBody, Fresh;
    ExecKeepsInv(Start(scenario), run);
    var s := Exec(Start(scenario), run);
    var current: Body := map[CurrentVersionId := Text(id)];
    VersionCommits(s, pid, id, scenarioId, content, user, now);
    PatchCommits(s, pid, changes, now);
    MergeWritesTheChanges(s.scenario, current, now);
    MergeWritesTheChanges(s.scenario, changes, now);
    assert current.Keys == {CurrentVersionId};
  }
}
