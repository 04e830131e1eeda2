/** Runs: frozen inputs, the locked sections that change a row, and the code of both. */
module Runs {
  import opened Domain
  import opened Store

  /** Redaction of a status word by the secrets of an environment, and the semaphore's size. */
  datatype Config = Config(redactWord: (string, Status) -> Value, maxRuns: nat)

  /** Redaction either leaves a status word alone or turns it into text with a marker in it, which is no
      status word; the semaphore has at least one slot. */
  ghost predicate ValidConfig(cfg: Config) {
    && cfg.maxRuns > 0
    && forall env, word :: cfg.redactWord(env, word) == Word(word) || cfg.redactWord(env, word).Text?
  }

  /** No secret of the environment occurs inside the word. */
  predicate Clean(cfg: Config, env: string, word: Status) {
    cfg.redactWord(env, word) == Word(word)
  }

  /** The keys that describe what a run executes. */
  const FROZEN: set<Field> := {Versions, EnvironmentSnapshot, EncryptedEnvironment, RoleName, Retries, TimeoutMs}

  function Frozen(body: Body): Body {
    map key | key in body && key in FROZEN :: body[key]
  }

  datatype Inputs = Inputs(versions: seq<Body>, snapshot: string, env: string, role: Value, retries: int, timeoutMs: int)

  function Unstarted(): Body {
    map[StatusKey := Word(Queued), VerificationKey := Text("pending"), SummaryKey := Tally(NOTHING_RAN), StartedAt := Null,
        FinishedAt := Null, ErrorKey := Null]
  }

  function Created(id: nat, now: int): Body {
    map[Id := Num(id), CreatedAt := Num(now), UpdatedAt := Num(now)]
  }

  function NewRun(id: nat, inputs: Inputs, now: int): Body {
    map[Versions := Bodies(inputs.versions), EnvironmentSnapshot := Text(inputs.snapshot),
        EncryptedEnvironment := Text(inputs.env), RoleName := inputs.role, Retries := Num(inputs.retries),
        TimeoutMs := Num(inputs.timeoutMs)]
    + Unstarted() + Created(id, now)
  }

  /** `rerun`: everything but the identity is copied, the lifecycle keys start over. */
  function RerunBody(id: nat, original: Body, of: nat, now: int): Body {
    (original - {Id, CreatedAt, UpdatedAt}) + Unstarted() + map[RerunOf := Num(of)] + Created(id, now)
  }

  predicate Shaped(body: Body) {
    HasStatus(body) && FROZEN <= body.Keys && body[EncryptedEnvironment].Text?
  }

  function EnvOf(body: Body): string
    requires Shaped(body)
  {
    body[EncryptedEnvironment].text
  }

  /** What the runtime reports; all but the status stand for their redacted values. */
  datatype RunResult = RunResult(status: Status, verification: string, summary: Value, error: Value)

  /** What `execute` reports when the runtime or the task itself raised. */
  function FailedResult(message: Value): RunResult {
    RunResult(Error, "pending", Tally(NOTHING_RAN), message)
  }

  // ---- the locked sections as functions of the row ----

  function BeginSection(body: Body, now: int): Option<Result<Body, StoreError>>
    requires Shaped(body)
  {
    if StatusOf(body) in TERMINAL_RUNS then None
    else Some(Updated(Run, body, map[StatusKey := Word(Running), StartedAt := Num(now)], now))
  }

  function CancelSection(body: Body, now: int): Option<Result<Body, StoreError>>
    requires Shaped(body)
  {
    if StatusOf(body) in TERMINAL_RUNS then None
    else Some(Updated(Run, body, map[StatusKey := Word(Cancelled), FinishedAt := Num(now)], now))
  }

  /** `word` is the result's status after redaction; a cancelled row overrides it. */
  function FinishSection(body: Body, word: Value, result: RunResult, now: int): Result<Body, StoreError>
    requires Shaped(body)
  {
    var status := if StatusOf(body) == Cancelled then Word(Cancelled) else word;
    Updated(Run, body, map[StatusKey := status, VerificationKey := Text(result.verification), SummaryKey := result.summary,
                           ErrorKey := result.error, FinishedAt := Num(now)], now)
  }

  // ---- the same sections as code on the locked row ----

  method BeginExecution(row: Resource, now: int) returns (execute: bool)
    requires row.kind == Run && Shaped(row.body)
    modifies row
    ensures match BeginSection(old(row.body), now)
            case None => !execute && row.body == old(row.body)
            case Some(Success(merged)) => execute && row.body == merged
            case Some(Failure(_)) => !execute && row.body == old(row.body)
  {
    if StatusOf(row.body) in TERMINAL_RUNS {
      return false;
    }
    var r := row.Update(map[StatusKey := Word(Running), StartedAt := Num(now)], now);
    return r.Success?;
  }

  method CancelRun(row: Resource, now: int) returns (cancelled: bool)
    requires row.kind == Run && Shaped(row.body)
    modifies row
    ensures match CancelSection(old(row.body), now)
            case None => !cancelled && row.body == old(row.body)
            case Some(Success(merged)) => cancelled && row.body == merged
            case Some(Failure(_)) => !cancelled && row.body == old(row.body)
  {
    cancelled := false;
    if StatusOf(row.body) !in TERMINAL_RUNS {
      var r := row.Update(map[StatusKey := Word(Cancelled), FinishedAt := Num(now)], now);
      cancelled := r.Success?;
    }
  }

  method FinishRun(row: Resource, word: Value, result: RunResult, now: int) returns (raised: bool)
    requires row.kind == Run && Shaped(row.body)
    modifies row
    ensures match FinishSection(old(row.body), word, result, now)
            case Success(merged) => !raised && row.body == merged
            case Failure(_) => raised && row.body == old(row.body)
  {
    var status := word;
    if StatusOf(row.body) == Cancelled {
      status := Word(Cancelled);
    }
    var r := row.Update(map[StatusKey := status, VerificationKey := Text(result.verification), SummaryKey := result.summary,
                            ErrorKey := result.error, FinishedAt := Num(now)], now);
    raised := r.Failure?;
  }

  // ---- the snapshots of a new run ----

  /** A scenario as `create_run` reads it, and the version table by id. */
  datatype ScenarioRow = ScenarioRow(id: nat, current: Option<nat>)
  datatype VersionRow = VersionRow(parent: nat, body: Body)
  datatype CreateError = EmptyGroup | MissingVersion | NotFound

  /** The version one scenario contributes: the requested one, else its current one. */
  function Snapshot(scenario: ScenarioRow, requested: Option<nat>, versions: map<nat, VersionRow>): Result<Body, CreateError> {
    var chosen := if requested.Some? then requested else scenario.current;
    if chosen.None? then Failure(MissingVersion)
    else if chosen.value !in versions || versions[chosen.value].parent != scenario.id then Failure(NotFound)
    else Success(versions[chosen.value].body)
  }

  /** The loop of `create_run`: one snapshot a scenario in their order, or the error of the first scenario
      that has none. */
  method CollectSnapshots(scenarios: seq<ScenarioRow>, requested: Option<nat>, versions: map<nat, VersionRow>)
    returns (r: Result<seq<Body>, CreateError>)
    ensures r.Success? <==> scenarios != [] && forall i :: 0 <= i < |scenarios| ==> Snapshot(scenarios[i], requested, versions).Success?
    ensures r.Success? ==> |r.value| == |scenarios|
    ensures r.Success? ==>
              forall i :: 0 <= i < |scenarios| ==> Success(r.value[i]) == Snapshot(scenarios[i], requested, versions)
    ensures scenarios == [] ==> r == Failure(EmptyGroup)
    ensures scenarios != [] && r.Failure? ==>
              exists i :: 0 <= i < |scenarios| && Snapshot(scenarios[i], requested, versions) == Failure(r.error) &&
                forall j :: 0 <= j < i ==> Snapshot(scenarios[j], requested, versions).Success?
  {
    if scenarios == [] {
      return Failure(EmptyGroup);
    }
    var snapshots: seq<Body> := [];
    for i := 0 to |scenarios|
      invariant |snapshots| == i
      invariant forall j :: 0 <= j < i ==> Success(snapshots[j]) == Snapshot(scenarios[j], requested, versions)
    {
      var chosen := if requested.Some? then requested else scenarios[i].current;
      if chosen.None? {
        assert Snapshot(scenarios[i], requested, versions) == Failure(MissingVersion);
        return Failure(MissingVersion);
      }
      if chosen.value !in versions || versions[chosen.value].parent != scenarios[i].id {
        assert Snapshot(scenarios[i], requested, versions) == Failure(NotFound);
        return Failure(NotFound);
      }
      snapshots := snapshots + [versions[chosen.value].body];
    }
    return Success(snapshots);
  }

  // ---- what the sections do to a row ----

  lemma OverlayKeepsTheInputs(body: Body, changes: Body)
    requires forall key :: key in FROZEN ==> key !in changes
    ensures Frozen(body + changes) == Frozen(body)
  {
    var merged := Frozen(body + changes);
    assert forall key :: key in merged <==> key in Frozen(body);
    assert forall key :: key in merged ==> merged[key] == Frozen(body)[key];
  }

  lemma MergeKeepsTheInputs(body: Body, changes: Body, now: int)
    requires forall key :: key in FROZEN ==> key !in changes
    ensures Frozen(Merge(body, changes, now)) == Frozen(body)
  {
    OverlayKeepsTheInputs(body, changes);
    OverlayKeepsTheInputs(body + changes, map[UpdatedAt := Num(now)]);
  }

  lemma BeginKeepsTheInputs(body: Body, now: int)
    requires Shaped(body) && BeginSection(body, now).Some? && BeginSection(body, now).value.Success?
    ensures Frozen(BeginSection(body, now).value.value) == Frozen(body)
  {
    MergeKeepsTheInputs(body, map[StatusKey := Word(Running), StartedAt := Num(now)], now);
  }

  lemma CancelKeepsTheInputs(body: Body, now: int)
    requires Shaped(body) && CancelSection(body, now).Some? && CancelSection(body, now).value.Success?
    ensures Frozen(CancelSection(body, now).value.value) == Frozen(body)
  {
    MergeKeepsTheInputs(body, map[StatusKey := Word(Cancelled), FinishedAt := Num(now)], now);
  }

  lemma FinishKeepsTheInputs(body: Body, word: Value, result: RunResult, now: int)
    requires Shaped(body) && FinishSection(body, word, result, now).Success?
    ensures Frozen(FinishSection(body, word, result, now).value) == Frozen(body)
  {
    var status := if StatusOf(body) == Cancelled then Word(Cancelled) else word;
    MergeKeepsTheInputs(body, map[StatusKey := status, VerificationKey := Text(result.verification),
                                  SummaryKey := result.summary, ErrorKey := result.error, FinishedAt := Num(now)], now);
  }

  lemma RerunCopiesTheInputs(id: nat, original: Body, of: nat, now: int)
    ensures Frozen(RerunBody(id, original, of, now)) == Frozen(original)
  {
    var kept := original - {Id, CreatedAt, UpdatedAt};
    assert Frozen(kept) == Frozen(original);
    OverlayKeepsTheInputs(kept, Unstarted());
    OverlayKeepsTheInputs(kept + Unstarted(), map[RerunOf := Num(of)]);
    OverlayKeepsTheInputs(kept + Unstarted() + map[RerunOf := Num(of)], Created(id, now));
  }

  // ---- what the sections write ----

  /** A run that has not ended begins to run now. */
  lemma BeginWrites(body: Body, now: int)
    requires Shaped(body)
    ensures StatusOf(body) in {Passed, Failed, Cancelled, TimedOut, Error} ==> BeginSection(body, now).None?
    ensures StatusOf(body) in {Queued, Running} ==>
              var section := BeginSection(body, now);
              && section.Some? && section.value.Success?
              && var after := section.value.value;
              && StatusKey in after && StartedAt in after && after[StatusKey] == Word(Running) && after[StartedAt] == Num(now)
              && OnlyChanges(body, after, {StatusKey, StartedAt})
  {
    hide Updated, OnlyChanges;
    if StatusOf(body) in {Queued, Running} {
      var changes: Body := map[StatusKey := Word(Running), StartedAt := Num(now)];
      assert changes.Keys == {StatusKey, StartedAt} && CheckTransition(Run, StatusOf(body), Running);
      hide Shaped, CheckTransition;
      UpdateWrites(Run, body, changes, now);
    }
  }

  /** A run that has not ended is cancelled now, queued or running alike. */
  lemma CancelWrites(body: Body, now: int)
    requires Shaped(body)
    ensures StatusOf(body) in {Passed, Failed, Cancelled, TimedOut, Error} ==> CancelSection(body, now).None?
    ensures StatusOf(body) in {Queued, Running} ==>
              var section := CancelSection(body, now);
              && section.Some? && section.value.Success?
              && var after := section.value.value;
              && StatusKey in after && FinishedAt in after && after[StatusKey] == Word(Cancelled) && after[FinishedAt] == Num(now)
              && OnlyChanges(body, after, {StatusKey, FinishedAt})
  {
    hide Updated, OnlyChanges;
    if StatusOf(body) in {Queued, Running} {
      var changes: Body := map[StatusKey := Word(Cancelled), FinishedAt := Num(now)];
      assert changes.Keys == {StatusKey, FinishedAt} && CheckTransition(Run, StatusOf(body), Cancelled);
      hide Shaped, CheckTransition;
      UpdateWrites(Run, body, changes, now);
    }
  }

  /** The row has this status and the other four keys of the result. */
  predicate Reports(before: Body, after: Body, status: Status, result: RunResult, now: int) {
    && StatusKey in after && VerificationKey in after && SummaryKey in after && ErrorKey in after && FinishedAt in after
    && after[StatusKey] == Word(status) && after[VerificationKey] == Text(result.verification)
    && after[SummaryKey] == result.summary && after[ErrorKey] == result.error && after[FinishedAt] == Num(now)
    && OnlyChanges(before, after, {StatusKey, VerificationKey, SummaryKey, ErrorKey, FinishedAt})
  }

  /** A finish reports the result: under the status of the row if that was cancelled, under the redacted word if
      it is one that may follow, and not at all if redaction left no status word. */
  lemma FinishWrites(body: Body, word: Value, result: RunResult, now: int)
    requires Shaped(body) && StatusOf(body) in {Queued, Running, Cancelled}
    ensures var section := FinishSection(body, word, result, now);
            && (StatusOf(body) == Cancelled ==> section.Success? && Reports(body, section.value, Cancelled, result, now))
            && (StatusOf(body) != Cancelled && word.Word? && word.status in (if StatusOf(body) == Running then TERMINAL_RUNS else {Error}) ==>
                  section.Success? && Reports(body, section.value, word.status, result, now))
            && (StatusOf(body) != Cancelled && !word.Word? ==> section.Failure?)
  {
    var status := if StatusOf(body) == Cancelled then Word(Cancelled) else word;
    var changes: Body := map[StatusKey := status, VerificationKey := Text(result.verification), SummaryKey := result.summary,
                             ErrorKey := result.error, FinishedAt := Num(now)];
    assert changes.Keys == {StatusKey, VerificationKey, SummaryKey, ErrorKey, FinishedAt};
    if status.Word? && CheckTransition(Run, StatusOf(body), status.status) {
      hide Updated, OnlyChanges;
      UpdateWrites(Run, body, changes, now);
    }
  }

  /** Identity and lifecycle of a run that nobody has executed yet. */
  predicate StartsOver(body: Body, id: nat, now: int) {
    && StatusKey in body && VerificationKey in body && SummaryKey in body && StartedAt in body && FinishedAt in body
    && ErrorKey in body && Id in body && CreatedAt in body
    && body[StatusKey] == Word(Queued) && body[VerificationKey] == Text("pending") && body[StartedAt] == Null
    && body[SummaryKey] == Tally(Summary(0, 0, 0, 0, 0, 0)) && body[FinishedAt] == Null && body[ErrorKey] == Null
    && body[Id] == Num(id) && body[CreatedAt] == Num(now)
  }

  lemma FreshFieldsStartOver(rest: Body, more: Body, id: nat, now: int)
    requires more.Keys <= {RerunOf}
    ensures StartsOver(rest + Unstarted() + more + Created(id, now), id, now)
  {
    var body := rest + Unstarted() + more + Created(id, now);
    assert body[StatusKey] == Unstarted()[StatusKey] && body[VerificationKey] == Unstarted()[VerificationKey];
    assert body[SummaryKey] == Unstarted()[SummaryKey] && body[StartedAt] == Unstarted()[StartedAt];
    assert body[FinishedAt] == Unstarted()[FinishedAt] && body[ErrorKey] == Unstarted()[ErrorKey];
  }

  lemma NewRunStartsOver(id: nat, inputs: Inputs, now: int)
    ensures StartsOver(NewRun(id, inputs, now), id, now)
  {
    hide StartsOver, Unstarted, Created;
    var frozen: Body := map[Versions := Bodies(inputs.versions), EnvironmentSnapshot := Text(inputs.snapshot),
                            EncryptedEnvironment := Text(inputs.env), RoleName := inputs.role, Retries := Num(inputs.retries),
                            TimeoutMs := Num(inputs.timeoutMs)];
    FreshFieldsStartOver(frozen, map[], id, now);
    assert frozen + Unstarted() + map[] == frozen + Unstarted();
  }

  lemma LifecycleKeys(id: nat, now: int)
    ensures Unstarted().Keys == {StatusKey, VerificationKey, SummaryKey, StartedAt, FinishedAt, ErrorKey}
    ensures Created(id, now).Keys == {Id, CreatedAt, UpdatedAt}
  {
  }

  /** A new run starts over and holds its inputs. */
  lemma NewRunHolds(id: nat, inputs: Inputs, now: int)
    ensures var body := NewRun(id, inputs, now);
            && StartsOver(body, id, now)
            && Versions in body && body[Versions] == Bodies(inputs.versions)
            && EnvironmentSnapshot in body && body[EnvironmentSnapshot] == Text(inputs.snapshot)
            && EncryptedEnvironment in body && body[EncryptedEnvironment] == Text(inputs.env)
            && RoleName in body && body[RoleName] == inputs.role
            && Retries in body && body[Retries] == Num(inputs.retries)
            && TimeoutMs in body && body[TimeoutMs] == Num(inputs.timeoutMs)
  {
    hide StartsOver, Created, Unstarted;
    NewRunStartsOver(id, inputs, now);
    LifecycleKeys(id, now);
  }

  /** A rerun starts over, names its original, and copies everything else. */
  lemma RerunHolds(id: nat, original: Body, of: nat, now: int)
    ensures var body := RerunBody(id, original, of, now);
            && StartsOver(body, id, now) && RerunOf in body && body[RerunOf] == Num(of)
            && forall key :: key !in {StatusKey, VerificationKey, SummaryKey, StartedAt, FinishedAt, ErrorKey, Id, CreatedAt,
                                      UpdatedAt, RerunOf} ==>
                 (key in body <==> key in original) && (key in original ==> body[key] == original[key])
  {
    FreshFieldsStartOver(original - {Id, CreatedAt, UpdatedAt}, map[RerunOf := Num(of)], id, now);
    hide StartsOver;
  }

  /** A requested version is taken, even if the scenario has a current one, and only from that scenario. */
  lemma RequestedVersionWins(scenario: ScenarioRow, requested: Option<nat>, versions: map<nat, VersionRow>)
    ensures var snapshot := Snapshot(scenario, requested, versions);
            && (requested.Some? ==>
                  snapshot == if requested.value in versions && versions[requested.value].parent == scenario.id
                              then Success(versions[requested.value].body) else Failure(NotFound))
            && (requested.None? && scenario.current.None? ==> snapshot == Failure(MissingVersion))
            && (requested.None? && scenario.current.Some? ==> snapshot == Snapshot(scenario, scenario.current, versions))
  {
  }
}
