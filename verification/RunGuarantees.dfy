/** The promises about runs, over every interleaving of creations, executions, cancels, reruns and restarts. */
module RunGuarantees {
  import opened Collections
  import opened Domain
  import opened Store
  import opened Runs
  import opened RunProtocol

  /** A run commits at most one finish, one cancellation and one interruption event of its own; tasks never
      hold more slots than there are; and only a status word with a secret in it makes the store refuse a
      finish. Relayed events are the runtime's words and are not counted. */
  lemma RunSafety(cfg: Config, run: seq<Action>)
    requires ValidConfig(cfg)
    ensures var end := Reach(cfg, run);
            && |Holders(end.runs)| <= cfg.maxRuns
            && forall id :: id in end.runs ==>
                 var r := end.runs[id];
                 && Shaped(r.body)
                 && multiset(r.log)[RunFinished] <= 1 && multiset(r.log)[RunCancelled] <= 1 && multiset(r.log)[RunError] <= 1
                 && ((forall word :: word in TERMINAL_RUNS ==> Clean(cfg, EnvOf(r.body), word)) ==> !r.refused)
                 && (r.task.Over? && Clean(cfg, EnvOf(r.body), Error) ==> StatusOf(r.body) in TERMINAL_RUNS)
  {
    ReachKeepsInv(cfg, run);
    var end := Reach(cfg, run);
    forall id | id in end.runs ensures RunOk(cfg, end.runs[id]) {
    }
  }

  /** One step moves every run forward: same inputs and original, a longer log, and a terminal status for good. */
  ghost predicate Forward(s: Sys, after: Sys, id: nat) {
    && id in s.runs && id in after.runs
    && SameOrigin(s.runs[id].body, after.runs[id].body)
    && s.runs[id].log <= after.runs[id].log
    && (HasStatus(s.runs[id].body) && StatusOf(s.runs[id].body) in TERMINAL_RUNS ==>
          HasStatus(after.runs[id].body) && StatusOf(after.runs[id].body) == StatusOf(s.runs[id].body))
  }

  lemma StepForward(cfg: Config, s: Sys, a: Action, id: nat)
    requires Inv(cfg, s) && ValidConfig(cfg) && id in s.runs
    ensures Forward(s, Step(cfg, s, a), id)
  {
    if a.Restart? {
      RestartForward(cfg, s, a.now, a.cleanupFails, id);
    } else if Addressed(a) && a.id == id {
      ReactForward(cfg, s, a);
    } else {
      OthersForward(cfg, s, a, id);
    }
  }

  lemma RestartForward(cfg: Config, s: Sys, now: int, cleanupFails: bool, id: nat)
    requires id in s.runs && RunOk(cfg, s.runs[id])
    ensures Forward(s, Step(cfg, s, Restart(now, cleanupFails)), id)
  {
    InterruptedOk(cfg, s.runs[id], now, cleanupFails);
  }

  lemma ReactForward(cfg: Config, s: Sys, a: Action)
    requires Addressed(a) && a.id in s.runs && RunOk(cfg, s.runs[a.id]) && ValidConfig(cfg)
    ensures Forward(s, Step(cfg, s, a), a.id)
  {
    ReactOk(cfg, s.runs[a.id], a);
  }

  lemma OthersForward(cfg: Config, s: Sys, a: Action, id: nat)
    requires id in s.runs && !a.Restart? && !(Addressed(a) && a.id == id)
    ensures Forward(s, Step(cfg, s, a), id)
  {
  }

  lemma {:induction false} ExecForward(cfg: Config, s: Sys, run: seq<Action>, id: nat)
    requires Inv(cfg, s) && ValidConfig(cfg) && id in s.runs
    ensures Forward(s, Exec(cfg, s, run), id)
    decreases |run|
  {
    if run != [] {
      StepForward(cfg, s, run[0], id);
      StepKeepsInv(cfg, s, run[0]);
      ExecForward(cfg, Step(cfg, s, run[0]), run[1..], id);
    }
  }

  /** Terminal statuses absorb, and the inputs of a run never change after its creation. */
  lemma TerminalAndInputsAreFinal(cfg: Config, run: seq<Action>, more: seq<Action>, id: nat)
    requires ValidConfig(cfg) && id in Reach(cfg, run).runs
    ensures Forward(Reach(cfg, run), Reach(cfg, run + more), id)
  {
    ReachKeepsInv(cfg, run);
    ExecConcat(cfg, INITIAL, run, more);
    ExecForward(cfg, Reach(cfg, run), more, id);
  }

  /** Once a cancellation committed the run is cancelled whatever the runtime returns afterwards. */
  lemma CancelWins(cfg: Config, run: seq<Action>, more: seq<Action>, id: nat)
    requires ValidConfig(cfg) && id in Reach(cfg, run).runs && RunCancelled in Reach(cfg, run).runs[id].log
    ensures var end := Reach(cfg, run + more);
            && id in end.runs && HasStatus(end.runs[id].body) && StatusOf(end.runs[id].body) == Cancelled
            && multiset(end.runs[id].log)[RunCancelled] == 1
  {
    TerminalAndInputsAreFinal(cfg, run, more, id);
    ReachKeepsInv(cfg, run + more);
    var end := Reach(cfg, run + more);
    assert RunOk(cfg, end.runs[id]);
    var log := Reach(cfg, run).runs[id].log;
    var i :| 0 <= i < |log| && log[i] == RunCancelled;
    assert end.runs[id].log[i] == RunCancelled;
    assert RunCancelled in multiset(end.runs[id].log);
  }

  /** The inputs, key by key. */
  lemma SameInputs(body: Body, after: Body)
    requires Shaped(body) && SameOrigin(body, after)
    ensures forall key :: key in {Versions, EnvironmentSnapshot, EncryptedEnvironment, RoleName, Retries, TimeoutMs} ==>
              key in body && key in after && after[key] == body[key]
  {
    forall key | key in {Versions, EnvironmentSnapshot, EncryptedEnvironment, RoleName, Retries, TimeoutMs}
      ensures key in body && key in after && after[key] == body[key] {
      assert key in FROZEN && key in Frozen(body);
      assert key in Frozen(after) && Frozen(after)[key] == Frozen(body)[key];
    }
  }

  // ---- rerun chains ----

  /** Each run of the path is a rerun of the one before it. */
  ghost predicate RerunChain(s: Sys, path: seq<nat>) {
    && (forall i :: 0 <= i < |path| ==> path[i] in s.runs)
    && (forall i :: 0 < i < |path| ==> RerunOf in s.runs[path[i]].body && s.runs[path[i]].body[RerunOf] == Num(path[i - 1]))
  }

  lemma {:induction false} ChainKeepsInputs(cfg: Config, s: Sys, path: seq<nat>, i: nat)
    requires Inv(cfg, s) && RerunChain(s, path) && i < |path|
    ensures Frozen(s.runs[path[i]].body) == Frozen(s.runs[path[0]].body)
  {
    if i > 0 {
      ChainKeepsInputs(cfg, s, path, i - 1);
      assert OriginOk(s.runs, s.runs[path[i]].body);
    }
  }

  /** Every member of a rerun chain executes exactly what its root was created with, however long the chain
      is and whatever happened to scenarios, environments and the earlier runs in between. */
  lemma RerunsRepeatTheRoot(cfg: Config, created: seq<Action>, more: seq<Action>, path: seq<nat>, i: nat)
    requires ValidConfig(cfg) && RerunChain(Reach(cfg, created + more), path) && i < |path|
    requires path[0] in Reach(cfg, created).runs
    ensures Frozen(Reach(cfg, created + more).runs[path[i]].body) == Frozen(Reach(cfg, created).runs[path[0]].body)
  {
    ReachKeepsInv(cfg, created + more);
    ChainKeepsInputs(cfg, Reach(cfg, created + more), path, i);
    TerminalAndInputsAreFinal(cfg, created, more, path[0]);
  }

  // ---- the bound on rows that are running ----

  ghost predicate ErrorWordSurvives(cfg: Config) {
    forall env :: Clean(cfg, env, Error)
  }

  lemma RunningHoldSlots(cfg: Config, s: Sys)
    requires Inv(cfg, s) && ErrorWordSurvives(cfg)
    ensures |RunningOf(s.runs)| <= cfg.maxRuns
  {
    forall id | id in RunningOf(s.runs) ensures id in Holders(s.runs) {
      assert RunOk(cfg, s.runs[id]);
    }
    SubsetSize(RunningOf(s.runs), Holders(s.runs));
  }

  /** A run whose failure report is refused: it stays in `running` although its task is over. */
  ghost predicate Stuck(s: Sys, n: nat) {
    && s.procs == map[]
    && (forall id :: id in s.runs <==> 0 <= id < n)
    && (forall id :: id in s.runs ==>
          s.runs[id].task.Over? && HasStatus(s.runs[id].body) && StatusOf(s.runs[id].body) == Running)
  }

  function FailingRun(id: nat, env: string): seq<Action> {
    [Creates(id, Inputs([], "", env, Null, 0, 0), 0), Admits(id), Begins(id, 0), Raises(id, true), FallsBack(id, 0)]
  }

  function FailingRuns(n: nat, env: string): seq<Action> {
    if n == 0 then [] else FailingRuns(n - 1, env) + FailingRun(n - 1, env)
  }

  lemma BegunBody(body: Body, now: int)
    requires Shaped(body) && StatusOf(body) == Queued
    ensures var section := BeginSection(body, now);
            && section.Some? && section.value.Success? && Shaped(section.value.value)
            && StatusOf(section.value.value) == Running && EnvOf(section.value.value) == EnvOf(body)
  {
    BeginKeepsTheInputs(body, now);
    FrozenKeepsEnv(body, BeginSection(body, now).value.value);
  }

  /** A row that is not cancelled refuses a redacted status. */
  lemma RefusedSection(body: Body, word: Value, result: RunResult, now: int)
    requires Shaped(body) && StatusOf(body) != Cancelled && word.Text?
    ensures FinishSection(body, word, result, now).Failure?
  {
  }

  /** A failing run on its own: admitted, running, raised, and its report refused. */
  lemma FailingRow(cfg: Config, id: nat, body: Body, env: string)
    requires Shaped(body) && StatusOf(body) == Queued && EnvOf(body) == env
    requires ValidConfig(cfg) && !Clean(cfg, env, Error)
    ensures var r1 := Fresh(body).(task := Admitted);
            var r2 := React(cfg, r1, Begins(id, 0));
            && Shaped(r2.body)
            && var r3 := React(cfg, r2, Raises(id, true));
            && Shaped(r3.body)
            && var r4 := React(cfg, r3, FallsBack(id, 0));
            && r4.task.Over? && HasStatus(r4.body) && StatusOf(r4.body) == Running
  {
    hide BeginSection, FinishSection, CancelSection, Shaped, EnvOf;
    BegunBody(body, 0);
    var begun := BeginSection(body, 0).value.value;
    var r2 := React(cfg, Fresh(body).(task := Admitted), Begins(id, 0));
    assert r2.task == Executing && r2.body == begun;
    assert cfg.redactWord(env, Error).Text?;
    RefusedSection(begun, cfg.redactWord(env, Error), FailedResult(Null), 0);
  }

  lemma StepReacts(cfg: Config, runs: map<nat, RunState>, procs: map<nat, Proc>, id: nat, r: RunState, a: Action)
    requires Addressed(a) && a.id == id && Shaped(r.body)
    ensures Step(cfg, Sys(runs[id := r], procs), a) == Sys(runs[id := React(cfg, r, a)], procs)
  {
  }

  lemma FailingRunSticks(cfg: Config, s: Sys, n: nat, env: string)
    requires ValidConfig(cfg) && Stuck(s, n) && !Clean(cfg, env, Error)
    ensures Stuck(Exec(cfg, s, FailingRun(n, env)), n + 1)
  {
    hide React, Step, Stuck, NewRun, Shaped, EnvOf, StatusOf;
    var body := NewRun(n, Inputs([], "", env, Null, 0, 0), 0);
    NewRunShape(n, Inputs([], "", env, Null, 0, 0), 0);
    FailingRow(cfg, n, body, env);
    var r1 := Fresh(body).(task := Admitted);
    var r2 := React(cfg, r1, Begins(n, 0));
    var r3 := React(cfg, r2, Raises(n, true));
    var r4 := React(cfg, r3, FallsBack(n, 0));
    var s1 := AdmittedNext(cfg, s, n, env);
    StepReacts(cfg, s.runs, s.procs, n, r1, Begins(n, 0));
    StepReacts(cfg, s.runs, s.procs, n, r2, Raises(n, true));
    StepReacts(cfg, s.runs, s.procs, n, r3, FallsBack(n, 0));
    FiveSteps(cfg, s, FailingRun(n, env));
    StuckGrows(s, n, r4);
  }

  lemma StuckGrows(s: Sys, n: nat, r: RunState)
    requires Stuck(s, n) && r.task.Over? && HasStatus(r.body) && StatusOf(r.body) == Running
    ensures Stuck(Sys(s.runs[n := r], s.procs), n + 1)
  {
  }

  lemma AdmittedNext(cfg: Config, s: Sys, n: nat, env: string) returns (s1: Sys)
    requires ValidConfig(cfg) && Stuck(s, n)
    ensures s1 == Step(cfg, Step(cfg, s, Creates(n, Inputs([], "", env, Null, 0, 0), 0)), Admits(n))
    ensures s1 == Sys(s.runs[n := Fresh(NewRun(n, Inputs([], "", env, Null, 0, 0), 0)).(task := Admitted)], s.procs)
  {
    var s0 := Step(cfg, s, Creates(n, Inputs([], "", env, Null, 0, 0), 0));
    assert Holders(s0.runs) == {};
    s1 := Step(cfg, s0, Admits(n));
  }

  lemma FiveSteps(cfg: Config, s: Sys, run: seq<Action>)
    requires |run| == 5
    ensures Exec(cfg, s, run) == Step(cfg, Step(cfg, Step(cfg, Step(cfg, Step(cfg, s, run[0]), run[1]), run[2]), run[3]), run[4])
  {
    var s2 := Step(cfg, Step(cfg, s, run[0]), run[1]);
    var s4 := Step(cfg, Step(cfg, s2, run[2]), run[3]);
    assert run[1..][1..] == run[2..] && run[2..][1..] == run[3..] && run[3..][1..] == run[4..] && run[4..][1..] == [];
    assert Exec(cfg, s, run) == Exec(cfg, s2, run[2..]);
    assert Exec(cfg, s2, run[2..]) == Exec(cfg, s4, run[4..]);
    assert Exec(cfg, s4, run[4..]) == Exec(cfg, Step(cfg, s4, run[4]), []);
  }

  lemma {:induction false} FailingRunsStick(cfg: Config, n: nat, env: string)
    requires ValidConfig(cfg) && !Clean(cfg, env, Error)
    ensures Stuck(Reach(cfg, FailingRuns(n, env)), n)
  {
    if n > 0 {
      hide Step, Stuck, FailingRun;
      FailingRunsStick(cfg, n - 1, env);
      ExecConcat(cfg, INITIAL, FailingRuns(n - 1, env), FailingRun(n - 1, env));
      FailingRunSticks(cfg, Reach(cfg, FailingRuns(n - 1, env)), n - 1, env);
    }
  }

  // ---- when a finish is refused ----

  ghost predicate TerminalWordsSurvive(cfg: Config) {
    forall env, word :: word in TERMINAL_RUNS ==> Clean(cfg, env, word)
  }

  ghost predicate NothingRefused(s: Sys) {
    forall id :: id in s.runs ==> !s.runs[id].refused
  }

  function RefusedRun(env: string, word: Status): seq<Action> {
    [Creates(0, Inputs([], "", env, Null, 0, 0), 0), Admits(0), Begins(0, 0), Returns(0, RunResult(word, "", Null, Null)),
     Finishes(0, 0)]
  }

  /** A run that returns a status word with a secret in it. */
  lemma RefusedRow(cfg: Config, body: Body, env: string, word: Status)
    requires Shaped(body) && StatusOf(body) == Queued && EnvOf(body) == env
    requires ValidConfig(cfg) && word in TERMINAL_RUNS && !Clean(cfg, env, word)
    ensures var r1 := Fresh(body).(task := Admitted);
            var r2 := React(cfg, r1, Begins(0, 0));
            && Shaped(r2.body)
            && var r3 := React(cfg, r2, Returns(0, RunResult(word, "", Null, Null)));
            && Shaped(r3.body)
            && React(cfg, r3, Finishes(0, 0)).refused
  {
    BegunBody(body, 0);
    var begun := BeginSection(body, 0).value.value;
    var r2 := React(cfg, Fresh(body).(task := Admitted), Begins(0, 0));
    assert r2.task == Executing && r2.body == begun;
    RefusedSection(begun, cfg.redactWord(env, word), RunResult(word, "", Null, Null), 0);
    hide BeginSection, FinishSection, Shaped, EnvOf;
  }

  lemma RefusedRunIsRefused(cfg: Config, env: string, word: Status)
    requires ValidConfig(cfg) && word in TERMINAL_RUNS && !Clean(cfg, env, word)
    ensures var end := Reach(cfg, RefusedRun(env, word)); 0 in end.runs && end.runs[0].refused
  {
    assert Stuck(INITIAL, 0);
    hide React, Step, Stuck, NewRun, Shaped, EnvOf, StatusOf;
    var body := NewRun(0, Inputs([], "", env, Null, 0, 0), 0);
    NewRunShape(0, Inputs([], "", env, Null, 0, 0), 0);
    RefusedRow(cfg, body, env, word);
    var r1 := Fresh(body).(task := Admitted);
    var r2 := React(cfg, r1, Begins(0, 0));
    var r3 := React(cfg, r2, Returns(0, RunResult(word, "", Null, Null)));
    var s1 := AdmittedNext(cfg, INITIAL, 0, env);
    StepReacts(cfg, INITIAL.runs, INITIAL.procs, 0, r1, Begins(0, 0));
    StepReacts(cfg, INITIAL.runs, INITIAL.procs, 0, r2, Returns(0, RunResult(word, "", Null, Null)));
    StepReacts(cfg, INITIAL.runs, INITIAL.procs, 0, r3, Finishes(0, 0));
    FiveSteps(cfg, INITIAL, RefusedRun(env, word));
  }

  /** Over all runs of the system the store never refuses a finish if and only if no environment holds a secret
      that occurs inside a terminal status word. */
  lemma RefusedForStatusWords(cfg: Config)
    requires ValidConfig(cfg)
    ensures (forall run :: NothingRefused(Reach(cfg, run))) <==> TerminalWordsSurvive(cfg)
  {
    if TerminalWordsSurvive(cfg) {
      forall run ensures NothingRefused(Reach(cfg, run)) {
        RunSafety(cfg, run);
      }
    } else {
      var env, word :| word in TERMINAL_RUNS && !Clean(cfg, env, word);
      RefusedRunIsRefused(cfg, env, word);
      assert !NothingRefused(Reach(cfg, RefusedRun(env, word)));
    }
  }

  // ---- the bound ----

  /** The rows in `running` stay within the semaphore in every reachable state exactly when no environment
      holds a secret that occurs inside the word `error`. */
  lemma RunningBound(cfg: Config)
    requires ValidConfig(cfg)
    ensures (forall run :: |RunningOf(Reach(cfg, run).runs)| <= cfg.maxRuns) <==> ErrorWordSurvives(cfg)
  {
    if ErrorWordSurvives(cfg) {
      forall run ensures |RunningOf(Reach(cfg, run).runs)| <= cfg.maxRuns {
        ReachKeepsInv(cfg, run);
        RunningHoldSlots(cfg, Reach(cfg, run));
      }
    } else {
      var env :| !Clean(cfg, env, Error);
      var n := cfg.maxRuns + 1;
      FailingRunsStick(cfg, n, env);
      var stuck := Reach(cfg, FailingRuns(n, env));
      assert forall id: nat :: id in RunningOf(stuck.runs) <==> id < n;
      IntervalSize(0, n, RunningOf(stuck.runs));
    }
  }
}
