/** Scheduling and races of runs: one execution task a run, a semaphore, any number of cancel and rerun
    requests, and process restarts. */
module RunProtocol {
  import opened Collections
  import opened Domain
  import opened Store
  import opened Runs
  import Recovery

  /** Where the execution task stands. It holds a semaphore slot from `Admitted` until it is over. */
  datatype Task =
    | Waiting
    | Admitted
    | Executing
    | Finishing(result: RunResult)
    | FallingBack(known: bool)    // an exception; `known` tells whether the secrets were known by then
    | Over

  /** What the service itself writes to the event table, and what it relays from the runtime, whose
      `type` is any text. */
  datatype Event = RunQueued | RunFinished | RunCancelled | RunError | Relayed(eventType: string)

  /** `refused` records whether the store ever refused a finish. */
  datatype RunState = RunState(body: Body, log: seq<Event>, task: Task, refused: bool)

  /** A rerun request that has read its original and released it. */
  datatype Proc = Rerunning(of: nat, copy: Body)

  datatype Sys = Sys(runs: map<nat, RunState>, procs: map<nat, Proc>)

  datatype Action =
    | Creates(id: nat, inputs: Inputs, now: int)
    | RerunReads(pid: nat, of: nat)
    | RerunCommits(pid: nat, id: nat, now: int)
    | Cancels(id: nat, now: int)
    | Admits(id: nat)
    | Begins(id: nat, now: int)
    | Emits(id: nat, eventType: string)
    | Returns(id: nat, result: RunResult)
    | Raises(id: nat, known: bool)
    | Finishes(id: nat, now: int)
    | FallsBack(id: nat, now: int)
    | Restart(now: int, cleanupFails: bool)

  const INITIAL := Sys(map[], map[])

  predicate Holding(task: Task) {
    task.Admitted? || task.Executing? || task.Finishing? || task.FallingBack?
  }

  function Holders(runs: map<nat, RunState>): set<nat> {
    set id | id in runs && Holding(runs[id].task)
  }

  function RunningOf(runs: map<nat, RunState>): set<nat> {
    set id | id in runs && HasStatus(runs[id].body) && StatusOf(runs[id].body) == Running
  }

  /** The finish transaction: one update and one event, or nothing and another attempt. */
  function Close(r: RunState, word: Value, result: RunResult, now: int, otherwise: Task): RunState
    requires Shaped(r.body)
  {
    match FinishSection(r.body, word, result, now)
    case Success(merged) => r.(body := merged, log := r.log + [RunFinished], task := Over)
    case Failure(_) => r.(task := otherwise, refused := true)
  }

  function Interrupted(r: RunState, now: int, cleanupFails: bool): RunState {
    if !HasStatus(r.body) then r
    else RunState(Recovery.AfterRecovery(Run, r.body, now, cleanupFails),
                  if Recovery.Active(Run, r.body) then r.log + [RunError] else r.log, Over, r.refused)
  }

  /** One run's reaction to an action addressed to it. */
  function React(cfg: Config, r: RunState, a: Action): RunState
    requires Shaped(r.body)
  {
    match a
    case Cancels(_, now) => (
      match CancelSection(r.body, now)
      case Some(Success(merged)) => r.(body := merged, log := r.log + [RunCancelled])
      case _ => r
    )
    case Begins(_, now) =>
      if !r.task.Admitted? then r
      else (
        match BeginSection(r.body, now)
        case None => r.(task := Over)
        case Some(Success(merged)) => r.(body := merged, task := Executing)
        case Some(Failure(_)) => r.(task := FallingBack(false), refused := true)
      )
    case Emits(_, eventType) => if r.task.Executing? then r.(log := r.log + [Relayed(eventType)]) else r
    case Returns(_, result) =>
      if !r.task.Executing? then r
      else if result.status in TERMINAL_RUNS then r.(task := Finishing(result))
      else r.(task := FallingBack(true))
    case Raises(_, known) =>
      if r.task.Executing? then r.(task := FallingBack(known))
      else if r.task.Admitted? then r.(task := FallingBack(false))
      else r
    case Finishes(_, now) =>
      if r.task.Finishing? then
        Close(r, cfg.redactWord(EnvOf(r.body), r.task.result.status), r.task.result, now, FallingBack(true))
      else r
    case FallsBack(_, now) =>
      if r.task.FallingBack? then
        Close(r, if r.task.known then cfg.redactWord(EnvOf(r.body), Error) else Word(Error), FailedResult(Null), now, Over)
      else r
    case _ => r
  }

  function Fresh(body: Body): RunState {
    RunState(body, [RunQueued], Waiting, false)
  }

  /** One atomic step; an action that is not possible changes nothing. */
  function Step(cfg: Config, s: Sys, a: Action): Sys {
    match a
    case Creates(id, inputs, now) =>
      if id in s.runs then s else s.(runs := s.runs[id := Fresh(NewRun(id, inputs, now))])
    case RerunReads(pid, of) =>
      if pid in s.procs || of !in s.runs then s else s.(procs := s.procs[pid := Rerunning(of, s.runs[of].body)])
    case RerunCommits(pid, id, now) =>
      if pid !in s.procs || id in s.runs then s
      else Sys(s.runs[id := Fresh(RerunBody(id, s.procs[pid].copy, s.procs[pid].of, now))], s.procs - {pid})
    case Admits(id) =>
      if id in s.runs && s.runs[id].task.Waiting? && |Holders(s.runs)| < cfg.maxRuns then
        s.(runs := s.runs[id := s.runs[id].(task := Admitted)])
      else s
    case Restart(now, cleanupFails) =>
      Sys(map id | id in s.runs :: Interrupted(s.runs[id], now, cleanupFails), map[])
    case _ =>
      if a.id in s.runs && Shaped(s.runs[a.id].body) then s.(runs := s.runs[a.id := React(cfg, s.runs[a.id], a)]) else s
  }

  function Exec(cfg: Config, s: Sys, run: seq<Action>): Sys
    decreases |run|
  {
    if run == [] then s else Exec(cfg, Step(cfg, s, run[0]), run[1..])
  }

  function Reach(cfg: Config, run: seq<Action>): Sys {
    Exec(cfg, INITIAL, run)
  }

  // ---- what every step keeps ----

  predicate StageOk(cfg: Config, env: string, task: Task, status: Status) {
    match task
    case Waiting | Admitted => status in {Queued, Cancelled}
    case Executing => status in {Running, Cancelled}
    case Finishing(result) => status in {Running, Cancelled} && result.status in TERMINAL_RUNS
    case FallingBack(known) => status in {Running, Cancelled} || (status == Queued && !known)
    case Over => status in TERMINAL_RUNS || (status == Running && !Clean(cfg, env, Error))
  }

  ghost predicate LogOk(log: seq<Event>, task: Task, status: Status) {
    && multiset(log)[RunFinished] <= (if task.Over? then 1 else 0)
    && multiset(log)[RunCancelled] <= 1
    && (multiset(log)[RunCancelled] == 1 ==> status == Cancelled)
    && (status == Cancelled && !task.Over? ==> multiset(log)[RunCancelled] == 1)
    && multiset(log)[RunError] <= 1
    && (multiset(log)[RunError] == 1 ==> status == Error && task.Over?)
  }

  ghost predicate RunOk(cfg: Config, r: RunState) {
    && Shaped(r.body)
    && StageOk(cfg, EnvOf(r.body), r.task, StatusOf(r.body))
    && LogOk(r.log, r.task, StatusOf(r.body))
    && (r.refused ==> exists word :: word in TERMINAL_RUNS && !Clean(cfg, EnvOf(r.body), word))
  }

  /** The same inputs, and the same original if it is a rerun. */
  predicate SameOrigin(body: Body, after: Body) {
    && Frozen(after) == Frozen(body)
    && (RerunOf in after <==> RerunOf in body)
    && (RerunOf in body ==> after[RerunOf] == body[RerunOf])
  }

  ghost predicate Advances(r: RunState, after: RunState) {
    && SameOrigin(r.body, after.body) && r.log <= after.log
    && (Holding(after.task) ==> Holding(r.task))
    && (HasStatus(r.body) && StatusOf(r.body) in TERMINAL_RUNS ==> HasStatus(after.body) && StatusOf(after.body) == StatusOf(r.body))
  }

  ghost predicate OriginOk(runs: map<nat, RunState>, body: Body) {
    RerunOf in body ==>
      && body[RerunOf].Num? && 0 <= body[RerunOf].n && body[RerunOf].n in runs
      && Frozen(body) == Frozen(runs[body[RerunOf].n].body)
  }

  ghost predicate Inv(cfg: Config, s: Sys) {
    && (forall id :: id in s.runs ==> RunOk(cfg, s.runs[id]))
    && |Holders(s.runs)| <= cfg.maxRuns
    && (forall id :: id in s.runs ==> OriginOk(s.runs, s.runs[id].body))
    && (forall pid :: pid in s.procs ==>
          s.procs[pid].of in s.runs && Shaped(s.procs[pid].copy) && Frozen(s.procs[pid].copy) == Frozen(s.runs[s.procs[pid].of].body))
  }

  lemma RunsMove(cfg: Config, s: Sys, after: map<nat, RunState>)
    requires Inv(cfg, s) && after.Keys == s.runs.Keys && |Holders(after)| <= cfg.maxRuns
    requires forall id :: id in s.runs ==> RunOk(cfg, after[id]) && SameOrigin(s.runs[id].body, after[id].body)
    ensures Inv(cfg, s.(runs := after))
  {
    forall id | id in after ensures OriginOk(after, after[id].body) {
      assert OriginOk(s.runs, s.runs[id].body);
    }
  }

  lemma RunsAdvance(cfg: Config, s: Sys, after: map<nat, RunState>)
    requires Inv(cfg, s) && after.Keys == s.runs.Keys
    requires forall id :: id in s.runs ==> RunOk(cfg, after[id]) && Advances(s.runs[id], after[id])
    ensures Inv(cfg, s.(runs := after))
  {
    SubsetSize(Holders(after), Holders(s.runs));
    RunsMove(cfg, s, after);
  }

  lemma RunAdvances(cfg: Config, s: Sys, id: nat, r: RunState)
    requires Inv(cfg, s) && id in s.runs && RunOk(cfg, r) && Advances(s.runs[id], r)
    ensures Inv(cfg, s.(runs := s.runs[id := r]))
  {
    var after := s.runs[id := r];
    forall i | i in s.runs ensures RunOk(cfg, after[i]) && Advances(s.runs[i], after[i]) {
      assert RunOk(cfg, s.runs[i]);
    }
    RunsAdvance(cfg, s, after);
  }

  lemma Restarted(cfg: Config, s: Sys, after: map<nat, RunState>, now: int, cleanupFails: bool)
    requires Inv(cfg, s) && after.Keys == s.runs.Keys
    requires forall id :: id in s.runs ==> after[id] == Interrupted(s.runs[id], now, cleanupFails)
    ensures Inv(cfg, Sys(after, map[]))
  {
    forall id | id in s.runs ensures RunOk(cfg, after[id]) && Advances(s.runs[id], after[id]) {
      InterruptedOk(cfg, s.runs[id], now, cleanupFails);
    }
    RunsAdvance(cfg, s, after);
  }

  lemma InterruptedOk(cfg: Config, r: RunState, now: int, cleanupFails: bool)
    requires RunOk(cfg, r)
    ensures RunOk(cfg, Interrupted(r, now, cleanupFails)) && Advances(r, Interrupted(r, now, cleanupFails))
  {
    if Recovery.Active(Run, r.body) {
      InterruptedBody(r.body, now, cleanupFails);
      hide Shaped, Recovery.AfterRecovery, Frozen, EnvOf;
    }
  }

  /** Closed as an error, with or without the note about the clean-up. */
  lemma InterruptedBody(body: Body, now: int, cleanupFails: bool)
    requires Shaped(body) && Recovery.Active(Run, body)
    ensures var after := Recovery.AfterRecovery(Run, body, now, cleanupFails);
            Shaped(after) && StatusOf(after) == Error && EnvOf(after) == EnvOf(body) && SameOrigin(body, after)
  {
    var closed := Recovery.Recovered(Run, body, now);
    MergeKeepsTheInputs(body, Recovery.Interruption(Run, now), now);
    FrozenKeepsEnv(body, closed);
    if cleanupFails {
      Recovery.ClosedRowsNameTheirError(Run, body, now);
      NotedBody(closed, now);
    }
  }

  lemma NotedBody(closed: Body, now: int)
    requires Shaped(closed) && ErrorKey in closed && closed[ErrorKey].Text?
    ensures var after := Recovery.Annotated(closed, now);
            && Shaped(after) && StatusOf(after) == StatusOf(closed) && EnvOf(after) == EnvOf(closed)
            && SameOrigin(closed, after)
  {
    MergeKeepsTheInputs(closed, map[ErrorKey := Text(closed[ErrorKey].text + Recovery.CLEANUP_NEEDED)], now);
    FrozenKeepsEnv(closed, Recovery.Annotated(closed, now));
  }

  lemma FrozenKeepsEnv(body: Body, after: Body)
    requires Shaped(body) && Frozen(after) == Frozen(body)
    ensures FROZEN <= after.Keys && after[EncryptedEnvironment] == body[EncryptedEnvironment]
  {
    assert forall key :: key in FROZEN ==> key in Frozen(body);
    assert EncryptedEnvironment in Frozen(after);
    assert Frozen(after)[EncryptedEnvironment] == Frozen(body)[EncryptedEnvironment];
  }

  /** A finish that the store accepts writes the redacted word, unless the row was cancelled. */
  lemma FinishedBody(body: Body, word: Value, result: RunResult, now: int)
    requires Shaped(body) && FinishSection(body, word, result, now).Success?
    ensures var after := FinishSection(body, word, result, now).value;
            && Shaped(after) && EnvOf(after) == EnvOf(body) && SameOrigin(body, after)
            && body[StatusKey].status == StatusOf(body)
            && (StatusOf(body) == Cancelled ==> StatusOf(after) == Cancelled)
            && (StatusOf(body) != Cancelled ==> word == Word(StatusOf(after)))
  {
    var after := FinishSection(body, word, result, now).value;
    FinishKeepsTheInputs(body, word, result, now);
    FrozenKeepsEnv(body, after);
  }

  lemma CloseOk(cfg: Config, r: RunState, clean: Status, word: Value, result: RunResult, now: int, otherwise: Task)
    requires RunOk(cfg, r) && Holding(r.task) && !r.task.Admitted?
    requires clean in TERMINAL_RUNS && (StatusOf(r.body) == Queued ==> clean == Error && word == Word(Error))
    requires word == Word(clean) || (word.Text? && !Clean(cfg, EnvOf(r.body), clean))
    requires otherwise == FallingBack(true) || (otherwise.Over? && clean == Error)
    ensures RunOk(cfg, Close(r, word, result, now, otherwise)) && Advances(r, Close(r, word, result, now, otherwise))
  {
    if FinishSection(r.body, word, result, now).Success? {
      FinishedBody(r.body, word, result, now);
      AcceptedOk(cfg, r, FinishSection(r.body, word, result, now).value);
    } else {
      assert StatusOf(r.body) in {Queued, Running};
      assert word.Text?;
    }
  }

  lemma AcceptedOk(cfg: Config, r: RunState, after: Body)
    requires RunOk(cfg, r) && Holding(r.task)
    requires Shaped(after) && EnvOf(after) == EnvOf(r.body) && SameOrigin(r.body, after)
    requires StatusOf(after) in TERMINAL_RUNS && (StatusOf(r.body) == Cancelled ==> StatusOf(after) == Cancelled)
    ensures var closed := r.(body := after, log := r.log + [RunFinished], task := Over); RunOk(cfg, closed) && Advances(r, closed)
  {
  }

  lemma ReactOk(cfg: Config, r: RunState, a: Action)
    requires RunOk(cfg, r) && ValidConfig(cfg)
    ensures RunOk(cfg, React(cfg, r, a)) && Advances(r, React(cfg, r, a))
  {
    hide RunOk, Advances, CancelSection, BeginSection, Close;
    match a {
      case Cancels(_, now) => CancelOk(cfg, r, now);
      case Begins(_, now) => BeginOk(cfg, r, now);
      case Finishes(_, now) => FinishOk(cfg, r, now);
      case FallsBack(_, now) => FallBackOk(cfg, r, now);
      case _ => TaskMoves(cfg, r, a);
    }
  }

  lemma TaskMoves(cfg: Config, r: RunState, a: Action)
    requires RunOk(cfg, r) && !(a.Cancels? || a.Begins? || a.Finishes? || a.FallsBack?)
    ensures RunOk(cfg, React(cfg, r, a)) && Advances(r, React(cfg, r, a))
  {
  }

  lemma FinishOk(cfg: Config, r: RunState, now: int)
    requires RunOk(cfg, r) && ValidConfig(cfg)
    ensures RunOk(cfg, React(cfg, r, Finishes(0, now))) && Advances(r, React(cfg, r, Finishes(0, now)))
  {
    if r.task.Finishing? {
      var result := r.task.result;
      CloseOk(cfg, r, result.status, cfg.redactWord(EnvOf(r.body), result.status), result, now, FallingBack(true));
    }
  }

  lemma FallBackOk(cfg: Config, r: RunState, now: int)
    requires RunOk(cfg, r) && ValidConfig(cfg)
    ensures RunOk(cfg, React(cfg, r, FallsBack(0, now))) && Advances(r, React(cfg, r, FallsBack(0, now)))
  {
    if r.task.FallingBack? {
      var word := if r.task.known then cfg.redactWord(EnvOf(r.body), Error) else Word(Error);
      CloseOk(cfg, r, Error, word, FailedResult(Null), now, Over);
    }
  }

  lemma CancelOk(cfg: Config, r: RunState, now: int)
    requires RunOk(cfg, r)
    ensures RunOk(cfg, React(cfg, r, Cancels(0, now))) && Advances(r, React(cfg, r, Cancels(0, now)))
  {
    if StatusOf(r.body) !in TERMINAL_RUNS {
      CancelKeepsTheInputs(r.body, now);
    }
  }

  lemma BeginOk(cfg: Config, r: RunState, now: int)
    requires RunOk(cfg, r)
    ensures RunOk(cfg, React(cfg, r, Begins(0, now))) && Advances(r, React(cfg, r, Begins(0, now)))
  {
    if r.task.Admitted? && StatusOf(r.body) !in TERMINAL_RUNS {
      BeginKeepsTheInputs(r.body, now);
    }
  }

  lemma FreshOk(cfg: Config, body: Body)
    requires Shaped(body) && StatusOf(body) == Queued
    ensures RunOk(cfg, Fresh(body))
  {
    hide Shaped;
  }

  lemma NewRunShape(id: nat, inputs: Inputs, now: int)
    ensures var body := NewRun(id, inputs, now);
            Shaped(body) && StatusOf(body) == Queued && EnvOf(body) == inputs.env && RerunOf !in body
  {
    var body := NewRun(id, inputs, now);
    assert body[StatusKey] == Word(Queued) && RerunOf !in body;
    assert EncryptedEnvironment in body && body[EncryptedEnvironment] == Text(inputs.env);
    forall key | key in FROZEN ensures key in body {
    }
  }

  lemma NewRunOk(cfg: Config, id: nat, inputs: Inputs, now: int)
    ensures RunOk(cfg, Fresh(NewRun(id, inputs, now))) && RerunOf !in NewRun(id, inputs, now)
  {
    hide RunOk, Fresh;
    NewRunShape(id, inputs, now);
    hide NewRun, Shaped;
    FreshOk(cfg, NewRun(id, inputs, now));
  }

  lemma RerunOk(cfg: Config, id: nat, copy: Body, of: nat, now: int)
    requires Shaped(copy)
    ensures var body := RerunBody(id, copy, of, now);
            RunOk(cfg, Fresh(body)) && Frozen(body) == Frozen(copy) && RerunOf in body && body[RerunOf] == Num(of)
  {
    RerunCopiesTheInputs(id, copy, of, now);
    FrozenKeepsEnv(copy, RerunBody(id, copy, of, now));
    hide RunOk;
    FreshOk(cfg, RerunBody(id, copy, of, now));
  }

  lemma RunAdded(cfg: Config, s: Sys, id: nat, body: Body)
    requires Inv(cfg, s) && id !in s.runs && RunOk(cfg, Fresh(body)) && OriginOk(s.runs, body)
    ensures Inv(cfg, s.(runs := s.runs[id := Fresh(body)]))
  {
    var after := s.runs[id := Fresh(body)];
    assert Holders(after) == Holders(s.runs);
    forall i | i in after ensures OriginOk(after, after[i].body) {
      if i != id {
        assert OriginOk(s.runs, s.runs[i].body);
      }
    }
  }

  lemma AdmittedOk(cfg: Config, r: RunState)
    requires RunOk(cfg, r) && r.task.Waiting?
    ensures RunOk(cfg, r.(task := Admitted)) && SameOrigin(r.body, r.(task := Admitted).body)
  {
  }

  lemma OneMoreHolder(runs: map<nat, RunState>, id: nat, r: RunState)
    requires id in runs
    ensures |Holders(runs[id := r])| <= |Holders(runs)| + 1
  {
    SubsetSize(Holders(runs[id := r]), Holders(runs) + {id});
  }

  lemma Admitting(cfg: Config, s: Sys, id: nat, r: RunState)
    requires Inv(cfg, s) && id in s.runs && |Holders(s.runs)| < cfg.maxRuns
    requires RunOk(cfg, r) && SameOrigin(s.runs[id].body, r.body)
    ensures Inv(cfg, s.(runs := s.runs[id := r]))
  {
    var after := s.runs[id := r];
    OneMoreHolder(s.runs, id, r);
    forall i | i in s.runs ensures RunOk(cfg, after[i]) && SameOrigin(s.runs[i].body, after[i].body) {
      assert RunOk(cfg, s.runs[i]);
    }
    RunsMove(cfg, s, after);
  }

  lemma ReadKeepsInv(cfg: Config, s: Sys, pid: nat, of: nat)
    requires Inv(cfg, s)
    ensures Inv(cfg, Step(cfg, s, RerunReads(pid, of)))
  {
    hide StageOk, LogOk, SameOrigin, OriginOk;
  }

  lemma StepKeepsInv(cfg: Config, s: Sys, a: Action)
    requires Inv(cfg, s) && ValidConfig(cfg)
    ensures Inv(cfg, Step(cfg, s, a))
  {
    hide RunOk, SameOrigin, OriginOk, NewRun, RerunBody, React, Interrupted;
    match a
    case Creates(id, inputs, now) =>
      if id !in s.runs {
        NewRunOk(cfg, id, inputs, now);
        RunAdded(cfg, s, id, NewRun(id, inputs, now));
      }
    case RerunReads(pid, of) => ReadKeepsInv(cfg, s, pid, of);
    case RerunCommits(pid, id, now) =>
      if pid in s.procs && id !in s.runs {
        RerunOk(cfg, id, s.procs[pid].copy, s.procs[pid].of, now);
        RunAdded(cfg, s, id, RerunBody(id, s.procs[pid].copy, s.procs[pid].of, now));
      }
    case Admits(id) =>
      if id in s.runs && s.runs[id].task.Waiting? && |Holders(s.runs)| < cfg.maxRuns {
        AdmittedOk(cfg, s.runs[id]);
        Admitting(cfg, s, id, s.runs[id].(task := Admitted));
      }
    case Restart(now, cleanupFails) => Restarted(cfg, s, Step(cfg, s, a).runs, now, cleanupFails);
    case _ => Reacts(cfg, s, a);
  }

  predicate Addressed(a: Action) {
    a.Cancels? || a.Begins? || a.Emits? || a.Returns? || a.Raises? || a.Finishes? || a.FallsBack?
  }

  lemma Reacts(cfg: Config, s: Sys, a: Action)
    requires Inv(cfg, s) && ValidConfig(cfg) && Addressed(a)
    ensures Inv(cfg, Step(cfg, s, a))
  {
    if a.id in s.runs && Shaped(s.runs[a.id].body) {
      ReactOk(cfg, s.runs[a.id], a);
      RunAdvances(cfg, s, a.id, React(cfg, s.runs[a.id], a));
    }
  }

  lemma {:induction false} ExecKeepsInv(cfg: Config, s: Sys, run: seq<Action>)
    requires Inv(cfg, s) && ValidConfig(cfg)
    ensures Inv(cfg, Exec(cfg, s, run))
    decreases |run|
  {
    if run != [] {
      StepKeepsInv(cfg, s, run[0]);
      ExecKeepsInv(cfg, Step(cfg, s, run[0]), run[1..]);
    }
  }

  lemma ReachKeepsInv(cfg: Config, run: seq<Action>)
    requires ValidConfig(cfg)
    ensures Inv(cfg, Reach(cfg, run))
  {
    assert Holders(INITIAL.runs) == {};
    ExecKeepsInv(cfg, INITIAL, run);
  }

  lemma {:induction false} ExecConcat(cfg: Config, s: Sys, run: seq<Action>, more: seq<Action>)
    ensures Exec(cfg, s, run + more) == Exec(cfg, Exec(cfg, s, run), more)
    decreases |run|
  {
    if run == [] {
      assert run + more == more;
    } else {
      assert (run + more)[1..] == run[1..] + more;
      ExecConcat(cfg, Step(cfg, s, run[0]), run[1..], more);
    }
  }
}
