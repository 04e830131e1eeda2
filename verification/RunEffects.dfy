/** What each step of a run brings about in the states that can be reached. */
module RunEffects {
  import opened Domain
  import opened Store
  import opened Runs
  import opened RunProtocol
  import Recovery

  /** Run `id` becomes `r`, and nothing else moves. */
  predicate Becomes(s: Sys, after: Sys, id: nat, r: RunState) {
    after == s.(runs := s.runs[id := r])
  }

  lemma Facts(cfg: Config, s: Sys, id: nat)
    requires Inv(cfg, s) && id in s.runs
    ensures var r := s.runs[id];
            && Shaped(r.body) && StatusOf(r.body) in {Queued, Running, Passed, Failed, Cancelled, TimedOut, Error}
            && StageOk(cfg, EnvOf(r.body), r.task, StatusOf(r.body))
  {
    assert RunOk(cfg, s.runs[id]);
  }

  lemma StepIsReact(cfg: Config, s: Sys, a: Action)
    requires Addressed(a) && a.id in s.runs && Shaped(s.runs[a.id].body)
    ensures Step(cfg, s, a) == s.(runs := s.runs[a.id := React(cfg, s.runs[a.id], a)])
  {
    hide React, Shaped;
  }

  // ---- creating ----

  /** A new run waits, queued, with its inputs. */
  lemma CreatesQueued(cfg: Config, s: Sys, id: nat, inputs: Inputs, now: int)
    requires id !in s.runs
    ensures Becomes(s, Step(cfg, s, Creates(id, inputs, now)), id, RunState(NewRun(id, inputs, now), [RunQueued], Waiting, false))
  {
  }

  /** A rerun waits, queued, with what its request read of the original, whatever became of that since. */
  lemma RerunsQueued(cfg: Config, s: Sys, pid: nat, id: nat, now: int)
    requires pid in s.procs && id !in s.runs
    ensures var p := s.procs[pid];
            Step(cfg, s, RerunCommits(pid, id, now)) ==
            Sys(s.runs[id := RunState(RerunBody(id, p.copy, p.of, now), [RunQueued], Waiting, false)], s.procs - {pid})
  {
  }

  lemma RerunsRead(cfg: Config, s: Sys, pid: nat, of: nat)
    requires pid !in s.procs && of in s.runs
    ensures Step(cfg, s, RerunReads(pid, of)) == s.(procs := s.procs[pid := Rerunning(of, s.runs[of].body)])
  {
  }

  // ---- executing ----

  /** A waiting task is admitted if and only if fewer tasks than slots are between admission and their end. */
  lemma AdmittedWithASlot(cfg: Config, s: Sys, id: nat)
    requires id in s.runs && s.runs[id].task.Waiting?
    ensures var busy := set i | i in s.runs && !s.runs[i].task.Waiting? && !s.runs[i].task.Over?;
            Step(cfg, s, Admits(id)) ==
            if |busy| < cfg.maxRuns then s.(runs := s.runs[id := s.runs[id].(task := Admitted)]) else s
  {
    var busy := set i | i in s.runs && !s.runs[i].task.Waiting? && !s.runs[i].task.Over?;
    assert busy == Holders(s.runs);
  }

  /** An admitted run begins, unless it has been cancelled while it waited. */
  lemma BeginsOrIsOver(cfg: Config, s: Sys, id: nat, now: int)
    requires Inv(cfg, s) && id in s.runs && s.runs[id].task.Admitted?
    ensures var r, after := s.runs[id], Step(cfg, s, Begins(id, now));
            && Shaped(r.body) && id in after.runs
            && if StatusOf(r.body) == Cancelled then Becomes(s, after, id, r.(task := Over))
               else && Becomes(s, after, id, r.(body := after.runs[id].body, task := Executing))
                    && HasStatus(after.runs[id].body) && StatusOf(after.runs[id].body) == Running
                    && OnlyChanges(r.body, after.runs[id].body, {StatusKey, StartedAt})
  {
    hide Inv, Step, BeginSection, OnlyChanges, Shaped;
    Facts(cfg, s, id);
    StepIsReact(cfg, s, Begins(id, now));
    BeginWrites(s.runs[id].body, now);
  }

  /** The runtime's answer: a terminal result goes to the finish, any other and any exception to the fallback. */
  lemma AnswersAreHandled(cfg: Config, s: Sys, id: nat, result: RunResult, known: bool, eventType: string)
    requires Inv(cfg, s) && id in s.runs && s.runs[id].task.Executing?
    ensures var r := s.runs[id];
            && Becomes(s, Step(cfg, s, Returns(id, result)), id,
                       r.(task := if result.status in {Passed, Failed, Cancelled, TimedOut, Error} then Finishing(result) else FallingBack(true)))
            && Becomes(s, Step(cfg, s, Raises(id, known)), id, r.(task := FallingBack(known)))
            && Becomes(s, Step(cfg, s, Emits(id, eventType)), id, r.(log := r.log + [Relayed(eventType)]))
  {
    hide Inv, Step, Shaped, BeginSection, CancelSection, Close, EnvOf;
    Facts(cfg, s, id);
    StepIsReact(cfg, s, Returns(id, result));
    StepIsReact(cfg, s, Raises(id, known));
    StepIsReact(cfg, s, Emits(id, eventType));
  }

  /** A finish reports the result and logs it, under cancelled if the row was; it is refused if redaction touched
      the status word, and then the fallback follows. */
  lemma FinishesReport(cfg: Config, s: Sys, id: nat, now: int)
    requires Inv(cfg, s) && ValidConfig(cfg) && id in s.runs && s.runs[id].task.Finishing?
    ensures var r, after := s.runs[id], Step(cfg, s, Finishes(id, now));
            && Shaped(r.body) && id in after.runs
            && var status := if StatusOf(r.body) == Cancelled then Cancelled else r.task.result.status;
            if StatusOf(r.body) == Cancelled || Clean(cfg, EnvOf(r.body), status)
            then && Becomes(s, after, id, r.(body := after.runs[id].body, log := r.log + [RunFinished], task := Over))
                 && Reports(r.body, after.runs[id].body, status, r.task.result, now)
            else Becomes(s, after, id, r.(task := FallingBack(true), refused := true))
  {
    hide Inv, Step, FinishSection, Reports, Shaped, BeginSection, CancelSection;
    var r := s.runs[id];
    Facts(cfg, s, id);
    StepIsReact(cfg, s, Finishes(id, now));
    FinishWrites(r.body, cfg.redactWord(EnvOf(r.body), r.task.result.status), r.task.result, now);
  }

  /** The fallback reports an error in the same way; if that is refused too, the task ends and the row stays. */
  lemma FallbacksReport(cfg: Config, s: Sys, id: nat, now: int)
    requires Inv(cfg, s) && ValidConfig(cfg) && id in s.runs && s.runs[id].task.FallingBack?
    ensures var r, after := s.runs[id], Step(cfg, s, FallsBack(id, now));
            && Shaped(r.body) && id in after.runs
            && if StatusOf(r.body) == Cancelled || !r.task.known || Clean(cfg, EnvOf(r.body), Error)
               then && Becomes(s, after, id, r.(body := after.runs[id].body, log := r.log + [RunFinished], task := Over))
                    && Reports(r.body, after.runs[id].body, if StatusOf(r.body) == Cancelled then Cancelled else Error,
                               RunResult(Error, "pending", Tally(Summary(0, 0, 0, 0, 0, 0)), Null), now)
               else Becomes(s, after, id, r.(task := Over, refused := true))
  {
    hide Inv, Step, FinishSection, Reports, Shaped, BeginSection, CancelSection;
    var r := s.runs[id];
    Facts(cfg, s, id);
    StepIsReact(cfg, s, FallsBack(id, now));
    FinishWrites(r.body, if r.task.known then cfg.redactWord(EnvOf(r.body), Error) else Word(Error), FailedResult(Null), now);
  }

  // ---- cancelling ----

  /** A cancel leaves a run that has ended alone, and makes any other cancelled and says so, queued or running. */
  lemma CancelsTakeEffect(cfg: Config, s: Sys, id: nat, now: int)
    requires Inv(cfg, s) && id in s.runs
    ensures var r, after := s.runs[id], Step(cfg, s, Cancels(id, now));
            && Shaped(r.body) && id in after.runs
            && if StatusOf(r.body) in {Passed, Failed, Cancelled, TimedOut, Error} then after == s
               else && Becomes(s, after, id, r.(body := after.runs[id].body, log := r.log + [RunCancelled]))
                    && HasStatus(after.runs[id].body) && StatusOf(after.runs[id].body) == Cancelled
                    && OnlyChanges(r.body, after.runs[id].body, {StatusKey, FinishedAt})
  {
    hide Inv, Step, CancelSection, OnlyChanges, Shaped, BeginSection, Close;
    Facts(cfg, s, id);
    StepIsReact(cfg, s, Cancels(id, now));
    CancelWrites(s.runs[id].body, now);
    assert s.runs[id := s.runs[id]] == s.runs;
  }

  // ---- restarting ----

  lemma RestartOfOne(cfg: Config, r: RunState, now: int, cleanupFails: bool)
    requires Shaped(r.body)
    ensures var after := Interrupted(r, now, cleanupFails);
            && after.task.Over?
            && if StatusOf(r.body) in {Queued, Running}
               then && HasStatus(after.body) && StatusOf(after.body) == Error && after.log == r.log + [RunError]
                    && OnlyChanges(r.body, after.body, {StatusKey, ErrorKey, FinishedAt})
               else after.body == r.body && after.log == r.log
  {
    hide OnlyChanges, Recovery.AfterRecovery, Recovery.Active;
    Recovery.ActiveByStatus(Run, r.body);
    Recovery.NothingIsLeftOpen(Run, r.body, now, cleanupFails);
    if Recovery.Active(Run, r.body) {
      Recovery.ClosedRowShape(Run, r.body, now, cleanupFails);
    }
  }

  /** After a restart every run has ended; exactly those that had not are in error and say so, once. */
  lemma RestartsEndEverything(cfg: Config, s: Sys, now: int, cleanupFails: bool, id: nat)
    requires Inv(cfg, s) && id in s.runs
    ensures var r, after := s.runs[id], Step(cfg, s, Restart(now, cleanupFails));
            && after.procs == map[] && after.runs.Keys == s.runs.Keys && Shaped(r.body)
            && after.runs[id].task.Over?
            && if StatusOf(r.body) in {Queued, Running}
               then && HasStatus(after.runs[id].body) && StatusOf(after.runs[id].body) == Error
                    && after.runs[id].log == r.log + [RunError]
                    && OnlyChanges(r.body, after.runs[id].body, {StatusKey, ErrorKey, FinishedAt})
               else after.runs[id].body == r.body && after.runs[id].log == r.log
  {
    hide Inv, OnlyChanges, Shaped, Interrupted, StageOk;
    Facts(cfg, s, id);
    RestartOfOne(cfg, s.runs[id], now, cleanupFails);
  }
}
