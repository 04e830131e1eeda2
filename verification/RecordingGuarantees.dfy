/** The promises about recordings, over every interleaving. */
module RecordingGuarantees {
  import opened Domain
  import opened Store
  import opened Recordings
  import opened RecordingProtocol

  /** No update is refused and no task is missing; the start never has to be undone; at most one flush is
      spawned; the viewer address is published exactly while the recording is ready; a stopped row carries
      the redacted answer of its flush. */
  lemma RecordingSafety(cfg: Config, run: seq<Action>)
    ensures var end := Reach(cfg, run);
            && !end.fault
            && forall id :: id in end.recs ==>
                 var r := end.recs[id];
                 && Shaped(r.body) && !r.starter.Undoing? && r.flushes <= 1
                 && (r.body[ViewerUrl] != Null <==> StatusOf(r.body) == Ready)
                 && (StatusOf(r.body) == Starting <==> !r.starter.Settled?)
                 && (StatusOf(r.body) == Stopped ==>
                       r.flush.Published? && r.flush.outcome.Success? && Carries(cfg, r.body, r.flush.outcome.value))
  {
    ReachKeepsInv(cfg, run);
    var end := Reach(cfg, run);
    forall id | id in end.recs
      ensures RecOk(cfg, end.recs[id])
    {
    }
  }

  /** The published answer of a flush is one the controller gave to that recording's stop call. */
  lemma {:induction false} FlushAnswerIsTheControllers(cfg: Config, s: Sys, run: seq<Action>, id: nat, output: Output)
    requires HasAnswer(Exec(cfg, s, run), id, output)
    ensures HasAnswer(s, id, output) || FlushReturns(id, Success(output)) in run
    decreases |run|
  {
    if run != [] {
      FlushAnswerIsTheControllers(cfg, Step(cfg, s, run[0]), run[1..], id, output);
      if HasAnswer(Step(cfg, s, run[0]), id, output) {
        AnswerAppears(cfg, s, run[0], id, output);
      }
    }
  }

  predicate HasAnswer(s: Sys, id: nat, output: Output) {
    id in s.recs && (s.recs[id].flush.Flushed? || s.recs[id].flush.Published?) && s.recs[id].flush.outcome == Success(output)
  }

  lemma AnswerAppears(cfg: Config, s: Sys, a: Action, id: nat, output: Output)
    requires HasAnswer(Step(cfg, s, a), id, output)
    ensures HasAnswer(s, id, output) || a == FlushReturns(id, Success(output))
  {
    hide Shaped, StartSection, FlushSection, PollSection, StopSection, StatusOf, EnvOf, IsActive;
  }

  /** A recording that has stopped or failed never changes again, in any key, whatever follows: requests, late
      polls and restarts included. */
  lemma EndedIsFinal(cfg: Config, run: seq<Action>, more: seq<Action>, id: nat)
    requires id in Reach(cfg, run).recs && HasStatus(Reach(cfg, run).recs[id].body)
    requires StatusOf(Reach(cfg, run).recs[id].body) in {Stopped, Error}
    ensures var end := Reach(cfg, run + more); id in end.recs && end.recs[id].body == Reach(cfg, run).recs[id].body
  {
    ReachKeepsInv(cfg, run);
    ExecConcat(cfg, INITIAL, run, more);
    EndedStays(cfg, Reach(cfg, run), more, id);
  }

  /** A row whose stop has begun is past every section but the flush. */
  lemma PastTheStop(cfg: Config, r: Rec)
    requires RecOk(cfg, r) && r.flushes == 1
    ensures Shaped(r.body) && r.starter.Settled? && StatusOf(r.body) in {Stopping, Stopped, Error}
  {
  }

  lemma QuietStarter(cfg: Config, s: Sys, a: Action, id: nat)
    requires id in s.recs && s.recs[id].starter.Settled?
    requires a.StartReturns? || a.StartSettles? || a.UndoReturns?
    ensures var after := StarterStep(cfg, s, a); id in after.recs && after.recs[id] == s.recs[id]
  {
  }

  lemma QuietFlush(cfg: Config, s: Sys, a: Action, id: nat)
    requires id in s.recs && (a.FlushReturns? || (a.FlushPublishes? && a.id != id))
    ensures var after := FlushStep(cfg, s, a);
            id in after.recs && after.recs[id].body == s.recs[id].body && after.recs[id].flushes == s.recs[id].flushes
  {
  }

  lemma QuietStop(s: Sys, pid: nat, other: nat, save: bool, now: int, id: nat)
    requires KnownRow(s, other) && KnownRow(s, id) && StatusOf(s.recs[id].body) !in {Starting, Ready}
    ensures var after := StopUnderLock(s, pid, other, save, now); id in after.recs && after.recs[id] == s.recs[id]
  {
  }

  lemma QuietFinish(s: Sys, a: Action, id: nat)
    requires a.FinishBegins? || a.FinishResumes? || a.FinishReturns? || a.SaveChecks?
    requires KnownRow(s, id) && StatusOf(s.recs[id].body) !in {Starting, Ready}
    ensures var after := FinishStep(s, a); id in after.recs && after.recs[id] == s.recs[id]
  {
    match a {
      case FinishBegins(pid, other, save, now) =>
        if KnownRow(s, other) {
          QuietStop(s, pid, other, save, now, id);
        }
      case FinishResumes(pid, now) =>
        if pid in s.procs && s.procs[pid].AwaitStarter? && KnownRow(s, s.procs[pid].id) {
          QuietStop(s, pid, s.procs[pid].id, s.procs[pid].save, now, id);
        }
      case _ =>
    }
  }

  lemma QuietPoll(cfg: Config, s: Sys, a: Action, id: nat)
    requires a.PollBegins? || a.PollReturns? || a.PollPublishes?
    requires KnownRow(s, id) && StatusOf(s.recs[id].body) !in {Starting, Ready}
    ensures var after := PollStep(cfg, s, a); id in after.recs && after.recs[id] == s.recs[id]
  {
  }

  /** Once the stop has begun, only publishing the flush or a process restart can touch the row. */
  lemma OnlyTheFlushWritesAfterStop(cfg: Config, s: Sys, a: Action, id: nat)
    requires id in s.recs && RecOk(cfg, s.recs[id]) && s.recs[id].flushes == 1
    requires !(a.FlushPublishes? && a.id == id) && !a.Restart?
    ensures var after := Step(cfg, s, a); id in after.recs && after.recs[id].body == s.recs[id].body && after.recs[id].flushes == 1
  {
    PastTheStop(cfg, s.recs[id]);
    QuietStep(cfg, s, a, id);
  }

  lemma QuietCreate(cfg: Config, s: Sys, a: Action, id: nat)
    requires id in s.recs && (a.LockUser? || a.CountActive? || a.Insert?)
    ensures var after := CreateStep(cfg, s, a); id in after.recs && after.recs[id] == s.recs[id]
  {
  }

  lemma QuietStep(cfg: Config, s: Sys, a: Action, id: nat)
    requires KnownRow(s, id) && StatusOf(s.recs[id].body) !in {Starting, Ready} && s.recs[id].starter.Settled?
    requires !(a.FlushPublishes? && a.id == id) && !a.Restart?
    ensures var after := Step(cfg, s, a);
            id in after.recs && after.recs[id].body == s.recs[id].body && after.recs[id].flushes == s.recs[id].flushes
  {
    hide CreateStep, StarterStep, FlushStep, FinishStep, PollStep, Shaped, StatusOf;
    match a
    case LockUser(_, _) | CountActive(_) | Insert(_, _, _, _) => QuietCreate(cfg, s, a, id);
    case StartReturns(_, _) | StartSettles(_, _) | UndoReturns(_, _) => QuietStarter(cfg, s, a, id);
    case FlushReturns(_, _) | FlushPublishes(_, _) => QuietFlush(cfg, s, a, id);
    case FinishBegins(_, _, _, _) | FinishResumes(_, _) | FinishReturns(_) | SaveChecks(_) => QuietFinish(s, a, id);
    case PollBegins(_, _) | PollReturns(_, _) | PollPublishes(_, _) => QuietPoll(cfg, s, a, id);
    case _ =>
  }

  /** A row that has ended: its start is settled, its flush idle or published. */
  lemma EndedRow(cfg: Config, r: Rec)
    requires RecOk(cfg, r) && StatusOf(r.body) in {Stopped, Error}
    ensures Shaped(r.body) && r.starter.Settled? && !r.flush.Flushed?
  {
  }

  lemma NoFlushToPublish(cfg: Config, s: Sys, id: nat, now: int)
    requires id in s.recs && !s.recs[id].flush.Flushed?
    ensures Step(cfg, s, FlushPublishes(id, now)) == s
  {
  }

  lemma RestartLeavesEnded(cfg: Config, r: Rec, now: int, cleanupFails: bool)
    requires RecOk(cfg, r) && StatusOf(r.body) in {Stopped, Error}
    ensures AfterRestart(r, now, cleanupFails).body == r.body
  {
  }

  lemma EndedStep(cfg: Config, s: Sys, a: Action, id: nat)
    requires id in s.recs && RecOk(cfg, s.recs[id]) && StatusOf(s.recs[id].body) in {Stopped, Error}
    ensures var after := Step(cfg, s, a); id in after.recs && after.recs[id].body == s.recs[id].body
  {
    EndedRow(cfg, s.recs[id]);
    if a.Restart? {
      RestartLeavesEnded(cfg, s.recs[id], a.now, a.cleanupFails);
    } else if a.FlushPublishes? && a.id == id {
      NoFlushToPublish(cfg, s, id, a.now);
    } else {
      QuietStep(cfg, s, a, id);
    }
  }

  lemma {:induction false} EndedStays(cfg: Config, s: Sys, more: seq<Action>, id: nat)
    requires Inv(cfg, s) && id in s.recs && HasStatus(s.recs[id].body) && StatusOf(s.recs[id].body) in {Stopped, Error}
    ensures var end := Exec(cfg, s, more); id in end.recs && end.recs[id].body == s.recs[id].body
    decreases |more|
  {
    if more != [] {
      StepKeepsInv(cfg, s, more[0]);
      assert RecOk(cfg, s.recs[id]);
      EndedStep(cfg, s, more[0], id);
      EndedStays(cfg, Step(cfg, s, more[0]), more[1..], id);
    }
  }

  /** From the stop to its flush the row stands still, whatever the requests do. */
  lemma {:induction false} QuietUntilTheFlush(cfg: Config, s: Sys, more: seq<Action>, id: nat)
    requires Inv(cfg, s) && id in s.recs && s.recs[id].flushes == 1
    requires forall a :: a in more ==> !a.Restart? && !(a.FlushPublishes? && a.id == id)
    ensures var end := Exec(cfg, s, more); id in end.recs && end.recs[id].body == s.recs[id].body
    decreases |more|
  {
    if more != [] {
      StepKeepsInv(cfg, s, more[0]);
      assert RecOk(cfg, s.recs[id]);
      OnlyTheFlushWritesAfterStop(cfg, s, more[0], id);
      QuietUntilTheFlush(cfg, Step(cfg, s, more[0]), more[1..], id);
    }
  }

  lemma PublishingKeepsTheCount(cfg: Config, s: Sys, id: nat, now: int)
    requires id in s.recs
    ensures var after := FlushStep(cfg, s, FlushPublishes(id, now)); id in after.recs && after.recs[id].flushes == s.recs[id].flushes
  {
  }

  /** Flush tasks are never forgotten. */
  lemma FlushesGrow(cfg: Config, s: Sys, a: Action, id: nat)
    requires id in s.recs && RecOk(cfg, s.recs[id]) && s.recs[id].flushes == 1
    ensures id in Step(cfg, s, a).recs && Step(cfg, s, a).recs[id].flushes == 1
  {
    hide RecOk, CreateStep, StarterStep, FlushStep, FinishStep, PollStep;
    if a.FlushPublishes? && a.id == id {
      PublishingKeepsTheCount(cfg, s, id, a.now);
    } else if !a.Restart? {
      OnlyTheFlushWritesAfterStop(cfg, s, a, id);
    }
  }

  lemma {:induction false} FlushesStay(cfg: Config, s: Sys, more: seq<Action>, id: nat)
    requires Inv(cfg, s) && id in s.recs && s.recs[id].flushes == 1
    ensures id in Exec(cfg, s, more).recs && Exec(cfg, s, more).recs[id].flushes == 1
    decreases |more|
  {
    if more != [] {
      assert RecOk(cfg, s.recs[id]);
      FlushesGrow(cfg, s, more[0], id);
      StepKeepsInv(cfg, s, more[0]);
      FlushesStay(cfg, Step(cfg, s, more[0]), more[1..], id);
    }
  }

  /** Once the stop has begun no poll ever writes again, whatever happened since: not before the flush is
      published, not after it succeeded or failed, not after a restart. */
  lemma PollsNeverWriteAfterStop(cfg: Config, run: seq<Action>, more: seq<Action>, id: nat, pid: nat, now: int)
    requires id in Reach(cfg, run).recs && Reach(cfg, run).recs[id].flushes == 1
    ensures var s := Reach(cfg, run + more);
            var after := Step(cfg, s, PollPublishes(pid, now));
            id in s.recs && id in after.recs && after.recs[id].body == s.recs[id].body
  {
    ReachKeepsInv(cfg, run);
    ReachKeepsInv(cfg, run + more);
    ExecConcat(cfg, INITIAL, run, more);
    FlushesStay(cfg, Reach(cfg, run), more, id);
    assert RecOk(cfg, Reach(cfg, run + more).recs[id]);
    OnlyTheFlushWritesAfterStop(cfg, Reach(cfg, run + more), PollPublishes(pid, now), id);
  }

  // ---- polls that raise ----

  /** The poll of request `pid` has nothing to publish. */
  predicate HasNothingToPublish(cfg: Config, s: Sys, pid: nat) {
    && pid in s.procs && s.procs[pid].Polled? && KnownRow(s, s.procs[pid].id)
    && var body, answer := s.recs[s.procs[pid].id].body, s.procs[pid].answer;
    && StatusOf(body) == Ready && answer.Broken? && answer.reading.None?
    && cfg.redactText(Some(EnvOf(body)), answer.message) == ""
  }

  /** In every state, a step raises exactly if it publishes a poll of a ready row that has no reading and
      whose message is empty once redacted; the row stays. */
  lemma WhenPollsRaise(cfg: Config, s: Sys, a: Action)
    ensures var after := Step(cfg, s, a);
            if a.PollPublishes? && HasNothingToPublish(cfg, s, a.pid)
            then after == s.(procs := s.procs - {a.pid}, unbound := s.unbound + [s.procs[a.pid].id])
            else after.unbound == s.unbound
  {
    if a.PollPublishes? && HasNothingToPublish(cfg, s, a.pid) {
      var id := s.procs[a.pid].id;
      assert s.recs[id := s.recs[id]] == s.recs;
    }
  }

  ghost predicate MessagesSurvive(cfg: Config) {
    forall env, message :: cfg.redactText(Some(env), message) != ""
  }

  lemma {:induction false} PollsNeverRaise(cfg: Config, s: Sys, run: seq<Action>)
    requires MessagesSurvive(cfg)
    ensures Exec(cfg, s, run).unbound == s.unbound
    decreases |run|
  {
    if run != [] {
      WhenPollsRaise(cfg, s, run[0]);
      PollsNeverRaise(cfg, Step(cfg, s, run[0]), run[1..]);
    }
  }

  /** One recording is created and started, and polled once; the controller's failure has this message. */
  function FailingPoll(env: string, message: string): seq<Action> {
    [LockUser(0, ""), CountActive(0), Insert(0, 0, env, 0), StartReturns(0, Success(())), StartSettles(0, 0),
     PollBegins(0, 0), PollReturns(0, Broken(None, message)), PollPublishes(0, 0)]
  }

  lemma Created(cfg: Config, env: string)
    requires cfg.limit > 0
    ensures Step(cfg, Step(cfg, Step(cfg, INITIAL, LockUser(0, "")), CountActive(0)), Insert(0, 0, env, 0))
         == Sys(map[0 := Rec(NewRecording("", env, 0), Launching, Idle, 0)], map[], false, [])
  {
    var s1 := Step(cfg, INITIAL, LockUser(0, ""));
    assert s1 == Sys(map[], map[0 := LockedUser("")], false, []);
    assert ActiveOf(s1.recs, "") == {};
    var s2 := Step(cfg, s1, CountActive(0));
    assert s2 == Sys(map[], map[0 := Counted("", 0)], false, []);
    assert s2.procs - {0} == map[];
  }

  lemma StartedRow(cfg: Config, body: Body)
    requires Shaped(body) && StatusOf(body) == Starting
    ensures var write := StartSection(cfg, 0, body, Success(()), 0);
            && write.Put? && write.update.Success? && Shaped(write.update.value)
            && StatusOf(write.update.value) == Ready && EnvOf(write.update.value) == EnvOf(body)
  {
  }

  lemma NewRow(env: string)
    ensures Shaped(NewRecording("", env, 0)) && StatusOf(NewRecording("", env, 0)) == Starting
    ensures EnvOf(NewRecording("", env, 0)) == env
  {
  }

  lemma Started(cfg: Config, env: string)
    ensures var s := Sys(map[0 := Rec(NewRecording("", env, 0), Launching, Idle, 0)], map[], false, []);
            var after := Step(cfg, Step(cfg, s, StartReturns(0, Success(()))), StartSettles(0, 0));
            && KnownRow(after, 0) && StatusOf(after.recs[0].body) == Ready && EnvOf(after.recs[0].body) == env
            && after.procs == map[] && after.unbound == []
  {
    NewRow(env);
    StartedRow(cfg, NewRecording("", env, 0));
    hide Shaped, NewRecording, StartSection, StatusOf, EnvOf;
    var s := Sys(map[0 := Rec(NewRecording("", env, 0), Launching, Idle, 0)], map[], false, []);
    var answered := Step(cfg, s, StartReturns(0, Success(())));
    assert answered.recs[0] == Rec(NewRecording("", env, 0), Launched(Success(())), Idle, 0);
  }

  lemma PollFails(cfg: Config, s: Sys, message: string)
    requires KnownRow(s, 0) && StatusOf(s.recs[0].body) == Ready && s.procs == map[]
    ensures Step(cfg, Step(cfg, s, PollBegins(0, 0)), PollReturns(0, Broken(None, message)))
         == s.(procs := map[0 := Polled(0, Broken(None, message))])
  {
  }

  /** A controller failure without a message, such as a bare exception, makes the poll itself raise. */
  lemma EmptyMessageRaises(cfg: Config, env: string, message: string)
    requires cfg.limit > 0 && cfg.redactText(Some(env), message) == ""
    ensures Reach(cfg, FailingPoll(env, message)).unbound == [0]
  {
    Created(cfg, env);
    Started(cfg, env);
    EightSteps(cfg, INITIAL, FailingPoll(env, message));
    var s3 := Step(cfg, Step(cfg, Step(cfg, INITIAL, LockUser(0, "")), CountActive(0)), Insert(0, 0, env, 0));
    var s5 := Step(cfg, Step(cfg, s3, StartReturns(0, Success(()))), StartSettles(0, 0));
    PollFails(cfg, s5, message);
    var s7 := Step(cfg, Step(cfg, s5, PollBegins(0, 0)), PollReturns(0, Broken(None, message)));
    WhenPollsRaise(cfg, s7, PollPublishes(0, 0));
  }

  lemma TwoSteps(cfg: Config, s: Sys, run: seq<Action>, n: nat)
    requires n + 2 <= |run|
    ensures Exec(cfg, s, run[n..]) == Exec(cfg, Step(cfg, Step(cfg, s, run[n]), run[n + 1]), run[n + 2..])
  {
    hide Step;
    var rest := run[n..];
    assert rest[0] == run[n] && rest[1..][0] == run[n + 1] && rest[1..][1..] == run[n + 2..];
    assert Exec(cfg, s, rest) == Exec(cfg, Step(cfg, s, run[n]), rest[1..]);
  }

  lemma EightSteps(cfg: Config, s: Sys, run: seq<Action>)
    requires |run| == 8
    ensures var s2 := Step(cfg, Step(cfg, s, run[0]), run[1]);
            var s4 := Step(cfg, Step(cfg, s2, run[2]), run[3]);
            var s6 := Step(cfg, Step(cfg, s4, run[4]), run[5]);
            Exec(cfg, s, run) == Step(cfg, Step(cfg, s6, run[6]), run[7])
  {
    hide Step;
    var s2 := Step(cfg, Step(cfg, s, run[0]), run[1]);
    var s4 := Step(cfg, Step(cfg, s2, run[2]), run[3]);
    var s6 := Step(cfg, Step(cfg, s4, run[4]), run[5]);
    assert run[0..] == run && run[8..] == [];
    TwoSteps(cfg, s, run, 0);
    TwoSteps(cfg, s2, run, 2);
    TwoSteps(cfg, s4, run, 4);
    TwoSteps(cfg, s6, run, 6);
  }

  /** Over all runs no poll raises if and only if no failure message is empty once redacted. */
  lemma PollsRaiseForEmptyMessages(cfg: Config)
    requires cfg.limit > 0
    ensures (forall run :: Reach(cfg, run).unbound == []) <==> MessagesSurvive(cfg)
  {
    if MessagesSurvive(cfg) {
      forall run ensures Reach(cfg, run).unbound == [] {
        PollsNeverRaise(cfg, INITIAL, run);
      }
    } else {
      var env, message :| cfg.redactText(Some(env), message) == "";
      EmptyMessageRaises(cfg, env, message);
    }
  }

  /** The per-user limit holds although the count is taken before the insert and rows move in between. */
  lemma PerUserLimit(cfg: Config, run: seq<Action>, user: string)
    ensures |ActiveOf(Reach(cfg, run).recs, user)| <= cfg.limit
  {
    ReachKeepsInv(cfg, run);
  }

  /** What a save hands to the new version is the redacted answer of the recording's only flush, never
      the code of an older poll. */
  lemma SavedCodeIsTheFlush(cfg: Config, run: seq<Action>, pid: nat)
    requires pid in Reach(cfg, run).procs && Reach(cfg, run).procs[pid].Saved?
    ensures var end := Reach(cfg, run);
            var p := end.procs[pid];
            && p.id in end.recs && end.recs[p.id].flush.Published? && end.recs[p.id].flush.outcome.Success?
            && var output := end.recs[p.id].flush.outcome.value;
            && FlushReturns(p.id, Success(output)) in run
            && Shaped(end.recs[p.id].body)
            && Output(p.code, p.checks) == Output(cfg.redactOutput(EnvOf(end.recs[p.id].body), output).code,
                                                  cfg.redactOutput(EnvOf(end.recs[p.id].body), output).checks)
            && p.code != ""
  {
    ReachKeepsInv(cfg, run);
    var end := Reach(cfg, run);
    var p := end.procs[pid];
    assert ProcOk(end, p) && RecOk(cfg, end.recs[p.id]);
    FlushAnswerIsTheControllers(cfg, INITIAL, run, p.id, end.recs[p.id].flush.outcome.value);
  }
}
