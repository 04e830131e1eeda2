/** What each step of a recording brings about in the states that can be reached, and where the code of a row
    comes from. */
module RecordingEffects {
  import opened Domain
  import opened Store
  import opened Recordings
  import opened RecordingProtocol
  import Recovery

  // ---- what the invariant says of one row or request ----

  lemma RowFacts(cfg: Config, s: Sys, id: nat)
    requires Inv(cfg, s) && id in s.recs
    ensures var r := s.recs[id];
            && RecOk(cfg, r) && Shaped(r.body)
            && (StatusOf(r.body) == Starting <==> !r.starter.Settled?) && (r.flush.Flushed? ==> StatusOf(r.body) == Stopping)
            && (StatusOf(r.body) == Stopped ==> r.body[Code].Text? && r.body[ChecksKey].Checks?)
  {
  }

  lemma RequestFacts(cfg: Config, s: Sys, pid: nat)
    requires Inv(cfg, s) && pid in s.procs
    ensures var p := s.procs[pid];
            && (!p.LockedUser? && !p.Counted? ==> p.id in s.recs)
            && (p.Returned? && HasStatus(p.copy) && StatusOf(p.copy) == Stopped ==> s.recs[p.id].body == p.copy)
  {
    assert ProcOk(s, s.procs[pid]);
  }

  // ---- creating ----

  /** Counting under the user's lock counts the user's rows that are starting, ready or stopping. */
  lemma CountsActiveRows(cfg: Config, s: Sys, pid: nat)
    requires Inv(cfg, s) && pid in s.procs && s.procs[pid].LockedUser?
    ensures var user := s.procs[pid].user;
            var active := set id | id in s.recs && HasStatus(s.recs[id].body) && CreatedBy in s.recs[id].body
                                   && StatusOf(s.recs[id].body) in {Starting, Ready, Stopping}
                                   && s.recs[id].body[CreatedBy] == Text(user);
            Step(cfg, s, CountActive(pid)) == s.(procs := s.procs[pid := Counted(user, |active|)])
  {
    hide RecOk, ProcOk;
    var user := s.procs[pid].user;
    var active := set id | id in s.recs && HasStatus(s.recs[id].body) && CreatedBy in s.recs[id].body
                           && StatusOf(s.recs[id].body) in {Starting, Ready, Stopping}
                           && s.recs[id].body[CreatedBy] == Text(user);
    assert active == ActiveOf(s.recs, user);
  }

  /** A counted request creates its recording if and only if the count is below the limit. */
  lemma CreatesBelowTheLimit(cfg: Config, s: Sys, pid: nat, id: nat, env: string, now: int)
    requires pid in s.procs && s.procs[pid].Counted? && id !in s.recs
    ensures var after := Step(cfg, s, Insert(pid, id, env, now));
            && after.procs == s.procs - {pid} && after.recs - {id} == s.recs
            && (id in after.recs <==> s.procs[pid].active < cfg.limit)
            && (id in after.recs ==>
                  && after.recs[id].starter.Launching? && after.recs[id].flush.Idle?
                  && Shaped(after.recs[id].body) && StatusOf(after.recs[id].body) == Starting && EnvOf(after.recs[id].body) == env
                  && after.recs[id].body[CreatedBy] == Text(s.procs[pid].user) && after.recs[id].body[ViewerUrl] == Null
                  && Shows(after.recs[id].body, Output("", [])))
  {
  }

  // ---- waiting ----

  /** A user's row is locked by one request at a time. */
  lemma UserLocksAreExclusive(cfg: Config, s: Sys, pid: nat, user: string)
    requires pid !in s.procs
    ensures var held := exists q :: q in s.procs && (s.procs[q].LockedUser? || s.procs[q].Counted?) && s.procs[q].user == user;
            Step(cfg, s, LockUser(pid, user)) == if held then s else s.(procs := s.procs[pid := LockedUser(user)])
  {
    if q :| q in s.procs && (s.procs[q].LockedUser? || s.procs[q].Counted?) && s.procs[q].user == user {
      assert HoldsUser(s.procs[q], user);
    }
  }

  /** The controller's answer reaches exactly the task or request that asked for it. */
  lemma AnswersArrive(cfg: Config, s: Sys, id: nat, started: Result<(), StartError>, flushed: Result<Output, string>,
                      pid: nat, answer: Answer)
    requires Inv(cfg, s) && id in s.recs
    ensures var r := s.recs[id];
            && Step(cfg, s, StartReturns(id, started)) ==
               (if r.starter.Launching? then s.(recs := s.recs[id := r.(starter := Launched(started))]) else s)
            && Step(cfg, s, FlushReturns(id, flushed)) ==
               (if r.flush.Flushing? then s.(recs := s.recs[id := r.(flush := Flushed(flushed))]) else s)
            && Step(cfg, s, PollReturns(pid, answer)) ==
               (if pid in s.procs && s.procs[pid].Polling? then s.(procs := s.procs[pid := Polled(s.procs[pid].id, answer)]) else s)
            && Step(cfg, s, Disconnect(pid)) == s.(procs := s.procs - {pid})
  {
    hide Inv, RecOk, Shaped, StatusOf, StartSection, FlushSection, PollSection, Unpublishable;
    RowFacts(cfg, s, id);
  }

  // ---- starting ----

  /** Once the controller answered, a start settles: ready, or in error with the redacted message. */
  lemma StartsSettle(cfg: Config, s: Sys, id: nat, now: int)
    requires Inv(cfg, s) && id in s.recs && s.recs[id].starter.Launched?
    ensures var after := Step(cfg, s, StartSettles(id, now));
            var before, outcome := s.recs[id].body, s.recs[id].starter.outcome;
            && id in after.recs && after == s.(recs := s.recs[id := after.recs[id]])
            && after.recs[id].starter.Settled? && after.recs[id].flush == s.recs[id].flush
            && var body := after.recs[id].body;
            && Shaped(before) && HasStatus(body) && ViewerUrl in body
            && if outcome.Success?
               then StatusOf(body) == Ready && body[ViewerUrl] == Text(cfg.viewer(id)) && OnlyChanges(before, body, {StatusKey, ViewerUrl})
               else Fails(before, body, StartMessage(cfg, before, outcome.error))
  {
    var r := s.recs[id];
    RowFacts(cfg, s, id);
    hide Inv, RecOk;
    StartWrites(cfg, id, r.body, r.starter.outcome, now);
    hide StartSection, OnlyChanges, StartMessage;
    SettledMessage(cfg, r.body, r.starter.outcome);
  }

  lemma SettledMessage(cfg: Config, body: Body, outcome: Result<(), StartError>)
    requires Shaped(body)
    ensures outcome.Failure? ==>
              StartMessage(cfg, body, outcome.error) ==
              cfg.redactText(if outcome.error.known then Some(body[EncryptedEnvironment].text) else None, outcome.error.message)
  {
  }

  // ---- stopping ----

  /** A stop of a ready row makes it stopping, takes the viewer away and spawns the flush; of a row whose start is
      under way it waits; of any other it returns with the row as it is. */
  lemma StopsBegin(cfg: Config, s: Sys, pid: nat, id: nat, save: bool, now: int)
    requires Inv(cfg, s) && pid !in s.procs && id in s.recs
    ensures var after := Step(cfg, s, FinishBegins(pid, id, save, now));
            var r := s.recs[id];
            && Shaped(r.body)
            && if StatusOf(r.body) == Starting then after == s.(procs := s.procs[pid := AwaitStarter(id, save)])
               else Stops(s, after, pid, id, save)
  {
    RowFacts(cfg, s, id);
    hide Inv, RecOk, StopUnderLock, Stops;
    if StatusOf(s.recs[id].body) != Starting {
      StopOutcome(s, pid, id, save, now);
    }
  }

  /** A stop that waited for the start goes on once it has settled. */
  lemma StopsResume(cfg: Config, s: Sys, pid: nat, now: int)
    requires Inv(cfg, s) && pid in s.procs && s.procs[pid].AwaitStarter?
    ensures var p := s.procs[pid];
            && p.id in s.recs
            && if s.recs[p.id].starter.Settled? then Stops(s, Step(cfg, s, FinishResumes(pid, now)), pid, p.id, p.save)
               else Step(cfg, s, FinishResumes(pid, now)) == s
  {
    var p := s.procs[pid];
    RequestFacts(cfg, s, pid);
    RowFacts(cfg, s, p.id);
    hide Inv, RecOk, StopUnderLock, Stops;
    if s.recs[p.id].starter.Settled? {
      StopOutcome(s, pid, p.id, p.save, now);
    }
  }

  predicate Stops(s: Sys, after: Sys, pid: nat, id: nat, save: bool) {
    && id in s.recs && id in after.recs && Shaped(s.recs[id].body)
    && var r := s.recs[id];
    if StatusOf(r.body) == Ready
    then && after == s.(recs := s.recs[id := after.recs[id]], procs := s.procs[pid := AwaitFlush(id, save)])
         && after.recs[id].flush == Flushing && after.recs[id].starter == r.starter
         && HasStatus(after.recs[id].body) && StatusOf(after.recs[id].body) == Stopping
         && ViewerUrl in after.recs[id].body && after.recs[id].body[ViewerUrl] == Null
         && OnlyChanges(r.body, after.recs[id].body, {StatusKey, ViewerUrl})
    else after == s.(procs := s.procs[pid := Returned(id, save, r.body)])
  }

  lemma StopOutcome(s: Sys, pid: nat, id: nat, save: bool, now: int)
    requires KnownRow(s, id)
    ensures Stops(s, StopUnderLock(s, pid, id, save, now), pid, id, save)
  {
    StopWrites(s.recs[id].body, now);
    hide StopSection, OnlyChanges;
  }

  lemma PublishStep(cfg: Config, s: Sys, id: nat, now: int, body: Body)
    requires KnownRow(s, id) && s.recs[id].flush.Flushed?
    requires FlushSection(cfg, s.recs[id].body, s.recs[id].flush.outcome, now) == Put(Success(body))
    ensures Step(cfg, s, FlushPublishes(id, now)) ==
            s.(recs := s.recs[id := s.recs[id].(flush := Published(s.recs[id].flush.outcome), body := body)])
  {
    hide FlushSection;
  }

  lemma FlushedFields(cfg: Config, before: Body, outcome: Result<Output, string>, body: Body)
    requires Shaped(before)
    requires outcome.Failure? ==> Fails(before, body, cfg.redactText(Some(before[EncryptedEnvironment].text), outcome.error))
    ensures outcome.Failure? ==> HasStatus(body) && ViewerUrl in body && body[ViewerUrl] == Null
    ensures EnvOf(before) == before[EncryptedEnvironment].text
  {
  }

  /** Once the controller answered, a flush publishes: stopped with the redacted answer, or in error with the
      redacted message. */
  lemma FlushesPublish(cfg: Config, s: Sys, id: nat, now: int)
    requires Inv(cfg, s) && id in s.recs && s.recs[id].flush.Flushed?
    ensures var after := Step(cfg, s, FlushPublishes(id, now));
            var before, outcome := s.recs[id].body, s.recs[id].flush.outcome;
            && id in after.recs && after == s.(recs := s.recs[id := after.recs[id]])
            && after.recs[id].flush == Published(outcome)
            && var body := after.recs[id].body;
            && Shaped(before) && HasStatus(body) && ViewerUrl in body && body[ViewerUrl] == Null
            && if outcome.Success?
               then StatusOf(body) == Stopped && Shows(body, cfg.redactOutput(EnvOf(before), outcome.value))
                    && OnlyChanges(before, body, {StatusKey, ViewerUrl, Code, ChecksKey})
               else Fails(before, body, cfg.redactText(Some(EnvOf(before)), outcome.error))
  {
    var r := s.recs[id];
    RowFacts(cfg, s, id);
    hide Inv, RecOk, FlushSection, OnlyChanges, Step, Fails, Shows;
    FlushWrites(cfg, r.body, r.flush.outcome, now);
    var update := FlushSection(cfg, r.body, r.flush.outcome, now).update;
    PublishStep(cfg, s, id, now, update.value);
    FlushedFields(cfg, r.body, r.flush.outcome, update.value);
  }

  /** A request that waited for the flush returns with the published row. */
  lemma StopsReturn(cfg: Config, s: Sys, pid: nat)
    requires Inv(cfg, s) && pid in s.procs && s.procs[pid].AwaitFlush?
    ensures var p := s.procs[pid];
            && p.id in s.recs
            && Step(cfg, s, FinishReturns(pid)) ==
               if s.recs[p.id].flush.Published? then s.(procs := s.procs[pid := Returned(p.id, p.save, s.recs[p.id].body)]) else s
  {
    hide Inv, RecOk, Shaped, StopUnderLock;
    RequestFacts(cfg, s, pid);
    RowFacts(cfg, s, s.procs[pid].id);
  }

  /** A save goes on to a version if and only if its recording has stopped with some code, and then with exactly
      the code and checks of the row. */
  lemma SavesWhatStopped(cfg: Config, s: Sys, pid: nat)
    requires Inv(cfg, s) && pid in s.procs && s.procs[pid].Returned? && s.procs[pid].save && Shaped(s.procs[pid].copy)
    ensures var p := s.procs[pid];
            var after := Step(cfg, s, SaveChecks(pid));
            && after.recs == s.recs
            && if StatusOf(p.copy) == Stopped && p.copy[Code] != Text("")
               then p.id in s.recs && pid in after.procs && after.procs[pid].Saved? && after.procs[pid].id == p.id &&
                    Shows(s.recs[p.id].body, Output(after.procs[pid].code, after.procs[pid].checks))
               else after.procs == s.procs - {pid}
  {
    RequestFacts(cfg, s, pid);
    RowFacts(cfg, s, s.procs[pid].id);
    hide Inv, RecOk;
  }

  // ---- polling ----

  /** A poll asks the controller if and only if it reads a ready row. */
  lemma PollsReadyRows(cfg: Config, s: Sys, pid: nat, id: nat)
    requires Inv(cfg, s) && pid !in s.procs && id in s.recs
    ensures Shaped(s.recs[id].body)
    ensures Step(cfg, s, PollBegins(pid, id)) ==
            if StatusOf(s.recs[id].body) == Ready then s.(procs := s.procs[pid := Polling(id)]) else s
  {
    hide Inv, RecOk, Shaped, PollSection, Unpublishable;
    RowFacts(cfg, s, id);
  }

  /** A poll of a row that is still ready publishes its reading in redacted form, or closes the row with the
      redacted message if that is not empty; then the request is over. */
  lemma PollsPublish(cfg: Config, s: Sys, pid: nat, now: int)
    requires Inv(cfg, s) && pid in s.procs && s.procs[pid].Polled?
    ensures var p := s.procs[pid];
            var after := Step(cfg, s, PollPublishes(pid, now));
            && p.id in s.recs && p.id in after.recs && after.procs == s.procs - {pid}
            && after.recs == s.recs[p.id := s.recs[p.id].(body := after.recs[p.id].body)]
            && var before, body := s.recs[p.id].body, after.recs[p.id].body;
            && Shaped(before)
            && var env := EnvOf(before);
            if StatusOf(before) != Ready then body == before
            else if p.answer.Broken? && cfg.redactText(Some(env), p.answer.message) != ""
            then Fails(before, body, cfg.redactText(Some(env), p.answer.message))
            else if Reading(p.answer).Some?
            then && HasStatus(body) && StatusOf(body) == Ready && OnlyChanges(before, body, {Code, ChecksKey})
                 && Shows(body, cfg.redactOutput(env, Reading(p.answer).value))
            else body == before
  {
    var p := s.procs[pid];
    RequestFacts(cfg, s, pid);
    RowFacts(cfg, s, p.id);
    hide Inv, RecOk;
    PollWrites(cfg, s.recs[p.id].body, p.answer, now);
    hide PollSection, OnlyChanges, Unpublishable;
  }

  // ---- restarting ----

  /** After a restart no recording is active, for any user, and no request is left. */
  lemma RestartsEndEverything(cfg: Config, s: Sys, now: int, cleanupFails: bool, user: string)
    requires Inv(cfg, s)
    ensures var after := Step(cfg, s, Restart(now, cleanupFails));
            && ActiveOf(after.recs, user) == {} && after.procs == map[] && after.recs.Keys == s.recs.Keys
            && forall id :: id in s.recs ==>
                 var before, body := s.recs[id].body, after.recs[id].body;
                 && HasStatus(before) && HasStatus(body) && StatusOf(body) in {Stopped, Error}
                 && (body != before <==> StatusOf(before) in {Starting, Ready, Stopping})
  {
    hide RecOk, AfterRestart, ProcOk, Shaped, HasStatus;
    var after := Step(cfg, s, Restart(now, cleanupFails));
    forall id | id in s.recs
      ensures HasStatus(s.recs[id].body) && HasStatus(after.recs[id].body)
      ensures StatusOf(after.recs[id].body) in {Stopped, Error}
      ensures after.recs[id].body != s.recs[id].body <==> StatusOf(s.recs[id].body) in {Starting, Ready, Stopping} {
      RestartEnds(cfg, s.recs[id], now, cleanupFails);
    }
  }

  lemma RestartEnds(cfg: Config, r: Rec, now: int, cleanupFails: bool)
    requires RecOk(cfg, r)
    ensures HasStatus(r.body)
    ensures var body := AfterRestart(r, now, cleanupFails).body;
            && HasStatus(body) && StatusOf(body) in {Stopped, Error}
            && (body != r.body <==> StatusOf(r.body) in {Starting, Ready, Stopping})
  {
    hide Recovery.AfterRecovery;
    Recovery.NothingIsLeftOpen(Recording, r.body, now, cleanupFails);
  }

  // ---- where the code of a row comes from ----

  /** The run brought this output for the recording: from its flush, or from one of its polls. */
  ghost predicate Brought(run: seq<Action>, id: nat, output: Output) {
    || FlushReturns(id, Success(output)) in run
    || exists pid, answer :: PolledIn(run, id, pid, answer) && Reading(answer) == Some(output)
  }

  predicate PolledIn(run: seq<Action>, id: nat, pid: nat, answer: Answer) {
    PollBegins(pid, id) in run && PollReturns(pid, answer) in run
  }

  ghost predicate CodeSourced(cfg: Config, body: Body, id: nat, run: seq<Action>)
    requires Shaped(body)
  {
    || Shows(body, Output("", []))
    || exists output :: Brought(run, id, output) && Shows(body, cfg.redactOutput(EnvOf(body), output))
  }

  ghost predicate RecSourced(cfg: Config, r: Rec, id: nat, run: seq<Action>) {
    && Shaped(r.body) && CodeSourced(cfg, r.body, id, run)
    && (r.flush.Flushed? && r.flush.outcome.Success? ==> FlushReturns(id, r.flush.outcome) in run)
  }

  predicate ProcSourced(p: Proc, pid: nat, run: seq<Action>) {
    match p
    case Polling(id) => PollBegins(pid, id) in run
    case Polled(id, answer) => PolledIn(run, id, pid, answer)
    case _ => true
  }

  ghost predicate Sourced(cfg: Config, s: Sys, run: seq<Action>) {
    && (forall id :: id in s.recs ==> RecSourced(cfg, s.recs[id], id, run))
    && (forall pid :: pid in s.procs ==> ProcSourced(s.procs[pid], pid, run))
  }

  /** The code stays, and so does the environment that its redaction depends on. */
  predicate CodeKept(body: Body, after: Body) {
    && Shaped(body) && Shaped(after) && EnvOf(after) == EnvOf(body)
    && after[Code] == body[Code] && after[ChecksKey] == body[ChecksKey]
  }

  lemma KeptOutside(body: Body, after: Body, keys: set<Field>)
    requires Shaped(body) && HasStatus(after) && ViewerUrl in after
    requires OnlyChanges(body, after, keys) && keys <= {StatusKey, ErrorKey, ViewerUrl}
    ensures CodeKept(body, after)
  {
    OnlyChangesMore(body, after, keys, {StatusKey, ErrorKey, ViewerUrl});
    RestartKeepsShape(body, after);
  }

  lemma ViewerKept(body: Body, after: Body)
    requires Shaped(body) && OnlyChanges(body, after, {Code, ChecksKey})
    ensures ViewerUrl in after
  {
    assert ViewerUrl in body.Keys - {Code, ChecksKey} - {UpdatedAt};
  }

  lemma Republished(body: Body, after: Body, safe: Output, keys: set<Field>)
    requires Shaped(body) && HasStatus(after) && ViewerUrl in after && Shows(after, safe)
    requires OnlyChanges(body, after, keys) && keys <= {StatusKey, ErrorKey, ViewerUrl, Code, ChecksKey}
    ensures Shaped(after) && EnvOf(after) == EnvOf(body)
  {
    OnlyChangesMore(body, after, keys, {StatusKey, ErrorKey, ViewerUrl, Code, ChecksKey});
    StaysShaped(body, after);
  }

  lemma StillSourced(cfg: Config, r: Rec, after: Rec, id: nat, run: seq<Action>, a: Action)
    requires RecSourced(cfg, r, id, run) && CodeKept(r.body, after.body)
    requires after.flush.Flushed? && after.flush.outcome.Success? ==> FlushReturns(id, after.flush.outcome) in run + [a]
    ensures RecSourced(cfg, after, id, run + [a])
  {
    if output :| Brought(run, id, output) && Shows(r.body, cfg.redactOutput(EnvOf(r.body), output)) {
      StillBrought(run, a, id, output);
    }
  }

  lemma StillBrought(run: seq<Action>, a: Action, id: nat, output: Output)
    requires Brought(run, id, output)
    ensures Brought(run + [a], id, output)
  {
    if pid, answer :| PolledIn(run, id, pid, answer) && Reading(answer) == Some(output) {
      assert PolledIn(run + [a], id, pid, answer);
    }
  }

  lemma NewlySourced(cfg: Config, body: Body, after: Rec, id: nat, run: seq<Action>, a: Action, output: Output)
    requires Shaped(after.body) && Brought(run, id, output) && Shows(after.body, cfg.redactOutput(EnvOf(after.body), output))
    requires !after.flush.Flushed?
    ensures RecSourced(cfg, after, id, run + [a])
  {
    StillBrought(run, a, id, output);
  }

  /** A row other than the one a step is about, or one the step leaves alone. */
  lemma Unmoved(cfg: Config, s: Sys, run: seq<Action>, a: Action, id: nat)
    requires Sourced(cfg, s, run) && id in s.recs
    ensures RecSourced(cfg, s.recs[id], id, run + [a])
  {
    StillSourced(cfg, s.recs[id], s.recs[id], id, run, a);
  }

  lemma ProcUnmoved(s: Sys, cfg: Config, run: seq<Action>, a: Action, pid: nat)
    requires Sourced(cfg, s, run) && pid in s.procs
    ensures ProcSourced(s.procs[pid], pid, run + [a])
  {
  }

  /** One row and one request may move in a step; if what they become is sourced, everything is. */
  lemma OneMoves(cfg: Config, s: Sys, after: Sys, run: seq<Action>, a: Action, id: nat, pid: nat)
    requires Sourced(cfg, s, run)
    requires after.recs - {id} == s.recs - {id} && after.procs - {pid} == s.procs - {pid}
    requires id in after.recs ==> RecSourced(cfg, after.recs[id], id, run + [a])
    requires pid in after.procs ==> ProcSourced(after.procs[pid], pid, run + [a])
    ensures Sourced(cfg, after, run + [a])
  {
    forall i | i in after.recs ensures RecSourced(cfg, after.recs[i], i, run + [a]) {
      if i != id {
        assert i in after.recs - {id} && (after.recs - {id})[i] == after.recs[i];
        assert (s.recs - {id})[i] == s.recs[i];
        Unmoved(cfg, s, run, a, i);
      }
    }
    forall q | q in after.procs ensures ProcSourced(after.procs[q], q, run + [a]) {
      if q != pid {
        assert q in after.procs - {pid} && (after.procs - {pid})[q] == after.procs[q];
        assert (s.procs - {pid})[q] == s.procs[q];
        ProcUnmoved(s, cfg, run, a, q);
      }
    }
  }

  /** Steps of a request that leave all rows alone. */
  lemma RequestOnly(cfg: Config, s: Sys, a: Action, pid: nat)
    requires || ((a.LockUser? || a.CountActive? || a.FinishReturns? || a.SaveChecks? || a.PollBegins? || a.PollReturns?) && a.pid == pid)
             || (a.Insert? && a.pid == pid && !(pid in s.procs && s.procs[pid].Counted? && a.id !in s.recs))
             || (a.PollPublishes? && a.pid == pid && !(pid in s.procs && s.procs[pid].Polled?))
             || (a.FinishBegins? && a.pid == pid && !(pid !in s.procs && a.id in s.recs))
             || (a.FinishResumes? && a.pid == pid && !(pid in s.procs && s.procs[pid].AwaitStarter?))
    ensures var after := Step(cfg, s, a);
            && after.recs == s.recs && after.procs - {pid} == s.procs - {pid}
            && (pid in after.procs ==>
                  || (pid in s.procs && after.procs[pid] == s.procs[pid])
                  || (a.PollBegins? && after.procs[pid] == Polling(a.id))
                  || (a.PollReturns? && pid in s.procs && s.procs[pid].Polling? && after.procs[pid] == Polled(s.procs[pid].id, a.answer))
                  || (!after.procs[pid].Polling? && !after.procs[pid].Polled?))
  {
    hide StopUnderLock, Shaped, HasStatus, PollSection, Unpublishable, NewRecording;
  }

  lemma RequestSourced(cfg: Config, s: Sys, run: seq<Action>, a: Action, pid: nat)
    requires Sourced(cfg, s, run)
    requires || ((a.LockUser? || a.CountActive? || a.FinishReturns? || a.SaveChecks? || a.PollBegins? || a.PollReturns?) && a.pid == pid)
             || (a.Insert? && a.pid == pid && !(pid in s.procs && s.procs[pid].Counted? && a.id !in s.recs))
             || (a.PollPublishes? && a.pid == pid && !(pid in s.procs && s.procs[pid].Polled?))
             || (a.FinishBegins? && a.pid == pid && !(pid !in s.procs && a.id in s.recs))
             || (a.FinishResumes? && a.pid == pid && !(pid in s.procs && s.procs[pid].AwaitStarter?))
    ensures Sourced(cfg, Step(cfg, s, a), run + [a])
  {
    hide Step, RecSourced;
    var after := Step(cfg, s, a);
    RequestOnly(cfg, s, a, pid);
    if pid in s.procs {
      ProcUnmoved(s, cfg, run, a, pid);
    }
    assert pid in after.procs ==> ProcSourced(after.procs[pid], pid, run + [a]);
    hide Sourced;
    OnlyTheRequestMoves(cfg, s, after, run, a, pid);
  }

  /** The controller's answers move tasks only. */
  lemma TaskOnly(cfg: Config, s: Sys, a: Action)
    requires || a.StartReturns? || a.UndoReturns? || a.FlushReturns?
             || (a.StartSettles? && !(a.id in s.recs && s.recs[a.id].starter.Launched?))
             || (a.FlushPublishes? && !(a.id in s.recs && s.recs[a.id].flush.Flushed?))
    ensures var after := Step(cfg, s, a);
            || after == s
            || (&& a.id in s.recs && a.id in after.recs && after == s.(recs := s.recs[a.id := after.recs[a.id]])
                && after.recs[a.id].body == s.recs[a.id].body && Shaped(s.recs[a.id].body)
                && after.recs[a.id].flush == if a.FlushReturns? then Flushed(a.outcome) else s.recs[a.id].flush)
  {
    hide StartSection, FlushSection;
  }

  lemma TaskSourced(cfg: Config, s: Sys, run: seq<Action>, a: Action)
    requires Sourced(cfg, s, run)
    requires || a.StartReturns? || a.UndoReturns? || a.FlushReturns?
             || (a.StartSettles? && !(a.id in s.recs && s.recs[a.id].starter.Launched?))
             || (a.FlushPublishes? && !(a.id in s.recs && s.recs[a.id].flush.Flushed?))
    ensures Sourced(cfg, Step(cfg, s, a), run + [a])
  {
    hide Step, Shaped;
    var after := Step(cfg, s, a);
    TaskOnly(cfg, s, a);
    if after == s {
      NothingMoves(cfg, s, run, a);
    } else {
      StillSourced(cfg, s.recs[a.id], after.recs[a.id], a.id, run, a);
      OnlyTheRowMoves(cfg, s, after, run, a, a.id);
    }
  }

  lemma NewIsSourced(cfg: Config, s: Sys, a: Action, run: seq<Action>)
    requires a.Insert? && a.pid in s.procs && s.procs[a.pid].Counted? && a.id !in s.recs
    ensures a.id in Step(cfg, s, a).recs ==> RecSourced(cfg, Step(cfg, s, a).recs[a.id], a.id, run + [a])
  {
    CreatesBelowTheLimit(cfg, s, a.pid, a.id, a.env, a.now);
  }

  lemma CreateSourced(cfg: Config, s: Sys, run: seq<Action>, a: Action)
    requires Inv(cfg, s) && Sourced(cfg, s, run) && (a.LockUser? || a.CountActive? || a.Insert?)
    ensures Sourced(cfg, Step(cfg, s, a), run + [a])
  {
    hide Step, Inv, RecSourced, ProcSourced;
    if a.Insert? && a.pid in s.procs && s.procs[a.pid].Counted? && a.id !in s.recs {
      var after := Step(cfg, s, a);
      CreatesBelowTheLimit(cfg, s, a.pid, a.id, a.env, a.now);
      NewIsSourced(cfg, s, a, run);
      hide Sourced;
      OneMoves(cfg, s, after, run, a, a.id, a.pid);
    } else {
      RequestSourced(cfg, s, run, a, a.pid);
    }
  }

  lemma OnlyTheRequestMoves(cfg: Config, s: Sys, after: Sys, run: seq<Action>, a: Action, pid: nat)
    requires Sourced(cfg, s, run) && after.recs == s.recs && after.procs - {pid} == s.procs - {pid}
    requires pid in after.procs ==> ProcSourced(after.procs[pid], pid, run + [a])
    ensures Sourced(cfg, after, run + [a])
  {
    if id :| id in s.recs {
      Unmoved(cfg, s, run, a, id);
      OneMoves(cfg, s, after, run, a, id, pid);
    } else {
      OneMoves(cfg, s, after, run, a, 0, pid);
    }
  }

  lemma OnlyTheRowMoves(cfg: Config, s: Sys, after: Sys, run: seq<Action>, a: Action, id: nat)
    requires Sourced(cfg, s, run) && after.procs == s.procs && after.recs - {id} == s.recs - {id}
    requires id in after.recs ==> RecSourced(cfg, after.recs[id], id, run + [a])
    ensures Sourced(cfg, after, run + [a])
  {
    if pid :| pid in s.procs {
      ProcUnmoved(s, cfg, run, a, pid);
      OneMoves(cfg, s, after, run, a, id, pid);
    } else {
      OneMoves(cfg, s, after, run, a, id, 0);
    }
  }

  lemma NothingMoves(cfg: Config, s: Sys, run: seq<Action>, a: Action)
    requires Sourced(cfg, s, run)
    ensures Sourced(cfg, s, run + [a])
  {
    forall id | id in s.recs ensures RecSourced(cfg, s.recs[id], id, run + [a]) {
      Unmoved(cfg, s, run, a, id);
    }
  }

  lemma FlushOf(cfg: Config, s: Sys, run: seq<Action>, id: nat)
    requires Sourced(cfg, s, run) && id in s.recs
    ensures RecSourced(cfg, s.recs[id], id, run) && Shaped(s.recs[id].body)
    ensures s.recs[id].flush.Flushed? && s.recs[id].flush.outcome.Success? ==> FlushReturns(id, s.recs[id].flush.outcome) in run
  {
  }

  lemma StarterSourced(cfg: Config, s: Sys, run: seq<Action>, a: Action)
    requires Inv(cfg, s) && Sourced(cfg, s, run) && (a.StartReturns? || a.StartSettles? || a.UndoReturns?)
    ensures Sourced(cfg, Step(cfg, s, a), run + [a])
  {
    hide Step, Inv, OnlyChanges, RecSourced;
    if a.StartSettles? && a.id in s.recs && s.recs[a.id].starter.Launched? {
      var after := Step(cfg, s, a);
      StartsSettle(cfg, s, a.id, a.now);
      KeptOutside(s.recs[a.id].body, after.recs[a.id].body,
                  if s.recs[a.id].starter.outcome.Success? then {StatusKey, ViewerUrl} else {StatusKey, ErrorKey, ViewerUrl});
      FlushOf(cfg, s, run, a.id);
      StillSourced(cfg, s.recs[a.id], after.recs[a.id], a.id, run, a);
      hide Sourced, CodeKept;
      OnlyTheRowMoves(cfg, s, after, run, a, a.id);
    } else {
      TaskSourced(cfg, s, run, a);
    }
  }

  lemma FlushSourced(cfg: Config, s: Sys, run: seq<Action>, a: Action)
    requires Inv(cfg, s) && Sourced(cfg, s, run) && (a.FlushReturns? || a.FlushPublishes?)
    ensures Sourced(cfg, Step(cfg, s, a), run + [a])
  {
    hide Step, Inv, OnlyChanges, RecSourced;
    if a.FlushPublishes? && a.id in s.recs && s.recs[a.id].flush.Flushed? {
      var after := Step(cfg, s, a);
      var before, outcome := s.recs[a.id].body, s.recs[a.id].flush.outcome;
      FlushesPublish(cfg, s, a.id, a.now);
      FlushOf(cfg, s, run, a.id);
      if outcome.Success? {
        Republished(before, after.recs[a.id].body, cfg.redactOutput(EnvOf(before), outcome.value),
                    {StatusKey, ViewerUrl, Code, ChecksKey});
        NewlySourced(cfg, before, after.recs[a.id], a.id, run, a, outcome.value);
      } else {
        KeptOutside(before, after.recs[a.id].body, {StatusKey, ErrorKey, ViewerUrl});
        StillSourced(cfg, s.recs[a.id], after.recs[a.id], a.id, run, a);
      }
      hide Sourced, CodeKept;
      OnlyTheRowMoves(cfg, s, after, run, a, a.id);
    } else {
      TaskSourced(cfg, s, run, a);
    }
  }

  lemma FinishSourced(cfg: Config, s: Sys, run: seq<Action>, a: Action)
    requires Inv(cfg, s) && Sourced(cfg, s, run) && (a.FinishBegins? || a.FinishResumes? || a.FinishReturns? || a.SaveChecks?)
    ensures Sourced(cfg, Step(cfg, s, a), run + [a])
  {
    hide Step, Inv, OnlyChanges, RecSourced, Stops;
    var after := Step(cfg, s, a);
    if a.FinishBegins? && a.pid !in s.procs && a.id in s.recs {
      StopsBegin(cfg, s, a.pid, a.id, a.save, a.now);
      if Stops(s, after, a.pid, a.id, a.save) {
        StopSourced(cfg, s, after, run, a, a.pid, a.id, a.save);
      } else {
        OnlyTheRequestMoves(cfg, s, after, run, a, a.pid);
      }
    } else if a.FinishResumes? && a.pid in s.procs && s.procs[a.pid].AwaitStarter? {
      StopsResume(cfg, s, a.pid, a.now);
      if Stops(s, after, a.pid, s.procs[a.pid].id, s.procs[a.pid].save) {
        StopSourced(cfg, s, after, run, a, a.pid, s.procs[a.pid].id, s.procs[a.pid].save);
      } else {
        NothingMoves(cfg, s, run, a);
      }
    } else {
      RequestSourced(cfg, s, run, a, a.pid);
    }
  }

  lemma StopSourced(cfg: Config, s: Sys, after: Sys, run: seq<Action>, a: Action, pid: nat, id: nat, save: bool)
    requires Sourced(cfg, s, run) && Stops(s, after, pid, id, save)
    ensures Sourced(cfg, after, run + [a])
  {
    hide OnlyChanges;
    if StatusOf(s.recs[id].body) == Ready {
      KeptOutside(s.recs[id].body, after.recs[id].body, {StatusKey, ViewerUrl});
      StillSourced(cfg, s.recs[id], after.recs[id], id, run, a);
      OneMoves(cfg, s, after, run, a, id, pid);
    } else {
      OnlyTheRequestMoves(cfg, s, after, run, a, pid);
    }
  }

  lemma PollSourced(cfg: Config, s: Sys, run: seq<Action>, a: Action)
    requires Inv(cfg, s) && Sourced(cfg, s, run) && (a.PollBegins? || a.PollReturns? || a.PollPublishes?)
    ensures Sourced(cfg, Step(cfg, s, a), run + [a])
  {
    hide Step, Inv, Sourced;
    if a.PollPublishes? && a.pid in s.procs && s.procs[a.pid].Polled? {
      PublishSourced(cfg, s, run, a.pid, a.now);
    } else {
      RequestSourced(cfg, s, run, a, a.pid);
    }
  }

  lemma PublishSourced(cfg: Config, s: Sys, run: seq<Action>, pid: nat, now: int)
    requires Inv(cfg, s) && Sourced(cfg, s, run) && pid in s.procs && s.procs[pid].Polled?
    ensures Sourced(cfg, Step(cfg, s, PollPublishes(pid, now)), run + [PollPublishes(pid, now)])
  {
    var a := PollPublishes(pid, now);
    var after, p := Step(cfg, s, a), s.procs[pid];
    PollsPublish(cfg, s, pid, now);
    assert !(StatusOf(s.recs[p.id].body) == Ready && s.recs[p.id].flush.Flushed?) by {
      assert RecOk(cfg, s.recs[p.id]);
    }
    hide Step, Inv, OnlyChanges;
    var before, body := s.recs[p.id].body, after.recs[p.id].body;
    if body == before {
      Unmoved(cfg, s, run, a, p.id);
    } else if p.answer.Broken? && cfg.redactText(Some(EnvOf(before)), p.answer.message) != "" {
      KeptOutside(before, body, {StatusKey, ErrorKey, ViewerUrl});
      StillSourced(cfg, s.recs[p.id], after.recs[p.id], p.id, run, a);
    } else {
      var output := Reading(p.answer).value;
      ViewerKept(before, body);
      Republished(before, body, cfg.redactOutput(EnvOf(before), output), {Code, ChecksKey});
      assert PolledIn(run, p.id, pid, p.answer);
      NewlySourced(cfg, before, after.recs[p.id], p.id, run, a, output);
    }
    OneMoves(cfg, s, after, run, a, p.id, pid);
  }

  lemma RestartSourced(cfg: Config, s: Sys, run: seq<Action>, now: int, cleanupFails: bool)
    requires Inv(cfg, s) && Sourced(cfg, s, run)
    ensures Sourced(cfg, Step(cfg, s, Restart(now, cleanupFails)), run + [Restart(now, cleanupFails)])
  {
    var a := Restart(now, cleanupFails);
    var after := Step(cfg, s, a);
    forall id | id in after.recs ensures RecSourced(cfg, after.recs[id], id, run + [a]) {
      RestartKeepsCode(cfg, s.recs[id], now, cleanupFails);
      StillSourced(cfg, s.recs[id], after.recs[id], id, run, a);
      hide RecOk, RecSourced, AfterRestart;
    }
  }

  lemma RestartKeepsCode(cfg: Config, r: Rec, now: int, cleanupFails: bool)
    requires RecOk(cfg, r)
    ensures CodeKept(r.body, AfterRestart(r, now, cleanupFails).body) && !AfterRestart(r, now, cleanupFails).flush.Flushed?
  {
    Recovery.ActiveByStatus(Recording, r.body);
    hide OnlyChanges;
    if Recovery.Active(Recording, r.body) {
      Recovery.ClosedRowShape(Recording, r.body, now, cleanupFails);
      KeptOutside(r.body, Recovery.AfterRecovery(Recording, r.body, now, cleanupFails), {StatusKey, ErrorKey, ViewerUrl});
      hide Recovery.AfterRecovery, RecOk, CodeKept;
    }
  }

  lemma StepSourced(cfg: Config, s: Sys, run: seq<Action>, a: Action)
    requires Inv(cfg, s) && Sourced(cfg, s, run)
    ensures Sourced(cfg, Step(cfg, s, a), run + [a])
  {
    match a
    case LockUser(_, _) | CountActive(_) | Insert(_, _, _, _) => CreateSourced(cfg, s, run, a);
    case StartReturns(_, _) | StartSettles(_, _) | UndoReturns(_, _) => StarterSourced(cfg, s, run, a);
    case FlushReturns(_, _) | FlushPublishes(_, _) => FlushSourced(cfg, s, run, a);
    case FinishBegins(_, _, _, _) | FinishResumes(_, _) | FinishReturns(_) | SaveChecks(_) => FinishSourced(cfg, s, run, a);
    case PollBegins(_, _) | PollReturns(_, _) | PollPublishes(_, _) => PollSourced(cfg, s, run, a);
    case Disconnect(pid) => hide Inv; OnlyTheRequestMoves(cfg, s, Step(cfg, s, a), run, a, pid);
    case Restart(now, cleanupFails) => RestartSourced(cfg, s, run, now, cleanupFails);
  }

  /** Over every run: what a row shows is nothing, or the redacted form of an output that its own flush or one of
      its own polls brought. */
  lemma {:induction false} CodeHasASource(cfg: Config, run: seq<Action>, id: nat)
    requires id in Reach(cfg, run).recs
    ensures Shaped(Reach(cfg, run).recs[id].body) && CodeSourced(cfg, Reach(cfg, run).recs[id].body, id, run)
  {
    ReachSourced(cfg, run);
  }

  lemma {:induction false} ReachSourced(cfg: Config, run: seq<Action>)
    ensures Sourced(cfg, Reach(cfg, run), run)
  {
    if run != [] {
      hide Step, Inv, Sourced;
      var n := |run| - 1;
      ReachSourced(cfg, run[..n]);
      ReachKeepsInv(cfg, run[..n]);
      StepSourced(cfg, Reach(cfg, run[..n]), run[..n], run[n]);
      assert run == run[..n] + [run[n]];
      ExecConcat(cfg, INITIAL, run[..n], [run[n]]);
      assert Exec(cfg, Reach(cfg, run[..n]), [run[n]]) == Exec(cfg, Step(cfg, Reach(cfg, run[..n]), run[n]), []);
    }
  }
}
