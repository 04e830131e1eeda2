/** The life of a recording. One starter task, one flush task, and any number of stop requests, save
    requests, sweeper passes, pollers and creators interleave; the row lock is held only inside one
    critical section, never across a call to the controller. */
module RecordingProtocol {
  import opened Collections
  import opened Domain
  import opened Store
  import opened Recordings
  import Recovery

  /** The task tracked under the recording's id; it leaves the task table when it settles. */
  datatype Starter = Launching | Launched(outcome: Result<(), StartError>) | Undoing | Settled

  /** The task tracked under `stop:<id>`. */
  datatype Flush =
    | Idle
    | Flushing
    | Flushed(outcome: Result<Output, string>)
    | Published(outcome: Result<Output, string>)

  /** `flushes` counts the flush tasks ever spawned. */
  datatype Rec = Rec(body: Body, starter: Starter, flush: Flush, flushes: nat)

  /** Where a request stands, with the local copies it holds. */
  datatype Proc =
    | LockedUser(user: string)
    | Counted(user: string, active: nat)
    | AwaitStarter(id: nat, save: bool)
    | AwaitFlush(id: nat, save: bool)
    | Returned(id: nat, save: bool, copy: Body)
    | Saved(id: nat, code: string, checks: seq<Check>)
    | Polling(id: nat)
    | Polled(id: nat, answer: Answer)

  /** `fault` records a refused update or a missing task, which no handler expects; `unbound` lists the
      recordings of the polls that raised because they had nothing to publish. */
  datatype Sys = Sys(recs: map<nat, Rec>, procs: map<nat, Proc>, fault: bool, unbound: seq<nat>)

  datatype Action =
    | LockUser(pid: nat, user: string)
    | CountActive(pid: nat)
    | Insert(pid: nat, id: nat, env: string, now: int)
    | StartReturns(id: nat, started: Result<(), StartError>)
    | StartSettles(id: nat, now: int)
    | UndoReturns(id: nat, started: Result<(), StartError>)
    | FinishBegins(pid: nat, id: nat, save: bool, now: int)
    | FinishResumes(pid: nat, now: int)
    | FlushReturns(id: nat, outcome: Result<Output, string>)
    | FlushPublishes(id: nat, now: int)
    | FinishReturns(pid: nat)
    | SaveChecks(pid: nat)
    | PollBegins(pid: nat, id: nat)
    | PollReturns(pid: nat, answer: Answer)
    | PollPublishes(pid: nat, now: int)
    | Disconnect(pid: nat)
    | Restart(now: int, cleanupFails: bool)

  const INITIAL := Sys(map[], map[], false, [])

  predicate IsActive(body: Body, user: string) {
    HasStatus(body) && StatusOf(body) in ACTIVE_RECORDINGS && CreatedBy in body && body[CreatedBy] == Text(user)
  }

  function ActiveOf(recs: map<nat, Rec>, user: string): set<nat> {
    set id | id in recs && IsActive(recs[id].body, user)
  }

  predicate HoldsUser(p: Proc, user: string) {
    (p.LockedUser? || p.Counted?) && p.user == user
  }

  /** Writes a section's outcome into row `id`, whose tasks are now `rec`'s. */
  function Commit(s: Sys, id: nat, rec: Rec, write: Write): Sys {
    match write
    case Keep => s.(recs := s.recs[id := rec])
    case Put(Success(merged)) => s.(recs := s.recs[id := rec.(body := merged)])
    case Put(Failure(_)) => s.(fault := true)
  }

  /** The stop section of request `pid`: return at once, or spawn the flush and wait for it. */
  function StopUnderLock(s: Sys, pid: nat, id: nat, save: bool, now: int): Sys
    requires id in s.recs && Shaped(s.recs[id].body)
  {
    var rec := s.recs[id];
    match StopSection(rec.body, now)
    case Keep => s.(procs := s.procs[pid := Returned(id, save, rec.body)])
    case Put(update) =>
      Commit(s, id, rec.(flush := Flushing, flushes := rec.flushes + 1), Put(update))
        .(procs := s.procs[pid := AwaitFlush(id, save)])
  }

  function AfterRestart(rec: Rec, now: int, cleanupFails: bool): Rec {
    Rec(if HasStatus(rec.body) then Recovery.AfterRecovery(Recording, rec.body, now, cleanupFails) else rec.body,
        Settled,
        if rec.flush.Flushing? || rec.flush.Flushed? then Published(Failure(Recovery.RECORDING_INTERRUPTED)) else rec.flush,
        rec.flushes)
  }

  predicate KnownRow(s: Sys, id: nat) {
    id in s.recs && Shaped(s.recs[id].body)
  }

  /** One atomic step. An action whose actor is not at that point, or has to wait, changes nothing. */
  function Step(cfg: Config, s: Sys, a: Action): Sys {
    match a
    case LockUser(_, _) | CountActive(_) | Insert(_, _, _, _) => CreateStep(cfg, s, a)
    case StartReturns(_, _) | StartSettles(_, _) | UndoReturns(_, _) => StarterStep(cfg, s, a)
    case FlushReturns(_, _) | FlushPublishes(_, _) => FlushStep(cfg, s, a)
    case FinishBegins(_, _, _, _) | FinishResumes(_, _) | FinishReturns(_) | SaveChecks(_) => FinishStep(s, a)
    case PollBegins(_, _) | PollReturns(_, _) | PollPublishes(_, _) => PollStep(cfg, s, a)
    case Disconnect(pid) => s.(procs := s.procs - {pid})
    case Restart(now, fails) => s.(recs := map id | id in s.recs :: AfterRestart(s.recs[id], now, fails), procs := map[])
  }

  /** `create_recording` from the lock on the user's row on. */
  function CreateStep(cfg: Config, s: Sys, a: Action): Sys {
    match a
    case LockUser(pid, user) =>
      if pid in s.procs || exists q :: q in s.procs && HoldsUser(s.procs[q], user) then s
      else s.(procs := s.procs[pid := LockedUser(user)])
    case CountActive(pid) =>
      if pid in s.procs && s.procs[pid].LockedUser? then
        s.(procs := s.procs[pid := Counted(s.procs[pid].user, |ActiveOf(s.recs, s.procs[pid].user)|)])
      else s
    case Insert(pid, id, env, now) =>
      if pid !in s.procs || !s.procs[pid].Counted? || id in s.recs then s
      else if s.procs[pid].active >= cfg.limit then s.(procs := s.procs - {pid})
      else s.(recs := s.recs[id := Rec(NewRecording(s.procs[pid].user, env, now), Launching, Idle, 0)],
              procs := s.procs - {pid})
    case _ => s
  }

  function StarterStep(cfg: Config, s: Sys, a: Action): Sys {
    match a
    case StartReturns(id, outcome) =>
      if KnownRow(s, id) && s.recs[id].starter.Launching? then
        s.(recs := s.recs[id := s.recs[id].(starter := Launched(outcome))])
      else s
    case StartSettles(id, now) =>
      if KnownRow(s, id) && s.recs[id].starter.Launched? then
        var rec := s.recs[id];
        var write := StartSection(cfg, id, rec.body, rec.starter.outcome, now);
        Commit(s, id, rec.(starter := if write.Keep? && rec.starter.outcome.Success? then Undoing else Settled), write)
      else s
    case UndoReturns(id, outcome) =>
      if KnownRow(s, id) && s.recs[id].starter.Undoing? then
        s.(recs := s.recs[id := s.recs[id].(starter := if outcome.Success? then Settled else Launched(outcome))])
      else s
    case _ => s
  }

  function FlushStep(cfg: Config, s: Sys, a: Action): Sys {
    match a
    case FlushReturns(id, outcome) =>
      if KnownRow(s, id) && s.recs[id].flush.Flushing? then
        s.(recs := s.recs[id := s.recs[id].(flush := Flushed(outcome))])
      else s
    case FlushPublishes(id, now) =>
      if KnownRow(s, id) && s.recs[id].flush.Flushed? then
        var rec := s.recs[id];
        Commit(s, id, rec.(flush := Published(rec.flush.outcome)), FlushSection(cfg, rec.body, rec.flush.outcome, now))
      else s
    case _ => s
  }

  /** A stop, a save or one row of a sweeper pass. */
  function FinishStep(s: Sys, a: Action): Sys {
    match a
    case FinishBegins(pid, id, save, now) =>
      if pid in s.procs || !KnownRow(s, id) then s
      else if StatusOf(s.recs[id].body) == Starting then
        if s.recs[id].starter.Settled? then s.(fault := true)
        else s.(procs := s.procs[pid := AwaitStarter(id, save)])
      else StopUnderLock(s, pid, id, save, now)
    case FinishResumes(pid, now) =>
      if pid in s.procs && s.procs[pid].AwaitStarter? && KnownRow(s, s.procs[pid].id) &&
         s.recs[s.procs[pid].id].starter.Settled? then
        StopUnderLock(s, pid, s.procs[pid].id, s.procs[pid].save, now)
      else s
    case FinishReturns(pid) =>
      if pid in s.procs && s.procs[pid].AwaitFlush? && KnownRow(s, s.procs[pid].id) &&
         s.recs[s.procs[pid].id].flush.Published? then
        var p := s.procs[pid];
        s.(procs := s.procs[pid := Returned(p.id, p.save, s.recs[p.id].body)])
      else s
    case SaveChecks(pid) =>
      if pid in s.procs && s.procs[pid].Returned? && s.procs[pid].save && Shaped(s.procs[pid].copy) then
        var p := s.procs[pid];
        if StatusOf(p.copy) != Stopped || !p.copy[Code].Text? || p.copy[Code].text == "" || !p.copy[ChecksKey].Checks? then
          s.(procs := s.procs - {pid})
        else s.(procs := s.procs[pid := Saved(p.id, p.copy[Code].text, p.copy[ChecksKey].checks)])
      else s
    case _ => s
  }

  function PollStep(cfg: Config, s: Sys, a: Action): Sys {
    match a
    case PollBegins(pid, id) =>
      if pid !in s.procs && KnownRow(s, id) && StatusOf(s.recs[id].body) == Ready then
        s.(procs := s.procs[pid := Polling(id)])
      else s
    case PollReturns(pid, answer) =>
      if pid in s.procs && s.procs[pid].Polling? then s.(procs := s.procs[pid := Polled(s.procs[pid].id, answer)])
      else s
    case PollPublishes(pid, now) =>
      if pid in s.procs && s.procs[pid].Polled? && KnownRow(s, s.procs[pid].id) then
        var p := s.procs[pid];
        var raised := if Unpublishable(cfg, s.recs[p.id].body, p.answer) then [p.id] else [];
        Commit(s, p.id, s.recs[p.id], PollSection(cfg, s.recs[p.id].body, p.answer, now))
          .(procs := s.procs - {pid}, unbound := s.unbound + raised)
      else s
    case _ => s
  }

  function Exec(cfg: Config, s: Sys, run: seq<Action>): Sys
    decreases |run|
  {
    if run == [] then s else Exec(cfg, Step(cfg, s, run[0]), run[1..])
  }

  // ---- what every step keeps ----

  /** The row carries the redacted form of `output`. */
  predicate Carries(cfg: Config, body: Body, output: Output)
    requires Shaped(body)
  {
    var safe := cfg.redactOutput(EnvOf(body), output);
    body[Code] == Text(safe.code) && body[ChecksKey] == Checks(safe.checks)
  }

  ghost predicate RecOk(cfg: Config, r: Rec) {
    && Shaped(r.body)
    && var st := StatusOf(r.body);
    && st in {Starting, Ready, Stopping, Stopped, Error}
    && !r.starter.Undoing?
    && (st == Starting <==> !r.starter.Settled?)
    && (st == Stopping <==> r.flush.Flushing? || r.flush.Flushed?)
    && (r.flush.Published? ==> st in {Stopped, Error})
    && (st == Stopped ==> r.flush.Published? && r.flush.outcome.Success? && Carries(cfg, r.body, r.flush.outcome.value))
    && r.flushes == (if r.flush.Idle? then 0 else 1)
    && (r.body[ViewerUrl] != Null <==> st == Ready)
  }

  ghost predicate ProcOk(s: Sys, p: Proc) {
    match p
    case LockedUser(_) => true
    case Counted(user, active) => |ActiveOf(s.recs, user)| <= active
    case AwaitStarter(id, _) => id in s.recs
    case AwaitFlush(id, _) => id in s.recs && s.recs[id].flushes == 1
    case Returned(id, _, copy) => id in s.recs && (HasStatus(copy) && StatusOf(copy) == Stopped ==> s.recs[id].body == copy)
    case Saved(id, code, checks) =>
      && id in s.recs && HasStatus(s.recs[id].body) && StatusOf(s.recs[id].body) == Stopped
      && Code in s.recs[id].body && s.recs[id].body[Code] == Text(code) && code != ""
      && ChecksKey in s.recs[id].body && s.recs[id].body[ChecksKey] == Checks(checks)
    case Polling(id) => id in s.recs
    case Polled(id, _) => id in s.recs
  }

  ghost predicate Inv(cfg: Config, s: Sys) {
    && !s.fault
    && (forall id :: id in s.recs ==> RecOk(cfg, s.recs[id]))
    && (forall pid :: pid in s.procs ==> ProcOk(s, s.procs[pid]))
    && (forall p, q, user | p in s.procs && q in s.procs :: HoldsUser(s.procs[p], user) && HoldsUser(s.procs[q], user) ==> p == q)
    && (forall user :: |ActiveOf(s.recs, user)| <= cfg.limit)
  }

  /** How one row may move in one step. */
  ghost predicate Advances(r: Rec, after: Rec) {
    && r.flushes <= after.flushes <= 1
    && (HasStatus(r.body) && StatusOf(r.body) in {Stopped, Error} ==> after.body == r.body)
    && (forall user :: IsActive(after.body, user) ==> IsActive(r.body, user))
  }

  /** No row is created and every row advances: then waiting requests keep their facts and no user gains
      an active recording. */
  lemma RowsAdvance(cfg: Config, s: Sys, after: Sys)
    requires Inv(cfg, s) && after.procs == s.procs && !after.fault
    requires after.recs.Keys == s.recs.Keys
    requires forall id :: id in s.recs ==> RecOk(cfg, after.recs[id]) && Advances(s.recs[id], after.recs[id])
    ensures Inv(cfg, after)
  {
    forall user ensures |ActiveOf(after.recs, user)| <= |ActiveOf(s.recs, user)| {
      SubsetSize(ActiveOf(after.recs, user), ActiveOf(s.recs, user));
    }
    forall pid | pid in after.procs ensures ProcOk(after, after.procs[pid]) {
      assert ProcOk(s, s.procs[pid]);
    }
  }

  lemma RowAdvances(cfg: Config, s: Sys, id: nat, r: Rec)
    requires Inv(cfg, s) && id in s.recs && RecOk(cfg, r) && Advances(s.recs[id], r)
    ensures Inv(cfg, s.(recs := s.recs[id := r]))
  {
    var after := s.(recs := s.recs[id := r]);
    forall i | i in s.recs ensures RecOk(cfg, after.recs[i]) && Advances(s.recs[i], after.recs[i]) {
      assert RecOk(cfg, s.recs[i]);
    }
    RowsAdvance(cfg, s, after);
  }

  lemma ProcMoves(cfg: Config, s: Sys, pid: nat, p: Proc)
    requires Inv(cfg, s) && ProcOk(s, p)
    requires forall user :: HoldsUser(p, user) ==> forall q :: q in s.procs && HoldsUser(s.procs[q], user) ==> q == pid
    ensures Inv(cfg, s.(procs := s.procs[pid := p]))
  {
    var after := s.(procs := s.procs[pid := p]);
    forall q | q in after.procs ensures ProcOk(after, after.procs[q]) {
      if q != pid {
        assert ProcOk(s, s.procs[q]);
      }
    }
  }

  lemma ProcLeaves(cfg: Config, s: Sys, pid: nat)
    requires Inv(cfg, s)
    ensures Inv(cfg, s.(procs := s.procs - {pid}))
  {
    var after := s.(procs := s.procs - {pid});
    forall q | q in after.procs ensures ProcOk(after, after.procs[q]) {
      assert ProcOk(s, s.procs[q]);
    }
  }

  lemma CreateKeepsInv(cfg: Config, s: Sys, a: Action)
    requires Inv(cfg, s) && (a.LockUser? || a.CountActive? || a.Insert?)
    ensures Inv(cfg, CreateStep(cfg, s, a))
  {
    match a {
      case LockUser(pid, user) =>
        if !(pid in s.procs || exists q :: q in s.procs && HoldsUser(s.procs[q], user)) {
          ProcMoves(cfg, s, pid, LockedUser(user));
        }
      case CountActive(pid) =>
        if pid in s.procs && s.procs[pid].LockedUser? {
          var user := s.procs[pid].user;
          assert HoldsUser(s.procs[pid], user);
          ProcMoves(cfg, s, pid, Counted(user, |ActiveOf(s.recs, user)|));
        }
      case Insert(pid, id, env, now) =>
        if pid in s.procs && s.procs[pid].Counted? && id !in s.recs {
          if s.procs[pid].active >= cfg.limit {
            ProcLeaves(cfg, s, pid);
          } else {
            InsertKeepsInv(cfg, s, pid, id, env, now);
          }
        }
    }
  }

  /** The count taken under the user's lock may be out of date, but only upwards. */
  lemma InsertKeepsInv(cfg: Config, s: Sys, pid: nat, id: nat, env: string, now: int)
    requires Inv(cfg, s) && pid in s.procs && s.procs[pid].Counted? && id !in s.recs && s.procs[pid].active < cfg.limit
    ensures Inv(cfg, CreateStep(cfg, s, Insert(pid, id, env, now)))
  {
    var owner := s.procs[pid].user;
    var rec := Rec(NewRecording(owner, env, now), Launching, Idle, 0);
    NewRowOk(cfg, owner, env, now);
    assert ProcOk(s, s.procs[pid]) && HoldsUser(s.procs[pid], owner);
    ProcLeaves(cfg, s, pid);
    var left := s.(procs := s.procs - {pid});
    forall q | q in left.procs ensures !HoldsUser(left.procs[q], owner) {
      assert q in s.procs && q != pid;
    }
    AddedRow(cfg, left, id, rec, owner);
  }

  lemma NewRowOk(cfg: Config, owner: string, env: string, now: int)
    ensures RecOk(cfg, Rec(NewRecording(owner, env, now), Launching, Idle, 0))
    ensures forall user :: IsActive(NewRecording(owner, env, now), user) <==> user == owner
  {
  }

  lemma AddedRow(cfg: Config, s: Sys, id: nat, rec: Rec, owner: string)
    requires Inv(cfg, s) && id !in s.recs && RecOk(cfg, rec)
    requires forall user :: IsActive(rec.body, user) <==> user == owner
    requires |ActiveOf(s.recs, owner)| < cfg.limit
    requires forall q :: q in s.procs ==> !HoldsUser(s.procs[q], owner)
    ensures Inv(cfg, s.(recs := s.recs[id := rec]))
  {
    var after := s.(recs := s.recs[id := rec]);
    forall user ensures |ActiveOf(after.recs, user)| == |ActiveOf(s.recs, user)| + if user == owner then 1 else 0 {
      AddedActive(s.recs, id, rec, user);
    }
    forall q | q in after.procs ensures ProcOk(after, after.procs[q]) {
      AddedRowProc(s, id, rec, s.procs[q], owner);
    }
  }

  lemma AddedActive(recs: map<nat, Rec>, id: nat, rec: Rec, user: string)
    requires id !in recs
    ensures |ActiveOf(recs[id := rec], user)| == |ActiveOf(recs, user)| + if IsActive(rec.body, user) then 1 else 0
  {
    assert ActiveOf(recs[id := rec], user) == ActiveOf(recs, user) + if IsActive(rec.body, user) then {id} else {};
  }

  lemma AddedRowProc(s: Sys, id: nat, rec: Rec, p: Proc, owner: string)
    requires ProcOk(s, p) && !HoldsUser(p, owner) && id !in s.recs
    requires forall user :: IsActive(rec.body, user) <==> user == owner
    ensures ProcOk(s.(recs := s.recs[id := rec]), p)
  {
    if p.Counted? {
      AddedActive(s.recs, id, rec, p.user);
    }
  }

  /** The start always settles on a row that is still starting: the undo branch is dead code. */
  lemma StartRowOk(cfg: Config, id: nat, r: Rec, now: int)
    requires RecOk(cfg, r) && r.starter.Launched?
    ensures var write := StartSection(cfg, id, r.body, r.starter.outcome, now);
            && write.Put? && write.update.Success?
            && RecOk(cfg, r.(starter := Settled, body := write.update.value))
            && Advances(r, r.(starter := Settled, body := write.update.value))
  {
    assert StatusOf(r.body) == Starting;
    if r.starter.outcome.Failure? {
      FailedRowOk(cfg, r, StartMessage(cfg, r.body, r.starter.outcome.error), now, Settled, r.flush);
    }
  }

  lemma FlushRowOk(cfg: Config, r: Rec, now: int)
    requires RecOk(cfg, r) && r.flush.Flushed?
    ensures var write := FlushSection(cfg, r.body, r.flush.outcome, now);
            && write.Put? && write.update.Success?
            && RecOk(cfg, r.(flush := Published(r.flush.outcome), body := write.update.value))
            && Advances(r, r.(flush := Published(r.flush.outcome), body := write.update.value))
  {
    if r.flush.outcome.Success? {
      FlushedRowOk(cfg, r, now);
    } else {
      FailedRowOk(cfg, r, Message(cfg, r.body, r.flush.outcome.error), now, r.starter, Published(r.flush.outcome));
    }
  }

  lemma FlushedRowOk(cfg: Config, r: Rec, now: int)
    requires RecOk(cfg, r) && r.flush.Flushed? && r.flush.outcome.Success?
    ensures var write := FlushSection(cfg, r.body, r.flush.outcome, now);
            && write.Put? && write.update.Success?
            && RecOk(cfg, r.(flush := Published(r.flush.outcome), body := write.update.value))
            && Advances(r, r.(flush := Published(r.flush.outcome), body := write.update.value))
  {
    assert StatusOf(r.body) == Stopping;
  }

  /** The three error writes: a failed start, a failed poll, a failed flush. */
  lemma FailedRowOk(cfg: Config, r: Rec, text: string, now: int, starter: Starter, flush: Flush)
    requires RecOk(cfg, r) && StatusOf(r.body) in {Starting, Ready, Stopping}
    requires starter.Settled? && (flush == r.flush || (r.flush.Flushed? && flush.Published?))
    requires !flush.Flushing? && !flush.Flushed?
    ensures var update := Updated(Recording, r.body, ErrorChanges(text), now);
            && update.Success?
            && RecOk(cfg, r.(starter := starter, flush := flush, body := update.value))
            && Advances(r, r.(starter := starter, flush := flush, body := update.value))
  {
    assert CheckTransition(Recording, StatusOf(r.body), Error);
  }

  lemma StopRowOk(cfg: Config, r: Rec, now: int)
    requires RecOk(cfg, r) && StatusOf(r.body) == Ready
    ensures var write := StopSection(r.body, now);
            && write.Put? && write.update.Success?
            && RecOk(cfg, r.(flush := Flushing, flushes := r.flushes + 1, body := write.update.value))
            && Advances(r, r.(flush := Flushing, flushes := r.flushes + 1, body := write.update.value))
  {
  }

  lemma PollRowOk(cfg: Config, r: Rec, answer: Answer, now: int)
    requires RecOk(cfg, r) && PollSection(cfg, r.body, answer, now).Put?
    ensures var write := PollSection(cfg, r.body, answer, now);
            && write.update.Success?
            && RecOk(cfg, r.(body := write.update.value)) && Advances(r, r.(body := write.update.value))
  {
    if answer.Broken? && Message(cfg, r.body, answer.message) != "" {
      FailedRowOk(cfg, r, Message(cfg, r.body, answer.message), now, r.starter, r.flush);
    }
  }

  lemma RestartKeepsShape(body: Body, after: Body)
    requires Shaped(body) && HasStatus(after) && ViewerUrl in after
    requires OnlyChanges(body, after, {StatusKey, ErrorKey, ViewerUrl})
    ensures Shaped(after) && EnvOf(after) == EnvOf(body) && after[CreatedBy] == body[CreatedBy]
    ensures after[Code] == body[Code] && after[ChecksKey] == body[ChecksKey]
  {
    assert {EncryptedEnvironment, CreatedBy, Code, ChecksKey} <= body.Keys - {StatusKey, ErrorKey, ViewerUrl} - {UpdatedAt};
  }

  /** A row is closed in error, and nothing is under way any more. */
  lemma ClosedRecOk(cfg: Config, r: Rec, closed: Rec)
    requires RecOk(cfg, r) && StatusOf(r.body) in {Starting, Ready, Stopping}
    requires Shaped(closed.body) && StatusOf(closed.body) == Error && closed.body[ViewerUrl] == Null
    requires EnvOf(closed.body) == EnvOf(r.body) && closed.body[CreatedBy] == r.body[CreatedBy]
    requires closed.starter.Settled? && closed.flushes == r.flushes
    requires closed.flush == r.flush || ((r.flush.Flushing? || r.flush.Flushed?) && closed.flush.Published?)
    requires !closed.flush.Flushing? && !closed.flush.Flushed?
    ensures RecOk(cfg, closed) && Advances(r, closed)
  {
    hide Carries;
  }

  lemma RestartRowOk(cfg: Config, r: Rec, now: int, cleanupFails: bool)
    requires RecOk(cfg, r)
    ensures RecOk(cfg, AfterRestart(r, now, cleanupFails)) && Advances(r, AfterRestart(r, now, cleanupFails))
  {
    Recovery.ActiveByStatus(Recording, r.body);
    if Recovery.Interruptible(Recording, StatusOf(r.body)) {
      hide OnlyChanges;
      var after := Recovery.AfterRecovery(Recording, r.body, now, cleanupFails);
      Recovery.ClosedRowShape(Recording, r.body, now, cleanupFails);
      RestartKeepsShape(r.body, after);
      hide Recovery.AfterRecovery, Recovery.Active;
      ClosedRecOk(cfg, r, AfterRestart(r, now, cleanupFails));
      hide RecOk, Advances, AfterRestart;
    }
  }

  /** A controller's answer arrives: only the task moves. */
  lemma TaskRowOk(cfg: Config, r: Rec, moved: Rec)
    requires RecOk(cfg, r) && moved.body == r.body && moved.flushes == r.flushes
    requires || (r.starter.Launching? && moved.starter.Launched? && moved.flush == r.flush)
             || (r.flush.Flushing? && moved.flush.Flushed? && moved.starter == r.starter)
    ensures RecOk(cfg, moved) && Advances(r, moved)
  {
  }

  lemma NothingToUndo(cfg: Config, r: Rec)
    requires RecOk(cfg, r)
    ensures !r.starter.Undoing?
  {
  }

  lemma StarterKeepsInv(cfg: Config, s: Sys, a: Action)
    requires Inv(cfg, s) && (a.StartReturns? || a.StartSettles? || a.UndoReturns?)
    ensures Inv(cfg, StarterStep(cfg, s, a))
  {
    hide RecOk, Advances, ProcOk, StartSection, FlushSection;
    if KnownRow(s, a.id) {
      var rec := s.recs[a.id];
      match a {
        case StartReturns(id, outcome) =>
          if rec.starter.Launching? {
            TaskRowOk(cfg, rec, rec.(starter := Launched(outcome)));
            RowAdvances(cfg, s, id, rec.(starter := Launched(outcome)));
          }
        case StartSettles(id, now) =>
          if rec.starter.Launched? {
            StartRowOk(cfg, id, rec, now);
            var write := StartSection(cfg, id, rec.body, rec.starter.outcome, now);
            RowAdvances(cfg, s, id, rec.(starter := Settled, body := write.update.value));
          }
        case UndoReturns(_, _) => NothingToUndo(cfg, rec);
      }
    }
  }

  lemma FlushKeepsInv(cfg: Config, s: Sys, a: Action)
    requires Inv(cfg, s) && (a.FlushReturns? || a.FlushPublishes?)
    ensures Inv(cfg, FlushStep(cfg, s, a))
  {
    hide RecOk, Advances, ProcOk, StartSection, FlushSection;
    if KnownRow(s, a.id) {
      var rec := s.recs[a.id];
      match a {
        case FlushReturns(id, outcome) =>
          if rec.flush.Flushing? {
            TaskRowOk(cfg, rec, rec.(flush := Flushed(outcome)));
            RowAdvances(cfg, s, id, rec.(flush := Flushed(outcome)));
          }
        case FlushPublishes(id, now) =>
          if rec.flush.Flushed? {
            FlushRowOk(cfg, rec, now);
            var write := FlushSection(cfg, rec.body, rec.flush.outcome, now);
            RowAdvances(cfg, s, id, rec.(flush := Published(rec.flush.outcome), body := write.update.value));
          }
      }
    }
  }

  lemma StopKeepsInv(cfg: Config, s: Sys, pid: nat, id: nat, save: bool, now: int)
    requires Inv(cfg, s) && KnownRow(s, id)
    ensures Inv(cfg, StopUnderLock(s, pid, id, save, now))
  {
    var rec := s.recs[id];
    assert RecOk(cfg, rec);
    if StatusOf(rec.body) == Ready {
      StopRowOk(cfg, rec, now);
      FlushSpawned(cfg, s, pid, id, save, now,
                   rec.(flush := Flushing, flushes := rec.flushes + 1, body := StopSection(rec.body, now).update.value));
    } else {
      ProcMoves(cfg, s, pid, Returned(id, save, rec.body));
    }
  }

  lemma FlushSpawned(cfg: Config, s: Sys, pid: nat, id: nat, save: bool, now: int, moved: Rec)
    requires Inv(cfg, s) && KnownRow(s, id)
    requires StopSection(s.recs[id].body, now) == Put(Success(moved.body))
    requires moved == s.recs[id].(flush := Flushing, flushes := s.recs[id].flushes + 1, body := moved.body)
    requires RecOk(cfg, moved) && Advances(s.recs[id], moved)
    ensures Inv(cfg, StopUnderLock(s, pid, id, save, now))
  {
    StopSpawns(s, pid, id, save, now, moved);
    var committed := Sys(s.recs[id := moved], s.procs, s.fault, s.unbound);
    RowAdvances(cfg, s, id, moved);
    assert ProcOk(committed, AwaitFlush(id, save));
    ProcMoves(cfg, committed, pid, AwaitFlush(id, save));
  }

  lemma StopSpawns(s: Sys, pid: nat, id: nat, save: bool, now: int, moved: Rec)
    requires KnownRow(s, id)
    requires StopSection(s.recs[id].body, now) == Put(Success(moved.body))
    requires moved == s.recs[id].(flush := Flushing, flushes := s.recs[id].flushes + 1, body := moved.body)
    ensures StopUnderLock(s, pid, id, save, now) == Sys(s.recs[id := moved], s.procs[pid := AwaitFlush(id, save)], s.fault, s.unbound)
  {
  }

  lemma FinishBeginsKeepsInv(cfg: Config, s: Sys, pid: nat, id: nat, save: bool, now: int)
    requires Inv(cfg, s)
    ensures Inv(cfg, FinishStep(s, FinishBegins(pid, id, save, now)))
  {
    if pid !in s.procs && KnownRow(s, id) {
      assert RecOk(cfg, s.recs[id]);
      if StatusOf(s.recs[id].body) == Starting {
        ProcMoves(cfg, s, pid, AwaitStarter(id, save));
      } else {
        StopKeepsInv(cfg, s, pid, id, save, now);
      }
    }
  }

  lemma SaveChecksKeepsInv(cfg: Config, s: Sys, pid: nat)
    requires Inv(cfg, s)
    ensures Inv(cfg, FinishStep(s, SaveChecks(pid)))
  {
    if pid in s.procs && s.procs[pid].Returned? && s.procs[pid].save && Shaped(s.procs[pid].copy) {
      var p := s.procs[pid];
      assert ProcOk(s, p);
      if StatusOf(p.copy) != Stopped || !p.copy[Code].Text? || p.copy[Code].text == "" || !p.copy[ChecksKey].Checks? {
        ProcLeaves(cfg, s, pid);
      } else {
        ProcMoves(cfg, s, pid, Saved(p.id, p.copy[Code].text, p.copy[ChecksKey].checks));
      }
    }
  }

  lemma FinishKeepsInv(cfg: Config, s: Sys, a: Action)
    requires Inv(cfg, s) && (a.FinishBegins? || a.FinishResumes? || a.FinishReturns? || a.SaveChecks?)
    ensures Inv(cfg, FinishStep(s, a))
  {
    hide RecOk, Advances, StopSection, StopUnderLock;
    match a {
      case FinishBegins(pid, id, save, now) => FinishBeginsKeepsInv(cfg, s, pid, id, save, now);
      case FinishResumes(pid, now) =>
        if pid in s.procs && s.procs[pid].AwaitStarter? && KnownRow(s, s.procs[pid].id) &&
           s.recs[s.procs[pid].id].starter.Settled? {
          StopKeepsInv(cfg, s, pid, s.procs[pid].id, s.procs[pid].save, now);
        }
      case FinishReturns(pid) =>
        if pid in s.procs && s.procs[pid].AwaitFlush? && KnownRow(s, s.procs[pid].id) {
          var p := s.procs[pid];
          ProcMoves(cfg, s, pid, Returned(p.id, p.save, s.recs[p.id].body));
        }
      case SaveChecks(pid) => SaveChecksKeepsInv(cfg, s, pid);
    }
  }

  lemma PollKeepsInv(cfg: Config, s: Sys, a: Action)
    requires Inv(cfg, s) && (a.PollBegins? || a.PollReturns? || a.PollPublishes?)
    ensures Inv(cfg, PollStep(cfg, s, a))
  {
    match a {
      case PollBegins(pid, id) =>
        if pid !in s.procs && KnownRow(s, id) {
          ProcMoves(cfg, s, pid, Polling(id));
        }
      case PollReturns(pid, answer) =>
        if pid in s.procs && s.procs[pid].Polling? {
          assert ProcOk(s, s.procs[pid]);
          ProcMoves(cfg, s, pid, Polled(s.procs[pid].id, answer));
        }
      case PollPublishes(pid, now) =>
        if pid in s.procs && s.procs[pid].Polled? && KnownRow(s, s.procs[pid].id) {
          PollPublishesKeepsInv(cfg, s, pid, now);
        }
    }
  }

  lemma PollPublishesKeepsInv(cfg: Config, s: Sys, pid: nat, now: int)
    requires Inv(cfg, s) && pid in s.procs && s.procs[pid].Polled? && KnownRow(s, s.procs[pid].id)
    ensures Inv(cfg, PollStep(cfg, s, PollPublishes(pid, now)))
  {
    hide RecOk, Advances, ProcOk, PollSection, Shaped, Unpublishable;
    var p := s.procs[pid];
    var rec := s.recs[p.id];
    if PollSection(cfg, rec.body, p.answer, now).Put? {
      PollRowOk(cfg, rec, p.answer, now);
      var moved := rec.(body := PollSection(cfg, rec.body, p.answer, now).update.value);
      RowAdvances(cfg, s, p.id, moved);
      ProcLeaves(cfg, s.(recs := s.recs[p.id := moved]), pid);
      Noted(cfg, s.(recs := s.recs[p.id := moved], procs := s.procs - {pid}), PollStep(cfg, s, PollPublishes(pid, now)).unbound);
    } else {
      assert s.recs[p.id := rec] == s.recs;
      ProcLeaves(cfg, s, pid);
      Noted(cfg, s.(procs := s.procs - {pid}), PollStep(cfg, s, PollPublishes(pid, now)).unbound);
    }
  }

  lemma Noted(cfg: Config, s: Sys, unbound: seq<nat>)
    requires Inv(cfg, s)
    ensures Inv(cfg, s.(unbound := unbound))
  {
    hide RecOk;
    var after := s.(unbound := unbound);
    forall pid | pid in after.procs ensures ProcOk(after, after.procs[pid]) {
      assert ProcOk(s, s.procs[pid]);
    }
  }

  lemma RestartKeepsInv(cfg: Config, s: Sys, now: int, cleanupFails: bool)
    requires Inv(cfg, s)
    ensures Inv(cfg, Step(cfg, s, Restart(now, cleanupFails)))
  {
    hide RecOk, Advances, ProcOk, AfterRestart, IsActive;
    var after := Step(cfg, s, Restart(now, cleanupFails));
    forall id | id in s.recs ensures RecOk(cfg, after.recs[id]) && Advances(s.recs[id], after.recs[id]) {
      RestartRowOk(cfg, s.recs[id], now, cleanupFails);
    }
    RowsAdvance(cfg, s.(procs := map[]), after);
  }

  lemma StepKeepsInv(cfg: Config, s: Sys, a: Action)
    requires Inv(cfg, s)
    ensures Inv(cfg, Step(cfg, s, a))
  {
    hide Inv, CreateStep, StarterStep, FlushStep, FinishStep, PollStep;
    match a
    case LockUser(_, _) | CountActive(_) | Insert(_, _, _, _) => CreateKeepsInv(cfg, s, a);
    case StartReturns(_, _) | StartSettles(_, _) | UndoReturns(_, _) => StarterKeepsInv(cfg, s, a);
    case FlushReturns(_, _) | FlushPublishes(_, _) => FlushKeepsInv(cfg, s, a);
    case FinishBegins(_, _, _, _) | FinishResumes(_, _) | FinishReturns(_) | SaveChecks(_) => FinishKeepsInv(cfg, s, a);
    case PollBegins(_, _) | PollReturns(_, _) | PollPublishes(_, _) => PollKeepsInv(cfg, s, a);
    case Disconnect(pid) => ProcLeaves(cfg, s, pid);
    case Restart(now, cleanupFails) => RestartKeepsInv(cfg, s, now, cleanupFails);
  }

  lemma {:induction false} ExecKeepsInv(cfg: Config, s: Sys, run: seq<Action>)
    requires Inv(cfg, s)
    ensures Inv(cfg, Exec(cfg, s, run))
    decreases |run|
  {
    if run != [] {
      StepKeepsInv(cfg, s, run[0]);
      ExecKeepsInv(cfg, Step(cfg, s, run[0]), run[1..]);
    }
  }

  function Reach(cfg: Config, run: seq<Action>): Sys {
    Exec(cfg, INITIAL, run)
  }

  lemma ReachKeepsInv(cfg: Config, run: seq<Action>)
    ensures Inv(cfg, Reach(cfg, run))
  {
    assert forall user :: ActiveOf(INITIAL.recs, user) == {};
    ExecKeepsInv(cfg, INITIAL, run);
  }

  lemma {:induction false} ExecConcat(cfg: Config, s: Sys, run: seq<Action>, more: seq<Action>)
    ensures Exec(cfg, s, run + more) == Exec(cfg, Exec(cfg, s, run), more)
    decreases |run|
  {
    if run == [] {
      assert run + more == more;
    } else {
      assert (run + more)[1..] == run[1..] + more;
      ExecConcat(cfg, Step(cfg, s, run[0]), run[1..], more);
    }
  }
}
