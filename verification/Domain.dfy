/** Lifecycles of runs and recordings: the statuses and the transitions the application can persist. */
module Domain {

  datatype Option<+T> = None | Some(value: T)

  datatype Result<+T, +E> = Success(value: T) | Failure(error: E)

  datatype Kind = Group | Scenario | Version | Environment | Run | Recording

  /** The run and the recording vocabulary in one type; both spell their failure `error`. */
  datatype Status =
    | Queued | Running | Passed | Failed | Cancelled | TimedOut
    | Starting | Ready | Stopping | Stopped
    | Error

  const TERMINAL_RUNS: set<Status> := {Passed, Failed, Cancelled, TimedOut, Error}
  const ACTIVE_RECORDINGS: set<Status> := {Starting, Ready, Stopping}

  /** None where the source's table has no entry for `previous`. */
  function Successors(kind: Kind, previous: Status): Option<set<Status>> {
    match kind
    case Run => (
      match previous
      case Queued => Some({Running, Cancelled, Error})
      case Running => Some(TERMINAL_RUNS)
      case Passed | Failed | Cancelled | TimedOut | Error => Some({})
      case _ => None
    )
    case _ => (
      match previous
      case Starting => Some({Ready, Stopping, Error})
      case Ready => Some({Stopping, Error})
      case Stopping => Some({Stopped, Error})
      case Stopped | Error => Some({})
      case _ => None
    )
  }

  /** Whether `check_transition` returns instead of raising. */
  predicate CheckTransition(kind: Kind, previous: Status, current: Status) {
    current == previous || (Successors(kind, previous).Some? && current in Successors(kind, previous).value)
  }

  /** The moves the application can persist, one by one; a status may always be written again. */
  lemma MovesAreExactly(previous: Status, current: Status)
    requires previous != current
    ensures CheckTransition(Run, previous, current) <==>
            || (previous == Queued && current in {Running, Cancelled, Error})
            || (previous == Running && current in {Passed, Failed, Cancelled, TimedOut, Error})
    ensures CheckTransition(Recording, previous, current) <==>
            || (previous == Starting && current in {Ready, Stopping, Error})
            || (previous == Ready && current in {Stopping, Error})
            || (previous == Stopping && current in {Stopped, Error})
  {
  }

  /** Every step of `path` passes the check. */
  ghost predicate LegalPath(kind: Kind, path: seq<Status>) {
    forall i :: 0 < i < |path| ==> CheckTransition(kind, path[i - 1], path[i])
  }

  /** A run that reaches a terminal status keeps it along every legal path. */
  lemma {:induction false} TerminalRunsAbsorb(path: seq<Status>, i: nat, j: nat)
    requires LegalPath(Run, path) && i <= j < |path| && path[i] in TERMINAL_RUNS
    ensures path[j] == path[i]
    decreases j
  {
    if i < j {
      TerminalRunsAbsorb(path, i, j - 1);
      assert CheckTransition(Run, path[j - 1], path[j]);
    }
  }

  /** Once a recording leaves the active statuses no legal path re-enters them. */
  lemma {:induction false} ActiveNeverReentered(path: seq<Status>, i: nat, j: nat)
    requires LegalPath(Recording, path) && i <= j < |path|
    requires path[i] in {Stopped, Error}
    ensures path[j] == path[i] && path[j] !in ACTIVE_RECORDINGS
    decreases j
  {
    if i < j {
      ActiveNeverReentered(path, i, j - 1);
      assert CheckTransition(Recording, path[j - 1], path[j]);
    }
  }

  /** A run that passed, failed or timed out did run, and a recording that stopped was stopping right before. */
  lemma {:induction false} OutcomesAreEarned(kind: Kind, path: seq<Status>, i: nat)
    requires kind in {Run, Recording} && LegalPath(kind, path) && i < |path|
    requires path[0] == if kind == Run then Queued else Starting
    ensures kind == Run && path[i] in {Passed, Failed, TimedOut} ==> exists j :: 0 < j < i && path[j] == Running
    ensures kind == Recording && path[i] == Stopped ==> exists j :: 0 < j < i && path[j] == Stopping
    decreases i
  {
    if i > 0 {
      OutcomesAreEarned(kind, path, i - 1);
      assert CheckTransition(kind, path[i - 1], path[i]);
      if path[i - 1] in {Running, Stopping} {
        assert i - 1 > 0;
      }
    }
  }
}
