/** Rows of the resource table and the whole-body merge every service uses to change one. */
module Store {
  import opened Domain

  /** The JSON keys the modelled services read or write. */
  datatype Field =
    | Id | CreatedAt | UpdatedAt | StatusKey | ErrorKey | EncryptedEnvironment | RoleName
    | CreatedBy | ExpiresAt | ViewerUrl | Code | ChecksKey
    | Versions | EnvironmentSnapshot | Retries | TimeoutMs | RerunOf
    | VerificationKey | SummaryKey | StartedAt | FinishedAt
    | Name | Description | GroupId | CurrentVersionId | ScenarioId | NumberKey

  datatype Check = Check(id: string, title: string, expected: string)

  /** What a run counted. */
  datatype Summary = Summary(total: nat, passed: nat, failed: nat, skipped: nat, flaky: nat, unverified: nat)

  const NOTHING_RAN := Summary(0, 0, 0, 0, 0, 0)

  datatype Value =
    | Null
    | Word(status: Status)
    | Text(text: string)
    | Num(n: int)
    | Checks(checks: seq<Check>)
    | Bodies(bodies: seq<Body>)
    | Tally(summary: Summary)

  type Body = map<Field, Value>

  datatype StoreError = Immutable | IllegalTransition

  predicate HasStatus(body: Body) {
    StatusKey in body && body[StatusKey].Word?
  }

  function StatusOf(body: Body): Status
    requires HasStatus(body)
  {
    body[StatusKey].status
  }

  /** `{**body, **changes, "updatedAt": now}`: the changes win, every other key keeps its value. */
  function Merge(body: Body, changes: Body, now: int): Body {
    body + changes + map[UpdatedAt := Num(now)]
  }

  /** What `update_resource` leaves in the row, or why it raised. A status that is not a status word
      is a lookup failure or a refused transition in the source, so it is refused here. */
  function Updated(kind: Kind, body: Body, changes: Body, now: int): Result<Body, StoreError> {
    if kind == Version then Failure(Immutable)
    else if kind in {Run, Recording} && StatusKey in changes &&
            !(HasStatus(body) && HasStatus(changes) && CheckTransition(kind, StatusOf(body), StatusOf(changes))) then
      Failure(IllegalTransition)
    else Success(Merge(body, changes, now))
  }

  /** A row as one session sees it: `body` is reassigned in place, `kind` never is. */
  class Resource {
    const kind: Kind
    var body: Body

    constructor (kind: Kind, body: Body)
      ensures this.kind == kind && this.body == body
    {
      this.kind := kind;
      this.body := body;
    }

    /** A refused update leaves the row alone; an accepted one replaces the body by the merge. */
    method Update(changes: Body, now: int) returns (r: Result<(), StoreError>)
      modifies this
      ensures match Updated(kind, old(body), changes, now)
              case Success(merged) => r == Success(()) && body == merged
              case Failure(e) => r == Failure(e) && body == old(body)
    {
      if kind == Version {
        return Failure(Immutable);
      }
      if kind in {Run, Recording} && StatusKey in changes {
        if !HasStatus(body) || !HasStatus(changes) {
          return Failure(IllegalTransition);
        }
        if !CheckTransition(kind, StatusOf(body), StatusOf(changes)) {
          return Failure(IllegalTransition);
        }
      }
      body := body + changes + map[UpdatedAt := Num(now)];
      r := Success(());
    }
  }

  /** Applying a list of changes one after the other, oldest first. */
  function Fold(body: Body, log: seq<(Body, int)>): Body {
    if |log| == 0 then body
    else Merge(Fold(body, log[..|log| - 1]), log[|log| - 1].0, log[|log| - 1].1)
  }

  // ---- what an update does ----

  /** Outside `keys` and the time stamp the two bodies agree. */
  predicate OnlyChanges(before: Body, after: Body, keys: set<Field>) {
    && before.Keys - keys - {UpdatedAt} == after.Keys - keys - {UpdatedAt}
    && forall key :: key in before.Keys - keys - {UpdatedAt} ==> after[key] == before[key]
  }

  lemma OnlyChangesMore(before: Body, after: Body, keys: set<Field>, more: set<Field>)
    requires OnlyChanges(before, after, keys) && keys <= more
    ensures OnlyChanges(before, after, more)
  {
    assert before.Keys - more - {UpdatedAt} == before.Keys - keys - {UpdatedAt} - more;
    assert after.Keys - more - {UpdatedAt} == after.Keys - keys - {UpdatedAt} - more;
  }

  /** The changes win, no other key moves, and the time is stamped. */
  lemma MergeWritesTheChanges(body: Body, changes: Body, now: int)
    ensures var after := Merge(body, changes, now);
            && OnlyChanges(body, after, changes.Keys)
            && (forall key :: key in changes && key != UpdatedAt ==> key in after && after[key] == changes[key])
            && UpdatedAt in after && after[UpdatedAt] == Num(now)
  {
    var after := Merge(body, changes, now);
    assert after.Keys == body.Keys + changes.Keys + {UpdatedAt};
  }

  /** An update that respects the table is accepted and writes exactly its changes. */
  lemma UpdateWrites(kind: Kind, body: Body, changes: Body, now: int)
    requires kind in {Run, Recording} && HasStatus(body)
    requires StatusKey in changes ==> HasStatus(changes) && CheckTransition(kind, StatusOf(body), StatusOf(changes))
    ensures var update := Updated(kind, body, changes, now);
            && update.Success? && OnlyChanges(body, update.value, changes.Keys)
            && (forall key :: key in changes && key != UpdatedAt ==> key in update.value && update.value[key] == changes[key])
  {
    MergeWritesTheChanges(body, changes, now);
  }

  /** Only versions are immutable; a run or recording moves along the table, and along all of it. */
  lemma StatusesFollowTheTable(kind: Kind, body: Body, changes: Body, now: int)
    requires HasStatus(body) && (StatusKey in changes ==> HasStatus(changes))
    ensures Updated(Version, body, changes, now) == Failure(Immutable)
    ensures kind !in {Run, Recording, Version} ==> Updated(kind, body, changes, now).Success?
    ensures kind in {Run, Recording} ==>
              var after := if HasStatus(changes) then StatusOf(changes) else StatusOf(body);
              && (Updated(kind, body, changes, now).Success? <==> CheckTransition(kind, StatusOf(body), after))
              && (Updated(kind, body, changes, now).Success? ==>
                    HasStatus(Updated(kind, body, changes, now).value) && StatusOf(Updated(kind, body, changes, now).value) == after)
  {
  }
}
