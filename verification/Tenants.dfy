/** Organizations, memberships and invitations. Every mutation holds the organization's row lock, so each
    operation is one step of a serial history. */
module Tenants {
  import opened Domain

  datatype Role = Owner | Admin | Member | Viewer

  datatype Permission = Read | Edit | Manage | Own

  function RolePermissions(role: Role): set<Permission> {
    match role
    case Owner => {Read, Edit, Manage, Own}
    case Admin => {Read, Edit, Manage}
    case Member => {Read, Edit}
    case Viewer => {Read}
  }

  datatype InvitationStatus = Pending | Accepted | Revoked

  datatype Invitation = Invitation(
    org: nat, email: string, role: Role, status: InvitationStatus, acceptedBy: Option<nat>, expires: int)

  const INVITATION_LIFETIME: int := 7 * 24 * 3600 * 1_000_000

  /** The address book and the two case mappings: the database's `lower` and the service's `casefold`. */
  datatype Config = Config(email: nat -> string, lower: string -> string, casefold: string -> string)

  datatype Key = Key(org: nat, user: nat)

  /** `tokens` is the unique index on the token hash. `joins` is history only: the invitation behind each
      membership an acceptance created, oldest first. */
  datatype State = State(
    orgs: set<nat>, members: map<Key, Role>, invitations: map<nat, Invitation>, tokens: map<nat, nat>, joins: seq<nat>)

  const EMPTY := State({}, map[], map[], map[], [])

  datatype Outcome = Done | NotFound | Forbidden | LastOwner | AlreadyMember | Unavailable | EmailMismatch | Conflict

  datatype Op =
    | CreateOrganization(actor: nat, org: nat)
    | ChangeMember(actor: nat, org: nat, user: nat, newRole: Option<Role>)
    | Invite(actor: nat, org: nat, email: string, role: Role, id: nat, token: nat, now: int)
    | Revoke(actor: nat, org: nat, id: nat)
    | Accept(actor: nat, token: nat, now: int)

  // ---- the specification of each operation ----

  /** `require_manage_role`. */
  predicate MayManage(actor: Role, role: Role) {
    actor == Owner || (actor == Admin && role !in {Owner, Admin})
  }

  /** `organization_for` under lock: None is a missing organization or membership. */
  function RoleIn(s: State, org: nat, user: nat): Option<Role> {
    if org in s.orgs && Key(org, user) in s.members then Some(s.members[Key(org, user)]) else None
  }

  function OwnersOf(members: map<Key, Role>, org: nat): set<Key> {
    set k | k in members && k.org == org && members[k] == Owner
  }

  function Create(s: State, actor: nat, org: nat): (State, Outcome) {
    if org in s.orgs then (s, Conflict)
    else (s.(orgs := s.orgs + {org}, members := s.members[Key(org, actor) := Owner]), Done)
  }

  function Change(s: State, actor: nat, org: nat, user: nat, role: Option<Role>): (State, Outcome) {
    var key := Key(org, user);
    var acting := RoleIn(s, org, actor);
    if acting.None? || key !in s.members then (s, NotFound)
    else if (role.Some? || user != actor) && !MayManage(acting.value, s.members[key]) then (s, Forbidden)
    else if role.Some? && !MayManage(acting.value, role.value) then (s, Forbidden)
    else if s.members[key] == Owner && role != Some(Owner) && |OwnersOf(s.members, org)| == 1 then (s, LastOwner)
    else (s.(members := if role.Some? then s.members[key := role.value] else s.members - {key}), Done)
  }

  /** A pending invitation of the organization for the address. */
  predicate IsPendingFor(i: Invitation, org: nat, email: string) {
    i.org == org && i.email == email && i.status == Pending
  }

  function PendingFor(s: State, org: nat, email: string): set<nat> {
    set id | id in s.invitations && IsPendingFor(s.invitations[id], org, email)
  }

  /** A member whose lowered address equals `email`. */
  predicate HasMemberWith(cfg: Config, s: State, org: nat, email: string) {
    exists k :: k in s.members && k.org == org && cfg.lower(cfg.email(k.user)) == email
  }

  /** The invitations after the pending ones of `ids` are revoked. */
  function RevokeAll(invitations: map<nat, Invitation>, ids: set<nat>): map<nat, Invitation> {
    map id | id in invitations :: if id in ids then invitations[id].(status := Revoked) else invitations[id]
  }

  function InviteSpec(cfg: Config, s: State, actor: nat, org: nat, address: string, role: Role, id: nat, token: nat, now: int)
    : (State, Outcome)
  {
    var email := cfg.casefold(address);
    var acting := RoleIn(s, org, actor);
    var previous := PendingFor(s, org, email);
    if acting.None? then (s, NotFound)
    else if Manage !in RolePermissions(acting.value) || !MayManage(acting.value, role) then (s, Forbidden)
    else if HasMemberWith(cfg, s, org, email) then (s, AlreadyMember)
    else if exists p :: p in previous && !MayManage(acting.value, s.invitations[p].role) then (s, Forbidden)
    else if role == Owner || id in s.invitations || token in s.tokens then (s, Conflict)
    else
      var invitation := Invitation(org, email, role, Pending, None, now + INVITATION_LIFETIME);
      (s.(invitations := RevokeAll(s.invitations, previous)[id := invitation], tokens := s.tokens[token := id]), Done)
  }

  function RevokeSpec(s: State, actor: nat, org: nat, id: nat): (State, Outcome) {
    var acting := RoleIn(s, org, actor);
    if acting.None? then (s, NotFound)
    else if Manage !in RolePermissions(acting.value) then (s, Forbidden)
    else if id !in s.invitations || s.invitations[id].org != org then (s, NotFound)
    else if !MayManage(acting.value, s.invitations[id].role) then (s, Forbidden)
    else if s.invitations[id].status == Accepted then (s, Unavailable)
    else (s.(invitations := s.invitations[id := s.invitations[id].(status := Revoked)]), Done)
  }

  function AcceptInvitation(cfg: Config, s: State, actor: nat, id: nat, now: int): (State, Outcome)
    requires id in s.invitations
  {
    var i := s.invitations[id];
    var key := Key(i.org, actor);
    if cfg.casefold(cfg.email(actor)) != i.email then (s, EmailMismatch)
    else if i.status == Accepted && i.acceptedBy == Some(actor) && key in s.members then (s, Done)
    else if i.status != Pending || i.expires <= now then (s, Unavailable)
    else if key in s.members then (s, AlreadyMember)
    else (s.(members := s.members[key := i.role],
             invitations := s.invitations[id := i.(status := Accepted, acceptedBy := Some(actor))],
             joins := s.joins + [id]), Done)
  }

  /** The organization and address of an invitation never change, so the read before the lock finds the
      same ones as the refresh under it. */
  function AcceptSpec(cfg: Config, s: State, actor: nat, token: nat, now: int): (State, Outcome) {
    if token !in s.tokens || s.tokens[token] !in s.invitations then (s, NotFound)
    else AcceptInvitation(cfg, s, actor, s.tokens[token], now)
  }

  function Apply(cfg: Config, s: State, op: Op): (State, Outcome) {
    match op
    case CreateOrganization(actor, org) => Create(s, actor, org)
    case ChangeMember(actor, org, user, role) => Change(s, actor, org, user, role)
    case Invite(actor, org, email, role, id, token, now) => InviteSpec(cfg, s, actor, org, email, role, id, token, now)
    case Revoke(actor, org, id) => RevokeSpec(s, actor, org, id)
    case Accept(actor, token, now) => AcceptSpec(cfg, s, actor, token, now)
  }

  function Exec(cfg: Config, s: State, ops: seq<Op>): State
    decreases |ops|
  {
    if ops == [] then s else Exec(cfg, Apply(cfg, s, ops[0]).0, ops[1..])
  }

  function Reach(cfg: Config, ops: seq<Op>): State {
    Exec(cfg, EMPTY, ops)
  }

  // ---- the operations as the service runs them ----

  class TenantStore {
    var orgs: set<nat>
    var members: map<Key, Role>
    var invitations: map<nat, Invitation>
    var tokens: map<nat, nat>
    ghost var joins: seq<nat>

    constructor ()
      ensures View() == EMPTY
    {
      orgs, members, invitations, tokens, joins := {}, map[], map[], map[], [];
    }

    ghost function View(): State
      reads this
    {
      State(orgs, members, invitations, tokens, joins)
    }

    method CreateOrganization(actor: nat, org: nat) returns (r: Outcome)
      modifies this
      ensures (View(), r) == Create(old(View()), actor, org)
    {
      if org in orgs {
        return Conflict;
      }
      orgs := orgs + {org};
      members := members[Key(org, actor) := Owner];
      r := Done;
    }

    method ChangeMember(actor: nat, org: nat, user: nat, role: Option<Role>) returns (r: Outcome)
      modifies this
      ensures (View(), r) == Change(old(View()), actor, org, user, role)
    {
      if org !in orgs || Key(org, actor) !in members || Key(org, user) !in members {
        return NotFound;
      }
      var acting, current := members[Key(org, actor)], members[Key(org, user)];
      if role.Some? || user != actor {
        if !MayManage(acting, current) {
          return Forbidden;
        }
        if role.Some? && !MayManage(acting, role.value) {
          return Forbidden;
        }
      }
      if current == Owner && role != Some(Owner) {
        var owners := |set k | k in members && k.org == org && members[k] == Owner|;
        if owners == 1 {
          return LastOwner;
        }
      }
      if role.None? {
        members := members - {Key(org, user)};
      } else {
        members := members[Key(org, user) := role.value];
      }
      r := Done;
    }

    method Invite(cfg: Config, actor: nat, org: nat, address: string, role: Role, id: nat, token: nat, now: int)
      returns (r: Outcome)
      modifies this
      ensures (View(), r) == InviteSpec(cfg, old(View()), actor, org, address, role, id, token, now)
    {
      if org !in orgs || Key(org, actor) !in members {
        return NotFound;
      }
      var acting := members[Key(org, actor)];
      if Manage !in RolePermissions(acting) || !MayManage(acting, role) {
        return Forbidden;
      }
      var email := cfg.casefold(address);
      if exists k :: k in members && k.org == org && cfg.lower(cfg.email(k.user)) == email {
        return AlreadyMember;
      }
      var previous := set i | i in invitations && IsPendingFor(invitations[i], org, email);
      assert previous == PendingFor(View(), org, email);
      if exists p :: p in previous && !MayManage(acting, invitations[p].role) {
        return Forbidden;
      }
      if role == Owner || id in invitations || token in tokens {
        return Conflict;
      }
      invitations := map i | i in invitations :: if i in previous then invitations[i].(status := Revoked) else invitations[i];
      assert invitations == RevokeAll(old(invitations), previous);
      invitations := invitations[id := Invitation(org, email, role, Pending, None, now + INVITATION_LIFETIME)];
      tokens := tokens[token := id];
      r := Done;
    }

    method Revoke(actor: nat, org: nat, id: nat) returns (r: Outcome)
      modifies this
      ensures (View(), r) == RevokeSpec(old(View()), actor, org, id)
    {
      if org !in orgs || Key(org, actor) !in members {
        return NotFound;
      }
      var acting := members[Key(org, actor)];
      if Manage !in RolePermissions(acting) {
        return Forbidden;
      }
      if id !in invitations || invitations[id].org != org {
        return NotFound;
      }
      var value := invitations[id];
      if !MayManage(acting, value.role) {
        return Forbidden;
      }
      if value.status == Accepted {
        return Unavailable;
      }
      if value.status == Revoked {
        assert invitations[id := value] == invitations;
        return Done;
      }
      invitations := invitations[id := value.(status := Revoked)];
      r := Done;
    }

    method Accept(cfg: Config, actor: nat, token: nat, now: int) returns (r: Outcome)
      modifies this
      ensures (View(), r) == AcceptSpec(cfg, old(View()), actor, token, now)
    {
      if token !in tokens || tokens[token] !in invitations {
        return NotFound;
      }
      var id := tokens[token];
      var value := invitations[id];
      if cfg.casefold(cfg.email(actor)) != value.email {
        return EmailMismatch;
      }
      var key := Key(value.org, actor);
      if value.status == Accepted && value.acceptedBy == Some(actor) && key in members {
        return Done;
      }
      if value.status != Pending || value.expires <= now {
        return Unavailable;
      }
      if key in members {
        return AlreadyMember;
      }
      members := members[key := value.role];
      invitations := invitations[id := value.(status := Accepted, acceptedBy := Some(actor))];
      joins := joins + [id];
      r := Done;
    }
  }
}
