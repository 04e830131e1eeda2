/** What every history of tenant operations keeps. */
module TenantGuarantees {
  import opened Domain
  import opened Tenants

  ghost predicate Owned(s: State) {
    forall org :: org in s.orgs ==> OwnersOf(s.members, org) != {}
  }

  ghost predicate Closed(s: State) {
    && (forall k :: k in s.members ==> k.org in s.orgs)
    && (forall i :: i in s.invitations ==> s.invitations[i].org in s.orgs && s.invitations[i].role != Owner)
  }

  /** At most one pending invitation for an organization and an address. */
  ghost predicate OnePending(s: State) {
    forall i, j | i in s.invitations && j in s.invitations ::
      IsPendingFor(s.invitations[i], s.invitations[j].org, s.invitations[j].email) && s.invitations[j].status == Pending ==>
        i == j
  }

  /** The invitations behind memberships are the accepted ones, each once. */
  ghost predicate JoinedOnce(s: State) {
    && (forall id :: id in s.joins <==> id in s.invitations && s.invitations[id].status == Accepted)
    && (forall i, j :: 0 <= i < j < |s.joins| ==> s.joins[i] != s.joins[j])
  }

  ghost predicate Inv(s: State) {
    Owned(s) && Closed(s) && OnePending(s) && JoinedOnce(s)
  }

  /** No current member's folded address has a pending invitation to the same organization. */
  ghost predicate NonePendingForMembers(cfg: Config, s: State) {
    forall i, k | i in s.invitations && k in s.members ::
      s.invitations[i].status == Pending && k.org == s.invitations[i].org ==>
        cfg.casefold(cfg.email(k.user)) != s.invitations[i].email
  }

  ghost predicate CaseMappingsAgree(cfg: Config) {
    forall user: nat :: cfg.lower(cfg.email(user)) == cfg.casefold(cfg.email(user))
  }

  // ---- one lemma an operation ----

  lemma CreateKeeps(cfg: Config, s: State, actor: nat, org: nat)
    requires Inv(s)
    ensures Inv(Create(s, actor, org).0)
    ensures NonePendingForMembers(cfg, s) ==> NonePendingForMembers(cfg, Create(s, actor, org).0)
  {
    if org !in s.orgs {
      var after := Create(s, actor, org).0;
      assert Key(org, actor) in OwnersOf(after.members, org);
      forall o | o in s.orgs ensures OwnersOf(after.members, o) != {} {
        var k :| k in OwnersOf(s.members, o);
        assert k in OwnersOf(after.members, o);
      }
    }
  }

  /** Refusing to change the only owner is enough: any other change leaves one. */
  lemma ChangeKeepsAnOwner(s: State, actor: nat, org: nat, user: nat, role: Option<Role>)
    requires Owned(s) && Change(s, actor, org, user, role).1 == Done
    ensures Owned(Change(s, actor, org, user, role).0)
  {
    var after := Change(s, actor, org, user, role).0;
    var key := Key(org, user);
    forall o | o in after.orgs ensures OwnersOf(after.members, o) != {} {
      var owners := OwnersOf(s.members, o);
      var others := owners - {key};
      if others != {} {
        var k :| k in others;
        assert k in OwnersOf(after.members, o);
      } else {
        assert owners == {key};
        assert |owners| == 1 && key in owners && o == org;
        assert key in OwnersOf(after.members, o);
      }
    }
  }

  lemma ChangeKeeps(cfg: Config, s: State, actor: nat, org: nat, user: nat, role: Option<Role>)
    requires Inv(s)
    ensures Inv(Change(s, actor, org, user, role).0)
    ensures NonePendingForMembers(cfg, s) ==> NonePendingForMembers(cfg, Change(s, actor, org, user, role).0)
  {
    if Change(s, actor, org, user, role).1 == Done {
      ChangeKeepsAnOwner(s, actor, org, user, role);
      assert Change(s, actor, org, user, role).0.members.Keys <= s.members.Keys;
    }
  }

  lemma InviteKeeps(cfg: Config, s: State, actor: nat, org: nat, address: string, role: Role, id: nat, token: nat, now: int)
    requires Inv(s)
    ensures Inv(InviteSpec(cfg, s, actor, org, address, role, id, token, now).0)
    ensures CaseMappingsAgree(cfg) && NonePendingForMembers(cfg, s) ==>
              NonePendingForMembers(cfg, InviteSpec(cfg, s, actor, org, address, role, id, token, now).0)
  {
    hide Owned, Closed, OnePending, JoinedOnce, NonePendingForMembers, PendingFor, RevokeAll;
    if InviteSpec(cfg, s, actor, org, address, role, id, token, now).1 == Done {
      var email := cfg.casefold(address);
      var invitation := Invitation(org, email, role, Pending, None, now + INVITATION_LIFETIME);
      ReplacedPending(s, org, email, id, invitation, token);
      if CaseMappingsAgree(cfg) && NonePendingForMembers(cfg, s) {
        assert !HasMemberWith(cfg, s, org, email);
        StrangerInvited(cfg, s, org, email, id, invitation, token);
      }
    }
  }

  lemma StrangerInvited(cfg: Config, s: State, org: nat, email: string, id: nat, invitation: Invitation, token: nat)
    requires NonePendingForMembers(cfg, s) && CaseMappingsAgree(cfg) && !HasMemberWith(cfg, s, org, email)
    requires IsPendingFor(invitation, org, email)
    ensures NonePendingForMembers(cfg, s.(invitations := RevokeAll(s.invitations, PendingFor(s, org, email))[id := invitation],
                                          tokens := s.tokens[token := id]))
  {
    forall k | k in s.members && k.org == org ensures cfg.casefold(cfg.email(k.user)) != email {
      assert cfg.lower(cfg.email(k.user)) == cfg.casefold(cfg.email(k.user));
    }
  }

  /** Revoking the pending invitations for an address before adding one keeps them unique. */
  lemma ReplacedPending(s: State, org: nat, email: string, id: nat, invitation: Invitation, token: nat)
    requires Inv(s) && org in s.orgs && id !in s.invitations
    requires IsPendingFor(invitation, org, email) && invitation.role != Owner
    ensures Inv(s.(invitations := RevokeAll(s.invitations, PendingFor(s, org, email))[id := invitation],
                   tokens := s.tokens[token := id]))
  {
    var revoked := RevokeAll(s.invitations, PendingFor(s, org, email));
    assert forall i :: i in revoked ==> !IsPendingFor(revoked[i], org, email);
    assert forall i :: i in revoked ==>
      revoked[i] == s.invitations[i] || (s.invitations[i].status == Pending && revoked[i] == s.invitations[i].(status := Revoked));
    hide RevokeAll, PendingFor;
    var after := s.(invitations := revoked[id := invitation], tokens := s.tokens[token := id]);
    RevokedOnly(s, revoked);
    AddedPending(s.(invitations := revoked), org, email, id, invitation, after);
  }

  /** Revoking pending invitations keeps everything. */
  lemma RevokedOnly(s: State, revoked: map<nat, Invitation>)
    requires Inv(s) && revoked.Keys == s.invitations.Keys
    requires forall i :: i in revoked ==>
               revoked[i] == s.invitations[i] || (s.invitations[i].status == Pending && revoked[i] == s.invitations[i].(status := Revoked))
    ensures Inv(s.(invitations := revoked))
  {
    hide OwnersOf;
    var after := s.(invitations := revoked);
    assert Owned(after) && Closed(after);
    assert OnePending(after);
  }

  lemma AddedPending(s: State, org: nat, email: string, id: nat, invitation: Invitation, after: State)
    requires Inv(s) && org in s.orgs && id !in s.invitations
    requires IsPendingFor(invitation, org, email) && invitation.role != Owner
    requires forall i :: i in s.invitations ==> !IsPendingFor(s.invitations[i], org, email)
    requires after == s.(invitations := s.invitations[id := invitation], tokens := after.tokens)
    ensures Inv(after)
  {
    hide OwnersOf;
    assert Owned(after) && Closed(after);
    assert OnePending(after);
  }

  lemma RevokeKeeps(cfg: Config, s: State, actor: nat, org: nat, id: nat)
    requires Inv(s)
    ensures Inv(RevokeSpec(s, actor, org, id).0)
    ensures NonePendingForMembers(cfg, s) ==> NonePendingForMembers(cfg, RevokeSpec(s, actor, org, id).0)
  {
  }

  lemma AcceptKeeps(cfg: Config, s: State, actor: nat, id: nat, now: int)
    requires Inv(s) && id in s.invitations
    ensures Inv(AcceptInvitation(cfg, s, actor, id, now).0)
    ensures NonePendingForMembers(cfg, s) ==> NonePendingForMembers(cfg, AcceptInvitation(cfg, s, actor, id, now).0)
  {
    hide Inv, NonePendingForMembers;
    var after := AcceptInvitation(cfg, s, actor, id, now).0;
    if after != s {
      JoiningKeeps(s, actor, id, after);
      if NonePendingForMembers(cfg, s) {
        JoiningLeavesNonePending(cfg, s, actor, id, after);
      }
    }
  }

  /** What an acceptance that is not refused and not a repetition does. */
  predicate Joins(s: State, actor: nat, id: nat, after: State)
    requires id in s.invitations
  {
    var i := s.invitations[id];
    && i.status == Pending && Key(i.org, actor) !in s.members
    && after == s.(members := s.members[Key(i.org, actor) := i.role],
                   invitations := s.invitations[id := i.(status := Accepted, acceptedBy := Some(actor))],
                   joins := s.joins + [id])
  }

  lemma JoiningKeeps(s: State, actor: nat, id: nat, after: State)
    requires Inv(s) && id in s.invitations && Joins(s, actor, id, after)
    ensures Inv(after)
  {
    JoiningKeepsOwners(s, after, Key(s.invitations[id].org, actor));
    hide Owned;
    assert Closed(after) && OnePending(after);
    assert id !in s.joins;
    assert JoinedOnce(after);
  }

  /** The address of the new member had this pending invitation, so no other one. */
  lemma JoiningLeavesNonePending(cfg: Config, s: State, actor: nat, id: nat, after: State)
    requires Inv(s) && NonePendingForMembers(cfg, s) && id in s.invitations && Joins(s, actor, id, after)
    requires cfg.casefold(cfg.email(actor)) == s.invitations[id].email
    ensures NonePendingForMembers(cfg, after)
  {
    hide Owned, Closed, JoinedOnce;
    forall i, k |
      i in after.invitations && k in after.members && after.invitations[i].status == Pending && k.org == after.invitations[i].org
      ensures cfg.casefold(cfg.email(k.user)) != after.invitations[i].email {
      assert i != id && after.invitations[i] == s.invitations[i];
      if k == Key(s.invitations[id].org, actor) {
        assert IsPendingFor(s.invitations[id], s.invitations[i].org, s.invitations[id].email);
      }
    }
  }

  /** A new member demotes nobody. */
  lemma JoiningKeepsOwners(s: State, after: State, key: Key)
    requires Owned(s) && after.orgs == s.orgs && key !in s.members && key in after.members
    requires after.members == s.members[key := after.members[key]]
    ensures Owned(after)
  {
    forall o | o in after.orgs ensures OwnersOf(after.members, o) != {} {
      var k :| k in OwnersOf(s.members, o);
      assert k in OwnersOf(after.members, o);
    }
  }

  lemma ApplyKeeps(cfg: Config, s: State, op: Op)
    requires Inv(s)
    ensures Inv(Apply(cfg, s, op).0)
    ensures CaseMappingsAgree(cfg) && NonePendingForMembers(cfg, s) ==> NonePendingForMembers(cfg, Apply(cfg, s, op).0)
  {
    match op
    case CreateOrganization(actor, org) => CreateKeeps(cfg, s, actor, org);
    case ChangeMember(actor, org, user, role) => ChangeKeeps(cfg, s, actor, org, user, role);
    case Invite(actor, org, email, role, id, token, now) => InviteKeeps(cfg, s, actor, org, email, role, id, token, now);
    case Revoke(actor, org, id) => RevokeKeeps(cfg, s, actor, org, id);
    case Accept(actor, token, now) =>
      if token in s.tokens && s.tokens[token] in s.invitations {
        AcceptKeeps(cfg, s, actor, s.tokens[token], now);
      }
  }

  lemma {:induction false} ExecKeeps(cfg: Config, s: State, ops: seq<Op>)
    requires Inv(s)
    ensures Inv(Exec(cfg, s, ops))
    ensures CaseMappingsAgree(cfg) && NonePendingForMembers(cfg, s) ==> NonePendingForMembers(cfg, Exec(cfg, s, ops))
    decreases |ops|
  {
    if ops != [] {
      ApplyKeeps(cfg, s, ops[0]);
      ExecKeeps(cfg, Apply(cfg, s, ops[0]).0, ops[1..]);
    }
  }

  // ---- main results ----

  /** Over every history each organization keeps an owner, an address has at most one pending invitation to
      an organization, and no invitation made two memberships, whoever left or was removed in between. */
  lemma TenantSafety(cfg: Config, ops: seq<Op>)
    ensures var s := Reach(cfg, ops);
            && (forall org :: org in s.orgs ==> exists k :: k in s.members && k.org == org && s.members[k] == Owner)
            && (forall org, email :: |PendingFor(s, org, email)| <= 1)
            && (forall i, j :: 0 <= i < j < |s.joins| ==> s.joins[i] != s.joins[j])
            && (forall id :: id in s.joins <==> id in s.invitations && s.invitations[id].status == Accepted)
  {
    ExecKeeps(cfg, EMPTY, ops);
    var s := Reach(cfg, ops);
    forall org | org in s.orgs ensures exists k :: k in s.members && k.org == org && s.members[k] == Owner {
      var k :| k in OwnersOf(s.members, org);
    }
    forall org, email ensures |PendingFor(s, org, email)| <= 1 {
      AtMostOne(s, org, email);
    }
  }

  lemma AtMostOne(s: State, org: nat, email: string)
    requires OnePending(s)
    ensures |PendingFor(s, org, email)| <= 1
  {
    var pending := PendingFor(s, org, email);
    if pending != {} {
      var i :| i in pending;
      forall j | j in pending ensures j == i {
      }
      assert pending == {i};
    }
  }

  /** The two histories that separate the case mappings: a user creates an organization and invites the
      address they are registered with, which the duplicate check then does not recognize. */
  function SelfInvitation(cfg: Config, user: nat): seq<Op> {
    [CreateOrganization(user, 0), Invite(user, 0, cfg.email(user), Member, 0, 0, 0)]
  }

  lemma SelfInvitationIsPending(cfg: Config, user: nat)
    requires cfg.lower(cfg.email(user)) != cfg.casefold(cfg.email(user))
    ensures var s := Reach(cfg, SelfInvitation(cfg, user));
            && !NonePendingForMembers(cfg, s)
            && Apply(cfg, s, Accept(user, 0, 0)).1 == AlreadyMember
  {
    var ops := SelfInvitation(cfg, user);
    var s1 := Apply(cfg, EMPTY, ops[0]).0;
    assert s1 == State({0}, map[Key(0, user) := Owner], map[], map[], []);
    var s2 := Apply(cfg, s1, ops[1]).0;
    assert PendingFor(s1, 0, cfg.casefold(cfg.email(user))) == {};
    assert s2.invitations[0] == Invitation(0, cfg.casefold(cfg.email(user)), Member, Pending, None, INVITATION_LIFETIME);
    assert ops[1..] == [ops[1]] && ops[1..][1..] == [];
    assert Exec(cfg, s1, ops[1..]) == Exec(cfg, s2, []);
    assert Key(0, user) in s2.members && 0 in s2.invitations;
  }

  /** No member ever has a pending invitation, exactly when the database's lower and the service's casefold
      agree on every registered address. */
  lemma NoPendingInvitationForMembers(cfg: Config)
    ensures (forall ops :: NonePendingForMembers(cfg, Reach(cfg, ops))) <==> CaseMappingsAgree(cfg)
  {
    if CaseMappingsAgree(cfg) {
      forall ops ensures NonePendingForMembers(cfg, Reach(cfg, ops)) {
        ExecKeeps(cfg, EMPTY, ops);
      }
    } else {
      var user: nat :| cfg.lower(cfg.email(user)) != cfg.casefold(cfg.email(user));
      SelfInvitationIsPending(cfg, user);
    }
  }

  /** The same condition decides whether the ALREADY_MEMBER branch of an acceptance can be taken at all. */
  lemma AcceptNeverFindsAMember(cfg: Config)
    ensures (forall ops, actor, token, now :: Apply(cfg, Reach(cfg, ops), Accept(actor, token, now)).1 != AlreadyMember)
            <==> CaseMappingsAgree(cfg)
  {
    if CaseMappingsAgree(cfg) {
      forall ops, actor, token, now ensures Apply(cfg, Reach(cfg, ops), Accept(actor, token, now)).1 != AlreadyMember {
        ExecKeeps(cfg, EMPTY, ops);
        var s := Reach(cfg, ops);
        if token in s.tokens && s.tokens[token] in s.invitations {
          var key := Key(s.invitations[s.tokens[token]].org, actor);
        }
      }
    } else {
      var user: nat :| cfg.lower(cfg.email(user)) != cfg.casefold(cfg.email(user));
      SelfInvitationIsPending(cfg, user);
    }
  }

  // ---- the life of one invitation ----

  /** Everything but status and accepter is fixed, and a settled invitation never moves again. */
  ghost predicate Forward(s: State, after: State, id: nat) {
    && id in s.invitations && id in after.invitations
    && var i, j := s.invitations[id], after.invitations[id];
    && j.org == i.org && j.email == i.email && j.role == i.role && j.expires == i.expires
    && (i.status != Pending ==> j == i)
  }

  lemma ApplyForward(cfg: Config, s: State, op: Op, id: nat)
    requires id in s.invitations
    ensures Forward(s, Apply(cfg, s, op).0, id)
  {
  }

  lemma {:induction false} ExecForward(cfg: Config, s: State, ops: seq<Op>, id: nat)
    requires id in s.invitations
    ensures Forward(s, Exec(cfg, s, ops), id)
    decreases |ops|
  {
    if ops != [] {
      ApplyForward(cfg, s, ops[0], id);
      ExecForward(cfg, Apply(cfg, s, ops[0]).0, ops[1..], id);
    }
  }

  /** Tokens keep naming the invitation they were issued for. */
  lemma {:induction false} TokensStay(cfg: Config, s: State, ops: seq<Op>, token: nat)
    requires token in s.tokens
    ensures token in Exec(cfg, s, ops).tokens && Exec(cfg, s, ops).tokens[token] == s.tokens[token]
    decreases |ops|
  {
    if ops != [] {
      TokensStay(cfg, Apply(cfg, s, ops[0]).0, ops[1..], token);
    }
  }

  /** After a successful acceptance and any further history, accepting again changes nothing: it succeeds
      while the user is still a member and is refused after they left or were removed. */
  lemma AcceptingAgain(cfg: Config, s: State, actor: nat, token: nat, now: int, ops: seq<Op>, later: int)
    requires Apply(cfg, s, Accept(actor, token, now)).1 == Done
    ensures var end := Exec(cfg, Apply(cfg, s, Accept(actor, token, now)).0, ops);
            var org := s.invitations[s.tokens[token]].org;
            Apply(cfg, end, Accept(actor, token, later)) == (end, if Key(org, actor) in end.members then Done else Unavailable)
  {
    var accepted := Apply(cfg, s, Accept(actor, token, now)).0;
    ExecForward(cfg, accepted, ops, s.tokens[token]);
    TokensStay(cfg, accepted, ops, token);
  }

  /** A membership appears only by creating the organization or by one acceptance, which records it. */
  lemma MembershipsHaveASource(cfg: Config, s: State, op: Op, key: Key)
    requires key !in s.members && key in Apply(cfg, s, op).0.members
    ensures var after := Apply(cfg, s, op).0;
            || (op == CreateOrganization(key.user, key.org) && after.joins == s.joins)
            || (op.Accept? && op.actor == key.user && op.token in s.tokens
                && after.joins == s.joins + [s.tokens[op.token]] && s.tokens[op.token] in s.invitations
                && after.members[key] == s.invitations[s.tokens[op.token]].role)
  {
  }

  // ---- authority ----

  predicate Privileged(role: Role) {
    role in {Owner, Admin}
  }

  /** Whoever is not an owner of an organization can neither demote nor remove another owner or admin of it,
      nor make one, nor withdraw or replace a pending invitation of an admin; they only become an admin
      themselves by accepting such an invitation. */
  lemma OnlyOwnersGovernAdmins(cfg: Config, s: State, op: Op, org: nat, user: nat, id: nat)
    requires RoleIn(s, org, op.actor) != Some(Owner) && org in s.orgs && user != op.actor && id in s.invitations
    ensures var after := Apply(cfg, s, op).0;
            var key := Key(org, user);
            && (key in s.members && Privileged(s.members[key]) ==> key in after.members && after.members[key] == s.members[key])
            && (key in after.members && Privileged(after.members[key]) ==> key in s.members && s.members[key] == after.members[key])
            && (IsPendingFor(s.invitations[id], org, s.invitations[id].email) && Privileged(s.invitations[id].role) && !op.Accept? ==>
                  after.invitations[id].status == Pending)
  {
  }
}
