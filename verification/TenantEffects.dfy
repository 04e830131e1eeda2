/** Who may do what in an organization, and what it changes: each operation is carried out exactly under the
    conditions below, stated by roles. */
module TenantEffects {
  import opened Domain
  import opened Tenants

  predicate IsMember(s: State, org: nat, user: nat) {
    org in s.orgs && Key(org, user) in s.members
  }

  predicate HasRole(s: State, org: nat, user: nat, role: Role) {
    IsMember(s, org, user) && s.members[Key(org, user)] == role
  }

  predicate Plain(role: Role) {
    role == Member || role == Viewer
  }

  /** Owners govern every role, admins plain ones, and nobody else governs any. */
  predicate Governs(s: State, org: nat, user: nat, role: Role) {
    HasRole(s, org, user, Owner) || (HasRole(s, org, user, Admin) && Plain(role))
  }

  // ---- organizations ----

  /** Creating an organization makes its creator the owner, and is possible once. */
  lemma CreatesWithAnOwner(s: State, actor: nat, org: nat)
    ensures var r := Create(s, actor, org);
            && (r.1 == Done <==> org !in s.orgs) && (r.1 != Done ==> r.0 == s)
            && (r.1 == Done ==> HasRole(r.0, org, actor, Owner)
                                && r.0 == s.(orgs := s.orgs + {org}, members := s.members[Key(org, actor) := Owner]))
  {
  }

  // ---- members ----

  /** No other member of the organization is an owner. */
  ghost predicate OnlyOwner(s: State, org: nat, user: nat) {
    HasRole(s, org, user, Owner) && forall other :: HasRole(s, org, other, Owner) ==> other == user
  }

  lemma OwnersCounted(s: State, org: nat, user: nat)
    requires HasRole(s, org, user, Owner)
    ensures |OwnersOf(s.members, org)| == 1 <==> OnlyOwner(s, org, user)
  {
    var owners, own := OwnersOf(s.members, org), Key(org, user);
    assert own in owners;
    if |owners| == 1 {
      OneElement(owners, own);
      forall other | HasRole(s, org, other, Owner) ensures other == user {
        assert Key(org, other) in owners;
      }
    }
    if OnlyOwner(s, org, user) {
      forall k | k in owners ensures k == own {
        assert HasRole(s, org, k.user, Owner);
      }
      assert owners == {own};
    }
  }

  lemma OneElement(keys: set<Key>, k: Key)
    requires |keys| == 1 && k in keys
    ensures keys == {k}
  {
    assert |keys - {k}| == 0;
  }

  /** A member is changed or removed exactly if the acting member governs the present and the new role, or leaves,
      and the organization keeps an owner; nothing else moves. */
  lemma ChangesByAuthority(s: State, actor: nat, org: nat, user: nat, role: Option<Role>)
    requires IsMember(s, org, actor) && IsMember(s, org, user)
    ensures var r := Change(s, actor, org, user, role);
            var present := s.members[Key(org, user)];
            var allowed := if role.Some? then Governs(s, org, actor, present) && Governs(s, org, actor, role.value)
                           else user == actor || Governs(s, org, actor, present);
            && (r.1 == Forbidden <==> !allowed)
            && (r.1 == LastOwner <==> allowed && OnlyOwner(s, org, user) && role != Some(Owner))
            && (r.1 == Done <==> allowed && !(OnlyOwner(s, org, user) && role != Some(Owner)))
            && (r.1 != Done ==> r.0 == s)
            && (r.1 == Done ==>
                  r.0 == s.(members := if role.Some? then s.members[Key(org, user) := role.value] else s.members - {Key(org, user)}))
  {
    if s.members[Key(org, user)] == Owner {
      OwnersCounted(s, org, user);
    }
    hide OnlyOwner, OwnersOf;
    assert s.members[Key(org, user)] != Owner ==> !OnlyOwner(s, org, user) by {
      NotAnOwner(s, org, user);
    }
  }

  lemma NotAnOwner(s: State, org: nat, user: nat)
    ensures OnlyOwner(s, org, user) ==> HasRole(s, org, user, Owner)
  {
  }

  /** Strangers change nothing, and find nothing. */
  lemma StrangersChangeNothing(cfg: Config, s: State, op: Op)
    requires (op.ChangeMember? || op.Invite? || op.Revoke?) && !IsMember(s, op.org, op.actor)
    ensures Apply(cfg, s, op) == (s, NotFound)
  {
  }

  /** Nor is a member who is not there. */
  lemma MissingMembersAreNotFound(s: State, actor: nat, org: nat, user: nat, role: Option<Role>)
    requires !IsMember(s, org, user)
    ensures Change(s, actor, org, user, role) == (s, NotFound)
  {
  }

  /** Members and viewers have no authority: whatever they do, every other membership of their organization and
      every invitation to it stays, but for an invitation they accept themselves. */
  lemma PlainMembersGovernNobody(cfg: Config, s: State, op: Op, org: nat)
    requires org in s.orgs && !HasRole(s, org, op.actor, Owner) && !HasRole(s, org, op.actor, Admin)
    ensures var after := Apply(cfg, s, op).0;
            && (forall user :: user != op.actor ==>
                  && (Key(org, user) in after.members <==> Key(org, user) in s.members)
                  && (Key(org, user) in s.members ==> after.members[Key(org, user)] == s.members[Key(org, user)]))
            && (forall id :: id in after.invitations && after.invitations[id].org == org ==>
                  id in s.invitations && (after.invitations[id] == s.invitations[id] || op.Accept?))
  {
  }

  // ---- invitations ----

  /** A pending invitation to the organization for the address. */
  predicate Awaits(s: State, org: nat, email: string, id: nat) {
    && id in s.invitations && s.invitations[id].org == org && s.invitations[id].email == email
    && s.invitations[id].status == Pending
  }

  /** An invitation is made exactly if the acting member governs its role and those of the pending invitations it
      supersedes, the address belongs to no member, and identity and token are new. */
  lemma InvitesByAuthority(cfg: Config, s: State, actor: nat, org: nat, address: string, role: Role, id: nat, token: nat, now: int)
    requires IsMember(s, org, actor) && role != Owner && id !in s.invitations && token !in s.tokens
    ensures var r := InviteSpec(cfg, s, actor, org, address, role, id, token, now);
            var email := cfg.casefold(address);
            var taken := exists user :: IsMember(s, org, user) && cfg.lower(cfg.email(user)) == email;
            var supersedes := forall p :: Awaits(s, org, email, p) ==> Governs(s, org, actor, s.invitations[p].role);
            && (r.1 == Done <==> Governs(s, org, actor, role) && !taken && supersedes)
            && (r.1 == AlreadyMember <==> Governs(s, org, actor, role) && taken)
            && (r.1 == Forbidden <==> !Governs(s, org, actor, role) || (!taken && !supersedes))
            && (r.1 != Done ==> r.0 == s)
            && (r.1 == Done ==> Invited(s, r.0, org, email, role, id, token, now))
  {
    hide RevokeAll, Invited;
    var email := cfg.casefold(address);
    assert HasMemberWith(cfg, s, org, email) <==> exists user :: IsMember(s, org, user) && cfg.lower(cfg.email(user)) == email by {
      if k :| k in s.members && k.org == org && cfg.lower(cfg.email(k.user)) == email {
        assert IsMember(s, org, k.user);
      }
      if user :| IsMember(s, org, user) && cfg.lower(cfg.email(user)) == email {
        assert Key(org, user) in s.members;
      }
    }
    assert forall p :: p in PendingFor(s, org, email) <==> Awaits(s, org, email, p);
    hide HasMemberWith, PendingFor, IsMember;
    var r := InviteSpec(cfg, s, actor, org, address, role, id, token, now);
    if r.1 == Done {
      InvitationReplaces(s, org, email, role, id, token, now);
    }
  }

  /** The new invitation lasts seven days and is the only pending one for its address; the ones before it are
      revoked, and nothing else moves. */
  predicate Invited(s: State, after: State, org: nat, email: string, role: Role, id: nat, token: nat, now: int) {
    && after.orgs == s.orgs && after.members == s.members && after.joins == s.joins && after.tokens == s.tokens[token := id]
    && after.invitations.Keys == s.invitations.Keys + {id}
    && after.invitations[id] == Invitation(org, email, role, Pending, None, now + 7 * 24 * 60 * 60 * 1_000_000)
    && (forall p :: p in s.invitations && p != id ==>
          after.invitations[p] == if Awaits(s, org, email, p) then s.invitations[p].(status := Revoked) else s.invitations[p])
  }

  lemma InvitationReplaces(s: State, org: nat, email: string, role: Role, id: nat, token: nat, now: int)
    requires id !in s.invitations
    ensures Invited(s, s.(invitations := RevokeAll(s.invitations, PendingFor(s, org, email))
                                           [id := Invitation(org, email, role, Pending, None, now + INVITATION_LIFETIME)],
                          tokens := s.tokens[token := id]),
                    org, email, role, id, token, now)
  {
  }

  /** An invitation is withdrawn exactly if it is to the organization, not yet accepted, and the acting member
      governs its role; withdrawing it again changes nothing. */
  lemma RevokesByAuthority(s: State, actor: nat, org: nat, id: nat)
    requires IsMember(s, org, actor) && (HasRole(s, org, actor, Owner) || HasRole(s, org, actor, Admin))
    ensures var r := RevokeSpec(s, actor, org, id);
            var known := id in s.invitations && s.invitations[id].org == org;
            && (r.1 == NotFound <==> !known)
            && (r.1 == Forbidden <==> known && !Governs(s, org, actor, s.invitations[id].role))
            && (r.1 == Unavailable <==> known && Governs(s, org, actor, s.invitations[id].role) && s.invitations[id].status == Accepted)
            && (r.1 == Done <==> known && Governs(s, org, actor, s.invitations[id].role) && s.invitations[id].status != Accepted)
            && (r.1 != Done ==> r.0 == s)
            && (r.1 == Done ==> r.0 == s.(invitations := s.invitations[id := s.invitations[id].(status := Revoked)]))
  {
  }

  /** An invitation is accepted exactly by a user registered under its address who is no member yet, while it is
      pending and not expired; that makes one membership with its role. Accepting it again as a member is fine. */
  lemma AcceptsOnce(cfg: Config, s: State, actor: nat, token: nat, now: int)
    requires token in s.tokens && s.tokens[token] in s.invitations
    ensures var r := AcceptSpec(cfg, s, actor, token, now);
            var id := s.tokens[token];
            var i := s.invitations[id];
            var key := Key(i.org, actor);
            var mine := cfg.casefold(cfg.email(actor)) == i.email;
            var again := i.status == Accepted && i.acceptedBy == Some(actor) && key in s.members;
            var usable := i.status == Pending && now < i.expires;
            && (r.1 == EmailMismatch <==> !mine)
            && (r.1 == Done <==> mine && (again || (usable && key !in s.members)))
            && (r.1 == AlreadyMember <==> mine && usable && key in s.members)
            && (r.1 == Unavailable <==> mine && !again && !usable)
            && (r.1 != Done || again ==> r.0 == s)
            && (r.1 == Done && !again ==>
                  r.0 == s.(members := s.members[key := i.role], joins := s.joins + [id],
                            invitations := s.invitations[id := i.(status := Accepted, acceptedBy := Some(actor))]))
  {
  }
}
