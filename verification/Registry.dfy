/** The organization and invitation endpoints as they change rows, one committed transaction a call.
    An error leaves every row as it was. */
module Registry {
  import opened Tables
  import opened Tenancy

  class Rows {
    const limits: Limits
    var orgs: set<OrgId>
    var accounts: map<Email, Account>
    var members: map<(UserId, OrgId), Role>
    var invitations: map<InviteId, Invitation>
    var keys: map<KeyId, Key>
    var now: Time

    function Contents(): Tenants
      reads this
    {
      Tenants(orgs, accounts, members, invitations, keys, now)
    }

    constructor (limits: Limits)
      ensures this.limits == limits && Contents() == NOBODY
    {
      this.limits := limits;
      orgs, accounts, members, invitations, keys, now := {}, map[], map[], map[], map[], 0;
    }

    /** `create_organization` */
    method CreateOrganization(user: UserId, org: OrgId, key: KeyId) returns (reply: Reply)
      modifies this
      ensures (reply, Contents()) == Tenancy.CreateOrganization(old(Contents()), limits, user, org, key)
    {
      if |Owned(Contents(), user)| >= limits.organizationsPerUser { return Refused(429); }
      orgs := orgs + {org};
      members := members[(user, org) := Owner];
      keys := keys[key := Key(org, Owner, None, None, key)];
      reply := Done;
    }

    /** `lock_organization` and `ensure_owner` */
    method LockAsOwner(actor: UserId, org: OrgId) returns (reply: Reply)
      ensures reply == if org !in orgs then Refused(404)
                       else if !IsOwner(Contents(), actor, org) then Refused(403) else Done
    {
      if org !in orgs { return Refused(404); }
      if (actor, org) !in members || members[(actor, org)] != Owner { return Refused(403); }
      reply := Done;
    }

    /** `invite` */
    method Invite(actor: UserId, org: OrgId, id: InviteId, email: Email, role: Role) returns (reply: Reply)
      modifies this`invitations
      ensures (reply, Contents()) == Tenancy.Invite(old(Contents()), limits, actor, org, id, email, role)
    {
      reply := LockAsOwner(actor, org);
      if reply != Done { return; }
      if |Pending(Contents(), org)| >= MAX_PENDING_INVITATIONS { return Refused(429); }
      invitations := invitations[id := Invitation(org, email, role, actor, now + limits.invitationSeconds, None, None)];
    }

    /** `revoke_invitation` */
    method RevokeInvitation(actor: UserId, org: OrgId, id: InviteId) returns (reply: Reply)
      modifies this`invitations
      ensures (reply, Contents()) == Tenancy.RevokeInvitation(old(Contents()), actor, org, id)
    {
      reply := LockAsOwner(actor, org);
      if reply != Done { return; }
      if id !in invitations || invitations[id].org != org { return Refused(404); }
      if invitations[id].revokedAt.None? {
        invitations := invitations[id := invitations[id].(revokedAt := Some(now))];
        assert invitations == Revoke(old(invitations), {id}, now);
      }
    }

    /** `accept_invitation` */
    method AcceptInvitation(id: InviteId, email: Email, newUser: UserId, verified: bool, raced: bool)
      returns (reply: Reply)
      modifies this`invitations, this`members, this`accounts
      ensures (reply, Contents()) == Tenancy.AcceptInvitation(old(Contents()), id, email, newUser, verified, raced)
    {
      if id !in invitations { return Refused(400); }
      var i := invitations[id];
      if i.acceptedAt.Some? || i.revokedAt.Some? || i.expiresAt <= now || i.email != email {
        return Refused(400);
      }
      if (i.createdBy, i.org) !in members || members[(i.createdBy, i.org)] != Owner { return Refused(400); }
      var account;
      if email in accounts {
        account := accounts[email];
        if account.disabled || !verified { return Refused(401); }
      } else {
        if raced { return Refused(409); }
        account := Account(newUser, false);
      }
      if (account.id, i.org) in members { return Refused(409); }
      accounts := accounts[email := account];
      members := members[(account.id, i.org) := i.role];
      invitations := invitations[id := i.(acceptedAt := Some(now))];
      reply := Done;
    }

    /** `edit_membership` */
    method EditMembership(actor: UserId, org: OrgId, user: UserId, role: Option<Role>) returns (reply: Reply)
      modifies this`invitations, this`members
      ensures (reply, Contents()) == Tenancy.EditMembership(old(Contents()), actor, org, user, role)
    {
      reply := LockAsOwner(actor, org);
      if reply != Done { return; }
      if (user, org) !in members { return Refused(404); }
      var previous := members[(user, org)];
      if previous == Owner && role != Some(Owner) && |Owners(Contents(), org)| <= 1 { return Refused(409); }
      if role.None? {
        members := members - {(user, org)};
      } else {
        members := members[(user, org) := role.value];
      }
      if previous == Owner && role != Some(Owner) {
        var issued := IssuedBy(Contents(), user, org);
        assert issued == IssuedBy(old(Contents()), user, org);
        RevokeAll(issued);
      }
    }

    /** The loop of `edit_membership` over the pending invitations of a removed or demoted owner. */
    method RevokeAll(ids: set<InviteId>)
      requires ids <= invitations.Keys
      modifies this`invitations
      ensures invitations == Revoke(old(invitations), ids, now)
    {
      var left := ids;
      while left != {}
        invariant left <= ids && invitations.Keys == old(invitations).Keys
        invariant forall i :: i in invitations ==>
                    invitations[i] == if i in ids && i !in left then old(invitations)[i].(revokedAt := Some(now))
                                      else old(invitations)[i]
        decreases |left|
      {
        var i :| i in left;
        invitations := invitations[i := invitations[i].(revokedAt := Some(now))];
        left := left - {i};
      }
    }

    /** `rotate_key` */
    method RotateKey(key: KeyId, replacement: KeyId, wanted: Option<Option<Time>>) returns (reply: Reply)
      modifies this`keys
      ensures (reply, Contents()) == Tenancy.RotateKey(old(Contents()), key, replacement, wanted)
    {
      if key !in keys || !keys[key].Active(now) { return Refused(403); }
      var k := keys[key];
      var expiry := if wanted.Some? then wanted.value else k.expiresAt;
      if k.expiresAt.Some? && (expiry.None? || expiry.value > k.expiresAt.value) { return Refused(400); }
      keys := keys[replacement := Key(k.org, k.role, expiry, None, k.origin)];
      keys := keys[key := k.(revokedAt := Some(now))];
      reply := Done;
    }
  }
}
