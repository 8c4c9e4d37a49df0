/** Organizations, memberships, invitations and API keys, as one transaction after another changes them.

    Every request here runs under the lock of its organization (or of the key it rotates), so it is one step.
    A clock reading is part of the state and never goes back. */
module Tenancy {
  import opened Tables

  type UserId = nat
  type InviteId = nat
  type KeyId = nat
  type Email = string

  datatype Role = Owner | Member | Viewer

  datatype Account = Account(id: UserId, disabled: bool)

  datatype Invitation = Invitation(org: OrgId, email: Email, role: Role, createdBy: UserId, expiresAt: Time,
                                   acceptedAt: Option<Time>, revokedAt: Option<Time>)
  {
    /** Neither used nor taken back; it may have expired. */
    predicate Live() { acceptedAt.None? && revokedAt.None? }
  }

  /** `origin` is bookkeeping of this model: the key an owner created, from which this one was rotated. */
  datatype Key = Key(org: OrgId, role: Role, expiresAt: Option<Time>, revokedAt: Option<Time>, origin: KeyId) {
    predicate Active(now: Time) {
      revokedAt.None? && (expiresAt.None? || expiresAt.value > now)
    }
  }

  datatype Tenants = Tenants(orgs: set<OrgId>, accounts: map<Email, Account>, members: map<(UserId, OrgId), Role>,
                             invitations: map<InviteId, Invitation>, keys: map<KeyId, Key>, now: Time)

  const MAX_PENDING_INVITATIONS := 100

  datatype Limits = Limits(organizationsPerUser: nat, invitationSeconds: nat)

  predicate IsOwner(s: Tenants, user: UserId, org: OrgId) {
    (user, org) in s.members && s.members[(user, org)] == Owner
  }

  function Owners(s: Tenants, org: OrgId): set<UserId> {
    set k | k in s.members && k.1 == org && s.members[k] == Owner :: k.0
  }

  function Owned(s: Tenants, user: UserId): set<OrgId> {
    set k | k in s.members && k.0 == user && s.members[k] == Owner :: k.1
  }

  /** The invitations counted against the limit. */
  function Pending(s: Tenants, org: OrgId): set<InviteId> {
    set i | i in s.invitations && s.invitations[i].org == org && s.invitations[i].Live()
            && s.invitations[i].expiresAt > s.now
  }

  /** The live invitations `user` has issued for `org`. */
  function IssuedBy(s: Tenants, user: UserId, org: OrgId): set<InviteId> {
    set i | i in s.invitations && s.invitations[i].org == org && s.invitations[i].createdBy == user
            && s.invitations[i].Live()
  }

  ghost function Revoke(invitations: map<InviteId, Invitation>, ids: set<InviteId>, now: Time)
    : (r: map<InviteId, Invitation>)
    ensures r.Keys == invitations.Keys
    ensures forall i :: i in invitations ==>
              r[i] == if i in ids then invitations[i].(revokedAt := Some(now)) else invitations[i]
    decreases |ids|
  {
    if ids == {} then invitations
    else
      var i :| i in ids;
      var rest := Revoke(invitations, ids - {i}, now);
      if i in invitations then rest[i := invitations[i].(revokedAt := Some(now))] else rest
  }

  // ---------------------------------------------------------------- requests

  function CreateOrganization(s: Tenants, limits: Limits, user: UserId, org: OrgId, key: KeyId): (Reply, Tenants) {
    if |Owned(s, user)| >= limits.organizationsPerUser then (Refused(429), s)
    else (Done, s.(orgs := s.orgs + {org},
                   members := s.members[(user, org) := Owner],
                   keys := s.keys[key := Key(org, Owner, None, None, key)]))
  }

  function Invite(s: Tenants, limits: Limits, actor: UserId, org: OrgId, id: InviteId, email: Email, role: Role)
    : (Reply, Tenants)
  {
    if org !in s.orgs then (Refused(404), s)
    else if !IsOwner(s, actor, org) then (Refused(403), s)
    else if |Pending(s, org)| >= MAX_PENDING_INVITATIONS then (Refused(429), s)
    else
      var invitation := Invitation(org, email, role, actor, s.now + limits.invitationSeconds, None, None);
      (Done, s.(invitations := s.invitations[id := invitation]))
  }

  ghost function RevokeInvitation(s: Tenants, actor: UserId, org: OrgId, id: InviteId): (Reply, Tenants) {
    if org !in s.orgs then (Refused(404), s)
    else if !IsOwner(s, actor, org) then (Refused(403), s)
    else if id !in s.invitations || s.invitations[id].org != org then (Refused(404), s)
    else if s.invitations[id].revokedAt.Some? then (Done, s)
    else (Done, s.(invitations := Revoke(s.invitations, {id}, s.now)))
  }

  /** `newUser` is the id of the account made when the email has none, and `raced` says that another request makes
      one at the same moment, so that the database refuses this one; `verified` is the password check. */
  function AcceptInvitation(s: Tenants, id: InviteId, email: Email, newUser: UserId, verified: bool, raced: bool)
    : (Reply, Tenants)
  {
    if id !in s.invitations then (Refused(400), s)
    else
      var i := s.invitations[id];
      if !i.Live() || i.expiresAt <= s.now || i.email != email then (Refused(400), s)
      else if !IsOwner(s, i.createdBy, i.org) then (Refused(400), s)
      else if email in s.accounts && (s.accounts[email].disabled || !verified) then (Refused(401), s)
      else if email !in s.accounts && raced then (Refused(409), s)
      else
        var account := if email in s.accounts then s.accounts[email] else Account(newUser, false);
        if (account.id, i.org) in s.members then (Refused(409), s)
        else (Done, s.(accounts := s.accounts[email := account],
                       members := s.members[(account.id, i.org) := i.role],
                       invitations := s.invitations[id := i.(acceptedAt := Some(s.now))]))
  }

  /** Change a member's role, or remove the member when `role` is `None`. */
  ghost function EditMembership(s: Tenants, actor: UserId, org: OrgId, user: UserId, role: Option<Role>): (Reply, Tenants) {
    if org !in s.orgs then (Refused(404), s)
    else if !IsOwner(s, actor, org) then (Refused(403), s)
    else if (user, org) !in s.members then (Refused(404), s)
    else if IsOwner(s, user, org) && role != Some(Owner) && |Owners(s, org)| <= 1 then (Refused(409), s)
    else
      var members := if role.None? then s.members - {(user, org)} else s.members[(user, org) := role.value];
      var deposed := IsOwner(s, user, org) && role != Some(Owner);
      (Done, s.(members := members,
                invitations := if deposed then Revoke(s.invitations, IssuedBy(s, user, org), s.now)
                               else s.invitations))
  }

  function CreateKey(s: Tenants, org: OrgId, key: KeyId, role: Role, expiresAt: Option<Time>): (Reply, Tenants) {
    if org !in s.orgs then (Refused(403), s)
    else if expiresAt.Some? && expiresAt.value <= s.now then (Refused(422), s)
    else (Done, s.(keys := s.keys[key := Key(org, role, expiresAt, None, key)]))
  }

  /** A key that has rotated itself: `wanted` is the expiry in the request body, if there is a body. */
  function RotateKey(s: Tenants, key: KeyId, replacement: KeyId, wanted: Option<Option<Time>>): (Reply, Tenants) {
    if key !in s.keys || !s.keys[key].Active(s.now) then (Refused(403), s)
    else
      var k := s.keys[key];
      var expiry := if wanted.Some? then wanted.value else k.expiresAt;
      if k.expiresAt.Some? && (expiry.None? || expiry.value > k.expiresAt.value) then (Refused(400), s)
      else (Done, s.(keys := s.keys[replacement := k.(expiresAt := expiry, revokedAt := None)]
                                   [key := k.(revokedAt := Some(s.now))]))
  }

  function RevokeKey(s: Tenants, org: OrgId, key: KeyId): (Reply, Tenants) {
    if key !in s.keys || s.keys[key].org != org then (Refused(404), s)
    else if s.keys[key].revokedAt.Some? then (Done, s)
    else (Done, s.(keys := s.keys[key := s.keys[key].(revokedAt := Some(s.now))]))
  }

  datatype Request =
    | NewOrganization(user: UserId, newOrg: OrgId, firstKey: KeyId)
    | NewInvitation(actor: UserId, org: OrgId, newId: InviteId, email: Email, role: Role)
    | TakeBack(actor: UserId, org: OrgId, id: InviteId)
    | Accept(id: InviteId, email: Email, newUser: UserId, verified: bool, raced: bool)
    | Edit(actor: UserId, org: OrgId, user: UserId, change: Option<Role>)
    | NewKey(org: OrgId, newKey: KeyId, role: Role, expiresAt: Option<Time>)
    | Rotate(key: KeyId, newKey: KeyId, wanted: Option<Option<Time>>)
    | Withdraw(org: OrgId, key: KeyId)
    | Tick(seconds: nat)

  ghost function Handle(s: Tenants, limits: Limits, r: Request): (Reply, Tenants) {
    match r
    case NewOrganization(user, org, key) => CreateOrganization(s, limits, user, org, key)
    case NewInvitation(actor, org, id, email, role) => Invite(s, limits, actor, org, id, email, role)
    case TakeBack(actor, org, id) => RevokeInvitation(s, actor, org, id)
    case Accept(id, email, user, verified, raced) => AcceptInvitation(s, id, email, user, verified, raced)
    case Edit(actor, org, user, role) => EditMembership(s, actor, org, user, role)
    case NewKey(org, key, role, expiry) => CreateKey(s, org, key, role, expiry)
    case Rotate(key, next, wanted) => RotateKey(s, key, next, wanted)
    case Withdraw(org, key) => RevokeKey(s, org, key)
    case Tick(seconds) => (Done, s.(now := s.now + seconds))
  }

  /** uuid4 keys are never handed out twice. */
  predicate FreshIds(s: Tenants, r: Request) {
    match r
    case NewOrganization(_, org, key) => org !in s.orgs && key !in s.keys
    case NewInvitation(_, _, id, _, _) => id !in s.invitations
    case NewKey(_, key, _, _) => key !in s.keys
    case Rotate(_, next, _) => next !in s.keys
    case _ => true
  }

  const NOBODY := Tenants({}, map[], map[], map[], map[], 0)

  /** The states that requests lead to from the empty database. */
  ghost predicate IsRun(limits: Limits, states: seq<Tenants>, requests: seq<Request>) {
    && |states| == |requests| + 1
    && states[0].(now := 0) == NOBODY
    && forall i :: 0 <= i < |requests| ==>
         FreshIds(states[i], requests[i]) && states[i + 1] == Handle(states[i], limits, requests[i]).1
  }
}
