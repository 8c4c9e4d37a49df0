/** What granted requests do, and which are granted, told from the requests of a run: who is a member and with which
    role, which invitation can be accepted and by whom, which key works. */
module Memberships {
  import opened Tables
  import opened Tenancy
  import opened TenancyTheorems
  import Sums

  ghost predicate Granted(s: Tenants, limits: Limits, r: Request) {
    Handle(s, limits, r).0 == Done
  }

  // ---------------------------------------------------------------- what lasts until it is ended

  /** Something holds after a step that gives it, and as long as no step ends it. */
  predicate OneMore(holds: bool, gives: bool, ends: bool, holds': bool) {
    holds' <==> gives || (holds && !ends)
  }

  /** Step k gives it, and no step ends it between k and n. */
  predicate Since(gives: seq<bool>, ends: seq<bool>, k: int, n: nat)
    requires n <= |gives| == |ends|
  {
    0 <= k < n && gives[k] && forall m :: k < m < n ==> !ends[m]
  }

  lemma {:induction false} SinceIff(holds: seq<bool>, gives: seq<bool>, ends: seq<bool>, n: nat)
    requires |holds| == |gives| + 1 == |ends| + 1 && n <= |gives| && !holds[0]
    requires forall k :: 0 <= k < |gives| ==> OneMore(holds[k], gives[k], ends[k], holds[k + 1])
    ensures holds[n] <==> exists k :: Since(gives, ends, k, n)
  {
    if n > 0 {
      var m := n - 1;
      SinceIff(holds, gives, ends, m);
      assert OneMore(holds[m], gives[m], ends[m], holds[m + 1]);
      if gives[m] { assert Since(gives, ends, m, n); }
      if holds[m] && !ends[m] {
        var k :| Since(gives, ends, k, m);
        assert Since(gives, ends, k, n);
      }
      if k :| Since(gives, ends, k, n) {
        if k < m { assert Since(gives, ends, k, m); }
      }
    }
  }

  // ---------------------------------------------------------------- who is a member

  /** What a request says about the membership of one user in one organization. */
  datatype Change = Unchanged | Becomes(role: Role) | Leaves

  /** The account that accepts: the one the email has, or a new one. */
  function Accepting(s: Tenants, email: Email, newUser: UserId): UserId {
    if email in s.accounts then s.accounts[email].id else newUser
  }

  /** A founder becomes owner; who accepts gets the role of the invitation; an edit gives a role, or takes the membership
      away. Only granted requests count. */
  ghost function ChangeOf(s: Tenants, limits: Limits, r: Request, user: UserId, org: OrgId): Change {
    if !Granted(s, limits, r) then Unchanged
    else if r.NewOrganization? && r.user == user && r.newOrg == org then Becomes(Owner)
    else if r.Edit? && r.user == user && r.org == org then
      if r.change.None? then Leaves else Becomes(r.change.value)
    else if r.Accept? && r.id in s.invitations && s.invitations[r.id].org == org
            && Accepting(s, r.email, r.newUser) == user
    then Becomes(s.invitations[r.id].role)
    else Unchanged
  }

  predicate Takes(s: Tenants, c: Change, t: Tenants, k: (UserId, OrgId)) {
    match c
    case Unchanged => (k in t.members <==> k in s.members) && (k in s.members ==> t.members[k] == s.members[k])
    case Becomes(role) => k in t.members && t.members[k] == role
    case Leaves => k !in t.members
  }

  lemma StepTakes(s: Tenants, limits: Limits, r: Request, user: UserId, org: OrgId)
    ensures Takes(s, ChangeOf(s, limits, r, user, org), Handle(s, limits, r).1, (user, org))
  {
  }

  /** Request k gave this user this role, and nothing was said about the user's membership after it. */
  ghost predicate LastGave(limits: Limits, states: seq<Tenants>, requests: seq<Request>, k: int, n: nat,
                           user: UserId, org: OrgId, role: Role)
    requires |states| == |requests| + 1 && n <= |requests|
  {
    && 0 <= k < n && ChangeOf(states[k], limits, requests[k], user, org) == Becomes(role)
    && forall m :: k < m < n ==> ChangeOf(states[m], limits, requests[m], user, org) == Unchanged
  }

  /** On every run, a user is a member with a role if and only if the last granted request about that membership was
      one that gives this role. */
  lemma MemberIff(limits: Limits, states: seq<Tenants>, requests: seq<Request>, n: nat,
                  user: UserId, org: OrgId, role: Role)
    requires IsRun(limits, states, requests) && n <= |requests|
    ensures (user, org) in states[n].members && states[n].members[(user, org)] == role <==>
              exists k :: LastGave(limits, states, requests, k, n, user, org, role)
  {
    var member := seq(|states|, k requires 0 <= k < |states| =>
      (user, org) in states[k].members && states[k].members[(user, org)] == role);
    var said := seq(|requests|, k requires 0 <= k < |requests| => ChangeOf(states[k], limits, requests[k], user, org));
    var gives := seq(|requests|, k requires 0 <= k < |requests| => said[k] == Becomes(role));
    var ends := seq(|requests|, k requires 0 <= k < |requests| => said[k] != Unchanged);
    forall k | 0 <= k < |requests| ensures OneMore(member[k], gives[k], ends[k], member[k + 1]) {
      assert states[k + 1] == Handle(states[k], limits, requests[k]).1;
      StepTakes(states[k], limits, requests[k], user, org);
    }
    SinceIff(member, gives, ends, n);
    forall k ensures Since(gives, ends, k, n) <==> LastGave(limits, states, requests, k, n, user, org, role) {
      if Since(gives, ends, k, n) {
        forall m | k < m < n ensures ChangeOf(states[m], limits, requests[m], user, org) == Unchanged { assert !ends[m]; }
      }
      if LastGave(limits, states, requests, k, n, user, org, role) {
        forall m | k < m < n ensures !ends[m] { assert ChangeOf(states[m], limits, requests[m], user, org) == Unchanged; }
      }
    }
  }

  /** Someone else owns the organization. */
  ghost predicate OtherOwner(s: Tenants, org: OrgId, user: UserId) {
    exists other :: other != user && IsOwner(s, other, org)
  }

  /** An edit is granted exactly to an owner, about a member, and never takes the last owner's role away. What it asks
      for is then so, and no other membership, nor any organization, account or key, is touched. */
  lemma EditGrantedIff(s: Tenants, limits: Limits, actor: UserId, org: OrgId, user: UserId, change: Option<Role>)
    ensures Granted(s, limits, Edit(actor, org, user, change)) <==>
              && org in s.orgs && IsOwner(s, actor, org) && (user, org) in s.members
              && (s.members[(user, org)] == Owner && change != Some(Owner) ==> OtherOwner(s, org, user))
    ensures Granted(s, limits, Edit(actor, org, user, change)) ==>
              var t := Handle(s, limits, Edit(actor, org, user, change)).1;
              && ((user, org) in t.members <==> change.Some?)
              && (change.Some? ==> t.members[(user, org)] == change.value)
              && (forall k :: k != (user, org) ==>
                    (k in t.members <==> k in s.members) && (k in s.members ==> t.members[k] == s.members[k]))
              && t.orgs == s.orgs && t.accounts == s.accounts && t.keys == s.keys
  {
    if IsOwner(s, user, org) {
      if |Owners(s, org)| > 1 {
        AnotherOwner(s, org, user);
      } else if other :| other != user && IsOwner(s, other, org) {
        assert {user, other} <= Owners(s, org);
        Sums.SubsetSize({user, other}, Owners(s, org));
      }
    }
  }

  /** Request r lets this user into the organization by an invitation. */
  ghost predicate LetsIn(s: Tenants, limits: Limits, r: Request, user: UserId, org: OrgId) {
    && r.Accept? && Granted(s, limits, r) && r.id in s.invitations && s.invitations[r.id].org == org
    && Accepting(s, r.email, r.newUser) == user
  }

  lemma OutsideStep(s: Tenants, limits: Limits, r: Request, user: UserId, org: OrgId)
    requires FreshIds(s, r) && org in s.orgs && (user, org) !in s.members && !LetsIn(s, limits, r, user, org)
    ensures var t := Handle(s, limits, r).1; org in t.orgs && (user, org) !in t.members
  {
  }

  lemma {:induction false} StaysOut(limits: Limits, states: seq<Tenants>, requests: seq<Request>, m: nat, n: nat,
                                    user: UserId, org: OrgId)
    requires IsRun(limits, states, requests) && m <= n <= |requests|
    requires org in states[m].orgs && (user, org) !in states[m].members
    requires forall k :: m <= k < n ==> !LetsIn(states[k], limits, requests[k], user, org)
    ensures org in states[n].orgs && (user, org) !in states[n].members
  {
    if m < n {
      StaysOut(limits, states, requests, m, n - 1, user, org);
      OutsideStep(states[n - 1], limits, requests[n - 1], user, org);
    }
  }

  /** A member who was removed is none in any later state, until an invitation to the organization is accepted by that
      account. */
  lemma RemovedStaysOut(limits: Limits, states: seq<Tenants>, requests: seq<Request>, m: nat, n: nat,
                        actor: UserId, org: OrgId, user: UserId)
    requires IsRun(limits, states, requests) && m < n <= |requests|
    requires requests[m] == Edit(actor, org, user, None) && Granted(states[m], limits, requests[m])
    requires forall k :: m < k < n ==> !LetsIn(states[k], limits, requests[k], user, org)
    ensures (user, org) !in states[n].members
  {
    EditGrantedIff(states[m], limits, actor, org, user, None);
    assert states[m + 1] == Handle(states[m], limits, requests[m]).1;
    StaysOut(limits, states, requests, m + 1, n, user, org);
  }

  // ---------------------------------------------------------------- which invitation can be accepted

  /** Request k made this invitation. */
  ghost predicate Issued(limits: Limits, states: seq<Tenants>, requests: seq<Request>, k: int, id: InviteId, i: Invitation)
    requires |states| == |requests| + 1
  {
    && 0 <= k < |requests| && Granted(states[k], limits, requests[k])
    && requests[k] == NewInvitation(i.createdBy, i.org, id, i.email, i.role)
    && i.expiresAt == states[k].now + limits.invitationSeconds
    && IsOwner(states[k], i.createdBy, i.org)
  }

  /** The request ends the invitation: accepts it, takes it back, or removes or demotes the owner who made it. */
  ghost predicate Ends(s: Tenants, limits: Limits, r: Request, id: InviteId) {
    && id in s.invitations && Granted(s, limits, r)
    && match r
       case Accept(i, _, _, _, _) => i == id
       case TakeBack(_, _, i) => i == id
       case Edit(_, org, user, change) =>
         user == s.invitations[id].createdBy && org == s.invitations[id].org && change != Some(Owner)
       case _ => false
  }

  lemma InvitationStep(s: Tenants, limits: Limits, r: Request, id: InviteId)
    requires Vouched(s) && FreshIds(s, r)
    ensures var t := Handle(s, limits, r).1;
            id in t.invitations <==> id in s.invitations || Makes(s, limits, r, id)
    ensures var t := Handle(s, limits, r).1;
            id in s.invitations ==> (t.invitations[id].Live() <==> s.invitations[id].Live() && !Ends(s, limits, r, id))
  {
  }

  lemma InvitationMade(s: Tenants, limits: Limits, r: Request)
    requires FreshIds(s, r) && r.NewInvitation? && Granted(s, limits, r)
    ensures var t := Handle(s, limits, r).1;
            && r.newId in t.invitations
            && t.invitations[r.newId] ==
                 Invitation(r.org, r.email, r.role, r.actor, s.now + limits.invitationSeconds, None, None)
            && IsOwner(s, r.actor, r.org)
  {
  }

  /** The request makes this invitation. */
  ghost predicate Makes(s: Tenants, limits: Limits, r: Request, id: InviteId) {
    r.NewInvitation? && r.newId == id && Granted(s, limits, r)
  }

  /** The invitation was made by request k and has not been ended since. */
  ghost predicate Stands(limits: Limits, states: seq<Tenants>, requests: seq<Request>, k: int, n: nat, id: InviteId)
    requires |states| == |requests| + 1 && n <= |requests|
  {
    && 0 <= k < n && Makes(states[k], limits, requests[k], id)
    && forall m :: k < m < n ==> !Ends(states[m], limits, requests[m], id)
  }

  /** Every invitation of a run offers what the owner who made it asked for, to the email asked for, and expires at the
      time that was set then. */
  lemma {:induction false} InvitationIsIssued(limits: Limits, states: seq<Tenants>, requests: seq<Request>, n: nat,
                                              id: InviteId)
    returns (k: nat)
    requires IsRun(limits, states, requests) && n <= |requests| && id in states[n].invitations
    ensures k < n && Issued(limits, states, requests, k, id, states[n].invitations[id])
  {
    assert states[n] == Handle(states[n - 1], limits, requests[n - 1]).1;
    if id in states[n - 1].invitations {
      k := InvitationIsIssued(limits, states, requests, n - 1, id);
      StepKeepsDead(states[n - 1], limits, requests[n - 1], id);
    } else {
      k := n - 1;
      RunKeepsInv(limits, states, requests, n - 1);
      InvitationStep(states[n - 1], limits, requests[n - 1], id);
      InvitationMade(states[n - 1], limits, requests[n - 1]);
    }
  }

  /** An invitation is live if and only if it was made and nothing granted since has ended it. */
  lemma LiveIff(limits: Limits, states: seq<Tenants>, requests: seq<Request>, n: nat, id: InviteId)
    requires IsRun(limits, states, requests) && n <= |requests|
    ensures id in states[n].invitations && states[n].invitations[id].Live() <==>
              exists k :: Stands(limits, states, requests, k, n, id)
  {
    var live := seq(|states|, k requires 0 <= k < |states| =>
      id in states[k].invitations && states[k].invitations[id].Live());
    var makes := seq(|requests|, k requires 0 <= k < |requests| => Makes(states[k], limits, requests[k], id));
    var ends := seq(|requests|, k requires 0 <= k < |requests| => Ends(states[k], limits, requests[k], id));
    forall k | 0 <= k < |requests| ensures OneMore(live[k], makes[k], ends[k], live[k + 1]) {
      RunKeepsInv(limits, states, requests, k);
      assert FreshIds(states[k], requests[k]) && states[k + 1] == Handle(states[k], limits, requests[k]).1;
      InvitationStep(states[k], limits, requests[k], id);
      if makes[k] { InvitationMade(states[k], limits, requests[k]); }
    }
    SinceIff(live, makes, ends, n);
    forall k ensures Since(makes, ends, k, n) <==> Stands(limits, states, requests, k, n, id) {
      if Since(makes, ends, k, n) {
        forall m | k < m < n ensures !Ends(states[m], limits, requests[m], id) { assert !ends[m]; }
      }
      if Stands(limits, states, requests, k, n, id) {
        forall m | k < m < n ensures !ends[m] { assert !Ends(states[m], limits, requests[m], id); }
      }
    }
  }

  /** An invitation is accepted exactly when it stands, its time is not over, the email is the one it was made for, the
      account's password is right and the account not disabled, or a new account is made without a race, and the account
      is no member yet. */
  lemma AcceptGrantedIff(limits: Limits, states: seq<Tenants>, requests: seq<Request>, n: nat,
                         id: InviteId, email: Email, newUser: UserId, verified: bool, raced: bool)
    requires IsRun(limits, states, requests) && n <= |requests|
    ensures Granted(states[n], limits, Accept(id, email, newUser, verified, raced)) <==>
              && (exists k :: Stands(limits, states, requests, k, n, id) && requests[k].email == email
                              && states[n].now < states[k].now + limits.invitationSeconds
                              && (Accepting(states[n], email, newUser), requests[k].org) !in states[n].members)
              && (if email in states[n].accounts then !states[n].accounts[email].disabled && verified else !raced)
  {
    LiveIff(limits, states, requests, n, id);
    if id in states[n].invitations {
      RunKeepsInv(limits, states, requests, n);
      var k := InvitationIsIssued(limits, states, requests, n, id);
      forall j | Stands(limits, states, requests, j, n, id) ensures j == k { MadeOnce(limits, states, requests, j, k, id); }
    }
  }

  lemma {:induction false} KnownStays(limits: Limits, states: seq<Tenants>, requests: seq<Request>, j: nat, k: nat, id: InviteId)
    requires IsRun(limits, states, requests) && j <= k <= |requests| && id in states[j].invitations
    ensures id in states[k].invitations
  {
    if j < k {
      KnownStays(limits, states, requests, j, k - 1, id);
      StepKeepsDead(states[k - 1], limits, requests[k - 1], id);
    }
  }

  /** No id is used for two invitations. */
  lemma MadeOnce(limits: Limits, states: seq<Tenants>, requests: seq<Request>, j: nat, k: nat, id: InviteId)
    requires IsRun(limits, states, requests) && j < |requests| && k < |requests|
    requires Makes(states[j], limits, requests[j], id) && Makes(states[k], limits, requests[k], id)
    ensures j == k
  {
    assert FreshIds(states[j], requests[j]) && states[j + 1] == Handle(states[j], limits, requests[j]).1;
    assert FreshIds(states[k], requests[k]) && states[k + 1] == Handle(states[k], limits, requests[k]).1;
    InvitationMade(states[j], limits, requests[j]);
    InvitationMade(states[k], limits, requests[k]);
    if j < k { KnownStays(limits, states, requests, j + 1, k, id); }
    if k < j { KnownStays(limits, states, requests, k + 1, j, id); }
  }

  /** An invitation is made exactly by an owner while fewer than a hundred of the organization are open: neither accepted
      nor revoked nor over. */
  lemma InviteGrantedIff(s: Tenants, limits: Limits, actor: UserId, org: OrgId, id: InviteId, email: Email, role: Role)
    ensures Granted(s, limits, NewInvitation(actor, org, id, email, role)) <==>
              && org in s.orgs && IsOwner(s, actor, org)
              && |set i | i in s.invitations && s.invitations[i].org == org && s.invitations[i].acceptedAt.None?
                          && s.invitations[i].revokedAt.None? && s.now < s.invitations[i].expiresAt| < 100
  {
    assert Pending(s, org) == set i | i in s.invitations && s.invitations[i].org == org
                                      && s.invitations[i].acceptedAt.None? && s.invitations[i].revokedAt.None?
                                      && s.now < s.invitations[i].expiresAt;
  }

  /** An invitation is taken back by an owner of its organization, whatever has become of it, and only its first
      revocation counts. */
  lemma TakeBackGrantedIff(s: Tenants, limits: Limits, actor: UserId, org: OrgId, id: InviteId)
    ensures Granted(s, limits, TakeBack(actor, org, id)) <==>
              org in s.orgs && IsOwner(s, actor, org) && id in s.invitations && s.invitations[id].org == org
    ensures Granted(s, limits, TakeBack(actor, org, id)) ==>
              var t := Handle(s, limits, TakeBack(actor, org, id)).1;
              && t == s.(invitations := t.invitations) && t.invitations.Keys == s.invitations.Keys
              && (forall i :: i in s.invitations && i != id ==> t.invitations[i] == s.invitations[i])
              && t.invitations[id] == if s.invitations[id].revokedAt.Some? then s.invitations[id]
                                      else s.invitations[id].(revokedAt := Some(s.now))
  {
  }

  /** A user founds organizations as long as those the user owns are fewer than the limit. */
  lemma FoundGrantedIff(s: Tenants, limits: Limits, user: UserId, org: OrgId, key: KeyId)
    ensures Granted(s, limits, NewOrganization(user, org, key)) <==>
              |set k | k in s.members && k.0 == user && s.members[k] == Owner :: k.1| < limits.organizationsPerUser
    ensures Granted(s, limits, NewOrganization(user, org, key)) ==>
              Handle(s, limits, NewOrganization(user, org, key)).1.orgs == s.orgs + {org}
  {
    assert Owned(s, user) == set k | k in s.members && k.0 == user && s.members[k] == Owner :: k.1;
  }

  /** A refused request changes nothing, and its code tells why it was refused. */
  lemma RefusalsTell(s: Tenants, limits: Limits, r: Request)
    requires !Granted(s, limits, r)
    ensures Handle(s, limits, r).1 == s
    ensures var code := Handle(s, limits, r).0.code;
            && (r.NewOrganization? ==> code == 429)
            && (r.NewInvitation? || r.TakeBack? || r.Edit? ==>
                  (code == 403 <==> r.org in s.orgs && !IsOwner(s, r.actor, r.org)))
            && (r.NewInvitation? ==> (code == 404 <==> r.org !in s.orgs) && code in {403, 404, 429})
            && (r.TakeBack? ==> code in {403, 404})
            && (r.Edit? ==> (code == 409 <==> r.org in s.orgs && IsOwner(s, r.actor, r.org) && (r.user, r.org) in s.members)
                            && code in {403, 404, 409})
            && (r.Accept? ==>
                  && (code == 400 <==>
                        || r.id !in s.invitations || !s.invitations[r.id].Live() || s.invitations[r.id].expiresAt <= s.now
                        || s.invitations[r.id].email != r.email
                        || !IsOwner(s, s.invitations[r.id].createdBy, s.invitations[r.id].org))
                  && (code == 401 ==> r.email in s.accounts && (s.accounts[r.email].disabled || !r.verified))
                  && (code == 409 ==> if r.email in s.accounts then !s.accounts[r.email].disabled && r.verified
                                      else r.raced || (r.newUser, s.invitations[r.id].org) in s.members)
                  && code in {400, 401, 409})
            && (r.NewKey? ==> code == if r.org in s.orgs then 422 else 403)
            && (r.Rotate? ==> code == if r.key in s.keys && s.keys[r.key].Active(s.now) then 400 else 403)
            && (r.Withdraw? ==> code == 404)
  {
  }

  // ---------------------------------------------------------------- which key works

  /** The request issues this key, with this role for this organization, until this time. */
  ghost predicate Issues(s: Tenants, limits: Limits, r: Request, key: KeyId, org: OrgId, role: Role, until: Option<Time>) {
    && Granted(s, limits, r)
    && match r
       case NewOrganization(_, newOrg, firstKey) => firstKey == key && newOrg == org && role == Owner && until.None?
       case NewKey(o, newKey, rl, expiresAt) => newKey == key && o == org && rl == role && until == expiresAt
       case Rotate(spent, newKey, wanted) =>
         && newKey == key && spent in s.keys && s.keys[spent].org == org && s.keys[spent].role == role
         && until == if wanted.Some? then wanted.value else s.keys[spent].expiresAt
       case _ => false
  }

  /** The request ends this key: rotates it away, or revokes it. */
  ghost predicate EndsKey(s: Tenants, limits: Limits, r: Request, key: KeyId) {
    Granted(s, limits, r) && ((r.Rotate? && r.key == key) || (r.Withdraw? && r.key == key))
  }

  predicate Is(s: Tenants, key: KeyId, org: OrgId, role: Role, until: Option<Time>) {
    key in s.keys && s.keys[key].org == org && s.keys[key].role == role && s.keys[key].expiresAt == until
    && s.keys[key].revokedAt.None?
  }

  lemma KeyStep(s: Tenants, limits: Limits, r: Request, key: KeyId, org: OrgId, role: Role, until: Option<Time>)
    requires FreshIds(s, r)
    ensures Is(Handle(s, limits, r).1, key, org, role, until) <==>
              || Issues(s, limits, r, key, org, role, until)
              || (Is(s, key, org, role, until) && !EndsKey(s, limits, r, key))
  {
  }

  /** Request k issued the key so, and nothing granted since has ended it. */
  ghost predicate KeyStands(limits: Limits, states: seq<Tenants>, requests: seq<Request>, k: int, n: nat,
                            key: KeyId, org: OrgId, role: Role, until: Option<Time>)
    requires |states| == |requests| + 1 && n <= |requests|
  {
    && 0 <= k < n && Issues(states[k], limits, requests[k], key, org, role, until)
    && forall m :: k < m < n ==> !EndsKey(states[m], limits, requests[m], key)
  }

  lemma KeyIff(limits: Limits, states: seq<Tenants>, requests: seq<Request>, n: nat,
               key: KeyId, org: OrgId, role: Role, until: Option<Time>)
    requires IsRun(limits, states, requests) && n <= |requests|
    ensures Is(states[n], key, org, role, until) <==>
              exists k :: KeyStands(limits, states, requests, k, n, key, org, role, until)
  {
    var works := seq(|states|, k requires 0 <= k < |states| => Is(states[k], key, org, role, until));
    var issues := seq(|requests|, k requires 0 <= k < |requests| =>
      Issues(states[k], limits, requests[k], key, org, role, until));
    var ends := seq(|requests|, k requires 0 <= k < |requests| => EndsKey(states[k], limits, requests[k], key));
    forall k | 0 <= k < |requests| ensures OneMore(works[k], issues[k], ends[k], works[k + 1]) {
      assert FreshIds(states[k], requests[k]) && states[k + 1] == Handle(states[k], limits, requests[k]).1;
      KeyStep(states[k], limits, requests[k], key, org, role, until);
    }
    SinceIff(works, issues, ends, n);
    forall k ensures Since(issues, ends, k, n) <==> KeyStands(limits, states, requests, k, n, key, org, role, until) {
      if Since(issues, ends, k, n) {
        forall m | k < m < n ensures !EndsKey(states[m], limits, requests[m], key) { assert !ends[m]; }
      }
      if KeyStands(limits, states, requests, k, n, key, org, role, until) {
        forall m | k < m < n ensures !ends[m] { assert !EndsKey(states[m], limits, requests[m], key); }
      }
    }
  }

  /** On every run a key works, for an organization and with a role, if and only if it was issued so, has been neither
      rotated nor revoked since, and its time is not over. */
  lemma KeyWorksIff(limits: Limits, states: seq<Tenants>, requests: seq<Request>, n: nat, key: KeyId, org: OrgId, role: Role)
    requires IsRun(limits, states, requests) && n <= |requests|
    ensures key in states[n].keys && states[n].keys[key].Active(states[n].now)
            && states[n].keys[key].org == org && states[n].keys[key].role == role <==>
              exists k, until :: KeyStands(limits, states, requests, k, n, key, org, role, until)
                                 && (until.Some? ==> states[n].now < until.value)
  {
    if key in states[n].keys {
      KeyIff(limits, states, requests, n, key, org, role, states[n].keys[key].expiresAt);
    }
    forall k, until | KeyStands(limits, states, requests, k, n, key, org, role, until)
      ensures Is(states[n], key, org, role, until)
    {
      KeyIff(limits, states, requests, n, key, org, role, until);
    }
  }

  /** A key may be made for any organization there is, to expire later than now or never. It is rotated only by itself
      while it works, and never for longer. It is revoked by the organization it is for. */
  lemma KeyGrantedIff(s: Tenants, limits: Limits, org: OrgId, key: KeyId, next: KeyId, role: Role,
                      until: Option<Time>, wanted: Option<Option<Time>>)
    ensures Granted(s, limits, NewKey(org, next, role, until)) <==> org in s.orgs && (until.Some? ==> s.now < until.value)
    ensures Granted(s, limits, Rotate(key, next, wanted)) <==>
              && key in s.keys && s.keys[key].revokedAt.None?
              && (s.keys[key].expiresAt.Some? ==> s.now < s.keys[key].expiresAt.value)
              && (wanted.Some? && s.keys[key].expiresAt.Some? ==>
                    wanted.value.Some? && wanted.value.value <= s.keys[key].expiresAt.value)
    ensures Granted(s, limits, Withdraw(org, key)) <==> key in s.keys && s.keys[key].org == org
  {
  }
}
