/** What membership, invitations and rotated keys keep over every run. */
module TenancyTheorems {
  import opened Tables
  import opened Tenancy
  import Sums

  // ---------------------------------------------------------------- ownership

  /** Every organization has an owner. */
  ghost predicate EveryOrgOwned(s: Tenants) {
    && (forall k :: k in s.members ==> k.1 in s.orgs)
    && (forall org :: org in s.orgs ==> exists user :: IsOwner(s, user, org))
  }

  /** Every invitation that is neither accepted nor revoked was issued by someone who owns the organization now. */
  ghost predicate Vouched(s: Tenants) {
    forall i :: i in s.invitations && s.invitations[i].Live() ==>
      IsOwner(s, s.invitations[i].createdBy, s.invitations[i].org)
  }

  lemma AnotherOwner(s: Tenants, org: OrgId, user: UserId)
    requires |Owners(s, org)| > 1
    ensures exists other :: other != user && IsOwner(s, other, org)
  {
    var rest := Owners(s, org) - {user};
    assert Owners(s, org) <= rest + {user};
    if rest == {} {
      Sums.SubsetSize(Owners(s, org), {user});
    }
    var other :| other in rest;
    assert IsOwner(s, other, org);
  }

  lemma StepKeepsOwned(s: Tenants, limits: Limits, r: Request)
    requires EveryOrgOwned(s) && FreshIds(s, r)
    ensures EveryOrgOwned(Handle(s, limits, r).1)
  {
    var t := Handle(s, limits, r).1;
    forall org | org in t.orgs ensures exists user :: IsOwner(t, user, org) {
      if org !in s.orgs {
        assert IsOwner(t, r.user, org);
      } else {
        var owner :| IsOwner(s, owner, org);
        if r.Edit? && r.org == org && IsOwner(s, r.user, org) && r.change != Some(Owner) && |Owners(s, org)| > 1 {
          AnotherOwner(s, org, r.user);
          var other :| other != r.user && IsOwner(s, other, org);
          assert IsOwner(t, other, org);
        } else {
          assert IsOwner(t, owner, org);
        }
      }
    }
  }

  lemma StepKeepsVouched(s: Tenants, limits: Limits, r: Request)
    requires Vouched(s) && EveryOrgOwned(s) && FreshIds(s, r)
    ensures Vouched(Handle(s, limits, r).1)
  {
    var t := Handle(s, limits, r).1;
    forall i | i in t.invitations && t.invitations[i].Live()
      ensures IsOwner(t, t.invitations[i].createdBy, t.invitations[i].org)
    {
      if i in s.invitations {
        assert t.invitations[i] == s.invitations[i];
      }
    }
  }

  // ---------------------------------------------------------------- pending invitations

  ghost predicate FewPending(s: Tenants) {
    forall org :: org in s.orgs ==> |Pending(s, org)| <= MAX_PENDING_INVITATIONS
  }

  lemma PendingGrowth(s: Tenants, limits: Limits, r: Request, org: OrgId)
    requires FreshIds(s, r)
    ensures var t := Handle(s, limits, r).1;
            Pending(t, org) <= Pending(s, org)
            || (r.NewInvitation? && |Pending(s, org)| < MAX_PENDING_INVITATIONS
                && Pending(t, org) <= Pending(s, org) + {r.newId})
  {
  }

  lemma StepKeepsFewPending(s: Tenants, limits: Limits, r: Request)
    requires FewPending(s) && FreshIds(s, r)
    requires Placed(s)
    ensures FewPending(Handle(s, limits, r).1)
  {
    var t := Handle(s, limits, r).1;
    forall org | org in t.orgs ensures |Pending(t, org)| <= MAX_PENDING_INVITATIONS {
      PendingGrowth(s, limits, r, org);
      if Pending(t, org) <= Pending(s, org) {
        Sums.SubsetSize(Pending(t, org), Pending(s, org));
        if org !in s.orgs {
          assert Pending(s, org) == {};
        }
      } else {
        Sums.SubsetSize(Pending(t, org), Pending(s, org) + {r.newId});
      }
    }
  }

  // ---------------------------------------------------------------- rotated keys

  predicate NoLater(x: Option<Time>, y: Option<Time>) {
    y.None? || (x.Some? && x.value <= y.value)
  }

  /** A rotated key has the organization and the role of the key an owner created, and lives no longer. */
  ghost predicate Derived(s: Tenants) {
    forall k :: k in s.keys ==>
      var key := s.keys[k];
      && key.origin in s.keys
      && var root := s.keys[key.origin];
      && root.org == key.org && root.role == key.role && NoLater(key.expiresAt, root.expiresAt)
  }

  /** Of all the keys rotated from one another, at most one has not been revoked. */
  ghost predicate OneLive(s: Tenants) {
    forall j, k :: Siblings(s, j, k) ==> j == k
  }

  ghost predicate Siblings(s: Tenants, j: KeyId, k: KeyId) {
    && j in s.keys && k in s.keys && s.keys[j].origin == s.keys[k].origin
    && s.keys[j].revokedAt.None? && s.keys[k].revokedAt.None?
  }

  lemma StepKeepsDerived(s: Tenants, limits: Limits, r: Request)
    requires Derived(s) && FreshIds(s, r)
    ensures Derived(Handle(s, limits, r).1)
  {
  }

  lemma StepKeepsOneLive(s: Tenants, limits: Limits, r: Request)
    requires OneLive(s) && Derived(s) && FreshIds(s, r)
    ensures OneLive(Handle(s, limits, r).1)
  {
    var t := Handle(s, limits, r).1;
    forall j, k | Siblings(t, j, k) ensures j == k {
      // A replacement stands in for the key it was rotated from.
      var x := if r.Rotate? && j == r.newKey && j !in s.keys then r.key else j;
      var y := if r.Rotate? && k == r.newKey && k !in s.keys then r.key else k;
      if x in s.keys && y in s.keys {
        assert Siblings(s, x, y);
      }
    }
  }

  // ---------------------------------------------------------------- whole runs

  ghost predicate Inv(s: Tenants) {
    EveryOrgOwned(s) && Vouched(s) && FewPending(s) && Derived(s) && OneLive(s) && Placed(s)
  }

  ghost predicate Placed(s: Tenants) {
    forall i :: i in s.invitations ==> s.invitations[i].org in s.orgs
  }

  lemma StepKeepsPlaced(s: Tenants, limits: Limits, r: Request)
    requires Placed(s)
    ensures Placed(Handle(s, limits, r).1)
  {
  }

  lemma StepKeepsInv(s: Tenants, limits: Limits, r: Request)
    requires Inv(s) && FreshIds(s, r)
    ensures Inv(Handle(s, limits, r).1)
  {
    StepKeepsOwned(s, limits, r);
    StepKeepsVouched(s, limits, r);
    StepKeepsFewPending(s, limits, r);
    StepKeepsDerived(s, limits, r);
    StepKeepsOneLive(s, limits, r);
    StepKeepsPlaced(s, limits, r);
  }

  lemma {:induction false} RunKeepsInv(limits: Limits, states: seq<Tenants>, requests: seq<Request>, n: nat)
    requires IsRun(limits, states, requests) && n < |states|
    ensures Inv(states[n])
  {
    if n > 0 {
      RunKeepsInv(limits, states, requests, n - 1);
      StepKeepsInv(states[n - 1], limits, requests[n - 1]);
    }
  }

  /** Through any sequence of requests every organization keeps an owner. */
  lemma AlwaysAnOwner(limits: Limits, states: seq<Tenants>, requests: seq<Request>, n: nat, org: OrgId)
    requires IsRun(limits, states, requests) && n < |states| && org in states[n].orgs
    ensures Owners(states[n], org) != {}
  {
    RunKeepsInv(limits, states, requests, n);
    var user :| IsOwner(states[n], user, org);
    assert user in Owners(states[n], org);
  }

  /** Nor do pending invitations ever outgrow their limit. */
  lemma PendingIsBounded(limits: Limits, states: seq<Tenants>, requests: seq<Request>, n: nat, org: OrgId)
    requires IsRun(limits, states, requests) && n < |states|
    ensures |Pending(states[n], org)| <= MAX_PENDING_INVITATIONS
  {
    RunKeepsInv(limits, states, requests, n);
    if org !in states[n].orgs {
      assert Pending(states[n], org) == {};
    }
  }

  /** So accepting never fails for want of an owner behind the invitation: that check of `accept_invitation`
      cannot fire. */
  lemma InviterCheckIsRedundant(limits: Limits, states: seq<Tenants>, requests: seq<Request>, n: nat, id: InviteId)
    requires IsRun(limits, states, requests) && n < |states|
    requires id in states[n].invitations && states[n].invitations[id].Live()
    ensures var i := states[n].invitations[id]; IsOwner(states[n], i.createdBy, i.org)
  {
    RunKeepsInv(limits, states, requests, n);
  }

  /** Someone who owns nothing here has no invitation that could still be accepted, whoever holds it. */
  lemma NoBackDoor(limits: Limits, states: seq<Tenants>, requests: seq<Request>, n: nat, user: UserId, org: OrgId)
    requires IsRun(limits, states, requests) && n < |states| && !IsOwner(states[n], user, org)
    ensures IssuedBy(states[n], user, org) == {}
  {
    RunKeepsInv(limits, states, requests, n);
  }

  // ---------------------------------------------------------------- who may change what

  /** A membership changes only by the hand of an owner: one who edits it, one whose invitation is accepted, or
      the founder of a new organization. */
  lemma OnlyOwnersChangeMembers(s: Tenants, limits: Limits, r: Request, user: UserId, org: OrgId)
    requires Inv(s) && FreshIds(s, r)
    requires var t := Handle(s, limits, r).1;
             ((user, org) in s.members) != ((user, org) in t.members)
             || ((user, org) in s.members && s.members[(user, org)] != t.members[(user, org)])
    ensures || (r.NewOrganization? && r.newOrg == org && r.user == user && org !in s.orgs)
            || (r.Edit? && r.org == org && r.user == user && IsOwner(s, r.actor, org))
            || (r.Accept? && r.id in s.invitations && s.invitations[r.id].org == org
                && IsOwner(s, s.invitations[r.id].createdBy, org)
                && Handle(s, limits, r).1.members[(user, org)] == s.invitations[r.id].role)
  {
  }

  /** A used or revoked invitation stays dead, and no invitation ever changes what it offers. */
  lemma StepKeepsDead(s: Tenants, limits: Limits, r: Request, id: InviteId)
    requires FreshIds(s, r) && id in s.invitations
    ensures var t := Handle(s, limits, r).1;
            && id in t.invitations
            && t.invitations[id].(acceptedAt := None, revokedAt := None)
               == s.invitations[id].(acceptedAt := None, revokedAt := None)
            && (!s.invitations[id].Live() ==> !t.invitations[id].Live())
  {
  }

  lemma {:induction false} DeadStaysDead(limits: Limits, states: seq<Tenants>, requests: seq<Request>,
                                         m: nat, n: nat, id: InviteId)
    requires IsRun(limits, states, requests) && m <= n < |states|
    requires id in states[m].invitations && !states[m].invitations[id].Live()
    ensures id in states[n].invitations && !states[n].invitations[id].Live()
  {
    if m < n {
      DeadStaysDead(limits, states, requests, m, n - 1, id);
      StepKeepsDead(states[n - 1], limits, requests[n - 1], id);
    }
  }

  lemma {:induction false} InvitationsStay(limits: Limits, states: seq<Tenants>, requests: seq<Request>,
                                           m: nat, n: nat, id: InviteId)
    requires IsRun(limits, states, requests) && m <= n < |states| && id in states[m].invitations
    ensures id in states[n].invitations
    ensures states[n].invitations[id].createdBy == states[m].invitations[id].createdBy
    ensures states[n].invitations[id].org == states[m].invitations[id].org
  {
    if m < n {
      InvitationsStay(limits, states, requests, m, n - 1, id);
      StepKeepsDead(states[n - 1], limits, requests[n - 1], id);
    }
  }

  /** Promotion does not revive what demotion killed: an invitation issued before its issuer lost ownership can
      never be accepted, even after the issuer is owner again. */
  lemma PromotionRevivesNothing(limits: Limits, states: seq<Tenants>, requests: seq<Request>,
                                issued: nat, lost: nat, n: nat, id: InviteId)
    requires IsRun(limits, states, requests) && issued <= lost <= n < |states|
    requires id in states[issued].invitations
    requires var i := states[issued].invitations[id]; !IsOwner(states[lost], i.createdBy, i.org)
    ensures id in states[n].invitations && !states[n].invitations[id].Live()
  {
    var i := states[issued].invitations[id];
    InvitationsStay(limits, states, requests, issued, lost, id);
    RunKeepsInv(limits, states, requests, lost);
    DeadStaysDead(limits, states, requests, lost, n, id);
  }

  // ---------------------------------------------------------------- what a granted request is good for

  lemma DeadIsRefused(s: Tenants, id: InviteId, email: Email, newUser: UserId, verified: bool, raced: bool)
    requires id in s.invitations && !s.invitations[id].Live()
    ensures AcceptInvitation(s, id, email, newUser, verified, raced) == (Refused(400), s)
  {
  }

  /** A revoked invitation is refused ever after. */
  lemma RevocationIsFinal(limits: Limits, states: seq<Tenants>, requests: seq<Request>, m: nat, n: nat,
                          email: Email, newUser: UserId, verified: bool, raced: bool)
    requires IsRun(limits, states, requests) && m < n < |states| && requests[m].TakeBack?
    requires Handle(states[m], limits, requests[m]).0 == Done
    ensures AcceptInvitation(states[n], requests[m].id, email, newUser, verified, raced) == (Refused(400), states[n])
  {
    var id := requests[m].id;
    assert FreshIds(states[m], requests[m]) && states[m + 1] == Handle(states[m], limits, requests[m]).1;
    DeadStaysDead(limits, states, requests, m + 1, n, id);
    DeadIsRefused(states[n], id, email, newUser, verified, raced);
  }

  /** An invitation lets exactly one person in, once. */
  lemma AcceptedOnce(limits: Limits, states: seq<Tenants>, requests: seq<Request>, m: nat, n: nat,
                     email: Email, newUser: UserId, verified: bool, raced: bool)
    requires IsRun(limits, states, requests) && m < n < |states| && requests[m].Accept?
    requires Handle(states[m], limits, requests[m]).0 == Done
    ensures AcceptInvitation(states[n], requests[m].id, email, newUser, verified, raced) == (Refused(400), states[n])
    ensures var i := states[m].invitations[requests[m].id];
            && i.email == requests[m].email && i.email in states[m + 1].accounts
            && states[m + 1].members
               == states[m].members[(states[m + 1].accounts[i.email].id, i.org) := i.role]
  {
    var id := requests[m].id;
    assert FreshIds(states[m], requests[m]) && states[m + 1] == Handle(states[m], limits, requests[m]).1;
    DeadStaysDead(limits, states, requests, m + 1, n, id);
    DeadIsRefused(states[n], id, email, newUser, verified, raced);
  }

  lemma {:induction false} SpentStaysSpent(limits: Limits, states: seq<Tenants>, requests: seq<Request>,
                                           m: nat, n: nat, key: KeyId)
    requires IsRun(limits, states, requests) && m <= n < |states|
    requires key in states[m].keys && states[m].keys[key].revokedAt.Some?
    ensures key in states[n].keys && states[n].keys[key] == states[m].keys[key]
  {
    if m < n {
      SpentStaysSpent(limits, states, requests, m, n - 1, key);
      assert FreshIds(states[n - 1], requests[n - 1]);
    }
  }

  /** A rotated key never works again; its replacement has the same role, and works until its own expiry. */
  lemma RotationHandsOver(limits: Limits, states: seq<Tenants>, requests: seq<Request>, m: nat, n: nat)
    requires IsRun(limits, states, requests) && m < n < |states| && requests[m].Rotate?
    requires Handle(states[m], limits, requests[m]).0 == Done
    ensures var spent, next := requests[m].key, requests[m].newKey;
            && spent in states[n].keys && !states[n].keys[spent].Active(states[n].now)
            && spent in states[m].keys && next in states[m + 1].keys
            && states[m + 1].keys[next].role == states[m].keys[spent].role
            && NoLater(states[m + 1].keys[next].expiresAt, states[m].keys[spent].expiresAt)
            && states[m + 1].keys[next].revokedAt.None?
  {
    assert FreshIds(states[m], requests[m]) && states[m + 1] == Handle(states[m], limits, requests[m]).1;
    SpentStaysSpent(limits, states, requests, m + 1, n, requests[m].key);
  }

  /** Rotation, however often, neither raises a role nor extends a life, and leaves one working key at most. */
  lemma RotationIsBounded(limits: Limits, states: seq<Tenants>, requests: seq<Request>, n: nat, j: KeyId, k: KeyId)
    requires IsRun(limits, states, requests) && n < |states|
    requires j in states[n].keys && k in states[n].keys && states[n].keys[j].origin == states[n].keys[k].origin
    ensures states[n].keys[j].role == states[n].keys[k].role && states[n].keys[j].org == states[n].keys[k].org
    ensures states[n].keys[j].origin in states[n].keys
    ensures NoLater(states[n].keys[j].expiresAt, states[n].keys[states[n].keys[j].origin].expiresAt)
    ensures states[n].keys[j].Active(states[n].now) && states[n].keys[k].Active(states[n].now) ==> j == k
  {
    RunKeepsInv(limits, states, requests, n);
    var t := states[n];
    if t.keys[j].Active(t.now) && t.keys[k].Active(t.now) {
      assert Siblings(t, j, k);
    }
  }
}
