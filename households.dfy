/**
 * The organization routes: create an organization (a household), join one by its referral
 * code, approve a pending member, and list the pending members. The two write routes named
 * "approve" check the caller's role field; the admin routes check ownership instead.
 */
module Households {
  import opened Wrappers
  import opened Http
  import opened Entities
  import opened Schemas
  import opened Middleware
  import opened Store

  /**
   * The organization route: creates the organization owned by the caller, then promotes
   * the caller. `newOrgId` is the generated id and `code` the generated 8-character
   * referral code. A caller with no user row, or a code already in use, makes the create
   * fail with an unhandled error.
   */
  method CreateOrganization(st: Store, auth: Response<Payload>, name: Json, code: string, newOrgId: OrgId)
    returns (r: Response<Organization>)
    requires st.Valid()
    requires newOrgId !in st.orgs && newOrgId != ""
    requires |code| == 8
    modifies st
    ensures st.Valid()
    ensures r.Err? ==> unchanged(st)
    ensures auth.Err? ==> r == Err(auth.status, auth.body)
    ensures auth.Ok? && ParseName(name).None? ==> r == Err(BAD_REQUEST, Message("Invalid input"))
    ensures auth.Ok? && ParseName(name).Some? && (auth.value.id !in old(st.users) || CodeTakenBy(old(st.orgs), code, None)) ==>
      r == Err(INTERNAL_ERROR, Unhandled)
    ensures r.Ok? <==>
      auth.Ok? && ParseName(name).Some? && auth.value.id in old(st.users) && !CodeTakenBy(old(st.orgs), code, None)
    ensures r.Ok? ==>
      var caller := auth.value.id;
      && auth.Ok? && ParseName(name).Some? && caller in old(st.users)
      && r.value == Organization(newOrgId, ParseName(name).value, code, caller)
      && st.orgs == old(st.orgs)[newOrgId := r.value]
      && st.users == old(st.users)[caller := old(st.users)[caller].(organizationId := Some(newOrgId), role := Parent, status := Approved)]
      && st.userIds == old(st.userIds) && st.categories == old(st.categories) && st.expenses == old(st.expenses)
    ensures r.Ok? ==> HasParentRole(st.users, auth.value.id) && IsParent(st.users, st.orgs, auth.value.id)
  {
    if auth.Err? {
      return Err(auth.status, auth.body);
    }
    var caller := auth.value.id;
    var parsed := ParseName(name);
    if parsed.None? {
      return Err(BAD_REQUEST, Message("Invalid input"));
    }
    if caller !in st.users || exists o :: o in st.orgs && st.orgs[o].referralCode == code {
      return Err(INTERNAL_ERROR, Unhandled);
    }
    var org := Organization(newOrgId, parsed.value, code, caller);
    ghost var users0, orgs0 := st.users, st.orgs;
    st.orgs := st.orgs[newOrgId := org];
    st.users := st.users[caller := st.users[caller].(organizationId := Some(newOrgId), role := Parent, status := Approved)];
    FoundingKeepsValid(st, users0, orgs0, caller, org);
    r := Ok(org);
  }

  lemma FoundingKeepsValid(st: Store, users: map<UserId, User>, orgs: map<OrgId, Organization>, caller: UserId, org: Organization)
    requires UserTable(users, st.userIds) && Memberships(users, orgs) && OrgTable(orgs, users)
    requires CategoryTable(st.categories, orgs) && LedgerTable(st.expenses, users, orgs)
    requires caller in users && org.ownerId == caller && org.id !in orgs && org.id != ""
    requires forall o :: o in orgs ==> orgs[o].referralCode != org.referralCode
    requires st.users == users[caller := users[caller].(organizationId := Some(org.id), role := Parent, status := Approved)]
    requires st.orgs == orgs[org.id := org]
    ensures st.Valid()
    ensures HasParentRole(st.users, caller) && IsParent(st.users, st.orgs, caller)
  {
    FoundingKeepsTables(users, st.userIds, orgs, st.categories, st.expenses, caller, org);
    assert org.id in OwnedBy(st.orgs, caller);
  }

  /** The tables stay consistent when `caller` founds `org`. */
  lemma FoundingKeepsTables(users: map<UserId, User>, userIds: seq<UserId>, orgs: map<OrgId, Organization>,
                            categories: seq<Category>, expenses: seq<Expense>, caller: UserId, org: Organization)
    requires UserTable(users, userIds) && Memberships(users, orgs) && OrgTable(orgs, users)
    requires CategoryTable(categories, orgs) && LedgerTable(expenses, users, orgs)
    requires caller in users && org.ownerId == caller && org.id !in orgs && org.id != ""
    requires forall o :: o in orgs ==> orgs[o].referralCode != org.referralCode
    ensures var users' := users[caller := users[caller].(organizationId := Some(org.id), role := Parent, status := Approved)];
      var orgs' := orgs[org.id := org];
      && UserTable(users', userIds) && Memberships(users', orgs') && OrgTable(orgs', users')
      && CategoryTable(categories, orgs') && LedgerTable(expenses, users', orgs')
  {
  }

  /**
   * The join route: the caller moves to the organization with the given referral code and
   * becomes a pending member, whatever role it had.
   */
  method Join(st: Store, auth: Response<Payload>, referralCode: Json) returns (r: Response<OrgId>)
    requires st.Valid()
    modifies st
    ensures st.Valid()
    ensures r.Err? ==> unchanged(st)
    ensures auth.Err? ==> r == Err(auth.status, auth.body)
    ensures auth.Ok? && ParseReferralCode(referralCode).None? ==> r == Err(BAD_REQUEST, Message("Invalid input"))
    ensures auth.Ok? && ParseReferralCode(referralCode).Some? && !CodeTakenBy(old(st.orgs), referralCode.s, None) ==>
      r == Err(NOT_FOUND, Message("Organization not found"))
    ensures && auth.Ok? && ParseReferralCode(referralCode).Some? && CodeTakenBy(old(st.orgs), referralCode.s, None)
            && auth.value.id !in old(st.users)
      ==> r == Err(INTERNAL_ERROR, Unhandled)
    ensures r.Ok? <==>
      && auth.Ok? && ParseReferralCode(referralCode).Some? && CodeTakenBy(old(st.orgs), referralCode.s, None)
      && auth.value.id in old(st.users)
    ensures r.Ok? ==>
      var caller := auth.value.id;
      && auth.Ok? && caller in old(st.users)
      && r.value in old(st.orgs) && old(st.orgs)[r.value].referralCode == referralCode.s
      && st.users == old(st.users)[caller := old(st.users)[caller].(organizationId := Some(r.value), status := Pending, role := Member)]
      && st.orgs == old(st.orgs) && st.userIds == old(st.userIds)
      && st.categories == old(st.categories) && st.expenses == old(st.expenses)
    ensures r.Ok? ==> !HasParentRole(st.users, auth.value.id)
    ensures auth.Ok? ==> IsParent(st.users, st.orgs, auth.value.id) == old(IsParent(st.users, st.orgs, auth.value.id))
  {
    if auth.Err? {
      return Err(auth.status, auth.body);
    }
    var caller := auth.value.id;
    var parsed := ParseReferralCode(referralCode);
    if parsed.None? {
      return Err(BAD_REQUEST, Message("Invalid input"));
    }
    if !exists o :: o in st.orgs && st.orgs[o].referralCode == parsed.value {
      return Err(NOT_FOUND, Message("Organization not found"));
    }
    var o :| o in st.orgs && st.orgs[o].referralCode == parsed.value;
    if caller !in st.users {
      return Err(INTERNAL_ERROR, Unhandled);
    }
    ghost var before := st.users;
    var joined := st.users[caller].(organizationId := Some(o), status := Pending, role := Member);
    st.users := st.users[caller := joined];
    UpdateUserKeepsValid(st, before, joined);
    IsParentIgnoresUserFields(before, st.users, st.orgs, caller);
    r := Ok(o);
  }

  /** The referral code names one organization at most, so the join route's lookup is determined. */
  lemma CodeNamesOneOrganization(orgs: map<OrgId, Organization>, users: map<UserId, User>, code: string, o: OrgId, p: OrgId)
    requires OrgTable(orgs, users)
    requires o in orgs && p in orgs && orgs[o].referralCode == code && orgs[p].referralCode == code
    ensures o == p
  {
  }

  /**
   * The approve-member route. A body without a string `memberId` makes the parse throw (an
   * unhandled error) before any check; then the caller's role must be PARENT and the member
   * must share the caller's organization.
   */
  method ApproveMember(st: Store, auth: Response<Payload>, memberId: Json) returns (r: Response<string>)
    requires st.Valid()
    modifies st
    ensures st.Valid()
    ensures r.Err? ==> unchanged(st)
    ensures auth.Err? ==> r == Err(auth.status, auth.body)
    ensures auth.Ok? && !memberId.Str? ==> r == Err(INTERNAL_ERROR, Unhandled)
    ensures auth.Ok? && memberId.Str? && !HasParentRole(old(st.users), auth.value.id) ==>
      r == Err(FORBIDDEN, Message("Only parents can approve members"))
    ensures && auth.Ok? && memberId.Str? && HasParentRole(old(st.users), auth.value.id)
            && (memberId.s !in old(st.users) ||
                old(st.users)[memberId.s].organizationId != old(st.users)[auth.value.id].organizationId)
      ==> r == Err(BAD_REQUEST, Message("Invalid member or not in your organization"))
    ensures r.Ok? <==>
      && auth.Ok? && memberId.Str? && HasParentRole(old(st.users), auth.value.id)
      && memberId.s in old(st.users)
      && old(st.users)[memberId.s].organizationId == old(st.users)[auth.value.id].organizationId
    ensures r.Ok? ==>
      && r.value == "Member approved"
      && auth.Ok? && memberId.Str? && memberId.s in old(st.users)
      && st.users == old(st.users)[memberId.s := old(st.users)[memberId.s].(status := Approved)]
      && st.userIds == old(st.userIds) && st.orgs == old(st.orgs)
      && st.categories == old(st.categories) && st.expenses == old(st.expenses)
  {
    if auth.Err? {
      return Err(auth.status, auth.body);
    }
    if !memberId.Str? {
      return Err(INTERNAL_ERROR, Unhandled);
    }
    var caller, member := auth.value.id, memberId.s;
    if caller !in st.users || st.users[caller].role != Parent {
      return Err(FORBIDDEN, Message("Only parents can approve members"));
    }
    if member !in st.users || st.users[member].organizationId != st.users[caller].organizationId {
      return Err(BAD_REQUEST, Message("Invalid member or not in your organization"));
    }
    ghost var before := st.users;
    var approved := st.users[member].(status := Approved);
    st.users := st.users[member := approved];
    UpdateUserKeepsValid(st, before, approved);
    r := Ok("Member approved");
  }

  /** A pending member as the pending-members route lists it: no role, status or password. */
  datatype Contact = Contact(id: UserId, name: string, email: Option<string>, phone: Option<string>)

  function ContactOf(u: User): Contact
  {
    Contact(u.id, u.name, u.email, u.phone)
  }

  /** The `where` clause of the pending-members route. */
  function PendingOf(org: Option<OrgId>): User -> bool
  {
    (u: User) => u.organizationId == org && u.status == Pending
  }

  /** The pending-members route: only a caller whose role is PARENT may see them. */
  function PendingMembers(st: Store, auth: Response<Payload>): (r: Response<seq<Contact>>)
    reads st
    requires st.Valid()
    ensures auth.Err? ==> r == Err(auth.status, auth.body)
    ensures auth.Ok? && !HasParentRole(st.users, auth.value.id) ==>
      r == Err(FORBIDDEN, Message("Only parents can view pending members"))
    ensures r.Ok? <==> auth.Ok? && HasParentRole(st.users, auth.value.id)
    ensures r.Ok? ==>
      |r.value| == |UsersWhere(st.users, st.userIds, PendingOf(st.users[auth.value.id].organizationId))|
    ensures r.Ok? ==> forall c :: c in r.value <==>
      exists id :: id in st.users && c == ContactOf(st.users[id]) &&
        st.users[id].organizationId == st.users[auth.value.id].organizationId && st.users[id].status == Pending
  {
    if auth.Err? then Err(auth.status, auth.body)
    else if !HasParentRole(st.users, auth.value.id) then Err(FORBIDDEN, Message("Only parents can view pending members"))
    else
      var ids := UsersWhere(st.users, st.userIds, PendingOf(st.users[auth.value.id].organizationId));
      Ok(Project(st.users, ids, ContactOf))
  }

  /**
   * Creating an organization makes the caller a parent by both tests; joining another
   * organization afterwards makes the role test fail while ownership still holds. When
   * every guard of both routes passes, both succeed and the two tests disagree.
   */
  method FoundThenJoinElsewhere(st: Store, auth: Response<Payload>, name: Json, code: string, newOrgId: OrgId, otherCode: Json)
    returns (created: Response<Organization>, joined: Response<OrgId>)
    requires st.Valid()
    requires newOrgId !in st.orgs && newOrgId != ""
    requires |code| == 8
    modifies st
    ensures st.Valid()
    ensures && auth.Ok? && ParseName(name).Some? && auth.value.id in old(st.users)
            && !CodeTakenBy(old(st.orgs), code, None)
            && ParseReferralCode(otherCode).Some? && CodeTakenBy(old(st.orgs), otherCode.s, None)
      ==> && created.Ok? && joined.Ok?
          && IsParent(st.users, st.orgs, auth.value.id)
          && !HasParentRole(st.users, auth.value.id)
    ensures auth.Ok? && created.Ok? && joined.Ok? ==>
      && IsParent(st.users, st.orgs, auth.value.id)
      && !HasParentRole(st.users, auth.value.id)
  {
    ghost var orgs0 := st.orgs;
    created := CreateOrganization(st, auth, name, code, newOrgId);
    if created.Ok? {
      assert HasParentRole(st.users, auth.value.id) && IsParent(st.users, st.orgs, auth.value.id);
      if ParseReferralCode(otherCode).Some? && CodeTakenBy(orgs0, otherCode.s, None) {
        var o :| o in orgs0 && orgs0[o].referralCode == otherCode.s;
        assert o in st.orgs && st.orgs[o].referralCode == otherCode.s;
      }
    }
    joined := Join(st, auth, otherCode);
  }
}
