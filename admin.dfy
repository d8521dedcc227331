/**
 * The admin routes: list the members of the caller's organization, approve any user by id,
 * and replace the organization's referral code. All three admit a caller who owns an
 * organization (`IsParent`), whatever the caller's role field says; the organization they
 * then act on is the caller's current `organizationId`, which need not be the one it owns.
 */
module Admin {
  import opened Wrappers
  import opened Http
  import opened Entities
  import opened Rows
  import opened Schemas
  import opened Middleware
  import opened Store

  /** A member as the admin members route lists it: every column but the password. */
  datatype MemberView = MemberView(
    id: UserId, name: string, email: Option<string>, phone: Option<string>,
    role: Role, status: Status, createdAt: int)

  function MemberViewOf(u: User): MemberView
  {
    MemberView(u.id, u.name, u.email, u.phone, u.role, u.status, u.createdAt)
  }

  /** `orderBy: { createdAt: 'asc' }`. */
  function JoinedNoLater(): (MemberView, MemberView) -> bool
  {
    (a: MemberView, b: MemberView) => a.createdAt <= b.createdAt
  }

  lemma JoinedNoLaterIsPreorder()
    ensures TotalPreorder(JoinedNoLater())
  {
  }

  function InOrganization(org: Option<OrgId>): User -> bool
  {
    (u: User) => u.organizationId == org
  }

  /** The admin members route. */
  function Members(st: Store, auth: Response<Payload>): (r: Response<seq<MemberView>>)
    reads st
    requires st.Valid()
    ensures auth.Err? ==> r == Err(auth.status, auth.body)
    ensures auth.Ok? && !IsParent(st.users, st.orgs, auth.value.id) ==> r == Err(FORBIDDEN, Message("Forbidden"))
    ensures auth.Ok? && IsParent(st.users, st.orgs, auth.value.id) && st.users[auth.value.id].organizationId.None? ==>
      r == Err(BAD_REQUEST, Message("No organization found"))
    ensures r.Ok? <==>
      auth.Ok? && IsParent(st.users, st.orgs, auth.value.id) && st.users[auth.value.id].organizationId.Some?
    ensures r.Ok? ==>
      var org := st.users[auth.value.id].organizationId;
      && SortedBy(r.value, JoinedNoLater())
      && |r.value| == |UsersWhere(st.users, st.userIds, InOrganization(org))|
      && forall v :: v in r.value <==>
        exists id :: id in st.users && st.users[id].organizationId == org && v == MemberViewOf(st.users[id])
  {
    if auth.Err? then Err(auth.status, auth.body)
    else if !IsParent(st.users, st.orgs, auth.value.id) then Err(FORBIDDEN, Message("Forbidden"))
    else
      var org := st.users[auth.value.id].organizationId;
      if org.None? then Err(BAD_REQUEST, Message("No organization found"))
      else
        var ids := UsersWhere(st.users, st.userIds, InOrganization(org));
        var views := Project(st.users, ids, MemberViewOf);
        JoinedNoLaterIsPreorder();
        SortKeepsElements(views, JoinedNoLater());
        Ok(SortBy(views, JoinedNoLater()))
  }

  /**
   * The admin approve route: an owner may approve any user by id, in any organization.
   * The ownership test comes before the body is read; a target with no row makes the update
   * fail with an unhandled error.
   */
  method Approve(st: Store, auth: Response<Payload>, userId: Json, isCuid: string -> bool) returns (r: Response<bool>)
    requires st.Valid()
    modifies st
    ensures st.Valid()
    ensures r.Err? ==> unchanged(st)
    ensures auth.Err? ==> r == Err(auth.status, auth.body)
    ensures auth.Ok? && !old(IsParent(st.users, st.orgs, auth.value.id)) ==> r == Err(FORBIDDEN, Message("Forbidden"))
    ensures auth.Ok? && old(IsParent(st.users, st.orgs, auth.value.id)) && !(userId.Str? && isCuid(userId.s)) ==>
      r == Err(BAD_REQUEST, FieldErrors)
    ensures && auth.Ok? && old(IsParent(st.users, st.orgs, auth.value.id)) && userId.Str? && isCuid(userId.s)
            && userId.s !in old(st.users)
      ==> r == Err(INTERNAL_ERROR, Unhandled)
    ensures r.Ok? <==>
      && auth.Ok? && old(IsParent(st.users, st.orgs, auth.value.id))
      && userId.Str? && isCuid(userId.s) && userId.s in old(st.users)
    ensures r.Ok? ==>
      && r.value
      && st.users == old(st.users)[userId.s := old(st.users)[userId.s].(status := Approved)]
      && st.userIds == old(st.userIds) && st.orgs == old(st.orgs)
      && st.categories == old(st.categories) && st.expenses == old(st.expenses)
  {
    if auth.Err? {
      return Err(auth.status, auth.body);
    }
    if !IsParent(st.users, st.orgs, auth.value.id) {
      return Err(FORBIDDEN, Message("Forbidden"));
    }
    if !RequiredText(userId, isCuid) {
      return Err(BAD_REQUEST, FieldErrors);
    }
    var target := userId.s;
    if target !in st.users {
      return Err(INTERNAL_ERROR, Unhandled);
    }
    ghost var before := st.users;
    var approved := st.users[target].(status := Approved);
    st.users := st.users[target := approved];
    UpdateUserKeepsValid(st, before, approved);
    r := Ok(true);
  }

  /**
   * The regenerate-referral route: the organization the caller currently belongs to gets the
   * fresh 10-character code `newCode`. A code another organization already uses makes the
   * update fail with an unhandled error.
   */
  method RegenerateReferral(st: Store, auth: Response<Payload>, newCode: string) returns (r: Response<string>)
    requires st.Valid()
    requires |newCode| == 10
    modifies st
    ensures st.Valid()
    ensures r.Err? ==> unchanged(st)
    ensures auth.Err? ==> r == Err(auth.status, auth.body)
    ensures auth.Ok? && !old(IsParent(st.users, st.orgs, auth.value.id)) ==> r == Err(FORBIDDEN, Message("Forbidden"))
    ensures auth.Ok? && old(IsParent(st.users, st.orgs, auth.value.id)) && old(st.users[auth.value.id].organizationId).None? ==>
      r == Err(BAD_REQUEST, Message("No org"))
    ensures && auth.Ok? && old(IsParent(st.users, st.orgs, auth.value.id))
            && old(st.users[auth.value.id].organizationId).Some?
            && old(CodeTakenBy(st.orgs, newCode, st.users[auth.value.id].organizationId))
      ==> r == Err(INTERNAL_ERROR, Unhandled)
    ensures r.Ok? <==>
      && auth.Ok? && old(IsParent(st.users, st.orgs, auth.value.id))
      && old(st.users[auth.value.id].organizationId).Some?
      && !old(CodeTakenBy(st.orgs, newCode, st.users[auth.value.id].organizationId))
    ensures r.Ok? ==>
      var org := old(st.users[auth.value.id].organizationId).value;
      && auth.Ok? && old(IsParent(st.users, st.orgs, auth.value.id))
      && r.value == newCode
      && (forall o :: o in old(st.orgs) && o != org ==> old(st.orgs)[o].referralCode != newCode)
      && st.orgs == old(st.orgs)[org := old(st.orgs)[org].(referralCode := newCode)]
      && st.users == old(st.users) && st.userIds == old(st.userIds)
      && st.categories == old(st.categories) && st.expenses == old(st.expenses)
    ensures r.Ok? ==>
      var org := old(st.users[auth.value.id].organizationId).value;
      var oldCode := old(st.orgs)[org].referralCode;
      oldCode != newCode ==> forall o :: o in st.orgs ==> st.orgs[o].referralCode != oldCode
  {
    if auth.Err? {
      return Err(auth.status, auth.body);
    }
    var caller := auth.value.id;
    if !IsParent(st.users, st.orgs, caller) {
      return Err(FORBIDDEN, Message("Forbidden"));
    }
    var org := st.users[caller].organizationId;
    if org.None? {
      return Err(BAD_REQUEST, Message("No org"));
    }
    if exists o :: o in st.orgs && o != org.value && st.orgs[o].referralCode == newCode {
      return Err(INTERNAL_ERROR, Unhandled);
    }
    ghost var before := st.orgs;
    var updated := st.orgs[org.value].(referralCode := newCode);
    st.orgs := st.orgs[org.value := updated];
    UpdateOrgKeepsValid(st, before, updated);
    r := Ok(newCode);
  }
}
