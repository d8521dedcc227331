/**
 * The database: the user, organization, category and expense tables, held by one object
 * whose fields the routes update in place. Rows are kept in insertion order where a query
 * without `orderBy` could observe it (users, categories, expenses); organizations are only
 * ever looked up by key.
 */
module Store {
  import opened Wrappers
  import opened Entities
  import opened Rows

  class Store {
    var users: map<UserId, User>
    /** The user table's row order: every key of `users` once. */
    var userIds: seq<UserId>
    var orgs: map<OrgId, Organization>
    var categories: seq<Category>
    var expenses: seq<Expense>

    /** The constraints the schema and the routes keep: keys, uniqueness and references. */
    ghost predicate Valid()
      reads this
    {
      && UserTable(users, userIds)
      && Memberships(users, orgs)
      && OrgTable(orgs, users)
      && CategoryTable(categories, orgs)
      && LedgerTable(expenses, users, orgs)
    }

    constructor ()
      ensures Valid()
      ensures users == map[] && userIds == [] && orgs == map[] && categories == [] && expenses == []
    {
      users, userIds, orgs, categories, expenses := map[], [], map[], [], [];
    }
  }

  /** `userIds` lists the keys of `users`, each once, and every row is stored under its own id. */
  ghost predicate UserTable(users: map<UserId, User>, userIds: seq<UserId>)
  {
    && Distinct(userIds)
    && (forall id :: id in users <==> id in userIds)
    && (forall id :: id in users ==> users[id].id == id)
  }

  /**
   * A user's organization exists, and a user whose role is PARENT has one: only the
   * organization route sets PARENT, and it sets the organization with it.
   */
  ghost predicate Memberships(users: map<UserId, User>, orgs: map<OrgId, Organization>)
  {
    forall id :: id in users ==>
      && (users[id].organizationId.Some? ==> users[id].organizationId.value in orgs)
      && (users[id].role == Parent ==> users[id].organizationId.Some?)
  }

  /**
   * Organization ids are generated (never empty) and stored under themselves, owners exist,
   * and `referralCode` is a unique column.
   */
  ghost predicate OrgTable(orgs: map<OrgId, Organization>, users: map<UserId, User>)
  {
    && "" !in orgs
    && (forall o :: o in orgs ==> orgs[o].id == o && orgs[o].ownerId in users)
    && (forall o, p :: o in orgs && p in orgs && o != p ==> orgs[o].referralCode != orgs[p].referralCode)
  }

  /** Category ids are unique, and so are names (the seed upserts by name); an owning organization exists. */
  ghost predicate CategoryTable(categories: seq<Category>, orgs: map<OrgId, Organization>)
  {
    && (forall i, j :: 0 <= i < j < |categories| ==>
         categories[i].id != categories[j].id && categories[i].name != categories[j].name)
    && (forall i :: 0 <= i < |categories| && categories[i].organizationId.Some? ==>
         categories[i].organizationId.value in orgs)
  }

  /** Expense ids are unique; every entry's author and organization exist; amounts are positive and kinds are the two enum values. */
  ghost predicate LedgerTable(expenses: seq<Expense>, users: map<UserId, User>, orgs: map<OrgId, Organization>)
  {
    && (forall i, j :: 0 <= i < j < |expenses| ==> expenses[i].id != expenses[j].id)
    && (forall i :: 0 <= i < |expenses| ==> expenses[i].userId in users && expenses[i].organizationId in orgs)
    && (forall i :: 0 <= i < |expenses| ==> expenses[i].amount > 0.0)
    && (forall i :: 0 <= i < |expenses| ==> expenses[i].kind == INCOME || expenses[i].kind == EXPENSE)
  }

  // ---------------------------------------------------------------- the writes keep the tables consistent

  /** Rewriting one user row in place, keeping its id, with an existing organization if any. */
  lemma UpdateUserKeepsValid(st: Store, users: map<UserId, User>, u: User)
    requires UserTable(users, st.userIds) && Memberships(users, st.orgs) && OrgTable(st.orgs, users)
    requires CategoryTable(st.categories, st.orgs) && LedgerTable(st.expenses, users, st.orgs)
    requires u.id in users
    requires u.organizationId.Some? ==> u.organizationId.value in st.orgs
    requires u.role == Parent ==> u.organizationId.Some?
    requires st.users == users[u.id := u]
    ensures st.Valid()
  {
    assert st.users.Keys == users.Keys;
    assert UserTable(st.users, st.userIds);
    assert Memberships(st.users, st.orgs);
    assert OrgTable(st.orgs, st.users) by {
      assert forall o :: o in st.orgs ==> st.orgs[o].ownerId in st.users;
    }
  }

  /** Inserting a user row under a new id, with no organization and no PARENT role. */
  lemma AddUserKeepsValid(st: Store, users: map<UserId, User>, userIds: seq<UserId>, u: User)
    requires UserTable(users, userIds) && Memberships(users, st.orgs) && OrgTable(st.orgs, users)
    requires CategoryTable(st.categories, st.orgs) && LedgerTable(st.expenses, users, st.orgs)
    requires u.id !in users && u.organizationId.None? && u.role == Member
    requires st.users == users[u.id := u] && st.userIds == userIds + [u.id]
    ensures st.Valid()
  {
    assert forall id :: id in st.userIds <==> id in userIds || id == u.id;
  }

  /** Rewriting one organization row in place, keeping its id and owner, with a code no other row has. */
  lemma UpdateOrgKeepsValid(st: Store, orgs: map<OrgId, Organization>, org: Organization)
    requires UserTable(st.users, st.userIds) && Memberships(st.users, orgs) && OrgTable(orgs, st.users)
    requires CategoryTable(st.categories, orgs) && LedgerTable(st.expenses, st.users, orgs)
    requires org.id in orgs && org.ownerId == orgs[org.id].ownerId
    requires forall o :: o in orgs && o != org.id ==> orgs[o].referralCode != org.referralCode
    requires st.orgs == orgs[org.id := org]
    ensures st.Valid()
  {
  }

  /** Appending a category row with a new id and a new name, whose organization exists if it has one. */
  lemma AddCategoryKeepsValid(st: Store, categories: seq<Category>, c: Category)
    requires UserTable(st.users, st.userIds) && Memberships(st.users, st.orgs) && OrgTable(st.orgs, st.users)
    requires CategoryTable(categories, st.orgs) && LedgerTable(st.expenses, st.users, st.orgs)
    requires forall d :: d in categories ==> d.id != c.id && d.name != c.name
    requires c.organizationId.Some? ==> c.organizationId.value in st.orgs
    requires st.categories == categories + [c]
    ensures st.Valid()
  {
    forall i, j | 0 <= i < j < |st.categories|
      ensures st.categories[i].id != st.categories[j].id && st.categories[i].name != st.categories[j].name
    {
      if j == |categories| { assert st.categories[i] in categories; }
    }
  }

  /** Appending a ledger entry with a new id, an existing author and organization, a positive amount and a listed kind. */
  lemma AddExpenseKeepsValid(st: Store, expenses: seq<Expense>, e: Expense)
    requires UserTable(st.users, st.userIds) && Memberships(st.users, st.orgs) && OrgTable(st.orgs, st.users)
    requires CategoryTable(st.categories, st.orgs) && LedgerTable(expenses, st.users, st.orgs)
    requires forall i :: 0 <= i < |expenses| ==> expenses[i].id != e.id
    requires e.userId in st.users && e.organizationId in st.orgs
    requires e.amount > 0.0 && (e.kind == INCOME || e.kind == EXPENSE)
    requires st.expenses == expenses + [e]
    ensures st.Valid()
  {
    forall i | 0 <= i < |st.expenses|
      ensures st.expenses[i].userId in st.users && st.expenses[i].organizationId in st.orgs
      ensures st.expenses[i].amount > 0.0 && (st.expenses[i].kind == INCOME || st.expenses[i].kind == EXPENSE)
      ensures forall j :: i < j < |st.expenses| ==> st.expenses[i].id != st.expenses[j].id
    {
      if i < |expenses| {
        assert st.expenses[i] == expenses[i];
      }
    }
  }

  // ---------------------------------------------------------------- reading the user table

  /** The ids, in table order, of the users that satisfy `p` (a `findMany` `where` clause). */
  function UsersWhere(users: map<UserId, User>, ids: seq<UserId>, p: User -> bool): (r: seq<UserId>)
    requires forall id :: id in ids ==> id in users
    ensures forall id :: id in r <==> id in ids && p(users[id])
    ensures Distinct(ids) ==> Distinct(r)
  {
    if ids == [] then []
    else
      var rest := UsersWhere(users, ids[1..], p);
      assert forall id :: id in ids <==> id == ids[0] || id in ids[1..];
      if p(users[ids[0]]) then [ids[0]] + rest else rest
  }

  /** The rows of `ids` through a `select` projection `f`. */
  function Project<T(!new)>(users: map<UserId, User>, ids: seq<UserId>, f: User -> T): (r: seq<T>)
    requires forall id :: id in ids ==> id in users
    ensures |r| == |ids|
    ensures forall i :: 0 <= i < |ids| ==> r[i] == f(users[ids[i]])
    ensures forall x :: x in r <==> exists id :: id in ids && x == f(users[id])
  {
    var r := seq(|ids|, i requires 0 <= i < |ids| => f(users[ids[i]]));
    assert forall x :: x in r <==> exists id :: id in ids && x == f(users[id]) by {
      forall x ensures x in r <==> exists id :: id in ids && x == f(users[id]) {
        if exists id :: id in ids && x == f(users[id]) {
          var id :| id in ids && x == f(users[id]);
          var i :| 0 <= i < |ids| && ids[i] == id;
          assert r[i] == x;
        }
      }
    }
    r
  }

  /** Some organization other than `except` already uses `code`. */
  predicate CodeTakenBy(orgs: map<OrgId, Organization>, code: string, except: Option<OrgId>)
  {
    exists o :: o in orgs && Some(o) != except && orgs[o].referralCode == code
  }

  // ---------------------------------------------------------------- the two "parent" tests

  /** The role-field test of the approve-member and pending-members routes. */
  predicate HasParentRole(users: map<UserId, User>, id: UserId)
  {
    id in users && users[id].role == Parent
  }

  /** The organizations `id` owns (`ownedOrganizations`). */
  function OwnedBy(orgs: map<OrgId, Organization>, id: UserId): set<OrgId>
  {
    set o | o in orgs && orgs[o].ownerId == id
  }

  /** `isParent`: the user exists and owns at least one organization. */
  predicate IsParent(users: map<UserId, User>, orgs: map<OrgId, Organization>, id: UserId)
  {
    id in users && |OwnedBy(orgs, id)| > 0
  }

  /** Ownership, not the role or the status field, decides `isParent`; an unknown id is never a parent. */
  lemma IsParentIff(users: map<UserId, User>, orgs: map<OrgId, Organization>, id: UserId)
    ensures IsParent(users, orgs, id) <==> id in users && exists o :: o in orgs && orgs[o].ownerId == id
  {
    if exists o :: o in orgs && orgs[o].ownerId == id {
      var o :| o in orgs && orgs[o].ownerId == id;
      assert o in OwnedBy(orgs, id);
    } else {
      assert OwnedBy(orgs, id) == {};
    }
  }

  /** Rewriting user rows (their role, status or organization) never changes who is a parent by ownership. */
  lemma IsParentIgnoresUserFields(users: map<UserId, User>, users': map<UserId, User>, orgs: map<OrgId, Organization>, id: UserId)
    requires users.Keys == users'.Keys
    ensures IsParent(users', orgs, id) == IsParent(users, orgs, id)
  {
  }
}
