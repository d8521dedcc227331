/**
 * Categories: the route that creates an organization's own category, the route that lists
 * the categories a member may use, and the seed script that upserts the default ones.
 * Names are unique across the table: the seed upserts by name, and a second category with
 * a taken name is a unique-constraint failure.
 */
module Categories {
  import opened Wrappers
  import opened Http
  import opened Text
  import opened Entities
  import opened Rows
  import opened Schemas
  import opened Middleware
  import opened Store

  predicate NameTaken(categories: seq<Category>, name: string)
  {
    exists c :: c in categories && c.name == name
  }

  /**
   * The create-category route. The name is checked before the caller; the caller must exist,
   * belong to an organization and be approved. `newId` is the generated id.
   */
  method CreateCategory(st: Store, auth: Response<Payload>, name: Json, newId: CategoryId)
    returns (r: Response<Category>)
    requires st.Valid()
    requires forall c :: c in st.categories ==> c.id != newId
    modifies st
    ensures st.Valid()
    ensures r.Err? ==> unchanged(st)
    ensures auth.Err? ==> r == Err(auth.status, auth.body)
    ensures auth.Ok? && ParseName(name).None? ==> r == Err(BAD_REQUEST, FieldErrors)
    ensures && auth.Ok? && ParseName(name).Some?
            && !(auth.value.id in old(st.users) && old(st.users)[auth.value.id].organizationId.Some?
                 && old(st.users)[auth.value.id].status == Approved)
      ==> r == Err(FORBIDDEN, Message("Unauthorized"))
    ensures && auth.Ok? && ParseName(name).Some? && auth.value.id in old(st.users)
            && old(st.users)[auth.value.id].organizationId.Some? && old(st.users)[auth.value.id].status == Approved
            && NameTaken(old(st.categories), name.s)
      ==> r == Err(INTERNAL_ERROR, Unhandled)
    ensures r.Ok? <==>
      && auth.Ok? && ParseName(name).Some? && auth.value.id in old(st.users)
      && old(st.users)[auth.value.id].organizationId.Some? && old(st.users)[auth.value.id].status == Approved
      && !NameTaken(old(st.categories), name.s)
    ensures r.Ok? ==>
      && r.value == Category(newId, name.s, false, old(st.users)[auth.value.id].organizationId)
      && st.categories == old(st.categories) + [r.value]
      && st.users == old(st.users) && st.userIds == old(st.userIds)
      && st.orgs == old(st.orgs) && st.expenses == old(st.expenses)
  {
    if auth.Err? {
      return Err(auth.status, auth.body);
    }
    var parsed := ParseName(name);
    if parsed.None? {
      return Err(BAD_REQUEST, FieldErrors);
    }
    var caller := auth.value.id;
    if caller !in st.users || st.users[caller].organizationId.None? || st.users[caller].status != Approved {
      return Err(FORBIDDEN, Message("Unauthorized"));
    }
    if exists c :: c in st.categories && c.name == parsed.value {
      return Err(INTERNAL_ERROR, Unhandled);
    }
    var category := Category(newId, parsed.value, false, st.users[caller].organizationId);
    ghost var before := st.categories;
    st.categories := st.categories + [category];
    AddCategoryKeepsValid(st, before, category);
    r := Ok(category);
  }

  /** The list route's `where`: default categories, and those of the organization `org`. */
  function VisibleTo(org: OrgId): Category -> bool
  {
    (c: Category) => c.isDefault || c.organizationId == Some(org)
  }

  /** `orderBy: { name: 'asc' }`, on character codes. */
  function ByName(): (Category, Category) -> bool
  {
    (a: Category, b: Category) => LexLe(a.name, b.name)
  }

  lemma ByNameIsPreorder()
    ensures TotalPreorder(ByName())
  {
    forall a: Category, b: Category ensures ByName()(a, b) || ByName()(b, a) {
      LexLeTotal(a.name, b.name);
    }
    forall a: Category, b: Category, c: Category | ByName()(a, b) && ByName()(b, c) ensures ByName()(a, c) {
      LexLeTransitive(a.name, b.name, c.name);
    }
  }

  /**
   * The list-categories route: an approved caller sees the default categories and its
   * organization's own, sorted by name. A caller without an organization is matched against
   * the empty organization id.
   */
  function ListCategories(st: Store, auth: Response<Payload>): (r: Response<seq<Category>>)
    reads st
    requires st.Valid()
    ensures auth.Err? ==> r == Err(auth.status, auth.body)
    ensures auth.Ok? && !(auth.value.id in st.users && st.users[auth.value.id].status == Approved) ==>
      r == Err(FORBIDDEN, Message("Unauthorized"))
    ensures r.Ok? <==> auth.Ok? && auth.value.id in st.users && st.users[auth.value.id].status == Approved
    ensures r.Ok? ==>
      var org := st.users[auth.value.id].organizationId.GetOr("");
      && SortedBy(r.value, ByName())
      && multiset(r.value) == multiset(Where(st.categories, VisibleTo(org)))
      && forall c :: c in r.value <==> c in st.categories && (c.isDefault || c.organizationId == Some(org))
  {
    if auth.Err? then Err(auth.status, auth.body)
    else if !(auth.value.id in st.users && st.users[auth.value.id].status == Approved) then
      Err(FORBIDDEN, Message("Unauthorized"))
    else
      var visible := Where(st.categories, VisibleTo(st.users[auth.value.id].organizationId.GetOr("")));
      ByNameIsPreorder();
      SortKeepsElements(visible, ByName());
      Ok(SortBy(visible, ByName()))
  }

  /** An approved caller without an organization sees exactly the default categories. */
  lemma NoOrganizationSeesDefaults(st: Store, auth: Response<Payload>, c: Category)
    requires st.Valid()
    requires auth.Ok? && auth.value.id in st.users
    requires st.users[auth.value.id].status == Approved && st.users[auth.value.id].organizationId.None?
    ensures ListCategories(st, auth).Ok?
    ensures c in ListCategories(st, auth).value <==> c in st.categories && c.isDefault
  {
  }

  // ---------------------------------------------------------------- the seed script

  const DEFAULT_CATEGORIES: seq<string> :=
    ["Food", "Transport", "Bills", "Health", "Shopping", "Entertainment", "Education", "Salary", "Freelance"]

  /** `upsert({ where: { name }, update: {}, create: { name, isDefault: true } })`. */
  function Upsert(categories: seq<Category>, name: string, id: CategoryId): seq<Category>
  {
    if NameTaken(categories, name) then categories else categories + [Category(id, name, true, None)]
  }

  /** The seed's loop: one upsert per name, in order; `ids[k]` is the id a row for `names[k]` would get. */
  function Seeded(categories: seq<Category>, names: seq<string>, ids: seq<CategoryId>): seq<Category>
    requires |ids| == |names|
  {
    if names == [] then categories
    else Upsert(Seeded(categories, names[..|names| - 1], ids[..|ids| - 1]), names[|names| - 1], ids[|ids| - 1])
  }

  /** The seed keeps every row it found, unchanged and in place, and adds only default rows for listed names. */
  lemma {:induction false} SeedKeepsRows(categories: seq<Category>, names: seq<string>, ids: seq<CategoryId>)
    requires |ids| == |names|
    ensures var s := Seeded(categories, names, ids);
      && |categories| <= |s| && s[..|categories|] == categories
      && forall k :: |categories| <= k < |s| ==>
        s[k].name in names && s[k].id in ids && s[k].isDefault && s[k].organizationId.None?
  {
    if names != [] {
      var n, i := names[..|names| - 1], ids[..|ids| - 1];
      SeedKeepsRows(categories, n, i);
      var s := Seeded(categories, n, i);
      assert forall x :: x in n ==> x in names;
      assert forall x :: x in i ==> x in ids;
      if !NameTaken(s, names[|names| - 1]) {
        assert (s + [Category(ids[|ids| - 1], names[|names| - 1], true, None)])[..|categories|] == s[..|categories|];
      }
    }
  }

  /** After the seed, every listed name has a category. */
  lemma {:induction false} SeedCoversNames(categories: seq<Category>, names: seq<string>, ids: seq<CategoryId>)
    requires |ids| == |names|
    ensures forall x :: x in names ==> NameTaken(Seeded(categories, names, ids), x)
  {
    if names != [] {
      var n, i := names[..|names| - 1], ids[..|ids| - 1];
      SeedCoversNames(categories, n, i);
      var s := Seeded(categories, n, i);
      var last := names[|names| - 1];
      var after := Upsert(s, last, ids[|ids| - 1]);
      assert forall c :: c in s ==> c in after;
      assert names == n + [last];
      if !NameTaken(s, last) {
        assert after[|after| - 1].name == last;
      }
    }
  }

  /** Upserting names that are all present changes nothing. */
  lemma {:induction false} SeedOfPresentNames(categories: seq<Category>, names: seq<string>, ids: seq<CategoryId>)
    requires |ids| == |names|
    requires forall x :: x in names ==> NameTaken(categories, x)
    ensures Seeded(categories, names, ids) == categories
  {
    if names != [] {
      var n := names[..|names| - 1];
      assert forall x :: x in n ==> x in names;
      SeedOfPresentNames(categories, n, ids[..|ids| - 1]);
      assert names[|names| - 1] in names;
    }
  }

  /** Running the seed twice leaves the table as one run left it. */
  lemma SeedIdempotent(categories: seq<Category>, names: seq<string>, ids: seq<CategoryId>, ids2: seq<CategoryId>)
    requires |ids| == |names| && |ids2| == |names|
    ensures Seeded(Seeded(categories, names, ids), names, ids2) == Seeded(categories, names, ids)
  {
    SeedCoversNames(categories, names, ids);
    SeedOfPresentNames(Seeded(categories, names, ids), names, ids2);
  }

  /** A category whose name is not listed is where it was, unchanged; nothing new carries its name. */
  lemma SeedLeavesOthers(categories: seq<Category>, names: seq<string>, ids: seq<CategoryId>, c: Category)
    requires |ids| == |names|
    requires c.name !in names
    ensures c in Seeded(categories, names, ids) <==> c in categories
  {
    SeedKeepsRows(categories, names, ids);
    var s := Seeded(categories, names, ids);
    if c in s {
      var k :| 0 <= k < |s| && s[k] == c;
      if k < |categories| { assert s[..|categories|][k] == c; }
    }
    if c in categories {
      var k :| 0 <= k < |categories| && categories[k] == c;
      assert s[..|categories|][k] == c;
    }
  }

  /** One upsert keeps the category table's uniqueness when the id it may use is new. */
  lemma UpsertKeepsTable(categories: seq<Category>, orgs: map<OrgId, Organization>, name: string, id: CategoryId)
    requires CategoryTable(categories, orgs)
    requires forall c :: c in categories ==> c.id != id
    ensures CategoryTable(Upsert(categories, name, id), orgs)
  {
    if !NameTaken(categories, name) {
      var s := categories + [Category(id, name, true, None)];
      forall i, j | 0 <= i < j < |s| ensures s[i].id != s[j].id && s[i].name != s[j].name {
        if j == |categories| {
          assert s[i] in categories;
        }
      }
    }
  }

  /**
   * The seed script: upserts each default name in turn. `ids` are the ids the database
   * would give the rows it inserts, one per name, unused so far.
   */
  method Seed(st: Store, ids: seq<CategoryId>)
    requires st.Valid()
    requires |ids| == |DEFAULT_CATEGORIES| && Distinct(ids)
    requires forall c, k :: c in st.categories && 0 <= k < |ids| ==> c.id != ids[k]
    modifies st
    ensures st.Valid()
    ensures st.categories == Seeded(old(st.categories), DEFAULT_CATEGORIES, ids)
    ensures forall x :: x in DEFAULT_CATEGORIES ==> NameTaken(st.categories, x)
    ensures st.users == old(st.users) && st.userIds == old(st.userIds)
    ensures st.orgs == old(st.orgs) && st.expenses == old(st.expenses)
  {
    for i := 0 to |DEFAULT_CATEGORIES|
      invariant st.categories == Seeded(old(st.categories), DEFAULT_CATEGORIES[..i], ids[..i])
      invariant st.Valid()
      invariant forall c, k :: c in st.categories && i <= k < |ids| ==> c.id != ids[k]
      invariant st.users == old(st.users) && st.userIds == old(st.userIds)
      invariant st.orgs == old(st.orgs) && st.expenses == old(st.expenses)
    {
      var name := DEFAULT_CATEGORIES[i];
      ghost var before := st.categories;
      if !exists c :: c in st.categories && c.name == name {
        st.categories := st.categories + [Category(ids[i], name, true, None)];
        AddCategoryKeepsValid(st, before, Category(ids[i], name, true, None));
      }
      assert st.categories == Upsert(before, name, ids[i]);
      assert DEFAULT_CATEGORIES[..i + 1][..i] == DEFAULT_CATEGORIES[..i];
      assert ids[..i + 1][..i] == ids[..i];
      forall c, k | c in st.categories && i + 1 <= k < |ids| ensures c.id != ids[k] {
        if c !in before {
          assert c.id == ids[i];
        }
      }
    }
    assert DEFAULT_CATEGORIES[..|DEFAULT_CATEGORIES|] == DEFAULT_CATEGORIES;
    assert ids[..|ids|] == ids;
    SeedCoversNames(old(st.categories), DEFAULT_CATEGORIES, ids);
  }
}
