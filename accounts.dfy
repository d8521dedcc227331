/**
 * The register and login routes. Password hashing is a parameter (`hash`, and `matches`
 * for the comparison of a password with a stored hash); so is token signing (`sign`).
 * The user lookup "by e-mail or phone" matches a row whose e-mail is the given e-mail, or
 * whose phone is the given phone, for whichever of the two was given.
 */
module Accounts {
  import opened Wrappers
  import opened Http
  import opened Entities
  import opened Rows
  import opened Schemas
  import opened Middleware
  import opened Store

  /** The `OR: [{ email }, { phone }]` lookup condition. */
  predicate Matches(u: User, email: Option<string>, phone: Option<string>)
  {
    (email.Some? && u.email == email) || (phone.Some? && u.phone == phone)
  }

  function MatchesIn(users: map<UserId, User>, email: Option<string>, phone: Option<string>): UserId -> bool
  {
    (id: UserId) => id in users && Matches(users[id], email, phone)
  }

  /** `findFirst`: the first user, in table order, that matches. */
  function FindByContact(users: map<UserId, User>, userIds: seq<UserId>, email: Option<string>, phone: Option<string>): (r: Option<User>)
    requires UserTable(users, userIds)
    ensures r.None? <==> forall id :: id in users ==> !Matches(users[id], email, phone)
    ensures r.Some? ==>
      exists i :: 0 <= i < |userIds| && r.value == users[userIds[i]] && Matches(r.value, email, phone) &&
        forall j :: 0 <= j < i ==> !Matches(users[userIds[j]], email, phone)
  {
    var i := FirstWhere(userIds, MatchesIn(users, email, phone));
    if i < |userIds| then Some(users[userIds[i]])
    else
      assert forall id :: id in users ==> !Matches(users[id], email, phone) by {
        forall id | id in users ensures !Matches(users[id], email, phone) {
          var k :| 0 <= k < |userIds| && userIds[k] == id;
        }
      }
      None
  }

  /**
   * The register route. `newId` is the id the database generates, `now` the insertion time.
   * The answer is the created row, stored hash included.
   */
  method Register(st: Store, body: RegisterBody, isEmail: string -> bool, hash: string -> string,
                  newId: UserId, now: int) returns (r: Response<User>)
    requires st.Valid()
    requires newId !in st.users
    modifies st
    ensures st.Valid()
    ensures r.Err? ==> unchanged(st)
    ensures ParseRegistration(body, isEmail).None? ==> r == Err(BAD_REQUEST, Message("Invalid data"))
    ensures var reg := ParseRegistration(body, isEmail);
      reg.Some? && Falsy(reg.value.email) && Falsy(reg.value.phone) ==>
        r == Err(BAD_REQUEST, Message("Email or phone required"))
    ensures var reg := ParseRegistration(body, isEmail);
      reg.Some? && !(Falsy(reg.value.email) && Falsy(reg.value.phone)) &&
      (exists id :: id in old(st.users) && Matches(old(st.users)[id], reg.value.email, reg.value.phone)) ==>
        r == Err(BAD_REQUEST, Message("User already exists"))
    ensures var reg := ParseRegistration(body, isEmail);
      r.Ok? <==>
        && reg.Some? && !(Falsy(reg.value.email) && Falsy(reg.value.phone))
        && !exists id :: id in old(st.users) && Matches(old(st.users)[id], reg.value.email, reg.value.phone)
    ensures r.Ok? ==>
      var reg := ParseRegistration(body, isEmail).value;
      && r.value == User(newId, reg.name, reg.email, reg.phone, Some(hash(reg.password)), Member, Pending, None, now)
      && st.users == old(st.users)[newId := r.value]
      && st.userIds == old(st.userIds) + [newId]
      && st.orgs == old(st.orgs) && st.categories == old(st.categories) && st.expenses == old(st.expenses)
    ensures r.Ok? || r.status == BAD_REQUEST
  {
    var parsed := ParseRegistration(body, isEmail);
    if parsed.None? {
      return Err(BAD_REQUEST, Message("Invalid data"));
    }
    var reg := parsed.value;
    if Falsy(reg.email) && Falsy(reg.phone) {
      return Err(BAD_REQUEST, Message("Email or phone required"));
    }
    if exists id :: id in st.users && Matches(st.users[id], reg.email, reg.phone) {
      return Err(BAD_REQUEST, Message("User already exists"));
    }
    var user := User(newId, reg.name, reg.email, reg.phone, Some(hash(reg.password)), Member, Pending, None, now);
    ghost var users0, userIds0 := st.users, st.userIds;
    st.users := st.users[newId := user];
    st.userIds := st.userIds + [newId];
    AddUserKeepsValid(st, users0, userIds0, user);
    r := Ok(user);
  }

  /** The login route's answer: a signed token and the user's row. */
  datatype Session = Session(token: string, user: User)

  /** The login route; it only reads the store. A missing stored hash is compared as "". */
  function Login(st: Store, body: LoginBody, isEmail: string -> bool,
                 matches: (string, string) -> bool, sign: Payload -> string): (r: Response<Session>)
    reads st
    requires st.Valid()
    ensures ParseLogin(body, isEmail).None? ==> r == Err(BAD_REQUEST, Message("Invalid data"))
    ensures var creds := ParseLogin(body, isEmail);
      creds.Some? && (forall id :: id in st.users ==> !Matches(st.users[id], creds.value.email, creds.value.phone)) ==>
        r == Err(NOT_FOUND, Message("User not found"))
    ensures r.Ok? ==>
      var creds := ParseLogin(body, isEmail).value;
      && r.value.user.id in st.users && st.users[r.value.user.id] == r.value.user
      && Matches(r.value.user, creds.email, creds.phone)
      && matches(creds.password, r.value.user.password.GetOr(""))
      && r.value.token == sign(Payload(r.value.user.id))
    ensures var creds := ParseLogin(body, isEmail);
      var found := if creds.Some? then FindByContact(st.users, st.userIds, creds.value.email, creds.value.phone) else None;
      found.Some? && !matches(creds.value.password, found.value.password.GetOr("")) ==>
        r == Err(UNAUTHORIZED, Message("Invalid credentials"))
    ensures var creds := ParseLogin(body, isEmail);
      var found := if creds.Some? then FindByContact(st.users, st.userIds, creds.value.email, creds.value.phone) else None;
      found.Some? && matches(creds.value.password, found.value.password.GetOr("")) ==>
        r == Ok(Session(sign(Payload(found.value.id)), found.value))
    ensures r.Ok? || r.status in {BAD_REQUEST, NOT_FOUND, UNAUTHORIZED}
  {
    match ParseLogin(body, isEmail)
    case None => Err(BAD_REQUEST, Message("Invalid data"))
    case Some(creds) =>
      match FindByContact(st.users, st.userIds, creds.email, creds.phone)
      case None => Err(NOT_FOUND, Message("User not found"))
      case Some(user) =>
        if !matches(creds.password, user.password.GetOr("")) then Err(UNAUTHORIZED, Message("Invalid credentials"))
        else Ok(Session(sign(Payload(user.id)), user))
  }

  /** An e-mail address no other user has finds its owner, wherever the owner's row is. */
  lemma UniqueEmailFindsOwner(users: map<UserId, User>, userIds: seq<UserId>, u: User, email: string)
    requires UserTable(users, userIds)
    requires u.id in users && users[u.id] == u && u.email == Some(email)
    requires forall id :: id in users && id != u.id ==> users[id].email != Some(email)
    ensures FindByContact(users, userIds, Some(email), None) == Some(u)
  {
    var r := FindByContact(users, userIds, Some(email), None);
    assert Matches(users[u.id], Some(email), None);
  }
}
