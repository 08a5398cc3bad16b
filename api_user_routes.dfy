/** The handlers of api/routes/users.js, which address a user by id. Listing, updating and
    deleting sit behind `authMiddleware`; updating and deleting also behind
    `validateObjectId`. */
module ApiUserRoutes {
  import opened Js
  import opened Crypto
  import opened UserModel
  import opened ApiStore
  import opened AuthMiddleware

  /** The body of a successful registration or login: the user without its password,
      and a token. */
  datatype Session = Session(user: PublicUser, token: string)

  /** The user fields a request body may carry. `createdAt` is an ordinary path of the
      schema, with a default, so a body may set it too. */
  datatype UserFields = UserFields(username: Option<string>, email: Option<string>, password: Option<string>, createdAt: Option<int>)

  /** The creation date `new User(body)` keeps: the body's when it carries one, otherwise
      the default `Date.now`. */
  function Stamp(d: UserFields, now: int): (t: int)
    ensures d.createdAt.Some? ==> t == d.createdAt.value
    ensures d.createdAt.None? ==> t == now
  {
    if d.createdAt.Some? then d.createdAt.value else now
  }

  /** POST /users: `new User(req.body).save()`. A refused field or a taken address (the
      unique index) fails the save, and every failure is answered with 400. The creation
      date is the body's when it carries one. */
  method Register(db: Db, d: UserFields, newId: Id, now: int) returns (r: Reply<Session>)
    requires db.Valid() && newId !in db.users
    modifies db
    ensures db.Valid()
    ensures r.status == 201 <==>
      FieldsAccepted(d.username, d.email, d.password) && Normalize(d.email.value) !in old(db.emailIndex)
    ensures r.status == 201 ==>
      var u := NewUser(db.lib, d.username.value, d.email.value, d.password.value, Stamp(d, now));
      && db.users == old(db.users)[newId := u]
      && db.emailIndex == old(db.emailIndex)[u.email := newId]
      && r.body == Some(Session(View(newId, u), AuthToken(db.lib, newId, u)))
    ensures r.status != 201 ==> r == Reply(400, None) && unchanged(db)
    ensures db.catways == old(db.catways) && db.reservations == old(db.reservations)
  {
    if !FieldsAccepted(d.username, d.email, d.password) {
      return Reply(400, None);
    }
    var u := NewUser(db.lib, d.username.value, d.email.value, d.password.value, Stamp(d, now));
    if u.email in db.emailIndex {
      // E11000 on the unique index
      return Reply(400, None);
    }
    db.InsertUser(newId, u);
    r := Reply(201, Some(Session(View(newId, u), AuthToken(db.lib, newId, u))));
  }

  /** POST /users/login: 400 before any lookup when a field is missing, 401 for an unknown
      address or a wrong password, otherwise the user without its password and a token. */
  method Login(db: Db, email: Option<string>, password: Option<string>) returns (r: Reply<Session>)
    requires db.Valid()
    ensures !Truthy(email) || !Truthy(password) <==> r.status == 400
    ensures r.status == 401 <==>
      && Truthy(email) && Truthy(password)
      && (Normalize(email.value) in db.emailIndex ==>
            !ComparePassword(db.lib, password.value, db.users[db.emailIndex[Normalize(email.value)]].password))
    ensures r.status == 200 ==>
      var id := db.emailIndex[Normalize(email.value)];
      r.body == Some(Session(View(id, db.users[id]), AuthToken(db.lib, id, db.users[id])))
    ensures r.status in {200, 400, 401}
  {
    if !Truthy(email) || !Truthy(password) {
      return Reply(400, None);
    }
    var found := db.UserByEmail(Normalize(email.value));
    if found.None? {
      return Reply(401, None);
    }
    var id := found.value;
    var u := db.users[id];
    if !ComparePassword(db.lib, password.value, u.password) {
      return Reply(401, None);
    }
    r := Reply(200, Some(Session(View(id, u), AuthToken(db.lib, id, u))));
  }

  /** A user who registered can log in with the same password, and the token verifies to
      their claims, as long as the libraries keep their promises. */
  lemma {:induction false} RegisteredUserCanLogIn(lib: Library, id: Id, username: string, email: string, password: string, now: int)
    requires HashSound(lib) && TokenSound(lib)
    requires UsernameAccepted(username) && EmailAccepted(email)
    ensures var u := NewUser(lib, username, email, password, now);
      && ComparePassword(lib, password, u.password)
      && lib.verify(AuthToken(lib, id, u)) == Some(Claims(id, Normalize(email), Trim(username)))
  {
  }

  /** GET /users, behind the middleware: every user, none with a password. */
  method List(db: Db, authorization: Option<string>) returns (r: Reply<map<Id, PublicUser>>)
    ensures Authenticate(authorization, db.lib).Rejected? ==>
      r == Reply(Authenticate(authorization, db.lib).status, None)
    ensures Authenticate(authorization, db.lib).Next? ==>
      r.status == 200 && r.body.Some? && r.body.value.Keys == db.users.Keys
      && forall id :: id in r.body.value ==> r.body.value[id] == View(id, db.users[id])
  {
    var auth := Authenticate(authorization, db.lib);
    if auth.Rejected? {
      return Reply(auth.status, None);
    }
    r := Reply(200, Some(db.PublicUsers()));
  }

  /** What the update validators accept: every field the body carries passes its own
      validator, after the setters. */
  predicate PatchAccepted(d: UserFields) {
    && (d.username.Some? ==> UsernameAccepted(d.username.value))
    && (d.email.Some? ==> EmailAccepted(d.email.value))
    && (d.password.Some? ==> PasswordAccepted(d.password.value))
  }

  /** The record `findByIdAndUpdate` stores: each field the body carries replaces the
      stored one after its setters; the password is stored as sent, because an update
      query does not run the pre-save hook, and a sent creation date is written too. */
  function Patched(was: User, d: UserFields): (u: User)
    ensures u.username == (if d.username.Some? then Trim(d.username.value) else was.username)
    ensures u.email == (if d.email.Some? then Normalize(d.email.value) else was.email)
    ensures u.password == (if d.password.Some? then d.password.value else was.password)
    ensures u.createdAt == (if d.createdAt.Some? then d.createdAt.value else was.createdAt)
    ensures StoredValid(was) && PatchAccepted(d) ==> StoredValid(u)
  {
    assert d.email.Some? ==> Unpadded(Normalize(d.email.value)) && IsLower(Normalize(d.email.value)) by {
      if d.email.Some? {
        NormalizeShape(d.email.value);
      }
    }
    User(
      if d.username.Some? then Trim(d.username.value) else was.username,
      if d.email.Some? then Normalize(d.email.value) else was.email,
      if d.password.Some? then d.password.value else was.password,
      if d.createdAt.Some? then d.createdAt.value else was.createdAt)
  }

  /** PUT /users/:userId, behind the middleware: 400 for an id that is not an ObjectId,
      then 400 when a validator refuses a sent field, 404 for an unknown id, 400 when the
      new address belongs to another user; otherwise the record becomes `Patched`. */
  method UpdateById(db: Db, authorization: Option<string>, isObjectId: string -> bool, userId: Id, d: UserFields)
    returns (r: Reply<PublicUser>)
    requires db.Valid()
    modifies db
    ensures db.Valid()
    ensures Authenticate(authorization, db.lib).Rejected? ==>
      r == Reply(Authenticate(authorization, db.lib).status, None)
    ensures r.status == 200 <==>
      && Authenticate(authorization, db.lib).Next? && isObjectId(userId) && PatchAccepted(d)
      && userId in old(db.users)
      && (d.email.Some? && Normalize(d.email.value) in old(db.emailIndex) ==>
            old(db.emailIndex)[Normalize(d.email.value)] == userId)
    ensures Authenticate(authorization, db.lib).Next? && (!isObjectId(userId) || !PatchAccepted(d)) ==>
      r.status == 400
    ensures Authenticate(authorization, db.lib).Next? && isObjectId(userId) && PatchAccepted(d) && userId !in old(db.users) ==>
      r.status == 404
    ensures
      && Authenticate(authorization, db.lib).Next? && isObjectId(userId) && PatchAccepted(d) && userId in old(db.users)
      && d.email.Some? && Normalize(d.email.value) in old(db.emailIndex)
      && old(db.emailIndex)[Normalize(d.email.value)] != userId
      ==> r == Reply(400, None)
    ensures r.status in {200, 400, 401, 403, 404}
    ensures r.status == 200 ==>
      var u := Patched(old(db.users)[userId], d);
      && db.users == old(db.users)[userId := u]
      && db.emailIndex == (old(db.emailIndex) - {old(db.users)[userId].email})[u.email := userId]
      && r.body == Some(View(userId, u))
    ensures r.status != 200 ==> unchanged(db)
    ensures db.catways == old(db.catways) && db.reservations == old(db.reservations)
  {
    var auth := Authenticate(authorization, db.lib);
    if auth.Rejected? {
      return Reply(auth.status, None);
    }
    if !isObjectId(userId) {
      return Reply(400, None);
    }
    if !PatchAccepted(d) {
      return Reply(400, None);
    }
    if userId !in db.users {
      return Reply(404, None);
    }
    var was := db.users[userId];
    var u := Patched(was, d);
    if d.email.Some? && u.email in db.emailIndex && db.emailIndex[u.email] != userId {
      // E11000 on the unique index
      return Reply(400, None);
    }
    db.ReplaceUser(userId, u);
    r := Reply(200, Some(View(userId, u)));
  }

  /** A password changed through PUT /users/:userId is stored in plain text, so whether
      the user can log in with it afterwards depends on how the hash library compares a
      password with itself: a library that keeps bcrypt's promise may refuse it. */
  lemma PlainPasswordMayNotCompare()
    ensures var lib := SampleLibrary();
      HashSound(lib) && !ComparePassword(lib, "secret", Patched(User("sam", "s@a.b", lib.hash("old-secret"), 0),
                                                                  UserFields(None, None, Some("secret"), None)).password)
  {
    var lib := SampleLibrary();
    assert "h" + "secret" != "secret" by { assert ("h" + "secret")[0] != "secret"[0]; }
  }

  /** DELETE /users/:userId, behind the middleware: 400 for an id that is not an ObjectId,
      404 for an unknown id, otherwise 204 and exactly that user is gone. */
  method DeleteById(db: Db, authorization: Option<string>, isObjectId: string -> bool, userId: Id)
    returns (r: Reply<()>)
    requires db.Valid()
    modifies db
    ensures db.Valid()
    ensures Authenticate(authorization, db.lib).Rejected? ==>
      r == Reply(Authenticate(authorization, db.lib).status, None)
    ensures Authenticate(authorization, db.lib).Next? && !isObjectId(userId) ==> r == Reply(400, None)
    ensures Authenticate(authorization, db.lib).Next? && isObjectId(userId) ==>
      && (userId !in old(db.users) ==> r == Reply(404, None))
      && (userId in old(db.users) ==> r == Reply(204, None))
    ensures r.status == 204 ==>
      && db.users == old(db.users) - {userId}
      && db.emailIndex == old(db.emailIndex) - {old(db.users)[userId].email}
    ensures r.status != 204 ==> unchanged(db)
    ensures db.catways == old(db.catways) && db.reservations == old(db.reservations)
  {
    var auth := Authenticate(authorization, db.lib);
    if auth.Rejected? {
      return Reply(auth.status, None);
    }
    if !isObjectId(userId) {
      return Reply(400, None);
    }
    if userId !in db.users {
      return Reply(404, None);
    }
    db.RemoveUser(userId);
    r := Reply(204, None);
  }
}
