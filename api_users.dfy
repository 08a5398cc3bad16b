/** The user handlers of api/services/users.js, which address a user by e-mail. The query
    runs the schema's `lowercase` and `trim` setters on the address it is given, so every
    lookup goes through the normalized address. */
module ApiUsers {
  import opened Js
  import opened Crypto
  import opened UserModel
  import opened ApiStore

  /** The `user` object `add` answers with: no password. */
  datatype UserSummary = UserSummary(id: Id, username: string, email: string)

  /** POST: every field required, the address free, then the schema's validators; the
      pre-save hook stores the password hashed. Only a 201 writes. */
  method Add(db: Db, username: Option<string>, email: Option<string>, password: Option<string>, newId: Id, now: int)
    returns (r: Reply<UserSummary>)
    requires db.Valid() && newId !in db.users
    modifies db
    ensures db.Valid()
    ensures !Truthy(username) || !Truthy(email) || !Truthy(password) ==> r == Reply(400, None)
    ensures Truthy(username) && Truthy(email) && Truthy(password) && Normalize(email.value) in old(db.emailIndex) ==>
      r == Reply(400, None)
    ensures r.status == 201 <==>
      && Truthy(username) && Truthy(email) && Truthy(password)
      && Normalize(email.value) !in old(db.emailIndex)
      && FieldsAccepted(username, email, password)
    ensures r.status == 201 ==>
      var u := NewUser(db.lib, username.value, email.value, password.value, now);
      && r.body == Some(UserSummary(newId, u.username, u.email))
      && db.users == old(db.users)[newId := u]
      && db.emailIndex == old(db.emailIndex)[u.email := newId]
      && (HashSound(db.lib) ==> ComparePassword(db.lib, password.value, u.password))
    ensures r.status != 201 ==> unchanged(db)
    ensures r.status in {201, 400, 500}
    ensures db.catways == old(db.catways) && db.reservations == old(db.reservations)
  {
    if !Truthy(username) || !Truthy(email) || !Truthy(password) {
      return Reply(400, None);
    }
    if Normalize(email.value) in db.emailIndex {
      return Reply(400, None);
    }
    if !FieldsAccepted(username, email, password) {
      // save() fails validation
      return Reply(500, None);
    }
    var u := NewUser(db.lib, username.value, email.value, password.value, now);
    db.InsertUser(newId, u);
    r := Reply(201, Some(UserSummary(newId, u.username, u.email)));
  }

  /** GET: every user, none with a password. */
  method GetAll(db: Db) returns (r: map<Id, PublicUser>)
    ensures r.Keys == db.users.Keys
    ensures forall id :: id in r ==> r[id] == View(id, db.users[id])
  {
    r := db.PublicUsers();
  }

  /** GET /:email: the user with that (normalized) address, without a password. */
  method GetByEmail(db: Db, email: string) returns (r: Reply<PublicUser>)
    requires db.Valid()
    ensures r.status == 404 <==> !exists id :: id in db.users && db.users[id].email == Normalize(email)
    ensures r.status == 200 ==>
      exists id :: id in db.users && db.users[id].email == Normalize(email) && r.body == Some(View(id, db.users[id]))
    ensures r.status in {200, 404}
  {
    var id := db.UserByEmail(Normalize(email));
    if id.None? {
      return Reply(404, None);
    }
    r := Reply(200, Some(View(id.value, db.users[id.value])));
  }

  /** The record `save()` stores for PUT /:email, or `None` when a validator refuses it.
      The username takes the sent value only when it is truthy (and is trimmed by its
      setter); the password is replaced, and therefore hashed by the hook, only when one
      is sent; the address and the creation date never change. */
  function Saved(lib: Library, was: User, username: Option<string>, password: Option<string>): (r: Option<User>)
    ensures r.Some? <==>
      UsernameAccepted(OrElse(username, was.username)) && (Truthy(password) ==> PasswordAccepted(password.value))
    ensures r.Some? ==>
      && r.value.email == was.email && r.value.createdAt == was.createdAt
      && r.value.username == Trim(OrElse(username, was.username))
      && (!Truthy(password) ==> r.value.password == was.password)
      && (Truthy(password) && HashSound(lib) ==> ComparePassword(lib, password.value, r.value.password))
    ensures r.Some? && StoredValid(was) ==>
      StoredValid(r.value) && (!Truthy(username) ==> r.value.username == was.username)
  {
    var name := OrElse(username, was.username);
    if !UsernameAccepted(name) || (Truthy(password) && !PasswordAccepted(password.value)) then None
    else
      var plain := if Truthy(password) then password.value else was.password;
      TrimUnpadded(was.username);
      Some(User(Trim(name), was.email, HashIfModified(lib, plain, Truthy(password)), was.createdAt))
  }

  /** PUT /:email: 404 for an unknown address; otherwise the record becomes `Saved`, or
      nothing changes and the answer is 500 when the schema refuses it. */
  method Update(db: Db, email: string, username: Option<string>, password: Option<string>)
    returns (r: Reply<UserSummary>)
    requires db.Valid()
    modifies db
    ensures db.Valid()
    ensures r.status == 404 <==> Normalize(email) !in old(db.emailIndex)
    ensures Normalize(email) in old(db.emailIndex) ==>
      var id := old(db.emailIndex)[Normalize(email)];
      var saved := Saved(db.lib, old(db.users)[id], username, password);
      && (r.status == 200 <==> saved.Some?)
      && (r.status == 200 ==>
            && db.users == old(db.users)[id := saved.value]
            && r.body == Some(UserSummary(id, saved.value.username, saved.value.email)))
    ensures r.status != 200 ==> unchanged(db)
    ensures r.status in {200, 404, 500}
    ensures db.emailIndex == old(db.emailIndex)
    ensures db.catways == old(db.catways) && db.reservations == old(db.reservations)
  {
    var key := Normalize(email);
    if key !in db.emailIndex {
      return Reply(404, None);
    }
    var id := db.emailIndex[key];
    var saved := Saved(db.lib, db.users[id], username, password);
    if saved.None? {
      return Reply(500, None);
    }
    var u := saved.value;
    db.ReplaceUser(id, u);
    r := Reply(200, Some(UserSummary(id, u.username, u.email)));
  }

  /** DELETE /:email: removes exactly that user and frees the address. */
  method Delete(db: Db, email: string) returns (r: Reply<()>)
    requires db.Valid()
    modifies db
    ensures db.Valid()
    ensures r.status == 404 <==> Normalize(email) !in old(db.emailIndex)
    ensures r.status == 200 <==> Normalize(email) in old(db.emailIndex)
    ensures r.status == 200 ==>
      && db.users == old(db.users) - {old(db.emailIndex)[Normalize(email)]}
      && db.emailIndex == old(db.emailIndex) - {Normalize(email)}
    ensures r.status != 200 ==> unchanged(db)
    ensures db.catways == old(db.catways) && db.reservations == old(db.reservations)
  {
    var key := Normalize(email);
    if key !in db.emailIndex {
      return Reply(404, None);
    }
    var id := db.emailIndex[key];
    db.RemoveUser(id);
    r := Reply(200, None);
  }
}
