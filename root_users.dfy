/** The user handlers of the first revision, services/users.js, which address a user by
    its exact e-mail. Responses carry the stored document, password hash included. */
module RootUsers {
  import opened Js
  import opened Crypto
  import opened RootUserModel
  import opened RootStore

  /** POST /users: every field required and the address free (400), then the schema and
      the unique username index (500); the hook stores the password hashed once. */
  method Add(db: Db, username: Option<string>, email: Option<string>, password: Option<string>)
    returns (r: Reply<User>)
    requires db.Valid()
    modifies db
    ensures db.Valid()
    ensures r.status == 400 <==>
      !Truthy(username) || !Truthy(email) || !Truthy(password) || email.value in old(db.users)
    ensures r.status == 201 <==>
      && Truthy(username) && Truthy(email) && Truthy(password) && email.value !in old(db.users)
      && FieldsAccepted(User(username.value, email.value, password.value))
      && !UsernameTaken(old(db.users), username.value, None)
    ensures r.status == 201 ==>
      var u := User(username.value, email.value, db.lib.hash(password.value));
      r.body == Some(u) && db.users == old(db.users)[email.value := u]
    ensures r.status != 201 ==> unchanged(db)
    ensures r.status in {201, 400, 500}
    ensures db.catways == old(db.catways) && db.reservations == old(db.reservations)
  {
    if !Truthy(username) || !Truthy(email) || !Truthy(password) {
      return Reply(400, None);
    }
    if email.value in db.users {
      return Reply(400, None);
    }
    var u := User(username.value, email.value, password.value);
    if !FieldsAccepted(u) || UsernameTaken(db.users, u.username, None) {
      // a validator, or E11000 on the username index
      return Reply(500, None);
    }
    var saved := PreSave(db.lib, u, true);
    UsersPut(db.users, None, saved);
    db.users := db.users[u.email := saved];
    r := Reply(201, Some(saved));
  }

  /** GET /users: every stored document, password hashes included. */
  method GetAll(db: Db) returns (r: Reply<map<string, User>>)
    ensures r.status == 200 && r.body == Some(db.users)
  {
    r := Reply(200, Some(db.users));
  }

  /** GET /users/:email: 404 exactly when no user has that address. */
  method GetByEmail(db: Db, email: string) returns (r: Reply<User>)
    ensures r.status == 404 <==> email !in db.users
    ensures r.status == 200 <==> email in db.users
    ensures r.status == 200 ==> r.body == Some(db.users[email])
  {
    if email !in db.users {
      return Reply(404, None);
    }
    r := Reply(200, Some(db.users[email]));
  }

  /** The document the update handler hands to `save()`: username and address merged by
      falsy-OR, and a sent password already replaced by its hash. */
  function Revised(lib: Library, was: User, username: Option<string>, email: Option<string>, password: Option<string>): (u: User)
    ensures u.username == OrElse(username, was.username)
    ensures u.email == OrElse(email, was.email)
    ensures Truthy(password) ==> u.password == lib.hash(password.value)
    ensures !Truthy(password) ==> u.password == was.password
    ensures was.username != "" ==> u.username != ""
  {
    User(OrElse(username, was.username), OrElse(email, was.email),
         if Truthy(password) then lib.hash(password.value) else was.password)
  }

  /** PUT /users/:email: 404 for an unknown address; a refused field or a username or
      address held by another user fails the save with 500. Otherwise the user moves to
      its new address, and a sent password, hashed by the handler, is hashed once more by
      the hook because the field was modified. */
  method Update(db: Db, email: string, username: Option<string>, newEmail: Option<string>, password: Option<string>)
    returns (r: Reply<User>)
    requires db.Valid()
    modifies db
    ensures db.Valid()
    ensures r.status == 404 <==> email !in old(db.users)
    ensures email in old(db.users) ==>
      var u := Revised(db.lib, old(db.users)[email], username, newEmail, password);
      && (r.status == 200 <==>
            && FieldsAccepted(u)
            && (u.email != email ==> u.email !in old(db.users))
            && !UsernameTaken(old(db.users), u.username, Some(email)))
      && (r.status == 200 ==>
            var saved := PreSave(db.lib, u, Truthy(password));
            && r.body == Some(saved)
            && db.users == (old(db.users) - {email})[u.email := saved]
            && (Truthy(password) ==> saved.password == db.lib.hash(db.lib.hash(password.value))))
    ensures r.status != 200 ==> unchanged(db)
    ensures r.status in {200, 404, 500}
    ensures db.catways == old(db.catways) && db.reservations == old(db.reservations)
  {
    if email !in db.users {
      return Reply(404, None);
    }
    var u := Revised(db.lib, db.users[email], username, newEmail, password);
    if !FieldsAccepted(u) || (u.email != email && u.email in db.users) || UsernameTaken(db.users, u.username, Some(email)) {
      return Reply(500, None);
    }
    var saved := PreSave(db.lib, u, Truthy(password));
    UsersPut(db.users, Some(email), saved);
    db.users := (db.users - {email})[u.email := saved];
    r := Reply(200, Some(saved));
  }

  /** The password the update stores is the hash of the hash: a library that keeps
      bcrypt's promise can still refuse the password the user chose. */
  lemma DoubleHashMayRefuseLogin()
    ensures var lib := SampleLibrary();
      && HashSound(lib)
      && !ComparePassword(lib, "secret", PreSave(lib, User("sam", "s@a.b", lib.hash("secret")), true).password)
  {
    var lib := SampleLibrary();
    assert ("h" + ("h" + "secret"))[1] != ("h" + "secret")[1];
  }

  /** DELETE /users/:email: removes exactly that user. */
  method Delete(db: Db, email: string) returns (r: Reply<()>)
    requires db.Valid()
    modifies db
    ensures db.Valid()
    ensures r.status == 404 <==> email !in old(db.users)
    ensures r.status == 200 <==> email in old(db.users)
    ensures r.status == 200 ==> db.users == old(db.users) - {email}
    ensures r.status != 200 ==> unchanged(db)
    ensures db.catways == old(db.catways) && db.reservations == old(db.reservations)
  {
    if email !in db.users {
      return Reply(404, None);
    }
    db.users := db.users - {email};
    r := Reply(200, None);
  }
}
