/** The MongoDB database behind the api/ revision of the backend: three collections and
    the unique index on user e-mails, held as maps that the handlers reassign. */
module ApiStore {
  import opened Js
  import opened Crypto
  import opened CatwayModel
  import opened ReservationModel
  import opened UserModel

  /** A document `_id` (an ObjectId's hex string). */
  type Id = string

  /** Every stored catway sits under its own number (the unique index on `catwayNumber`)
      and passed the schema when it was saved. */
  ghost predicate CatwaysValid(cs: map<int, Catway>) {
    forall n :: n in cs ==> cs[n].catwayNumber == n && CatwayModel.SchemaValid(cs[n])
  }

  /** The unique index on `email`: it maps every stored address to the one user holding it. */
  ghost predicate EmailIndexed(users: map<Id, User>, index: map<string, Id>) {
    && (forall e :: e in index ==> index[e] in users && users[index[e]].email == e)
    && (forall id :: id in users ==> users[id].email in index && index[users[id].email] == id)
  }

  /** Every stored user passed the schema, and the index is exact. */
  ghost predicate UsersValid(users: map<Id, User>, index: map<string, Id>) {
    EmailIndexed(users, index) && forall id {:trigger StoredValid(users[id])} :: id in users ==> StoredValid(users[id])
  }

  class Db {
    var catways: map<int, Catway>
    var reservations: map<Id, Reservation>
    var users: map<Id, User>
    var emailIndex: map<string, Id>
    /** bcrypt and jsonwebtoken as the process loaded them. */
    const lib: Library

    /** What every write keeps. Reservations carry no invariant: an update can store
        any dates and any catway number, and deleting a catway leaves its reservations. */
    ghost predicate Valid()
      reads this
    {
      CatwaysValid(catways) && UsersValid(users, emailIndex)
    }

    /** An empty database. */
    constructor (lib: Library)
      ensures Valid() && this.lib == lib
      ensures catways == map[] && reservations == map[] && users == map[] && emailIndex == map[]
    {
      this.lib := lib;
      catways := map[];
      reservations := map[];
      users := map[];
      emailIndex := map[];
    }

    /** The user holding a normalized address, through the unique index. */
    function UserByEmail(email: string): (r: Option<Id>)
      reads this
      requires EmailIndexed(users, emailIndex)
      ensures r.Some? <==> exists id :: id in users && users[id].email == email
      ensures r.Some? ==> r.value in users && users[r.value].email == email
    {
      if email in emailIndex then Some(emailIndex[email]) else None
    }

    /** Every user as `find().select("-password")` returns them, by id. */
    function PublicUsers(): (r: map<Id, PublicUser>)
      reads this
      ensures r.Keys == users.Keys
      ensures forall id :: id in r ==> r[id] == View(id, users[id])
    {
      map id | id in users :: View(id, users[id])
    }

    /** Saves a new valid user under a fresh id and a free address. */
    method InsertUser(id: Id, u: User)
      requires Valid() && StoredValid(u)
      requires id !in users && u.email !in emailIndex
      modifies this
      ensures Valid()
      ensures users == old(users)[id := u] && emailIndex == old(emailIndex)[u.email := id]
      ensures catways == old(catways) && reservations == old(reservations)
    {
      var users', index' := users[id := u], emailIndex[u.email := id];
      UsersInsert(users, emailIndex, id, u);
      users, emailIndex := users', index';
    }

    /** Rewrites a stored user with a valid record whose address is its own or free. */
    method ReplaceUser(id: Id, u: User)
      requires Valid() && id in users && StoredValid(u)
      requires u.email in emailIndex ==> emailIndex[u.email] == id
      modifies this
      ensures Valid()
      ensures users == old(users)[id := u]
      ensures emailIndex == (old(emailIndex) - {old(users)[id].email})[u.email := id]
      ensures u.email == old(users)[id].email ==> emailIndex == old(emailIndex)
      ensures catways == old(catways) && reservations == old(reservations)
    {
      var was := users[id];
      UsersMove(users, emailIndex, id, u);
      if u.email == was.email {
        assert (emailIndex - {was.email})[u.email := id] == emailIndex;
      }
      users := users[id := u];
      emailIndex := (emailIndex - {was.email})[u.email := id];
    }

    /** Deletes a stored user and frees its address. */
    method RemoveUser(id: Id)
      requires Valid() && id in users
      modifies this
      ensures Valid()
      ensures users == old(users) - {id} && emailIndex == old(emailIndex) - {old(users)[id].email}
      ensures catways == old(catways) && reservations == old(reservations)
    {
      UsersRemove(users, emailIndex, id);
      emailIndex := emailIndex - {users[id].email};
      users := users - {id};
    }
  }

  /** A valid user added under a fresh id and a free address keeps the users valid. */
  lemma UsersInsert(users: map<Id, User>, index: map<string, Id>, id: Id, u: User)
    requires UsersValid(users, index) && StoredValid(u)
    requires id !in users && u.email !in index
    ensures UsersValid(users[id := u], index[u.email := id])
  {
    IndexInsert(users, index, id, u);
  }

  /** Removing a user and its address keeps the users valid. */
  lemma UsersRemove(users: map<Id, User>, index: map<string, Id>, id: Id)
    requires UsersValid(users, index) && id in users
    ensures UsersValid(users - {id}, index - {users[id].email})
  {
    IndexRemove(users, index, id);
  }

  /** Replacing a user by a valid record, moving its address in the index, keeps the users
      valid provided no other user holds the new address. */
  lemma UsersMove(users: map<Id, User>, index: map<string, Id>, id: Id, u: User)
    requires UsersValid(users, index) && id in users && StoredValid(u)
    requires u.email in index ==> index[u.email] == id
    ensures UsersValid(users[id := u], (index - {users[id].email})[u.email := id])
  {
    IndexReplace(users, index, id, u);
  }

  /** Adding a valid user under a fresh id and an unused address keeps the index exact. */
  lemma {:induction false} IndexInsert(users: map<Id, User>, index: map<string, Id>, id: Id, u: User)
    requires EmailIndexed(users, index)
    requires id !in users && u.email !in index
    ensures EmailIndexed(users[id := u], index[u.email := id])
  {
    var users', index' := users[id := u], index[u.email := id];
    forall e | e in index'
      ensures index'[e] in users' && users'[index'[e]].email == e
    {
      if e != u.email {
        assert index[e] in users && index[e] != id;
      }
    }
  }

  /** Removing a user and its address keeps the index exact. */
  lemma {:induction false} IndexRemove(users: map<Id, User>, index: map<string, Id>, id: Id)
    requires EmailIndexed(users, index) && id in users
    ensures EmailIndexed(users - {id}, index - {users[id].email})
  {
    var gone := users[id].email;
    forall e | e in index - {gone}
      ensures (index - {gone})[e] in users - {id}
    {
      assert users[index[e]].email == e;
    }
  }

  /** Replacing a user's record, moving its address from `old` to the new one, keeps the
      index exact provided no other user holds the new address. */
  lemma {:induction false} IndexReplace(users: map<Id, User>, index: map<string, Id>, id: Id, u: User)
    requires EmailIndexed(users, index) && id in users
    requires u.email in index ==> index[u.email] == id
    ensures EmailIndexed(users[id := u], (index - {users[id].email})[u.email := id])
  {
    var gone := users[id].email;
    var users', index' := users[id := u], (index - {gone})[u.email := id];
    forall e | e in index'
      ensures index'[e] in users' && users'[index'[e]].email == e
    {
      if e != u.email {
        assert index[e] in users && users[index[e]].email == e;
        assert index[e] != id;
      }
    }
    forall other | other in users'
      ensures users'[other].email in index' && index'[users'[other].email] == other
    {
      if other != id {
        assert users[other].email != gone;
      }
    }
  }
}
