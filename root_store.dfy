/** The database of the first revision (the schemas under models/): catways keyed by their number, which
    that schema declares as a string, reservations by id, and users by e-mail, with the
    unique indexes on catway numbers, e-mails and usernames. */
module RootStore {
  import opened Js
  import opened Crypto
  import opened CatwayModel
  import opened RootUserModel

  type Id = string

  /** models/catway.js: the number is a string, the type an enum, the state required;
      no timestamps. */
  datatype Catway = Catway(catwayNumber: string, catwayType: string, catwayState: string)

  /** models/reservation.js: the catway number is a string and nothing relates the dates. */
  datatype Reservation = Reservation(catwayNumber: string, clientName: string, boatName: string, startDate: int, endDate: int)

  ghost predicate CatwaysValid(cs: map<string, Catway>) {
    forall k :: k in cs ==> cs[k].catwayNumber == k && IsCatwayType(cs[k].catwayType) && cs[k].catwayState != ""
  }

  /** Every user sits under its own address, has a username and an address of the
      pattern's shape, and no two users share a username (the unique index). */
  ghost predicate UsersValid(us: map<string, User>) {
    && (forall e :: e in us ==> us[e].email == e && us[e].username != "" && EmailPatterns.NonSpaceEmail(e))
    && (forall e1, e2 :: e1 in us && e2 in us && us[e1].username == us[e2].username ==> e1 == e2)
  }

  /** Some user other than the one under `except` holds this username. */
  predicate UsernameTaken(us: map<string, User>, username: string, except: Option<string>) {
    exists e :: e in us && us[e].username == username && Some(e) != except
  }

  class Db {
    var catways: map<string, Catway>
    var reservations: map<Id, Reservation>
    var users: map<string, User>
    const lib: Library

    ghost predicate Valid()
      reads this
    {
      CatwaysValid(catways) && UsersValid(users)
    }

    constructor (lib: Library)
      ensures Valid() && this.lib == lib
      ensures catways == map[] && reservations == map[] && users == map[]
    {
      this.lib := lib;
      catways := map[];
      reservations := map[];
      users := map[];
    }
  }

  /** A user stored under a new address, with a username nobody else holds, keeps the
      users valid; the old address, if any, is dropped. */
  lemma {:induction false} UsersPut(us: map<string, User>, except: Option<string>, u: User)
    requires UsersValid(us)
    requires except.Some? ==> except.value in us
    requires u.username != "" && EmailPatterns.NonSpaceEmail(u.email)
    requires u.email in us ==> Some(u.email) == except
    requires !UsernameTaken(us, u.username, except)
    ensures UsersValid((if except.Some? then us - {except.value} else us)[u.email := u])
  {
    var rest := if except.Some? then us - {except.value} else us;
    var us' := rest[u.email := u];
    forall e1, e2 | e1 in us' && e2 in us' && us'[e1].username == us'[e2].username
      ensures e1 == e2
    {
      if e1 != u.email && e2 != u.email {
        assert us[e1].username == us[e2].username;
      }
    }
  }
}
