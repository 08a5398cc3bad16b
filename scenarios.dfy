/** Sequences of api calls, each stating what the second call sees of the first. They
    show the rules that hold across handlers, and the two gaps between them: a catway
    can be deleted from under its reservations, and an update can put a reservation's
    end before its start. */
module Scenarios {
  import opened Js
  import opened Crypto
  import opened CatwayModel
  import opened ReservationModel
  import opened UserModel
  import opened ApiStore
  import ApiCatways
  import ApiReservations
  import ApiUserRoutes

  /** A catway that was created is found under the text of its number. */
  method CreateThenGet(db: Db, n: int, catwayType: string, catwayState: string, now: int)
    returns (created: Reply<Catway>, found: Reply<Catway>)
    requires db.Valid() && n != 0 && n !in db.catways && IsCatwayType(catwayType) && catwayState != ""
    modifies db
    ensures created.status == 201 && found.status == 200 && found.body == created.body
  {
    created := ApiCatways.Create(db, Some(Num(n)), Some(catwayType), Some(catwayState), now);
    NumberRoundTrip(n);
    found := ApiCatways.GetById(db, NumberToString(n));
  }

  /** Deleting is not repeatable: the second delete of the same catway answers 404. */
  method DeleteTwice(db: Db, catwayId: string) returns (first: Reply<()>, second: Reply<()>)
    requires db.Valid() && StringToNumber(catwayId).Some? && StringToNumber(catwayId).value in db.catways
    modifies db
    ensures first.status == 200 && second.status == 404
  {
    first := ApiCatways.Delete(db, catwayId);
    second := ApiCatways.Delete(db, catwayId);
  }

  /** The catway of a booked reservation can be deleted; the reservation stays and names
      a catway that no longer exists. */
  method BookThenDeleteCatway(db: Db, d: ApiReservations.Fields, newId: Id, now: int, catwayId: string)
    returns (booked: Result<Reservation, ApiReservations.Failure>, deleted: Reply<()>)
    requires db.Valid() && newId !in db.reservations
    requires !ApiReservations.MissingField(d) && ToNumber(d.catwayNumber).Some?
    requires ToNumber(d.catwayNumber).value in db.catways && d.startDate.value < d.endDate.value
    requires StringToNumber(catwayId) == ToNumber(d.catwayNumber)
    modifies db
    ensures booked.Ok? && deleted.status == 200
    ensures newId in db.reservations && db.reservations[newId].catwayNumber !in db.catways
  {
    booked := ApiReservations.Create(db, d, newId, now);
    deleted := ApiCatways.Delete(db, catwayId);
  }

  /** Create refuses an end before the start, yet an update of the dates alone stores one:
      the update runs no validator. */
  method UpdateInvertsDates(db: Db, isObjectId: Id -> bool, id: Id, startDate: int, endDate: int, now: int)
    returns (r: Result<Reservation, ApiReservations.Failure>)
    requires db.Valid() && isObjectId(id) && id in db.reservations && endDate < startDate
    modifies db
    ensures r.Ok? && id in db.reservations && db.reservations[id] == r.value
    ensures !EndAfterStart(r.value) && !ReservationModel.SchemaValid(r.value)
  {
    r := ApiReservations.Update(db, isObjectId, id, ApiReservations.Fields(None, None, None, Some(startDate), Some(endDate)), now);
  }

  /** Whoever registers can log in at once with the address and password they sent,
      and gets their own record back. */
  method RegisterThenLogin(db: Db, d: ApiUserRoutes.UserFields, newId: Id, now: int)
    returns (registered: Reply<ApiUserRoutes.Session>, session: Reply<ApiUserRoutes.Session>)
    requires db.Valid() && newId !in db.users && HashSound(db.lib)
    requires FieldsAccepted(d.username, d.email, d.password) && Normalize(d.email.value) !in db.emailIndex
    modifies db
    ensures registered.status == 201 && session.status == 200
    ensures session.body.Some? && registered.body.Some? && session.body.value.user == registered.body.value.user
  {
    registered := ApiUserRoutes.Register(db, d, newId, now);
    session := ApiUserRoutes.Login(db, d.email, d.password);
  }
}
