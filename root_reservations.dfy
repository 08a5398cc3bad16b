/** The reservation handlers of the first revision, services/reservations.js, where
    reservations live under the path of their catway, `/catways/:id/reservations`. */
module RootReservations {
  import opened Js
  import opened RootStore

  /** The fields a caller sends; a date is `None` when absent or empty. */
  datatype Fields = Fields(clientName: Option<string>, boatName: Option<string>, startDate: Option<int>, endDate: Option<int>)

  /** The reservation `findOne({ catwayNumber: id, _id: reservationId })` finds: the id
      must exist and belong to the catway of the path. */
  predicate Matches(db: Db, id: string, reservationId: Id)
    reads db
  {
    reservationId in db.reservations && db.reservations[reservationId].catwayNumber == id
  }

  /** GET /catways/:id/reservations: 404 for an unknown catway, otherwise exactly the
      reservations whose number is the path's. */
  method GetAll(db: Db, id: string) returns (r: Reply<map<Id, Reservation>>)
    ensures r.status == 404 <==> id !in db.catways
    ensures r.status == 200 <==> id in db.catways
    ensures r.status == 200 ==>
      && r.body.Some?
      && (forall k :: k in r.body.value <==> k in db.reservations && db.reservations[k].catwayNumber == id)
      && (forall k :: k in r.body.value ==> r.body.value[k] == db.reservations[k])
  {
    if id !in db.catways {
      return Reply(404, None);
    }
    var all := db.reservations;
    r := Reply(200, Some(map k | k in all && all[k].catwayNumber == id :: all[k]));
  }

  /** GET /catways/:id/reservations/:reservationId: no check of the catway, but a
      reservation of another catway is not found. A reservation id that Mongoose cannot
      cast (`isObjectId`, a parameter here) makes `findOne` throw: 500. */
  method GetById(db: Db, isObjectId: Id -> bool, id: string, reservationId: Id) returns (r: Reply<Reservation>)
    ensures r.status == 500 <==> !isObjectId(reservationId)
    ensures r.status == 200 <==> isObjectId(reservationId) && Matches(db, id, reservationId)
    ensures r.status == 404 <==> isObjectId(reservationId) && !Matches(db, id, reservationId)
    ensures r.status == 200 ==> r.body == Some(db.reservations[reservationId])
  {
    if !isObjectId(reservationId) {
      return Reply(500, None);
    }
    if !Matches(db, id, reservationId) {
      return Reply(404, None);
    }
    r := Reply(200, Some(db.reservations[reservationId]));
  }

  /** POST /catways/:id/reservations: 404 for an unknown catway before the fields are
      looked at, 400 when one is missing; the number is the path's, never the body's. */
  method Add(db: Db, id: string, d: Fields, newId: Id) returns (r: Reply<Reservation>)
    requires db.Valid() && newId !in db.reservations
    modifies db
    ensures db.Valid()
    ensures r.status == 404 <==> id !in old(db.catways)
    ensures r.status == 400 <==>
      id in old(db.catways) &&
      (!Truthy(d.clientName) || !Truthy(d.boatName) || d.startDate.None? || d.endDate.None?)
    ensures r.status == 201 ==>
      var res := Reservation(id, d.clientName.value, d.boatName.value, d.startDate.value, d.endDate.value);
      r.body == Some(res) && db.reservations == old(db.reservations)[newId := res]
    ensures r.status != 201 ==> unchanged(db)
    ensures r.status in {201, 400, 404}
    ensures db.catways == old(db.catways) && db.users == old(db.users)
  {
    if id !in db.catways {
      return Reply(404, None);
    }
    if !Truthy(d.clientName) || !Truthy(d.boatName) || d.startDate.None? || d.endDate.None? {
      return Reply(400, None);
    }
    var res := Reservation(id, d.clientName.value, d.boatName.value, d.startDate.value, d.endDate.value);
    db.reservations := db.reservations[newId := res];
    r := Reply(201, Some(res));
  }

  /** `date || fallback` for a date field. */
  function DateOrElse(o: Option<int>, fallback: int): (r: int)
    ensures o.Some? ==> r == o.value
    ensures o.None? ==> r == fallback
  {
    if o.Some? then o.value else fallback
  }

  /** The reservation `save()` stores: each of the four fields takes the sent value only
      when it is truthy, and the catway number is never touched. */
  function Merged(was: Reservation, d: Fields): (r: Reservation)
    ensures r.catwayNumber == was.catwayNumber
    ensures r.clientName == OrElse(d.clientName, was.clientName)
    ensures r.boatName == OrElse(d.boatName, was.boatName)
    ensures r.startDate == DateOrElse(d.startDate, was.startDate)
    ensures r.endDate == DateOrElse(d.endDate, was.endDate)
    ensures was.clientName != "" && was.boatName != "" ==> r.clientName != "" && r.boatName != ""
  {
    Reservation(was.catwayNumber, OrElse(d.clientName, was.clientName), OrElse(d.boatName, was.boatName),
                DateOrElse(d.startDate, was.startDate), DateOrElse(d.endDate, was.endDate))
  }

  /** PUT /catways/:id/reservations/:reservationId: 404 for an unknown catway, 500 for a
      reservation id that cannot be cast, 404 for a reservation that is not this
      catway's, otherwise the reservation becomes `Merged`. */
  method Update(db: Db, isObjectId: Id -> bool, id: string, reservationId: Id, d: Fields) returns (r: Reply<Reservation>)
    requires db.Valid()
    modifies db
    ensures db.Valid()
    ensures r.status == 404 <==> id !in old(db.catways) || (isObjectId(reservationId) && !old(Matches(db, id, reservationId)))
    ensures r.status == 500 <==> id in old(db.catways) && !isObjectId(reservationId)
    ensures r.status == 200 <==> id in old(db.catways) && isObjectId(reservationId) && old(Matches(db, id, reservationId))
    ensures r.status == 200 ==>
      reservationId in old(db.reservations) &&
      var res := Merged(old(db.reservations)[reservationId], d);
      r.body == Some(res) && db.reservations == old(db.reservations)[reservationId := res]
    ensures r.status != 200 ==> unchanged(db)
    ensures db.catways == old(db.catways) && db.users == old(db.users)
  {
    if id !in db.catways {
      return Reply(404, None);
    }
    if !isObjectId(reservationId) {
      return Reply(500, None);
    }
    if !Matches(db, id, reservationId) {
      return Reply(404, None);
    }
    var res := Merged(db.reservations[reservationId], d);
    db.reservations := db.reservations[reservationId := res];
    r := Reply(200, Some(res));
  }

  /** DELETE /catways/:id/reservations/:reservationId: the same checks as the update,
      then removes only the matched reservation. */
  method Delete(db: Db, isObjectId: Id -> bool, id: string, reservationId: Id) returns (r: Reply<()>)
    requires db.Valid()
    modifies db
    ensures db.Valid()
    ensures r.status == 404 <==> id !in old(db.catways) || (isObjectId(reservationId) && !old(Matches(db, id, reservationId)))
    ensures r.status == 500 <==> id in old(db.catways) && !isObjectId(reservationId)
    ensures r.status == 200 <==> id in old(db.catways) && isObjectId(reservationId) && old(Matches(db, id, reservationId))
    ensures r.status == 200 ==> db.reservations == old(db.reservations) - {reservationId}
    ensures r.status != 200 ==> unchanged(db)
    ensures db.catways == old(db.catways) && db.users == old(db.users)
  {
    if id !in db.catways {
      return Reply(404, None);
    }
    if !isObjectId(reservationId) {
      return Reply(500, None);
    }
    if !Matches(db, id, reservationId) {
      return Reply(404, None);
    }
    db.reservations := db.reservations - {reservationId};
    r := Reply(200, None);
  }
}
