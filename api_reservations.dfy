/** The reservation service of api/services/reservations.js. Its functions throw; the
    thrown error is modelled as the `Err` of a `Result`, tagged by its cause. */
module ApiReservations {
  import opened Js
  import opened CatwayModel
  import opened ReservationModel
  import opened ApiStore

  /** Why a call threw. */
  datatype Failure =
    | MissingFields        // "Tous les champs sont requis"
    | CatwayNotFound       // "Catway non trouvé"
    | ReservationNotFound  // "Réservation non trouvée"
    | InvalidDates         // the `endDate` validator refused the save
    | CastFailed           // the query could not cast NaN to a number
    | BadObjectId          // the query could not cast the id to an ObjectId

  /** The fields a caller sends. A date is `None` when absent or empty and otherwise the
      timestamp `new Date` makes of it. */
  datatype Fields = Fields(
    catwayNumber: Option<Scalar>,
    clientName: Option<string>,
    boatName: Option<string>,
    startDate: Option<int>,
    endDate: Option<int>)

  /** `!catwayNumber || !clientName || !boatName || !startDate || !endDate`. */
  predicate MissingField(d: Fields) {
    || !ScalarTruthy(d.catwayNumber) || !Truthy(d.clientName) || !Truthy(d.boatName)
    || d.startDate.None? || d.endDate.None?
  }

  /** `create`: required fields, then the catway `Number(catwayNumber)` must exist, then the
      schema refuses an end that is not after the start. Only success writes, and it adds
      exactly the new reservation under the fresh id. */
  method Create(db: Db, d: Fields, newId: Id, now: int) returns (r: Result<Reservation, Failure>)
    requires db.Valid() && newId !in db.reservations
    modifies db
    ensures db.Valid()
    ensures MissingField(d) ==> r == Err(MissingFields)
    ensures !MissingField(d) && ToNumber(d.catwayNumber).None? ==> r == Err(CastFailed)
    ensures !MissingField(d) && ToNumber(d.catwayNumber).Some? ==>
      var n := ToNumber(d.catwayNumber).value;
      var res := Reservation(n, d.clientName.value, d.boatName.value, d.startDate.value, d.endDate.value, now, now);
      && (n !in old(db.catways) ==> r == Err(CatwayNotFound))
      && (n in old(db.catways) && !EndAfterStart(res) ==> r == Err(InvalidDates))
      && (n in old(db.catways) && EndAfterStart(res) ==>
            r == Ok(res) && db.reservations == old(db.reservations)[newId := res])
    ensures r.Ok? ==> ReservationModel.SchemaValid(r.value) && r.value.catwayNumber in db.catways
    ensures r.Err? ==> unchanged(db)
    ensures db.catways == old(db.catways) && db.users == old(db.users) && db.emailIndex == old(db.emailIndex)
  {
    if MissingField(d) {
      return Err(MissingFields);
    }
    var n := ToNumber(d.catwayNumber);
    if n.None? {
      return Err(CastFailed);
    }
    if n.value !in db.catways {
      return Err(CatwayNotFound);
    }
    var res := Reservation(n.value, d.clientName.value, d.boatName.value, d.startDate.value, d.endDate.value, now, now);
    if !EndAfterStart(res) {
      return Err(InvalidDates);
    }
    db.reservations := db.reservations[newId := res];
    r := Ok(res);
  }

  /** `getById`: `findById` throws on an id it cannot cast, otherwise finds the stored
      reservation or nothing. `isObjectId` is Mongoose's cast test, a parameter here. */
  method GetById(db: Db, isObjectId: Id -> bool, id: Id) returns (r: Result<Reservation, Failure>)
    ensures !isObjectId(id) ==> r == Err(BadObjectId)
    ensures isObjectId(id) && id in db.reservations ==> r == Ok(db.reservations[id])
    ensures isObjectId(id) && id !in db.reservations ==> r == Err(ReservationNotFound)
  {
    if !isObjectId(id) {
      return Err(BadObjectId);
    }
    if id !in db.reservations {
      return Err(ReservationNotFound);
    }
    r := Ok(db.reservations[id]);
  }

  /** The document `findByIdAndUpdate` stores: every field the caller sent overwrites the
      stored one, whatever its value; the fields not sent are kept. */
  function Overwrite(was: Reservation, d: Fields, catwayNumber: Option<int>, now: int): (r: Reservation)
    ensures r.catwayNumber == (if catwayNumber.Some? then catwayNumber.value else was.catwayNumber)
    ensures r.clientName == (if d.clientName.Some? then d.clientName.value else was.clientName)
    ensures r.boatName == (if d.boatName.Some? then d.boatName.value else was.boatName)
    ensures r.startDate == (if d.startDate.Some? then d.startDate.value else was.startDate)
    ensures r.endDate == (if d.endDate.Some? then d.endDate.value else was.endDate)
    ensures r.createdAt == was.createdAt && r.updatedAt == now
  {
    Reservation(
      if catwayNumber.Some? then catwayNumber.value else was.catwayNumber,
      if d.clientName.Some? then d.clientName.value else was.clientName,
      if d.boatName.Some? then d.boatName.value else was.boatName,
      if d.startDate.Some? then d.startDate.value else was.startDate,
      if d.endDate.Some? then d.endDate.value else was.endDate,
      was.createdAt,
      now)
  }

  /** The number the update writes: a truthy `catwayNumber` is replaced by
      `Number(catwayNumber)`; a number 0 is sent through as it is. */
  function WrittenNumber(v: Option<Scalar>): (r: Option<int>)
    ensures ScalarTruthy(v) ==> r == ToNumber(v)
    ensures v == Some(Num(0)) ==> r == Some(0)
    ensures v.None? ==> r.None?
  {
    if ScalarTruthy(v) then ToNumber(v)
    else if v == Some(Num(0)) then Some(0)
    else None
  }

  /** `update`: a truthy `catwayNumber` must name an existing catway, checked before the
      reservation is looked up; then the sent fields overwrite the stored ones. No
      validator runs, so nothing keeps the end after the start. An id that cannot be cast
      makes `findByIdAndUpdate` throw before it writes. */
  method Update(db: Db, isObjectId: Id -> bool, id: Id, d: Fields, now: int) returns (r: Result<Reservation, Failure>)
    requires db.Valid()
    modifies db
    ensures db.Valid()
    ensures ScalarTruthy(d.catwayNumber) && ToNumber(d.catwayNumber).None? ==> r == Err(CastFailed)
    ensures ScalarTruthy(d.catwayNumber) && ToNumber(d.catwayNumber).Some? ==>
      (ToNumber(d.catwayNumber).value !in old(db.catways) ==> r == Err(CatwayNotFound))
    ensures r.Ok? <==>
      && isObjectId(id) && id in old(db.reservations)
      && (ScalarTruthy(d.catwayNumber) ==>
            ToNumber(d.catwayNumber).Some? && ToNumber(d.catwayNumber).value in old(db.catways))
    ensures r == Err(BadObjectId) <==>
      && !isObjectId(id)
      && (ScalarTruthy(d.catwayNumber) ==>
            ToNumber(d.catwayNumber).Some? && ToNumber(d.catwayNumber).value in old(db.catways))
    ensures r.Err? && r != Err(CastFailed) && r != Err(CatwayNotFound) && r != Err(BadObjectId) ==>
      r == Err(ReservationNotFound) && isObjectId(id) && id !in old(db.reservations)
    ensures r.Ok? ==>
      && r.value == Overwrite(old(db.reservations)[id], d, WrittenNumber(d.catwayNumber), now)
      && db.reservations == old(db.reservations)[id := r.value]
    ensures r.Err? ==> unchanged(db)
    ensures db.catways == old(db.catways) && db.users == old(db.users) && db.emailIndex == old(db.emailIndex)
  {
    if ScalarTruthy(d.catwayNumber) {
      var n := ToNumber(d.catwayNumber);
      if n.None? {
        return Err(CastFailed);
      }
      if n.value !in db.catways {
        return Err(CatwayNotFound);
      }
    }
    if !isObjectId(id) {
      return Err(BadObjectId);
    }
    if id !in db.reservations {
      return Err(ReservationNotFound);
    }
    var res := Overwrite(db.reservations[id], d, WrittenNumber(d.catwayNumber), now);
    db.reservations := db.reservations[id := res];
    r := Ok(res);
  }

  /** `delete`: `findByIdAndDelete` throws on an id it cannot cast; otherwise exactly the
      reservation with that id is removed. */
  method Delete(db: Db, isObjectId: Id -> bool, id: Id) returns (r: Result<(), Failure>)
    requires db.Valid()
    modifies db
    ensures db.Valid()
    ensures !isObjectId(id) ==> r == Err(BadObjectId)
    ensures r.Ok? <==> isObjectId(id) && id in old(db.reservations)
    ensures isObjectId(id) && id !in old(db.reservations) ==> r == Err(ReservationNotFound)
    ensures r.Err? ==> unchanged(db)
    ensures r.Ok? ==> db.reservations == old(db.reservations) - {id}
    ensures db.catways == old(db.catways) && db.users == old(db.users) && db.emailIndex == old(db.emailIndex)
  {
    if !isObjectId(id) {
      return Err(BadObjectId);
    }
    if id !in db.reservations {
      return Err(ReservationNotFound);
    }
    db.reservations := db.reservations - {id};
    r := Ok(());
  }

  /** `getByCatway`: exactly the reservations whose number is `Number(catwayId)`. */
  method GetByCatway(db: Db, catwayId: Scalar) returns (r: Result<map<Id, Reservation>, Failure>)
    ensures ToNumber(Some(catwayId)).None? <==> r == Err(CastFailed)
    ensures r.Ok? ==>
      && (forall id :: id in r.value <==>
            id in db.reservations && db.reservations[id].catwayNumber == ToNumber(Some(catwayId)).value)
      && (forall id :: id in r.value ==> r.value[id] == db.reservations[id])
  {
    var n := ToNumber(Some(catwayId));
    if n.None? {
      return Err(CastFailed);
    }
    var all := db.reservations;
    r := Ok(map id | id in all && all[id].catwayNumber == n.value :: all[id]);
  }
}
