/** The catway handlers of api/services/catways.js. A catway is addressed by its number:
    the path parameter `catwayId` is cast to a number by the query, and a value that is not
    a number makes the query throw, which the handlers answer with 500. */
module ApiCatways {
  import opened Js
  import opened CatwayModel
  import opened ApiStore

  /** GET /catways/:catwayId. */
  method GetById(db: Db, catwayId: string) returns (r: Reply<Catway>)
    ensures StringToNumber(catwayId).None? <==> r.status == 500
    ensures r.status == 404 <==> StringToNumber(catwayId).Some? && StringToNumber(catwayId).value !in db.catways
    ensures r.status == 200 <==> StringToNumber(catwayId).Some? && StringToNumber(catwayId).value in db.catways
    ensures r.status == 200 ==> r.body == Some(db.catways[StringToNumber(catwayId).value])
    ensures r.status in {200, 404, 500}
  {
    var n := StringToNumber(catwayId);
    if n.None? {
      return Reply(500, None);
    }
    if n.value !in db.catways {
      return Reply(404, None);
    }
    r := Reply(200, Some(db.catways[n.value]));
  }

  /** POST /catways: every field required (the number 0 counts as missing), the number
      must be free, then the schema decides. Only a 201 writes, and it adds exactly the
      new catway. */
  method Create(db: Db, catwayNumber: Option<Scalar>, catwayType: Option<string>, catwayState: Option<string>, now: int)
    returns (r: Reply<Catway>)
    requires db.Valid()
    modifies db
    ensures db.Valid()
    ensures !ScalarTruthy(catwayNumber) || !Truthy(catwayType) || !Truthy(catwayState) ==> r.status == 400
    ensures r.status == 201 <==>
      && ScalarTruthy(catwayNumber) && Truthy(catwayType) && Truthy(catwayState)
      && ToNumber(catwayNumber).Some? && ToNumber(catwayNumber).value !in old(db.catways)
      && IsCatwayType(catwayType.value)
    ensures ScalarTruthy(catwayNumber) && Truthy(catwayType) && Truthy(catwayState) ==>
      (r.status == 400 <==> ToNumber(catwayNumber).Some? && ToNumber(catwayNumber).value in old(db.catways))
    ensures r.status == 201 ==>
      var c := Catway(ToNumber(catwayNumber).value, catwayType.value, catwayState.value, now, now);
      r.body == Some(c) && db.catways == old(db.catways)[c.catwayNumber := c]
    ensures r.status != 201 ==> unchanged(db)
    ensures db.reservations == old(db.reservations) && db.users == old(db.users) && db.emailIndex == old(db.emailIndex)
    ensures r.status in {201, 400, 500}
  {
    if !ScalarTruthy(catwayNumber) || !Truthy(catwayType) || !Truthy(catwayState) {
      return Reply(400, None);
    }
    var n := ToNumber(catwayNumber);
    if n.None? {
      // the query casts NaN and throws
      return Reply(500, None);
    }
    if n.value in db.catways {
      return Reply(400, None);
    }
    var c := Catway(n.value, catwayType.value, catwayState.value, now, now);
    if !IsCatwayType(c.catwayType) {
      // save() fails the enum validator
      return Reply(500, None);
    }
    db.catways := db.catways[n.value := c];
    r := Reply(201, Some(c));
  }

  /** PUT /catways/:catwayId: type and state take the supplied value only when it is
      truthy, so neither can be cleared; the number is never touched. */
  method Update(db: Db, catwayId: string, catwayType: Option<string>, catwayState: Option<string>, now: int)
    returns (r: Reply<Catway>)
    requires db.Valid()
    modifies db
    ensures db.Valid()
    ensures r.status == 500 <==>
      || StringToNumber(catwayId).None?
      || (StringToNumber(catwayId).value in old(db.catways) &&
          !IsCatwayType(OrElse(catwayType, old(db.catways)[StringToNumber(catwayId).value].catwayType)))
    ensures r.status == 404 <==> StringToNumber(catwayId).Some? && StringToNumber(catwayId).value !in old(db.catways)
    ensures r.status == 200 ==>
      var n := StringToNumber(catwayId).value;
      n in old(db.catways) && n in db.catways &&
      var was, c := old(db.catways)[n], db.catways[n];
      && db.catways == old(db.catways)[n := c] && r.body == Some(c)
      && c.catwayNumber == was.catwayNumber && c.createdAt == was.createdAt && c.updatedAt == now
      && c.catwayType == OrElse(catwayType, was.catwayType)
      && c.catwayState == OrElse(catwayState, was.catwayState)
    ensures r.status != 200 ==> unchanged(db)
    ensures db.reservations == old(db.reservations) && db.users == old(db.users) && db.emailIndex == old(db.emailIndex)
    ensures r.status in {200, 404, 500}
  {
    var n := StringToNumber(catwayId);
    if n.None? {
      return Reply(500, None);
    }
    if n.value !in db.catways {
      return Reply(404, None);
    }
    var was := db.catways[n.value];
    var c := was.(catwayType := OrElse(catwayType, was.catwayType),
                  catwayState := OrElse(catwayState, was.catwayState),
                  updatedAt := now);
    if !IsCatwayType(c.catwayType) {
      return Reply(500, None);
    }
    db.catways := db.catways[n.value := c];
    r := Reply(200, Some(c));
  }

  /** DELETE /catways/:catwayId: removes exactly that catway. The reservations that name
      it stay where they are. */
  method Delete(db: Db, catwayId: string) returns (r: Reply<()>)
    requires db.Valid()
    modifies db
    ensures db.Valid()
    ensures StringToNumber(catwayId).None? <==> r.status == 500
    ensures r.status == 404 <==> StringToNumber(catwayId).Some? && StringToNumber(catwayId).value !in old(db.catways)
    ensures r.status == 200 <==> StringToNumber(catwayId).Some? && StringToNumber(catwayId).value in old(db.catways)
    ensures r.status == 200 ==> db.catways == old(db.catways) - {StringToNumber(catwayId).value}
    ensures r.status != 200 ==> unchanged(db)
    ensures db.reservations == old(db.reservations) && db.users == old(db.users) && db.emailIndex == old(db.emailIndex)
  {
    var n := StringToNumber(catwayId);
    if n.None? {
      return Reply(500, None);
    }
    if n.value !in db.catways {
      return Reply(404, None);
    }
    db.catways := db.catways - {n.value};
    r := Reply(200, None);
  }
}
