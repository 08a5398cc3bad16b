/** The catway handlers of the first revision, services/catways.js. The path parameter
    `id` is compared with the stored numbers as a string. */
module RootCatways {
  import opened Js
  import opened CatwayModel
  import opened RootStore

  /** GET /catways/:id. */
  method GetById(db: Db, id: string) returns (r: Reply<RootStore.Catway>)
    ensures r.status == 404 <==> id !in db.catways
    ensures r.status == 200 <==> id in db.catways
    ensures r.status == 200 ==> r.body == Some(db.catways[id])
  {
    if id !in db.catways {
      return Reply(404, None);
    }
    r := Reply(200, Some(db.catways[id]));
  }

  /** POST /catways: every field required (the number 0 counts as missing). There is no
      duplicate pre-check: the schema and then the unique index refuse the save, which is
      answered with 500. Only a 201 writes. */
  method Add(db: Db, catwayNumber: Option<Scalar>, catwayType: Option<string>, catwayState: Option<string>)
    returns (r: Reply<RootStore.Catway>)
    requires db.Valid()
    modifies db
    ensures db.Valid()
    ensures !ScalarTruthy(catwayNumber) || !Truthy(catwayType) || !Truthy(catwayState) <==> r.status == 400
    ensures r.status == 201 <==>
      && ScalarTruthy(catwayNumber) && Truthy(catwayType) && Truthy(catwayState)
      && IsCatwayType(catwayType.value) && ScalarToString(catwayNumber.value) !in old(db.catways)
    ensures r.status == 201 ==>
      var c := RootStore.Catway(ScalarToString(catwayNumber.value), catwayType.value, catwayState.value);
      r.body == Some(c) && db.catways == old(db.catways)[c.catwayNumber := c]
    ensures r.status != 201 ==> unchanged(db)
    ensures r.status in {201, 400, 500}
    ensures db.reservations == old(db.reservations) && db.users == old(db.users)
  {
    if !ScalarTruthy(catwayNumber) || !Truthy(catwayType) || !Truthy(catwayState) {
      return Reply(400, None);
    }
    var c := RootStore.Catway(ScalarToString(catwayNumber.value), catwayType.value, catwayState.value);
    if !IsCatwayType(c.catwayType) {
      // the enum validator refuses the save
      return Reply(500, None);
    }
    if c.catwayNumber in db.catways {
      // E11000 on the unique index
      return Reply(500, None);
    }
    db.catways := db.catways[c.catwayNumber := c];
    r := Reply(201, Some(c));
  }

  /** PUT /catways/:id: a `catwayNumber` in the body is ignored; type and state take the
      sent value only when it is truthy. */
  method Update(db: Db, id: string, catwayNumber: Option<Scalar>, catwayType: Option<string>, catwayState: Option<string>)
    returns (r: Reply<RootStore.Catway>)
    requires db.Valid()
    modifies db
    ensures db.Valid()
    ensures r.status == 404 <==> id !in old(db.catways)
    ensures r.status == 500 <==>
      id in old(db.catways) && !IsCatwayType(OrElse(catwayType, old(db.catways)[id].catwayType))
    ensures r.status == 200 ==>
      && id in old(db.catways)
      && var c := RootStore.Catway(id, OrElse(catwayType, old(db.catways)[id].catwayType),
                                   OrElse(catwayState, old(db.catways)[id].catwayState));
      && r.body == Some(c) && db.catways == old(db.catways)[id := c]
    ensures r.status != 200 ==> unchanged(db)
    ensures r.status in {200, 404, 500}
    ensures db.reservations == old(db.reservations) && db.users == old(db.users)
  {
    if id !in db.catways {
      return Reply(404, None);
    }
    var was := db.catways[id];
    var c := was.(catwayType := OrElse(catwayType, was.catwayType), catwayState := OrElse(catwayState, was.catwayState));
    if !IsCatwayType(c.catwayType) {
      return Reply(500, None);
    }
    db.catways := db.catways[id := c];
    r := Reply(200, Some(c));
  }

  /** DELETE /catways/:id: removes exactly that catway. */
  method Delete(db: Db, id: string) returns (r: Reply<()>)
    requires db.Valid()
    modifies db
    ensures db.Valid()
    ensures r.status == 404 <==> id !in old(db.catways)
    ensures r.status == 200 <==> id in old(db.catways)
    ensures r.status == 200 ==> db.catways == old(db.catways) - {id}
    ensures r.status != 200 ==> unchanged(db)
    ensures db.reservations == old(db.reservations) && db.users == old(db.users)
  {
    if id !in db.catways {
      return Reply(404, None);
    }
    db.catways := db.catways - {id};
    r := Reply(200, None);
  }
}
