/** `checkCatwayExists` of api/middleware/checkCatwayExists.js: the guard in front of the
    catway routes that makes sure the catway named in the path exists. */
module CheckCatwayExists {
  import opened Js
  import opened CatwayModel

  /** What the guard does: answer 500 when the lookup throws, answer 404 naming the number
      it looked for, or set `req.catway` and call `next`. */
  datatype Outcome = ServerError | NotFound(catwayNumber: int) | Pass(catway: Catway)

  /** `req.params.catwayId || req.params.id`. */
  function ChosenParam(catwayId: Option<string>, id: Option<string>): (p: Option<string>)
    ensures Truthy(catwayId) ==> p == catwayId
    ensures !Truthy(catwayId) ==> p == id
  {
    if Truthy(catwayId) then catwayId else id
  }

  /** `Number(...)` of the chosen parameter; an absent one is NaN. */
  function LookedUpNumber(catwayId: Option<string>, id: Option<string>): (n: Option<int>)
    ensures ChosenParam(catwayId, id).None? ==> n.None?
    ensures ChosenParam(catwayId, id).Some? ==> n == StringToNumber(ChosenParam(catwayId, id).value)
  {
    match ChosenParam(catwayId, id)
    case None => None
    case Some(s) => StringToNumber(s)
  }

  /** The guard over the stored catways, keyed by number. */
  function Check(catways: map<int, Catway>, catwayId: Option<string>, id: Option<string>): (o: Outcome)
    ensures o == ServerError <==> LookedUpNumber(catwayId, id).None?
    ensures o.NotFound? <==> LookedUpNumber(catwayId, id).Some? && LookedUpNumber(catwayId, id).value !in catways
    ensures o.NotFound? ==> o.catwayNumber == LookedUpNumber(catwayId, id).value
    ensures o.Pass? ==> LookedUpNumber(catwayId, id).Some? && o.catway == catways[LookedUpNumber(catwayId, id).value]
  {
    match LookedUpNumber(catwayId, id)
    case None => ServerError
    case Some(n) => if n in catways then Pass(catways[n]) else NotFound(n)
  }

  /** `catwayId` takes precedence: when it is given, `id` plays no part; when it is
      absent or empty, the outcome is the one for `id` alone. */
  lemma {:induction false} CatwayIdTakesPrecedence(catways: map<int, Catway>, catwayId: Option<string>, id: Option<string>)
    ensures Truthy(catwayId) ==> Check(catways, catwayId, id) == Check(catways, catwayId, None)
    ensures !Truthy(catwayId) ==> Check(catways, catwayId, id) == Check(catways, None, id)
  {
    assert Truthy(catwayId) ==> LookedUpNumber(catwayId, id) == LookedUpNumber(catwayId, None);
    assert !Truthy(catwayId) ==> LookedUpNumber(catwayId, id) == LookedUpNumber(None, id);
  }

  /** A catway stored under its own number is found through its decimal text. */
  lemma {:induction false} StoredCatwayPasses(catways: map<int, Catway>, n: int)
    requires n in catways
    ensures Check(catways, Some(NumberToString(n)), None) == Pass(catways[n])
  {
    NumberRoundTrip(n);
  }
}
