/** The catway form of frontend/src/components/Catway.jsx: its initial state, the checks
    of `validateForm` and the gate in `handleSubmit`. */
module CatwayForm {
  import opened Js
  import CatwayModel

  /** The keys the error object can hold: the type is never checked. */
  datatype Field = NumberField | StateField

  /** The form's three text fields. */
  datatype FormData = FormData(catwayNumber: string, catwayType: string, catwayState: string)

  /** The form opens on `String(catway?.catwayNumber || "")`, the type or "long", and the
      state or "": a missing catway and the catway numbered 0 both give an empty number. */
  function Init(catway: Option<CatwayModel.Catway>): (f: FormData)
    ensures catway.None? ==> f == FormData("", "long", "")
    ensures catway.Some? ==> f.catwayState == catway.value.catwayState
    ensures catway.Some? ==> f.catwayType == if catway.value.catwayType == "" then "long" else catway.value.catwayType
    ensures f.catwayNumber == "" <==> catway.None? || catway.value.catwayNumber == 0
    ensures catway.Some? && catway.value.catwayNumber != 0 ==>
      ToNumber(Some(Str(f.catwayNumber))) == Some(catway.value.catwayNumber)
  {
    match catway
    case None => FormData("", "long", "")
    case Some(c) =>
      var number := if c.catwayNumber != 0 then ScalarToString(Num(c.catwayNumber)) else "";
      FormData(number, if c.catwayType != "" then c.catwayType else "long", c.catwayState)
  }

  /** `validateForm`: a number error exactly when the number is blank, a state error
      exactly when the state is blank. */
  function Validate(f: FormData): (errors: set<Field>)
    ensures NumberField in errors <==> Trim(f.catwayNumber) == ""
    ensures StateField in errors <==> Trim(f.catwayState) == ""
  {
    (if Trim(f.catwayNumber) == "" then {NumberField} else {}) +
    (if Trim(f.catwayState) == "" then {StateField} else {})
  }

  /** `handleSubmit`: the form data, untouched, and only when there is no error. */
  function Submit(f: FormData): (r: Option<FormData>)
    ensures r.Some? <==> Validate(f) == {}
    ensures r.Some? ==> r.value == f
  {
    if Validate(f) == {} then Some(f) else None
  }

  /** The form on an existing catway, other than number 0, with a non-blank state, can be
      sent back as it opened. */
  lemma {:induction false} EditFormSubmits(c: CatwayModel.Catway)
    requires c.catwayNumber != 0 && Trim(c.catwayState) != ""
    ensures Submit(Init(Some(c))) == Some(Init(Some(c)))
  {
    var f := Init(Some(c));
    TrimUnpadded(f.catwayNumber);
  }

  /** Catway 0 opens with an empty number, so its edit form cannot be sent. */
  lemma {:induction false} CatwayZeroCannotBeEdited(c: CatwayModel.Catway)
    requires c.catwayNumber == 0
    ensures Submit(Init(Some(c))).None?
  {
    assert NumberField in Validate(Init(Some(c)));
  }

  /** What the form sends passes the falsy checks of the api's create handler whenever
      its type is set. */
  lemma {:induction false} SentFieldsAreTruthy(f: FormData)
    requires Submit(f).Some? && f.catwayType != ""
    ensures ScalarTruthy(Some(Str(f.catwayNumber))) && Truthy(Some(f.catwayType)) && Truthy(Some(f.catwayState))
  {
    assert NumberField !in Validate(f) && StateField !in Validate(f);
    assert Trim(f.catwayNumber) != "" && Trim(f.catwayState) != "";
  }

  /** The number is only checked for blankness: "A1" passes the form and is not a number
      for the api, which answers the cast failure with 500. */
  lemma NonNumericNumberPasses()
    ensures Submit(FormData("A1", "long", "ok")).Some?
    ensures ToNumber(Some(Str("A1"))).None?
  {
    var a := "A1";
    var s := "ok";
    assert !IsSpace(a[0]) && !IsSpace(a[1]) && !IsSpace(s[0]) && !IsSpace(s[1]);
    TrimUnpadded(a);
    TrimUnpadded(s);
    assert !IsDigit(a[0]);
  }
}
