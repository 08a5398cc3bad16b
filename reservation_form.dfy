/** The reservation form of frontend/src/components/Reservation.jsx: the checks of
    `validateForm`, the payload of `handleSubmit` and `formatDateForInput`. */
module ReservationForm {
  import opened Js
  import ReservationModel
  import ApiReservations

  /** The keys the error object can hold. */
  datatype Field = CatwayField | ClientField | BoatField | StartField | EndField

  /** What the form reports under a field: a missing value, or an end date that is not
      after the start date. */
  datatype Problem = Required | EndNotAfterStart

  /** The form's fields. The catway is the number of the edited reservation or the text
      of the chosen option; a date is `None` while its input is empty. */
  datatype FormData = FormData(catwayNumber: Scalar, clientName: string, boatName: string, startDate: Option<int>, endDate: Option<int>)

  /** What `onSave` receives: the form data with `catwayNumber` through `Number`
      (`None` is NaN). */
  datatype Payload = Payload(catwayNumber: Option<int>, clientName: string, boatName: string, startDate: Option<int>, endDate: Option<int>)

  /** The error `validateForm` puts under one field, if any. */
  function FieldProblem(f: FormData, k: Field): Option<Problem> {
    match k
    case CatwayField => if !ScalarTruthy(Some(f.catwayNumber)) then Some(Required) else None
    case ClientField => if Trim(f.clientName) == "" then Some(Required) else None
    case BoatField => if Trim(f.boatName) == "" then Some(Required) else None
    case StartField => if f.startDate.None? then Some(Required) else None
    case EndField =>
      if f.endDate.None? then Some(Required)
      else if f.startDate.Some? && f.startDate.value >= f.endDate.value then Some(EndNotAfterStart)
      else None
  }

  /** `validateForm`: the catway must be truthy, the names non-blank, both dates given;
      with both dates given, an end not after the start replaces the end's error. */
  function Validate(f: FormData): (errors: map<Field, Problem>)
    ensures CatwayField in errors <==> !ScalarTruthy(Some(f.catwayNumber))
    ensures ClientField in errors <==> Trim(f.clientName) == ""
    ensures BoatField in errors <==> Trim(f.boatName) == ""
    ensures StartField in errors <==> f.startDate.None?
    ensures EndField in errors <==> f.endDate.None? || (f.startDate.Some? && f.startDate.value >= f.endDate.value)
    ensures EndField in errors ==> errors[EndField] == if f.endDate.None? then Required else EndNotAfterStart
    ensures forall k :: k in errors && k != EndField ==> errors[k] == Required
  {
    map k: Field | k in {CatwayField, ClientField, BoatField, StartField, EndField} && FieldProblem(f, k).Some?
      :: FieldProblem(f, k).value
  }

  /** `handleSubmit`: only a valid form is sent, with the catway through `Number` and
      every other field as entered. */
  function Submit(f: FormData): (r: Option<Payload>)
    ensures r.Some? <==> Validate(f) == map[]
    ensures r.Some? ==> r.value.catwayNumber == ToNumber(Some(f.catwayNumber))
    ensures r.Some? ==> r.value.clientName == f.clientName && r.value.boatName == f.boatName
    ensures r.Some? ==> r.value.startDate == f.startDate && r.value.endDate == f.endDate
  {
    if Validate(f) == map[] then
      Some(Payload(ToNumber(Some(f.catwayNumber)), f.clientName, f.boatName, f.startDate, f.endDate))
    else None
  }

  /** The payload as the api reads it from the JSON body, where NaN arrives as `null`. */
  function AsApiFields(p: Payload): (d: ApiReservations.Fields)
    ensures d.clientName == Some(p.clientName) && d.boatName == Some(p.boatName)
    ensures d.startDate == p.startDate && d.endDate == p.endDate
    ensures p.catwayNumber.Some? ==> d.catwayNumber == Some(Num(p.catwayNumber.value))
    ensures p.catwayNumber.None? ==> d.catwayNumber.None?
  {
    ApiReservations.Fields(
      if p.catwayNumber.Some? then Some(Num(p.catwayNumber.value)) else None,
      Some(p.clientName), Some(p.boatName), p.startDate, p.endDate)
  }

  /** What the form sends for a catway other than 0 passes the api's required-field check
      and, whatever the catway, its end-after-start validator. */
  lemma {:induction false} SentPassesApiChecks(f: FormData, now: int)
    requires Submit(f).Some?
    ensures var p := Submit(f).value;
      && p.startDate.Some? && p.endDate.Some?
      && (p.catwayNumber.Some? ==>
            ReservationModel.SchemaValid(ReservationModel.Reservation(
              p.catwayNumber.value, p.clientName, p.boatName, p.startDate.value, p.endDate.value, now, now)))
      && (p.catwayNumber.Some? && p.catwayNumber.value != 0 ==> !ApiReservations.MissingField(AsApiFields(p)))
  {
    assert ClientField !in Validate(f) && BoatField !in Validate(f);
    assert StartField !in Validate(f) && EndField !in Validate(f);
  }

  /** The option for catway 0 carries the text "0", which the form accepts and `Number`
      turns into 0, a value the api counts as missing. */
  lemma ZeroCatwayRefusedByApi(client: string, boat: string, start: int, end: int)
    requires Trim(client) != "" && Trim(boat) != "" && start < end
    ensures var f := FormData(Str("0"), client, boat, Some(start), Some(end));
      Submit(f).Some? && ApiReservations.MissingField(AsApiFields(Submit(f).value))
  {
    var z := "0";
    assert !IsSpace(z[0]);
    TrimUnpadded(z);
    assert AllDigits(z);
  }

  /** `formatDateForInput`: "" for an empty value, otherwise the part before the first
      "T" of the date's ISO text (`iso`, the value of `toISOString`). */
  function FormatDateForInput(dateString: string, iso: string): (r: string)
    ensures dateString == "" ==> r == ""
    ensures dateString != "" ==> 'T' !in r && StartsWith(iso, r)
  {
    if dateString == "" then ""
    else
      SplitFirst(iso, 'T');
      Split(iso, 'T')[0]
  }

  /** On the ISO text `day + "T" + time` the result is the day. */
  lemma {:induction false} FormatKeepsDay(dateString: string, day: string, time: string)
    requires dateString != "" && 'T' !in day
    ensures FormatDateForInput(dateString, day + "T" + time) == day
  {
    SplitAfterWord(day, 'T', time);
  }
}
