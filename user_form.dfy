/** The user form of frontend/src/components/UserForm.jsx: its initial state, the checks
    of `validateForm` and the payload `handleSubmit` hands to `onSave`. */
module UserForm {
  import opened Js
  import opened EmailPatterns
  import UserModel
  import opened UserValidation

  /** What the form reports under a field. */
  datatype Problem = Required | BadFormat | TooShort

  datatype FormData = FormData(username: string, email: string, password: string)

  /** What `onSave` receives: the form data, without the password when it was dropped. */
  datatype Payload = Payload(username: string, email: string, password: Option<string>)

  /** The form opens on the edited user's name and address, or on empty fields; the
      password always starts empty. */
  function Init(user: Option<UserModel.PublicUser>): (f: FormData)
    ensures f.password == ""
    ensures user.None? ==> f.username == "" && f.email == ""
    ensures user.Some? ==> f.username == user.value.username && f.email == user.value.email
  {
    match user
    case None => FormData("", "", "")
    case Some(u) => FormData(u.username, u.email, "")
  }

  /** `validateForm`, where `editing` says a user was passed in. A blank name is
      required; a blank address is required, any other address must match
      `^[^\s@]+@[^\s@]+\.[^\s@]+$` as typed; a password is required when creating and,
      whenever one is typed, must have 6 characters. */
  function Validate(f: FormData, editing: bool): (errors: map<Field, Problem>)
    ensures Username in errors <==> Trim(f.username) == ""
    ensures Email in errors <==> Trim(f.email) == "" || !StrictEmail(f.email)
    ensures Password in errors <==> (!editing && f.password == "") || (f.password != "" && |f.password| < 6)
    ensures Username in errors ==> errors[Username] == Required
    ensures Email in errors ==> errors[Email] == if Trim(f.email) == "" then Required else BadFormat
    ensures Password in errors ==> errors[Password] == if f.password == "" then Required else TooShort
  {
    var u: map<Field, Problem> := if Trim(f.username) == "" then map[Username := Required] else map[];
    var e: map<Field, Problem> :=
      if Trim(f.email) == "" then map[Email := Required]
      else if !StrictEmail(f.email) then map[Email := BadFormat]
      else map[];
    var p: map<Field, Problem> :=
      if !editing && f.password == "" then map[Password := Required]
      else if f.password != "" && |f.password| < 6 then map[Password := TooShort]
      else map[];
    u + e + p
  }

  /** `handleSubmit`: nothing is sent unless the form is valid; an edit with an empty
      password drops it, so the stored one is kept; otherwise the form data go as typed. */
  function Submit(f: FormData, editing: bool): (r: Option<Payload>)
    ensures r.Some? <==> Validate(f, editing) == map[]
    ensures r.Some? ==> r.value.username == f.username && r.value.email == f.email
    ensures r.Some? ==> (r.value.password == None <==> editing && f.password == "")
    ensures r.Some? && r.value.password.Some? ==> r.value.password.value == f.password
  {
    if Validate(f, editing) != map[] then None
    else if editing && f.password == "" then Some(Payload(f.username, f.email, None))
    else Some(Payload(f.username, f.email, Some(f.password)))
  }

  /** A new user the form sends, with a name of 3 characters or more once trimmed,
      passes every field validator of the api user schema. */
  lemma {:induction false} NewUserAcceptedByApi(f: FormData)
    requires Submit(f, false).Some? && |Trim(f.username)| >= 3
    ensures var p := Submit(f, false).value;
      UserModel.FieldsAccepted(Some(p.username), Some(p.email), p.password)
  {
    assert Email !in Validate(f, false);
    StrictIsLooseAfterNormalize(f.email);
  }

  /** Whatever the form sends also passes `validateUserData`, except for the length of
      the name: the form asks only for a non-blank one. */
  lemma {:induction false} SentPassesValidateUserData(f: FormData, editing: bool)
    requires Submit(f, editing).Some? && |Trim(f.username)| >= 3
    ensures var p := Submit(f, editing).value;
      ValidateUserData(UserData(Some(p.username), Some(p.email), p.password)).isValid
  {
    assert Email !in Validate(f, editing) && Password !in Validate(f, editing);
  }

  /** The gap: a two-character name passes the form, and both `validateUserData` and the
      api schema refuse it. */
  lemma ShortNamePassesForm()
    ensures Submit(FormData("ab", "s@a.b", "secret"), false).Some?
    ensures !ValidateUserData(UserData(Some("ab"), Some("s@a.b"), Some("secret"))).isValid
    ensures !UserModel.UsernameAccepted("ab")
  {
    var e, name := "s@a.b", "ab";
    assert AddressChar(e[0]) && AddressChar(e[2]) && AddressChar(e[4]);
    assert StrictSplit(e, 1, 3);
    assert !IsSpace(name[0]) && !IsSpace(name[1]);
    TrimUnpadded(name);
  }
}
