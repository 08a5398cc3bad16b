/** `validateUserData` of frontend/src/services/users.js: the check the admin front end
    runs on user data before sending it. */
module UserValidation {
  import opened Js
  import opened EmailPatterns
  import UserModel

  /** The keys the error object can hold. */
  datatype Field = Username | Email | Password

  datatype UserData = UserData(username: Option<string>, email: Option<string>, password: Option<string>)

  /** `{ isValid, errors }`, with the error messages reduced to the keys they sit under. */
  datatype Validation = Validation(isValid: bool, errors: set<Field>)

  /** A username error exactly when it is missing or under 3 characters once trimmed; an
      e-mail error exactly when it is missing or fails `^[^\s@]+@[^\s@]+\.[^\s@]+$`; a
      password error exactly when one is given with fewer than 6 characters. The data are
      valid exactly when there is no error. */
  function ValidateUserData(d: UserData): (v: Validation)
    ensures Username in v.errors <==> !Truthy(d.username) || |Trim(d.username.value)| < 3
    ensures Email in v.errors <==> !Truthy(d.email) || !StrictEmail(d.email.value)
    ensures Password in v.errors <==> Truthy(d.password) && |d.password.value| < 6
    ensures v.isValid <==> v.errors == {}
  {
    var errors :=
      (if !Truthy(d.username) || |Trim(d.username.value)| < 3 then {Username} else {}) +
      (if !Truthy(d.email) || !StrictEmail(d.email.value) then {Email} else {}) +
      (if Truthy(d.password) && |d.password.value| < 6 then {Password} else {});
    Validation(|errors| == 0, errors)
  }

  /** Data the front end accepts, with a password, pass every field validator of the api
      user schema once its setters have run. */
  lemma {:induction false} AcceptedByApiSchema(d: UserData)
    requires ValidateUserData(d).isValid && Truthy(d.password)
    ensures UserModel.FieldsAccepted(d.username, d.email, d.password)
  {
    assert Email !in ValidateUserData(d).errors;
    StrictIsLooseAfterNormalize(d.email.value);
  }

  /** The front end's e-mail check is stricter than both schemas: whatever it accepts
      matches the first revision's pattern too. */
  lemma {:induction false} AcceptedByRootSchema(d: UserData)
    requires ValidateUserData(d).isValid
    ensures NonSpaceEmail(d.email.value)
  {
    assert Email !in ValidateUserData(d).errors;
    StrictIsNonSpace(d.email.value);
  }

  /** The password may be left out: data without one are valid when the rest is, though
      every schema requires a password. */
  lemma MissingPasswordAccepted()
    ensures ValidateUserData(UserData(Some("sam"), Some("s@a.b"), None)).isValid
    ensures !UserModel.FieldsAccepted(Some("sam"), Some("s@a.b"), None)
  {
    var e, name := "s@a.b", "sam";
    assert AddressChar(e[0]) && AddressChar(e[2]) && AddressChar(e[4]);
    assert StrictSplit(e, 1, 3);
    assert !IsSpace(name[0]) && !IsSpace(name[2]);
    TrimUnpadded(name);
  }
}
