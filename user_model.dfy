/** The user schema of api/models/user.js: field setters and validators, the pre-save
    hook that hashes the password, `generateAuthToken` and `comparePassword`. */
module UserModel {
  import opened Js
  import opened EmailPatterns
  import opened Crypto

  /** A stored user. `password` holds what the last write left there: a hash after a
      `save`, whatever was sent after an update that bypasses the hook. */
  datatype User = User(username: string, email: string, password: string, createdAt: int)

  /** A user as reads return it: `select: false` keeps the password out. */
  datatype PublicUser = PublicUser(id: string, username: string, email: string, createdAt: int)

  function View(id: string, u: User): (v: PublicUser)
    ensures v.id == id && v.username == u.username && v.email == u.email && v.createdAt == u.createdAt
  {
    PublicUser(id, u.username, u.email, u.createdAt)
  }

  /** `username`: the `trim` setter, then `required` and `minlength: 3`. */
  predicate UsernameAccepted(raw: string) {
    |Trim(raw)| >= 3
  }

  /** `email`: the `lowercase` and `trim` setters, then `required` and
      `match: /.+@.+\..+/` (an empty value fails the pattern too). */
  predicate EmailAccepted(raw: string) {
    LooseEmail(Normalize(raw))
  }

  /** `password`: `required` and `minlength: 6`, checked on the plain value before the
      pre-save hook replaces it. */
  predicate PasswordAccepted(raw: string) {
    |raw| >= 6
  }

  /** All three fields present and accepted, as `new User(fields).save()` demands. */
  predicate FieldsAccepted(username: Option<string>, email: Option<string>, password: Option<string>) {
    && username.Some? && UsernameAccepted(username.value)
    && email.Some? && EmailAccepted(email.value)
    && password.Some? && PasswordAccepted(password.value)
  }

  /** A stored user: setters applied and validators passed, so the username is trimmed
      and at least 3 long, and the email is lower case, trimmed and matches the pattern. */
  predicate StoredValid(u: User) {
    && |u.username| >= 3 && Unpadded(u.username)
    && Unpadded(u.email) && IsLower(u.email) && LooseEmail(u.email)
  }

  /** The pre-save hook: the password is replaced by its hash exactly when the field was
      modified in this write, so a stored hash is never hashed again. */
  function HashIfModified(lib: Library, password: string, modified: bool): (stored: string)
    ensures modified && HashSound(lib) ==> lib.compare(password, stored)
    ensures !modified ==> stored == password
  {
    if modified then lib.hash(password) else password
  }

  /** Accepted raw fields, once the setters have run, make a valid stored user whatever
      the stored password. */
  lemma SettersKeepValid(username: string, email: string)
    requires UsernameAccepted(username) && EmailAccepted(email)
    ensures forall pw, at :: StoredValid(User(Trim(username), Normalize(email), pw, at))
  {
    NormalizeShape(email);
  }

  /** `new User({...}).save()` for accepted fields: the setters run, the new document's
      password counts as modified, so the hook hashes it. The result is a valid stored
      user whose password the library recognises. */
  function NewUser(lib: Library, username: string, email: string, password: string, now: int): (u: User)
    requires UsernameAccepted(username) && EmailAccepted(email)
    ensures StoredValid(u)
    ensures u.username == Trim(username) && u.email == Normalize(email) && u.createdAt == now
    ensures HashSound(lib) ==> ComparePassword(lib, password, u.password)
  {
    SettersKeepValid(username, email);
    User(Trim(username), Normalize(email), HashIfModified(lib, password, true), now)
  }

  /** `generateAuthToken`: the claims are the id, email and username; the token lives
      24 hours and verifies back to exactly those claims. */
  function AuthToken(lib: Library, id: string, u: User): (token: string)
    ensures TokenSound(lib) ==> lib.verify(token) == Some(Claims(id, u.email, u.username))
  {
    lib.sign(Claims(id, u.email, u.username), TokenLifetime)
  }
}
