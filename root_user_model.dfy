/** The user schema of the first revision, models/user.js: unique username and e-mail,
    an e-mail pattern, a minimum password length, and the pre-save hook that hashes the
    password. No setter normalizes anything. */
module RootUserModel {
  import opened Js
  import opened EmailPatterns
  import opened Crypto

  /** A stored user; `password` holds whatever the hook left there. */
  datatype User = User(username: string, email: string, password: string)

  /** `required` on username and email, `match: /\S+@\S+\.\S+/` on email, `required`
      and `minlength: 6` on the password, all checked on the values being saved, before
      the hook runs. */
  predicate FieldsAccepted(u: User) {
    u.username != "" && u.email != "" && NonSpaceEmail(u.email) && |u.password| >= 6
  }

  /** The pre-save hook: when the password was modified by this write it is replaced by
      its hash; otherwise the document is saved as it is. */
  function PreSave(lib: Library, u: User, passwordModified: bool): (saved: User)
    ensures saved.username == u.username && saved.email == u.email
    ensures passwordModified ==> saved.password == lib.hash(u.password)
    ensures !passwordModified ==> saved == u
    ensures passwordModified && HashSound(lib) ==> ComparePassword(lib, u.password, saved.password)
  {
    if passwordModified then u.(password := lib.hash(u.password)) else u
  }
}
