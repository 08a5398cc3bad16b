/** bcrypt and jsonwebtoken, which the model does not look into. Their operations are
    function values the stores and handlers are given, and what the libraries promise
    is stated as predicates over those values. */
module Crypto {
  import opened Js

  /** The claims `generateAuthToken` signs (api/models/user.js). */
  datatype Claims = Claims(id: string, email: string, username: string)

  /** `expiresIn: "24h"`, in seconds. */
  const TokenLifetime: nat := 24 * 60 * 60

  datatype Library = Library(
    hash: string -> string,             // bcrypt.hash(plain, 10); the salt is not modelled
    compare: (string, string) -> bool,  // bcrypt.compare(candidate, stored)
    sign: (Claims, nat) -> string,      // jwt.sign(claims, SECRET_KEY, { expiresIn })
    verify: string -> Option<Claims>)   // jwt.verify(token, SECRET_KEY); None when it throws

  /** bcrypt's promise: a password matches its own hash. */
  ghost predicate HashSound(lib: Library) {
    forall p :: lib.compare(p, lib.hash(p))
  }

  /** jsonwebtoken's promise, before the expiry: a signed token verifies to its claims. */
  ghost predicate TokenSound(lib: Library) {
    forall c, t :: lib.verify(lib.sign(c, t)) == Some(c)
  }

  /** `comparePassword` of both user schemas: the hash library's comparison of the
      candidate with the stored value; a candidate whose hash is stored is accepted. */
  function ComparePassword(lib: Library, candidate: string, stored: string): (ok: bool)
    ensures HashSound(lib) && stored == lib.hash(candidate) ==> ok
  {
    lib.compare(candidate, stored)
  }

  /** A toy library that keeps bcrypt's promise: the hash of `p` is "h" + `p`, and a
      candidate matches a stored value only when the stored value is its hash. It shows
      what `HashSound` alone does not guarantee. */
  function SampleLibrary(): (lib: Library)
    ensures HashSound(lib)
  {
    Library(
      p => "h" + p,
      (p, stored) => stored == "h" + p,
      (c: Claims, lifetime: nat) => c.id,
      token => None)
  }
}
