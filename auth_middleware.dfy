/** `authMiddleware` of api/middleware/auth.js: reads a JSON web token from an
    `Authorization: Bearer <token>` header and either rejects the request or passes the
    decoded claims on to the next handler. */
module AuthMiddleware {
  import opened Js
  import opened Crypto

  /** What the middleware does with a request: answer it with a status and never call
      `next`, or set `req.user` to the claims and call `next` once. */
  datatype Outcome = Rejected(status: int) | Next(user: Claims)

  const Prefix: string := "Bearer "

  /** `header.split(" ")[1]`: the text after the prefix, up to the next space. */
  function BearerToken(header: string): (token: string)
    requires StartsWith(header, Prefix)
    ensures token == Split(header[|Prefix|..], ' ')[0]
    ensures ' ' !in token
  {
    var rest := header[|Prefix|..];
    assert header == "Bearer" + [' '] + rest;
    SplitAfterWord("Bearer", ' ', rest);
    Split(header, ' ')[1]
  }

  /** A missing or empty header, or one without the prefix, is refused with 401; a token
      the library does not verify is refused with 403; otherwise the request goes on with
      the token's claims. */
  function Authenticate(header: Option<string>, lib: Library): (o: Outcome)
    ensures !Truthy(header) || !StartsWith(header.value, Prefix) <==> o == Rejected(401)
    ensures o == Rejected(403) <==>
      Truthy(header) && StartsWith(header.value, Prefix) && lib.verify(BearerToken(header.value)).None?
    ensures o.Next? ==>
      Truthy(header) && StartsWith(header.value, Prefix) && lib.verify(BearerToken(header.value)) == Some(o.user)
  {
    if !Truthy(header) || !StartsWith(header.value, Prefix) then Rejected(401)
    else
      match lib.verify(BearerToken(header.value))
      case None => Rejected(403)
      case Some(claims) => Next(claims)
  }

  /** A header carrying a token the library signed lets the request through with exactly
      the signed claims. */
  lemma {:induction false} SignedTokenPasses(lib: Library, claims: Claims, lifetime: nat)
    requires TokenSound(lib) && ' ' !in lib.sign(claims, lifetime)
    ensures Authenticate(Some(Prefix + lib.sign(claims, lifetime)), lib) == Next(claims)
  {
    var token := lib.sign(claims, lifetime);
    var header := Prefix + token;
    assert header[..|Prefix|] == Prefix;
    assert header[|Prefix|..] == token;
  }

  /** Only the second segment counts: anything after a further space is ignored. */
  lemma {:induction false} LaterSegmentsIgnored(token: string, extra: string)
    requires ' ' !in token
    ensures BearerToken(Prefix + token + " " + extra) == token
  {
    var header := Prefix + token + " " + extra;
    assert header[..|Prefix|] == Prefix;
    assert header[|Prefix|..] == token + [' '] + extra;
    SplitAfterWord(token, ' ', extra);
  }

  /** The prefix is case-sensitive and needs its space: "bearer t" and "Bearer" alone are
      refused with 401 before any verification. */
  lemma PrefixIsExact(lib: Library)
    ensures Authenticate(Some("bearer t"), lib) == Rejected(401)
    ensures Authenticate(Some("Bearer"), lib) == Rejected(401)
  {
    assert "bearer t"[..|Prefix|] != Prefix by { assert "bearer t"[0] != Prefix[0]; }
  }
}
