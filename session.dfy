/** The session kept by frontend/src/services/auth.js: the module-level `currentUser` and
    `authToken`, the copy of the token in `localStorage`, and the functions that change
    them. The server's answers are parameters. */
module FrontSession {
  import opened Js
  import opened UserModel
  import AuthMiddleware

  /** What `authToken` holds: `null`, `undefined` (a login answer without a token), or a
      string. */
  datatype TokenSlot = Null | Undefined | Text(s: string)

  /** `if (!authToken)`: only a non-empty string is truthy. */
  predicate TokenTruthy(t: TokenSlot) {
    t.Text? && t.s != ""
  }

  /** What `localStorage.setItem("token", value)` keeps: the value as a string. */
  function StoredForm(t: TokenSlot): (s: string)
    ensures t.Text? ==> s == t.s
  {
    match t
    case Null => "null"
    case Undefined => "undefined"
    case Text(s) => s
  }

  /** The parts of the login answer the session reads. */
  datatype LoginAnswer = LoginAnswer(ok: bool, message: Option<string>, user: Option<PublicUser>, token: Option<string>)

  /** The request `authenticatedFetch` hands to `fetch`, and the status that came back. */
  datatype Sent = Sent(headers: map<string, string>, status: int)

  /** The headers of an authenticated request: JSON content and the bearer token, then
      the caller's headers, which win on a clash. */
  function RequestHeaders(token: string, callerHeaders: map<string, string>): (h: map<string, string>)
    ensures h.Keys == callerHeaders.Keys + {"Content-Type", "Authorization"}
    ensures forall k :: k in callerHeaders ==> h[k] == callerHeaders[k]
    ensures "Authorization" !in callerHeaders ==> h["Authorization"] == AuthMiddleware.Prefix + token
    ensures "Content-Type" !in callerHeaders ==> h["Content-Type"] == "application/json"
  {
    map["Content-Type" := "application/json", "Authorization" := "Bearer " + token] + callerHeaders
  }

  class Session {
    var currentUser: Option<PublicUser>
    var authToken: TokenSlot
    /** `localStorage.getItem("token")`. */
    var storedToken: Option<string>

    /** `currentUser && authToken` both set (`!== null`): an `undefined` token counts. */
    predicate IsAuthenticated()
      reads this
    {
      currentUser.Some? && authToken != Null
    }

    /** Module load: the token comes back from storage (an empty one is `null`), the user
        does not, so a reloaded page is never authenticated. */
    constructor (stored: Option<string>)
      ensures storedToken == stored && currentUser == None
      ensures authToken == (if Truthy(stored) then Text(stored.value) else Null)
      ensures !IsAuthenticated()
    {
      storedToken := stored;
      currentUser := None;
      authToken := if Truthy(stored) then Text(stored.value) else Null;
    }

    /** `login`: a refused answer throws before anything is assigned; an accepted one
        sets the user (or null) and the token, and stores the token. */
    method Login(answer: LoginAnswer) returns (r: Result<Option<PublicUser>, string>)
      modifies this
      ensures !answer.ok ==> r == Err(OrElse(answer.message, "Erreur de connexion")) && unchanged(this)
      ensures answer.ok ==>
        && currentUser == answer.user
        && authToken == (if answer.token.Some? then Text(answer.token.value) else Undefined)
        && storedToken == Some(StoredForm(authToken))
        && r == Ok(currentUser)
    {
      if !answer.ok {
        return Err(OrElse(answer.message, "Erreur de connexion"));
      }
      currentUser := answer.user;
      authToken := if answer.token.Some? then Text(answer.token.value) else Undefined;
      storedToken := Some(StoredForm(authToken));
      r := Ok(currentUser);
    }

    /** `logout`: everything cleared, in memory and in storage. */
    method Logout()
      modifies this
      ensures currentUser == None && authToken == Null && storedToken == None
      ensures !IsAuthenticated()
    {
      currentUser := None;
      authToken := Null;
      storedToken := None;
    }

    /** `authenticatedFetch`: without a token it throws and sends nothing; otherwise it
        sends the bearer headers, and a 401 answer clears the session, in memory and in
        storage, and throws. */
    method AuthenticatedFetch(callerHeaders: map<string, string>, status: int) returns (r: Result<Sent, string>)
      modifies this
      ensures !old(TokenTruthy(authToken)) ==> r.Err? && unchanged(this)
      ensures old(TokenTruthy(authToken)) && status == 401 ==>
        r.Err? && currentUser == None && authToken == Null && storedToken == None
      ensures old(TokenTruthy(authToken)) && status != 401 ==>
        r == Ok(Sent(RequestHeaders(old(authToken).s, callerHeaders), status)) && unchanged(this)
    {
      if !TokenTruthy(authToken) {
        return Err("Utilisateur non authentifié");
      }
      var sent := Sent(RequestHeaders(authToken.s, callerHeaders), status);
      if status == 401 {
        currentUser := None;
        authToken := Null;
        storedToken := None;
        return Err("Session expirée. Veuillez vous reconnecter.");
      }
      r := Ok(sent);
    }
  }

  /** The request the session sends, unless the caller overrides `Authorization`, gets
      past the api's `authMiddleware` with the claims of a token the server signed. */
  lemma {:induction false} SessionHeaderPasses(lib: Crypto.Library, claims: Crypto.Claims, lifetime: nat, callerHeaders: map<string, string>)
    requires Crypto.TokenSound(lib) && ' ' !in lib.sign(claims, lifetime)
    requires "Authorization" !in callerHeaders
    ensures var h := RequestHeaders(lib.sign(claims, lifetime), callerHeaders);
      AuthMiddleware.Authenticate(Some(h["Authorization"]), lib) == AuthMiddleware.Next(claims)
  {
    AuthMiddleware.SignedTokenPasses(lib, claims, lifetime);
  }
}
