/**
 * The session store: the two durable browser-storage slots `token` and
 * `user`, written by login and registration, cleared by logout, and read to
 * decide who is signed in and with which role. Both the auth service and the
 * API client's static helpers read and write the same two slots.
 */
module Session {
  import opened Wrappers
  import opened Errors
  import opened Catalog

  /**
   * What the `user` slot can hold: the serialised response of a login or
   * registration, or text some other writer left there that `JSON.parse`
   * rejects.
   */
  datatype UserSlot = Serialized(record: User) | Raw(text: string)

  /** The `SyntaxError` that `JSON.parse` throws. */
  datatype ParseError = SyntaxError(text: string)

  /** `getCurrentUser`: no record for an absent or empty slot, and an unguarded parse otherwise. */
  function CurrentUser(slot: Option<UserSlot>): (r: Result<Option<User>, ParseError>)
    ensures r == Success(None) <==> slot == None || slot == Some(Raw(""))
    ensures r.Failure? <==> slot.Some? && slot.value.Raw? && slot.value.text != ""
    ensures r.Success? && r.value.Some? ==> slot == Some(Serialized(r.value.value))
  {
    match slot
    case None => Success(None)
    case Some(Serialized(u)) => Success(Some(u))
    case Some(Raw(text)) => if text == "" then Success(None) else Failure(SyntaxError(text))
  }

  /**
   * The auth service's `isAuthenticated` at the instant `nowMs` (what
   * `Date.now()` returns). `decodeExp` is the `exp` claim the token decoder
   * yields, `None` when decoding throws or the claim is missing. The source
   * compares `exp > nowMs / 1000`, which for an integer `exp` is `exp * 1000 > nowMs`.
   */
  function Authenticated(token: Option<string>, decodeExp: string -> Option<int>, nowMs: int): (r: bool)
    ensures !Truthy(token) ==> !r
    ensures Truthy(token) && decodeExp(token.value).None? ==> !r
    ensures Truthy(token) && decodeExp(token.value).Some? ==> (r <==> decodeExp(token.value).value * 1000 > nowMs)
  {
    if !Truthy(token) then false
    else match decodeExp(token.value)
      case None => false
      case Some(exp) => exp * 1000 > nowMs
  }

  /** The expiry test is strict: a token is no longer valid at the very second `exp` names. */
  lemma ExpiryIsStrict(t: string, decodeExp: string -> Option<int>, exp: int)
    requires t != "" && decodeExp(t) == Some(exp)
    ensures Authenticated(Some(t), decodeExp, exp * 1000 - 1)
    ensures !Authenticated(Some(t), decodeExp, exp * 1000)
  {
  }

  /** Read in whole seconds, the check is `exp > now`. */
  lemma ExpiryInSeconds(t: string, decodeExp: string -> Option<int>, exp: int, nowSeconds: int)
    requires t != "" && decodeExp(t) == Some(exp)
    ensures Authenticated(Some(t), decodeExp, nowSeconds * 1000) <==> exp > nowSeconds
  {
  }

  /** The auth service's `isAdmin`: `user && user.role === 'ADMIN'`, throwing when the parse throws. */
  function AuthIsAdmin(slot: Option<UserSlot>): (r: Result<bool, ParseError>)
    ensures r.Failure? <==> CurrentUser(slot).Failure?
    ensures r == Success(true) <==> slot.Some? && slot.value.Serialized? && slot.value.record.role == Some(ADMIN)
  {
    match CurrentUser(slot)
    case Failure(e) => Failure(e)
    case Success(u) => Success(u.Some? && u.value.role == Some(ADMIN))
  }

  /** The API client's `isAuthenticated`: any non-empty token counts; nothing is decoded. */
  function ApiAuthenticated(token: Option<string>): (r: bool)
    ensures r <==> token.Some? && token.value != ""
  {
    Truthy(token)
  }

  /** An unexpired token is also accepted by the API client's weaker check, but not the other way round. */
  lemma AuthenticatedIsStricter(token: Option<string>, decodeExp: string -> Option<int>, nowMs: int)
    ensures Authenticated(token, decodeExp, nowMs) ==> ApiAuthenticated(token)
    ensures token.Some? && token.value != "" && decodeExp(token.value).None? ==>
              ApiAuthenticated(token) && !Authenticated(token, decodeExp, nowMs)
  {
  }

  /** `JSON.parse(localStorage.getItem('user') || '{}').role`: an absent or empty slot parses as `{}`. */
  function ApiRole(slot: Option<UserSlot>): (r: Result<Option<string>, ParseError>)
    ensures r.Failure? <==> CurrentUser(slot).Failure?
    ensures CurrentUser(slot) == Success(None) ==> r == Success(None)
    ensures CurrentUser(slot).Success? && CurrentUser(slot).value.Some? ==> r == Success(CurrentUser(slot).value.value.role)
  {
    match slot
    case None => Success(None)
    case Some(Serialized(u)) => Success(u.role)
    case Some(Raw(text)) => if text == "" then Success(None) else Failure(SyntaxError(text))
  }

  /** The API client's `isAdmin`: true exactly when a stored user has role ADMIN, throwing when the parse throws. */
  function ApiIsAdmin(slot: Option<UserSlot>): (r: Result<bool, ParseError>)
    ensures r.Failure? <==> CurrentUser(slot).Failure?
    ensures r == Success(true) <==> slot.Some? && slot.value.Serialized? && slot.value.record.role == Some(ADMIN)
  {
    match ApiRole(slot)
    case Failure(e) => Failure(e)
    case Success(role) => Success(role == Some(ADMIN))
  }

  /** The API client's `isUser`: true exactly when a stored user has role USER, throwing when the parse throws. */
  function ApiIsUser(slot: Option<UserSlot>): (r: Result<bool, ParseError>)
    ensures r.Failure? <==> CurrentUser(slot).Failure?
    ensures r == Success(true) <==> slot.Some? && slot.value.Serialized? && slot.value.record.role == Some(USER)
  {
    match ApiRole(slot)
    case Failure(e) => Failure(e)
    case Success(role) => Success(role == Some(USER))
  }

  /** The two role checks never both hold, and neither holds when no user is stored. */
  lemma RolesExclusive(slot: Option<UserSlot>)
    ensures !(ApiIsAdmin(slot) == Success(true) && ApiIsUser(slot) == Success(true))
    ensures slot == None ==> ApiIsAdmin(slot) == Success(false) && ApiIsUser(slot) == Success(false)
  {
  }

  /** The auth service and the API client agree on who is an admin, including when the parse throws. */
  lemma AdminChecksAgree(slot: Option<UserSlot>)
    ensures AuthIsAdmin(slot) == ApiIsAdmin(slot)
  {
  }

  /** Registration errors: the server's body, a no-response `Error`, or an `Error` with the original message. */
  function RegisterFailure(e: AxiosError): (t: Thrown)
    ensures e.ResponseError? ==> t == Body(e.data)
    ensures e.NoResponse? ==> t == ErrorObject("No response received from server")
    ensures e.SetupError? ==> t == ErrorObject(e.message)
  {
    match e
    case ResponseError(data, _) => Body(data)
    case NoResponse(_) => ErrorObject("No response received from server")
    case SetupError(m) => ErrorObject(m)
  }

  /** Login errors: the server's body, or else the bare message string. */
  function LoginFailure(e: AxiosError): (t: Thrown)
    ensures e.ResponseError? ==> t == Body(e.data)
    ensures !e.ResponseError? ==> t == Bare(e.message)
  {
    ServiceFailure(e)
  }

  /**
   * The browser's `token` and `user` slots. `None` is a slot that holds no
   * item; `getItem` then returns `null`.
   */
  class SessionStore {
    var token: Option<string>
    var user: Option<UserSlot>

    /** The storage as a page load finds it. */
    constructor (token: Option<string>, user: Option<UserSlot>)
      ensures this.token == token && this.user == user
    {
      this.token := token;
      this.user := user;
    }

    /** Both slots are written, and only when the response carries a token. */
    method Persist(response: User)
      modifies this
      ensures Truthy(response.token) ==> token == response.token && user == Some(Serialized(response))
      ensures !Truthy(response.token) ==> token == old(token) && user == old(user)
    {
      if Truthy(response.token) {
        token := response.token;
        user := Some(Serialized(response));
      }
    }

    /**
     * `register`: `outcome` is what the registration request settles to.
     * Storage is written only after it succeeds; its errors are reclassified.
     */
    method Register(outcome: Result<User, AxiosError>) returns (r: Result<User, Thrown>)
      modifies this
      ensures outcome.Success? ==> r == Success(outcome.value)
      ensures outcome.Failure? ==> r == Failure(RegisterFailure(outcome.error))
      ensures outcome.Success? && Truthy(outcome.value.token) ==>
                token == outcome.value.token && user == Some(Serialized(outcome.value))
      ensures outcome.Failure? || !Truthy(outcome.value.token) ==> token == old(token) && user == old(user)
    {
      match outcome
      case Success(response) =>
        Persist(response);
        r := Success(response);
      case Failure(e) =>
        r := Failure(RegisterFailure(e));
    }

    /** `login`: as `register`, with the login error mapping. */
    method Login(outcome: Result<User, AxiosError>) returns (r: Result<User, Thrown>)
      modifies this
      ensures outcome.Success? ==> r == Success(outcome.value)
      ensures outcome.Failure? ==> r == Failure(LoginFailure(outcome.error))
      ensures outcome.Success? && Truthy(outcome.value.token) ==>
                token == outcome.value.token && user == Some(Serialized(outcome.value))
      ensures outcome.Failure? || !Truthy(outcome.value.token) ==> token == old(token) && user == old(user)
    {
      match outcome
      case Success(response) =>
        Persist(response);
        r := Success(response);
      case Failure(e) =>
        r := Failure(LoginFailure(e));
    }

    /** The API client's `logout`: both slots removed, whatever they held. */
    method ApiLogout()
      modifies this
      ensures token == None && user == None
      ensures CurrentUser(user) == Success(None)
    {
      token := None;
      user := None;
    }

    /**
     * The auth service's `logout`: the API client's logout, then both slots
     * removed again. The end state does not depend on the start state, so
     * logging out twice ends where logging out once does.
     */
    method Logout()
      modifies this
      ensures token == None && user == None
      ensures CurrentUser(user) == Success(None)
      ensures forall d, now :: !Authenticated(token, d, now)
      ensures AuthIsAdmin(user) == Success(false)
    {
      ApiLogout();
      token := None;
      user := None;
    }
  }
}
