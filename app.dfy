/** src/App.js: the start-up restore of a stored token and the choice between the
    logged-in and the logged-out route tree. */
module App {
  import opened Wrappers
  import opened JsValues
  import opened Session
  import Jwt

  /** localStorage, reduced to the one key the application uses, 'jwtToken'. */
  class TokenStorage {
    var jwtToken: Option<string>

    constructor(stored: Option<string>)
      ensures jwtToken == stored
    {
      jwtToken := stored;
    }

    /** `localStorage.removeItem('jwtToken')`. */
    method RemoveToken()
      modifies this
      ensures jwtToken == None
    {
      jwtToken := None;
    }
  }

  /** `decodedToken.exp * 1000 > Date.now()`: a missing or non-numeric expiry gives NaN,
      and NaN is greater than nothing, so such a token counts as expired; so does one that
      expires at the very millisecond `now`. */
  predicate NotExpired(exp: Value, now: int) {
    match Mul(exp, Num(1000))
    case Num(ms) => ms > now
    case _ => false
  }

  /** What the restore effect does with what is stored. */
  datatype Restore = NothingStored | Resume(token: string) | Discard

  /** The decision of the restore effect; `now` is `Date.now()` and `lib` the decoders
      decodeJWT calls. An empty stored string is falsy and counts as nothing stored. */
  function RestoreDecision(stored: Option<string>, now: int, lib: Jwt.Decoders<Claims>): (d: Restore)
    ensures d.NothingStored? <==> stored.None? || stored.value == ""
    ensures d.Resume? ==> stored == Some(d.token)
    ensures d.Resume? <==> stored.Some? && stored.value != ""
                           && Jwt.DecodeJwt(stored.value, lib).Some?
                           && NotExpired(Jwt.DecodeJwt(stored.value, lib).value.exp, now)
  {
    match stored
    case None => NothingStored
    case Some(t) =>
      if t == "" then NothingStored
      else
        match Jwt.DecodeJwt(t, lib)
        case None => Discard
        case Some(c) => if NotExpired(c.exp, now) then Resume(t) else Discard
  }

  /** The slice after the restore effect: login with the token's claims on Resume. */
  function SessionAfterRestore(s: SliceState, d: Restore, jwtDecode: string -> Claims): SliceState {
    if d.Resume? then Reduce(s, Login(jwtDecode(d.token))) else s
  }

  /** The stored token after the restore effect: erased on Discard. */
  function StorageAfterRestore(stored: Option<string>, d: Restore): Option<string> {
    if d.Discard? then None else stored
  }

  /** The restore effect. `jwtDecode` is the decoder the login reducer calls. */
  method RestoreSession(storage: TokenStorage, store: UserStore, now: int,
                        lib: Jwt.Decoders<Claims>, jwtDecode: string -> Claims)
    modifies storage, store
    ensures var d := RestoreDecision(old(storage.jwtToken), now, lib);
            && store.State() == SessionAfterRestore(old(store.State()), d, jwtDecode)
            && storage.jwtToken == StorageAfterRestore(old(storage.jwtToken), d)
  {
    var token := storage.jwtToken;
    if token.Some? && token.value != "" {
      var decoded := Jwt.DecodeJwt(token.value, lib);
      if decoded.Some? && NotExpired(decoded.value.exp, now) {
        store.Login(jwtDecode(token.value));
      } else {
        storage.RemoveToken();
      }
    }
  }

  /** A token that is not dot-separated is erased. */
  lemma MalformedTokenDiscarded(token: string, now: int, lib: Jwt.Decoders<Claims>)
    requires token != "" && '.' !in token
    ensures RestoreDecision(Some(token), now, lib) == Discard
  {
    Jwt.DecodeWithoutDot(token, lib);
  }

  /** The expiry test is strict: a token whose exp*1000 equals now is erased, and so is
      one without an exp claim. */
  lemma ExpiryIsStrict(token: string, c: Claims, e: int, lib: Jwt.Decoders<Claims>)
    requires token != "" && Jwt.DecodeJwt(token, lib) == Some(c)
    ensures c.exp == Num(e) ==> RestoreDecision(Some(token), e * 1000, lib) == Discard
    ensures c.exp == Num(e) ==> RestoreDecision(Some(token), e * 1000 - 1, lib) == Resume(token)
    ensures c.exp == Undefined ==> RestoreDecision(Some(token), e, lib) == Discard
  {
  }

  /** The route tree App renders. */
  datatype RouteTree = DashboardTree | LoggedOutTree(paths: seq<string>) {
    /** The menu bar sits above the dashboard in the logged-in tree; the logged-out tree
        renders its routes and nothing else. */
    predicate MountsMenuBar() {
      DashboardTree?
    }
  }

  /** `user?.loggedIn` picks the tree; the logged-out tree offers /login and /register
      and nothing else. */
  function MountedTree(s: SliceState): (t: RouteTree)
    ensures t.DashboardTree? <==> s.loggedIn
    ensures t.LoggedOutTree? ==> t.paths == ["/login", "/register"]
    ensures t.MountsMenuBar() <==> s.loggedIn
  {
    if s.loggedIn then DashboardTree else LoggedOutTree(["/login", "/register"])
  }

  /** Starting logged out, the dashboard is shown after the restore effect exactly when
      the stored token was kept; an erased token leaves the login screen. */
  lemma DashboardAfterRestoreIffResumed(d: Restore, jwtDecode: string -> Claims)
    ensures MountedTree(SessionAfterRestore(InitialState, d, jwtDecode)).DashboardTree? <==> d.Resume?
    ensures Consistent(SessionAfterRestore(InitialState, d, jwtDecode))
  {
  }
}
