/** The `user` slice of the store (src/services/userSlice.js): two states, logged out and
    logged in with the webUserId and role read from the token. */
module Session {
  import opened Wrappers
  import opened JsValues

  /** The token claims the front end reads; a claim the token lacks is Undefined. */
  datatype Claims = Claims(exp: Value, webUserId: Value, role: Value)

  /** What login keeps of the claims. */
  datatype SessionUser = SessionUser(webUserId: Value, role: Value)

  /** The slice's value, `{user, loggedIn}`. */
  datatype SliceState = SliceState(user: Option<SessionUser>, loggedIn: bool)

  const InitialState := SliceState(None, false)

  /** The two actions of the slice. */
  datatype Action = Login(claims: Claims) | Logout

  /** The reducer: the new state depends on the action alone. */
  function Reduce(s: SliceState, a: Action): SliceState {
    match a
    case Login(c) => SliceState(Some(SessionUser(c.webUserId, c.role)), true)
    case Logout => InitialState
  }

  /** The state after dispatching the actions in order. */
  function Run(s: SliceState, actions: seq<Action>): SliceState
    decreases |actions|
  {
    if actions == [] then s else Run(Reduce(s, actions[0]), actions[1..])
  }

  /** loggedIn is true exactly when a user is recorded. */
  predicate Consistent(s: SliceState) {
    s.loggedIn <==> s.user.Some?
  }

  /** Every state reachable from a consistent one by login and logout is consistent; in
      particular every state reachable from the initial one. */
  lemma {:induction false} RunKeepsConsistent(s: SliceState, actions: seq<Action>)
    requires Consistent(s)
    ensures Consistent(Run(s, actions))
    decreases |actions|
  {
    if actions != [] {
      RunKeepsConsistent(Reduce(s, actions[0]), actions[1..]);
    }
  }

  /** After a non-empty run the state is what the last action makes of any state: the
      earlier history is forgotten. */
  lemma {:induction false} LastActionDecides(s: SliceState, actions: seq<Action>)
    requires actions != []
    ensures Run(s, actions) == Reduce(InitialState, actions[|actions| - 1])
    decreases |actions|
  {
    if |actions| > 1 {
      LastActionDecides(Reduce(s, actions[0]), actions[1..]);
    }
  }

  /** logout twice is logout once, from any state. */
  lemma LogoutIdempotent(s: SliceState)
    ensures Run(s, [Logout, Logout]) == Run(s, [Logout]) == InitialState
  {
    LastActionDecides(s, [Logout, Logout]);
    LastActionDecides(s, [Logout]);
  }

  /** login then logout gives back the initial state. */
  lemma LoginThenLogout(s: SliceState, c: Claims)
    ensures Run(s, [Login(c), Logout]) == InitialState
  {
    LastActionDecides(s, [Login(c), Logout]);
  }

  /** login keeps exactly the webUserId and role claims; the expiry and every other claim
      are dropped. */
  lemma LoginKeepsIdAndRole(s: SliceState, c: Claims, d: Claims)
    requires c.webUserId == d.webUserId && c.role == d.role
    ensures Run(s, [Login(c)]) == Run(InitialState, [Login(d)])
    ensures Run(s, [Login(c)]).user == Some(SessionUser(c.webUserId, c.role))
  {
    LastActionDecides(s, [Login(c)]);
    LastActionDecides(InitialState, [Login(d)]);
  }

  /** The store's slice, updated in place by the two reducers. */
  class UserStore {
    var user: Option<SessionUser>
    var loggedIn: bool

    function State(): SliceState
      reads this
    {
      SliceState(user, loggedIn)
    }

    constructor()
      ensures State() == InitialState
    {
      user := None;
      loggedIn := false;
    }

    /** The login reducer, given the claims the token decodes to. */
    method Login(claims: Claims)
      modifies this
      ensures State() == Reduce(old(State()), Action.Login(claims))
      ensures Consistent(State())
    {
      user := Some(SessionUser(claims.webUserId, claims.role));
      loggedIn := true;
    }

    /** The logout reducer. */
    method Logout()
      modifies this
      ensures State() == Reduce(old(State()), Action.Logout)
      ensures Consistent(State())
    {
      user := None;
      loggedIn := false;
    }
  }
}
