/** src/layout/Navi.jsx: the top menu bar, its copy of the logged-in flag and the sign-out
    handler. */
module Navi {
  import opened Wrappers
  import opened JsValues
  import opened Session
  import App
  import Dashboard

  /** `userState?.loggedIn || false`. */
  function LoggedInFlag(slice: Option<SliceState>): (b: bool)
    ensures b <==> slice.Some? && slice.value.loggedIn
  {
    slice.Some? && slice.value.loggedIn
  }

  /** `userState?.user?.role`. */
  function RoleOf(slice: Option<SliceState>): Value {
    if slice.Some? && slice.value.user.Some? then slice.value.user.value.role else Undefined
  }

  /** The links of the bar, in order: the ticket purchase link always, the two admin
      lists for an authenticated ADMIN, the profile for an authenticated USER. */
  function MenuItems(isAuthenticated: bool, slice: Option<SliceState>): (items: seq<string>)
    ensures |items| >= 1 && items[0] == "/movieSelection"
    ensures "/movieList" in items <==> isAuthenticated && RoleOf(slice) == Str("ADMIN")
    ensures "/userList" in items <==> isAuthenticated && RoleOf(slice) == Str("ADMIN")
    ensures "/userInfo" in items <==> isAuthenticated && RoleOf(slice) == Str("USER")
    ensures !isAuthenticated ==> items == ["/movieSelection"]
  {
    ["/movieSelection"]
    + (if isAuthenticated && RoleOf(slice) == Str("ADMIN") then ["/movieList", "/userList"] else [])
    + (if isAuthenticated && RoleOf(slice) == Str("USER") then ["/userInfo"] else [])
  }

  /** The admin links and the profile link never appear together. */
  lemma AdminAndUserLinksExclusive(isAuthenticated: bool, slice: Option<SliceState>)
    ensures !("/movieList" in MenuItems(isAuthenticated, slice) && "/userInfo" in MenuItems(isAuthenticated, slice))
  {
  }

  /** Once the flag follows the store, every link of the bar is served by the route table
      the dashboard mounts for the same session. */
  lemma MenuLinksServed(s: SliceState)
    requires s.loggedIn && s.user.Some?
    requires s.user.value.role == Str("ADMIN") || s.user.value.role == Str("USER")
    ensures forall item :: item in MenuItems(LoggedInFlag(Some(s)), Some(s)) ==>
              item in Dashboard.Paths(Dashboard.Mounted(Dashboard.Render(s.user)))
  {
    var ps := Dashboard.Paths(Dashboard.Mounted(Dashboard.Render(s.user)));
    if s.user.value.role == Str("ADMIN") {
      assert ps[16] == "/movieSelection" && ps[0] == "/movieList" && ps[3] == "/userList";
    } else {
      assert ps[3] == "/movieSelection" && ps[1] == "/userInfo";
    }
  }

  /** The bar lists the ticket purchase whatever the session, and the logged-out route tree
      does not serve it; the link never shows there because App renders the bar only in the
      logged-in tree, whose links are served (MenuLinksServed). */
  lemma LoggedOutPurchaseLinkUnserved(s: SliceState)
    requires !s.loggedIn
    ensures "/movieSelection" in MenuItems(LoggedInFlag(Some(s)), Some(s))
    ensures App.MountedTree(s).LoggedOutTree?
    ensures "/movieSelection" !in App.MountedTree(s).paths
    ensures !App.MountedTree(s).MountsMenuBar()
  {
  }

  /** The component's state and handlers. */
  class NaviBar {
    /** The local copy of the logged-in flag, `useState(false)`. */
    var isAuthenticated: bool

    constructor()
      ensures !isAuthenticated
    {
      isAuthenticated := false;
    }

    /** The effect that copies the flag from the store. */
    method SyncWithStore(slice: Option<SliceState>)
      modifies this
      ensures isAuthenticated == LoggedInFlag(slice)
    {
      isAuthenticated := slice.Some? && slice.value.loggedIn;
    }

    /** SignedOut's sign-in button sets the flag without touching the store. */
    method HandleSignIn()
      modifies this
      ensures isAuthenticated
    {
      isAuthenticated := true;
    }

    /** `handleSignOut`: erase the token, log out, go to /login. The local flag is left for
        the effect to update. */
    method HandleSignOut(storage: App.TokenStorage, store: UserStore) returns (target: string)
      modifies storage, store
      ensures storage.jwtToken == None
      ensures store.State() == Reduce(old(store.State()), Logout) == InitialState
      ensures App.MountedTree(store.State()) == App.LoggedOutTree(["/login", "/register"])
      ensures target == "/login"
    {
      storage.RemoveToken();
      store.Logout();
      target := "/login";
    }
  }
}
