/** src/layout/Categories.jsx: the side menu of the dashboard. */
module Categories {
  import opened Wrappers
  import opened JsValues
  import opened Session

  /** Shown to everyone who reaches the dashboard. */
  const BaseItems: seq<string> := ["/movieSelection", "/userInfo"]

  /** Shown to an ADMIN after the base items, in this order. */
  const AdminItems: seq<string> :=
    ["/movieList", "/addFilm", "/userList", "/showList", "/bookingList", "/ticketList",
     "/theatreList", "/screenList"]

  /** `user?.role === "ADMIN"`. */
  predicate IsAdmin(user: Option<SessionUser>) {
    user.Some? && user.value.role == Str("ADMIN")
  }

  /** The links of the side menu. A USER gets no item of its own. */
  function SideMenu(user: Option<SessionUser>): (items: seq<string>)
    ensures |items| >= 2 && items[..2] == BaseItems
    ensures IsAdmin(user) ==> items[2..] == AdminItems
    ensures !IsAdmin(user) ==> items == BaseItems
  {
    BaseItems + (if IsAdmin(user) then AdminItems else [])
  }

  /** The admin menu is the user menu extended, and every admin link is a different page. */
  lemma AdminMenuExtendsUserMenu(admin: SessionUser, other: SessionUser)
    requires admin.role == Str("ADMIN") && other.role != Str("ADMIN")
    ensures SideMenu(Some(other)) <= SideMenu(Some(admin))
    ensures |SideMenu(Some(admin))| == 10 && |SideMenu(Some(other))| == 2
    ensures forall i, j :: 0 <= i < j < 10 ==> SideMenu(Some(admin))[i] != SideMenu(Some(admin))[j]
  {
  }
}
