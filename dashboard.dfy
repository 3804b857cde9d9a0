/** src/layout/Dashboard.jsx: the logged-in screen. It checks the role recorded in the
    session, mounts the admin or the user route table beside the side menu, and owns the
    booking draft of the wizard. */
module Dashboard {
  import opened Wrappers
  import opened JsValues
  import opened Session
  import Draft
  import Categories

  datatype Page =
    | MovieList | AddFilm | MovieDetails | UserList | UserDetails | BookingList | ShowList
    | ShowDetails | BookingDetail | TicketDetail | ScreenList | ScreenDetails | TheatreList
    | TheatreDetails | TicketList | UserInfo
    | MovieSelection | ShowSelection | TicketSelection | Payment | BookingSuccess

  /** A route: a path pattern and the page it shows. */
  datatype Route = Route(path: string, page: Page)

  const AdminRoutes: seq<Route> := [
    Route("/movieList", MovieList), Route("/addFilm", AddFilm),
    Route("/movies/:movieId", MovieDetails), Route("/userList", UserList),
    Route("/users/:webUserId", UserDetails), Route("/bookingList", BookingList),
    Route("/showList", ShowList), Route("/shows/:showId", ShowDetails),
    Route("/bookings/:bookingId", BookingDetail), Route("/tickets/:ticketId", TicketDetail),
    Route("/screenList", ScreenList), Route("/screens/:screenId", ScreenDetails),
    Route("/theatreList", TheatreList), Route("/theatres/:theatreId", TheatreDetails),
    Route("/ticketList", TicketList), Route("/userInfo", UserInfo),
    Route("/movieSelection", MovieSelection), Route("/showSelection/:movieId", ShowSelection),
    Route("/ticketSelection/:showId", TicketSelection), Route("/payment", Payment),
    Route("/bookingSuccess/:bookingId", BookingSuccess)
  ]

  const UserRoutes: seq<Route> := [
    Route("/", UserInfo), Route("/userInfo", UserInfo),
    Route("/bookingSuccess/:bookingId", BookingSuccess),
    Route("/movieSelection", MovieSelection), Route("/showSelection/:movieId", ShowSelection),
    Route("/ticketSelection/:showId", TicketSelection), Route("/payment", Payment),
    Route("/bookingSuccess", BookingSuccess)
  ]

  /** The path patterns of a table, in order. */
  function Paths(routes: seq<Route>): (ps: seq<string>)
    ensures |ps| == |routes|
    ensures forall i :: 0 <= i < |routes| ==> ps[i] == routes[i].path
  {
    seq(|routes|, i requires 0 <= i < |routes| => routes[i].path)
  }

  /** Whether a table has a route to the page. */
  predicate Serves(routes: seq<Route>, page: Page) {
    exists i :: 0 <= i < |routes| && routes[i].page == page
  }

  /** The pages that manage the catalogue, the users and the bookings. */
  predicate IsManagement(page: Page) {
    !(page == UserInfo || page.MovieSelection? || page.ShowSelection? || page.TicketSelection?
      || page.Payment? || page.BookingSuccess?)
  }

  /** What fills the right-hand column when the role passes the first check. */
  datatype Content = AdminTable | UserTable | UnauthorizedMessage

  /** The whole screen: the bare "Unauthorized access" heading, or the side menu beside
      the content. */
  datatype View = Unauthorized | Framed(sideMenu: seq<string>, content: Content)

  /** The render of the dashboard for the session's user. */
  function Render(user: Option<SessionUser>): (v: View)
    ensures v.Unauthorized? <==> user.None? || !Truthy(user.value.role)
    ensures v.Framed? ==> v.sideMenu == Categories.SideMenu(user)
    ensures v.Framed? ==> (v.content == AdminTable <==> user.value.role == Str("ADMIN"))
    ensures v.Framed? ==> (v.content == UserTable <==> user.value.role == Str("USER"))
  {
    if user.None? || !Truthy(user.value.role) then Unauthorized
    else
      var content :=
        if user.value.role == Str("ADMIN") then AdminTable
        else if user.value.role == Str("USER") then UserTable
        else UnauthorizedMessage;
      Framed(Categories.SideMenu(user), content)
  }

  /** The route table mounted by a view; none when the view has no routes. */
  function Mounted(v: View): seq<Route> {
    match v
    case Framed(_, AdminTable) => AdminRoutes
    case Framed(_, UserTable) => UserRoutes
    case _ => []
  }

  /** Routes are mounted exactly for the roles ADMIN and USER, compared case-sensitively;
      any other truthy role sees the side menu next to an "Unauthorized access" heading. */
  lemma RoutesOnlyForKnownRoles(user: Option<SessionUser>)
    ensures |Mounted(Render(user))| > 0 <==>
            user.Some? && (user.value.role == Str("ADMIN") || user.value.role == Str("USER"))
    ensures Render(user) == Framed(Categories.SideMenu(user), UnauthorizedMessage) <==>
            user.Some? && Truthy(user.value.role)
            && user.value.role != Str("ADMIN") && user.value.role != Str("USER")
  {
  }

  /** The wizard steps and the profile page are reachable under both roles, at the same
      paths. */
  lemma WizardInBothTables()
    ensures "/movieSelection" in Paths(AdminRoutes) && "/movieSelection" in Paths(UserRoutes)
    ensures "/showSelection/:movieId" in Paths(AdminRoutes) && "/showSelection/:movieId" in Paths(UserRoutes)
    ensures "/ticketSelection/:showId" in Paths(AdminRoutes) && "/ticketSelection/:showId" in Paths(UserRoutes)
    ensures "/payment" in Paths(AdminRoutes) && "/payment" in Paths(UserRoutes)
    ensures "/bookingSuccess/:bookingId" in Paths(AdminRoutes) && "/bookingSuccess/:bookingId" in Paths(UserRoutes)
    ensures "/userInfo" in Paths(AdminRoutes) && "/userInfo" in Paths(UserRoutes)
  {
    WizardInAdminTable();
    WizardInUserTable();
  }

  lemma WizardInAdminTable()
    ensures var a := Paths(AdminRoutes);
      && "/movieSelection" in a && "/showSelection/:movieId" in a && "/ticketSelection/:showId" in a
      && "/payment" in a && "/bookingSuccess/:bookingId" in a && "/userInfo" in a
  {
    var a := Paths(AdminRoutes);
    assert a[16] == "/movieSelection" && a[17] == "/showSelection/:movieId";
    assert a[18] == "/ticketSelection/:showId" && a[19] == "/payment";
    assert a[20] == "/bookingSuccess/:bookingId" && a[15] == "/userInfo";
  }

  lemma WizardInUserTable()
    ensures var u := Paths(UserRoutes);
      && "/movieSelection" in u && "/showSelection/:movieId" in u && "/ticketSelection/:showId" in u
      && "/payment" in u && "/bookingSuccess/:bookingId" in u && "/userInfo" in u
  {
    var u := Paths(UserRoutes);
    assert u[3] == "/movieSelection" && u[4] == "/showSelection/:movieId";
    assert u[5] == "/ticketSelection/:showId" && u[6] == "/payment";
    assert u[2] == "/bookingSuccess/:bookingId" && u[1] == "/userInfo";
  }

  /** The user table shows no management page, and every page it shows the admin table
      shows too. */
  lemma UserTableHasNoManagementPage()
    ensures forall i :: 0 <= i < |UserRoutes| ==> !IsManagement(UserRoutes[i].page)
    ensures forall i :: 0 <= i < |UserRoutes| ==> Serves(AdminRoutes, UserRoutes[i].page)
    ensures Serves(AdminRoutes, MovieList) && !Serves(UserRoutes, MovieList)
  {
    assert AdminRoutes[0].page == MovieList;
    assert AdminRoutes[15].page == UserInfo && AdminRoutes[20].page == BookingSuccess;
    assert AdminRoutes[16].page == MovieSelection && AdminRoutes[17].page == ShowSelection;
    assert AdminRoutes[18].page == TicketSelection && AdminRoutes[19].page == Payment;
  }

  /** Only the user table has "/" and the parameterless "/bookingSuccess". */
  lemma UserOnlyPaths()
    ensures "/" in Paths(UserRoutes) && "/" !in Paths(AdminRoutes)
    ensures "/bookingSuccess" in Paths(UserRoutes) && "/bookingSuccess" !in Paths(AdminRoutes)
  {
    var a, u := Paths(AdminRoutes), Paths(UserRoutes);
    assert u[0] == "/" && u[7] == "/bookingSuccess";
    forall i | 0 <= i < |a|
      ensures a[i] != "/" && a[i] != "/bookingSuccess"
    {
      assert |a[i]| > 1 && (|a[i]| != 15 || a[i][1] != 'b');
    }
  }

  /** Every link of the side menu is served by the table mounted beside it. */
  lemma SideMenuLinksServed(user: Option<SessionUser>)
    requires Render(user).Framed? && Render(user).content != UnauthorizedMessage
    ensures forall item :: item in Render(user).sideMenu ==> item in Paths(Mounted(Render(user)))
  {
    if Render(user).content == AdminTable {
      assert Render(user).sideMenu == Categories.BaseItems + Categories.AdminItems;
      AdminMenuServed();
    } else {
      assert Render(user).sideMenu == Categories.BaseItems;
      UserMenuServed();
    }
  }

  lemma AdminMenuServed()
    ensures forall item :: item in Categories.BaseItems + Categories.AdminItems ==> item in Paths(AdminRoutes)
  {
    var ps := Paths(AdminRoutes);
    assert ps[16] == "/movieSelection" && ps[15] == "/userInfo";
    assert ps[0] == "/movieList" && ps[1] == "/addFilm" && ps[3] == "/userList";
    assert ps[6] == "/showList" && ps[5] == "/bookingList" && ps[14] == "/ticketList";
    assert ps[12] == "/theatreList" && ps[10] == "/screenList";
  }

  lemma UserMenuServed()
    ensures forall item :: item in Categories.BaseItems ==> item in Paths(UserRoutes)
  {
    var ps := Paths(UserRoutes);
    assert ps[3] == "/movieSelection" && ps[1] == "/userInfo";
  }

  /** The dashboard's own state: the booking draft cell the wizard steps share. */
  class DashboardState {
    const bookingData: Draft.DraftCell

    constructor()
      ensures fresh(bookingData) && bookingData.draft == Draft.InitialDraft
    {
      bookingData := new Draft.DraftCell();
    }
  }
}
