# Cinema booking front end — a Dafny model

This project models the client side of a cinema booking system. The application is a single-page
web front end. It talks to a REST backend, keeps the signed-in user in a small store and offers
two kinds of screens:

* a four-step **booking wizard**: choose a movie, then a show, then a ticket count, then pay;
* the **administration lists** for movies, users, shows, screens, theatres and bookings. Each is
  paged, and most have an "add" form.

What the model covers:

* **Session.** The `user` slice of the store and its `login` / `logout` reducers.
* **Start-up restore.** A stored JWT is decoded by hand: split on '.', map the base64url alphabet
  to base64, percent-escape the bytes. The session resumes only while `exp * 1000` is later than
  the current time; otherwise the token is erased. The logged-in or logged-out route tree is then
  chosen.
* **Dashboard.** It chooses between the admin route table, the user route table and
  "Unauthorized access" from the session's role. It also holds the wizard's shared booking draft.
* **Menus.** The top bar (`Navi`), including sign-out, and the side menu (`Categories`).
* **Wizard pages.** Each page is a class whose fields are the page's state. Its methods are the
  effects and event handlers.
* **Card preview.** The `PaymentCard` display rules, including the grouping of card digits in
  fours.
* **Registration.** The form's validation schema and its submit handler.
* **List pages.** Each is modelled with its fetch callbacks, paging handlers, form-input handler
  and add handler.

The backend never runs inside the model. Every awaited request is a method parameter of type
`Response<T>` (resolved with a status and a body, or rejected). Methods that send a request return
what they would post. Other inputs are parameters too:

* the current time;
* the browser's `atob`, `decodeURIComponent` and `JSON.parse`;
* the `jwt-decode` library;
* the time formatter;
* the e-mail test of the validation library.

The JavaScript values the pages store and compute with are modelled as a small `Value` type in
`JsValues`. It has truthiness, `||`, `*`, `+`, template-literal conversion, `Number`, `parseInt`
and `trim`. The model keeps the code's edge cases as written:

* `*` turns a missing field into NaN;
* `===` finds no match for NaN;
* `parseInt(value, 25)` is used for the page size on two list pages, so the options 5, 10 and 25
  give 5, 25 and 55 rows;
* only a 201 reply counts as a successful payment.

Some behaviours of the code are easy to miss when reading it:

* **The draft's show id.** The ticket step overwrites the draft's `showId` with the `:showId`
  route parameter (src/pages/Booking/TicketSelection.jsx:44-49). That parameter is a string,
  so a numeric id becomes its decimal text (`Payment.WizardPayload`).
* **The draft after payment.** After a 201 reply the draft is left as it is, and the page only
  navigates to the success page (src/pages/Booking/Payment.jsx:72-78,
  `Payment.PaymentPage.PostSettled`).
* **The ticket count.** The `min` and `max` of the number input are browser hints only. The
  handler stores whatever text was typed, and the total is computed from that text
  (`TicketSelection.TicketTotal`).
* **The booking's user.** The payment payload copies the profile fields from the session user.
  That user holds only `webUserId` and `role`, so the other six fields are undefined
  (`Payment.SessionProfile`).
* **The admin booking form's cost.** It is computed as count × (gold price + silver price). The
  wizard uses count × gold price (`BookingList.AdminCostDiffersFromWizard`).

## Model

| member | source | states |
|---|---|---|
| JsValues.Or | src/pages/Booking/TicketSelection.jsx:43 | `a \|\| b` yields the left operand exactly when it is truthy and the right one otherwise |
| JsValues.StringToNumber | src/pages/Booking/TicketSelection.jsx:43 | a string of decimal digits converts to its decimal value (the empty string to 0), a '-' or '+' sign before the digits negates or keeps it, and a converted string has digits after its first character only |
| JsValues.ToNumber | src/pages/Booking/TicketSelection.jsx:43 | numeric conversion keeps numbers, turns null into 0, converts strings as `StringToNumber`, and fails (NaN) on undefined and NaN |
| JsValues.NumberOfIntToString | src/pages/Booking/TicketSelection.jsx:43 | the text of any integer, negative included, converts back to that integer |
| JsValues.Mul | src/pages/Booking/TicketSelection.jsx:43 | `*` gives a number exactly when both operands convert, and then the product of the converted values; NaN otherwise |
| JsValues.Add | src/pages/Lists/BookingList.js:100 | `+` concatenates the string forms when either side is a string; otherwise it adds the converted numbers, giving NaN when one does not convert |
| JsValues.DecimalString | src/pages/Booking/MovieSelection.jsx:19 | the text a template literal writes for a number is a non-empty run of digits without a leading zero |
| JsValues.DecimalRoundTrip | src/pages/Booking/MovieSelection.jsx:19 | reading that decimal text back positionally gives the number again |
| JsValues.TrimStart | src/pages/Booking/PaymentCard.jsx:11 | the result is a suffix of the input; everything dropped is white space and the result does not start with white space |
| JsValues.TrimEnd | src/pages/Booking/PaymentCard.jsx:11 | the result is a prefix of the input; everything dropped is white space and the result does not end with white space |
| JsValues.DigitRun | src/pages/Lists/MovieList.js:43 | parseInt reads the longest prefix made of digits of the radix: everything in it is a digit and the next character is not |
| JsValues.ParseIntOfDigits | src/pages/Lists/MovieList.js:43 | a non-empty string of digits of the radix parses to its positional value in that radix |
| JsValues.ParseIntDecimalRoundTrip | src/pages/Lists/MovieList.js:43 | parseInt in radix 10 reads back any decimal text a number was written as |
| Jwt.Split | src/App.js:15 | `split('.')` returns at least one part and no part contains the separator |
| Jwt.SplitJoin | src/App.js:15 | joining the parts with the separator gives the token back |
| Jwt.SplitAtFirst | src/App.js:15 | the text before the first separator is the first part and the rest splits into the remaining parts |
| Jwt.PayloadSegment | src/App.js:15 | the payload part, when there is one, contains no dot |
| Jwt.PayloadSegmentIsSecond | src/App.js:15 | the payload part is the text after the first dot up to the next dot |
| Jwt.SegmentOfToken | src/App.js:15 | for header.payload.signature with dot-free parts, the payload part is exactly the middle one |
| Jwt.ReplaceAll | src/App.js:16 | a global character replacement keeps the length, rewrites every occurrence and touches nothing else |
| Jwt.UrlToStandardAlphabet | src/App.js:16 | mapping '-' to '+' and '_' to '/' keeps the length, changes characters pointwise and leaves no '-' or '_' |
| Jwt.AlphabetRoundTrip | src/App.js:16 | on url-safe text (no '+' or '/'), the mapping to the standard alphabet loses nothing: the reverse substitution `StandardToUrlAlphabet`, a helper of this lemma only, gives the text back |
| Jwt.ToHex | src/App.js:18 | `toString(16)` of a byte is its one lower-case hex digit below 16 and its two hex digits from 16 on |
| Jwt.EscapeByte | src/App.js:18 | each byte becomes '%' followed by two lower-case hex digits, zero-padded, whose value is the byte |
| Jwt.PercentEscape | src/App.js:17-19 | the escaped text is three characters per byte |
| Jwt.EscapeRoundTrip | src/App.js:17-19 | unescaping the percent-escaped text gives the original bytes back |
| Jwt.DecodeJwt | src/App.js:13-26 | null when the token has no payload part, when `atob` fails on it, or when `decodeURIComponent` fails on the escaped bytes; otherwise exactly what `JSON.parse` makes of the decoded text, null on failure |
| Jwt.DecodesPayloadClaims | src/App.js:13-26 | a token header.payload.signature whose payload the three library steps turn into claims decodes to those claims, whatever its header and signature |
| Jwt.DecodeWithoutDot | src/App.js:14-25 | a token without a dot decodes to null |
| Jwt.DecodeIgnoresHeaderAndSignature | src/App.js:15 | the decoded claims depend only on the payload part, not on the header or the signature |
| Session.RunKeepsConsistent | src/services/userSlice.js:6-22 | from a consistent state, every sequence of logins and logouts keeps `loggedIn` true exactly when a user is recorded |
| Session.LastActionDecides | src/services/userSlice.js:11-22 | after any non-empty run of actions the state is what the last action makes of the initial state |
| Session.LogoutIdempotent | src/services/userSlice.js:19-22 | logging out twice is logging out once, and both give the initial state |
| Session.LoginThenLogout | src/services/userSlice.js:6-22 | a login followed by a logout returns to the initial state |
| Session.LoginKeepsIdAndRole | src/services/userSlice.js:11-17 | login keeps exactly webUserId and role: tokens agreeing on those two claims give the same state, whatever came before |
| Session.UserStore.constructor | src/services/userSlice.js:6-9 | the slice starts with no user and logged out |
| Session.UserStore.Login | src/services/userSlice.js:11-17 | the slice becomes the login reduct of the old one and stays consistent |
| Session.UserStore.Logout | src/services/userSlice.js:19-22 | the slice becomes the logout reduct (the initial state) and stays consistent |
| App.TokenStorage.RemoveToken | src/App.js:42 | the stored token is gone |
| App.RestoreDecision | src/App.js:32-46 | nothing happens exactly when no token or an empty one is stored; the session resumes exactly when the token decodes and `exp*1000` is later than now; otherwise the token is discarded |
| App.RestoreSession | src/App.js:32-46 | the store logs in with the token's claims exactly on resume, and the stored token is erased exactly on discard |
| App.MalformedTokenDiscarded | src/App.js:36-44 | a non-empty stored token without a dot is erased |
| App.ExpiryIsStrict | src/App.js:38 | a token whose `exp*1000` equals now is erased, one millisecond earlier it is kept, and a token without `exp` is always erased |
| App.MountedTree | src/App.js:54-68 | the dashboard tree, with the menu bar above it, is mounted exactly when logged in; otherwise only /login and /register are routed and the bar is not rendered |
| App.DashboardAfterRestoreIffResumed | src/App.js:32-68 | starting logged out, the dashboard shows after the restore exactly when the token was kept, and the state stays consistent |
| Draft.WithMovie | src/pages/Booking/MovieSelection.jsx:17 | the draft's movieId is replaced and every other field is kept |
| Draft.WithShow | src/pages/Booking/ShowSelection.jsx:27 | the draft's showId is replaced and every other field is kept |
| Draft.WithTickets | src/pages/Booking/TicketSelection.jsx:44-49 | showId, count and total are replaced; movieId and the card fields are kept |
| Draft.DraftCell.constructor | src/layout/Dashboard.jsx:36-43 | the wizard draft starts with empty ids, one ticket, cost 0 and empty card fields |
| Categories.SideMenu | src/layout/Categories.jsx:15-38 | the side menu always starts with the purchase and profile links; the eight management links follow exactly for an admin, and nothing else is added |
| Categories.AdminMenuExtendsUserMenu | src/layout/Categories.jsx:15-30 | an admin's side menu is the user's menu with the management links appended |
| Dashboard.Render | src/layout/Dashboard.jsx:98-118 | "Unauthorized access" replaces the whole frame exactly when there is no user or the role is falsy; otherwise the side menu is shown, with the admin table exactly for role ADMIN and the user table exactly for role USER |
| Dashboard.RoutesOnlyForKnownRoles | src/layout/Dashboard.jsx:98-118 | routes are mounted only for the roles ADMIN and USER; any other truthy role gets the framed unauthorized message |
| Dashboard.WizardInBothTables | src/layout/Dashboard.jsx:67-87 | both route tables serve every wizard step, the success page and the profile page |
| Dashboard.UserTableHasNoManagementPage | src/layout/Dashboard.jsx:50-91 | no user route leads to a management page, every page a user can reach an admin can reach too, and the movie list is admin-only |
| Dashboard.UserOnlyPaths | src/layout/Dashboard.jsx:80-88 | the paths "/" and "/bookingSuccess" are routed for users only |
| Dashboard.SideMenuLinksServed | src/layout/Dashboard.jsx:93-119 | for ADMIN and USER, every side-menu link has a route in the mounted table |
| Dashboard.DashboardState.constructor | src/layout/Dashboard.jsx:36-43 | the dashboard owns a fresh draft cell holding the initial draft |
| Navi.LoggedInFlag | src/layout/Navi.jsx:17 | the bar counts as authenticated exactly when the slice exists and says logged in |
| Navi.MenuItems | src/layout/Navi.jsx:39-50 | the purchase link is always first; the movie and user lists appear exactly for an authenticated ADMIN, the profile exactly for an authenticated USER, and nothing else when not authenticated |
| Navi.AdminAndUserLinksExclusive | src/layout/Navi.jsx:40-50 | admin links and the user's profile link never appear together |
| Navi.MenuLinksServed | src/layout/Navi.jsx:39-50 | for a logged-in ADMIN or USER every top-bar link has a route in the dashboard table |
| Navi.LoggedOutPurchaseLinkUnserved | src/layout/Navi.jsx:39 | the bar lists /movieSelection for every logged-out session although the logged-out route tree does not serve it; App does not render the bar in that tree (src/App.js:54-60), so the unserved link never shows |
| Navi.NaviBar.constructor | src/layout/Navi.jsx:11 | the bar starts unauthenticated |
| Navi.NaviBar.SyncWithStore | src/layout/Navi.jsx:15-18 | the local flag copies the store's login flag, defaulting to false |
| Navi.NaviBar.HandleSignIn | src/layout/Navi.jsx:55 | the sign-in button sets the local flag |
| Navi.NaviBar.HandleSignOut | src/layout/Navi.jsx:20-34 | sign-out erases the token, resets the slice to the initial state (so the logged-out tree is mounted) and goes to /login |
| Routing.RouteParam | src/pages/Booking/TicketSelection.jsx:18 | a parameter is matched exactly when the path is the prefix followed by a non-empty segment without '/', and it is that segment |
| Routing.ParamOfId | src/pages/Booking/ShowSelection.jsx:29 | the path the wizard navigates to for an id gives back the id's text as the route parameter |
| MovieSelection.MovieSelectionPage.constructor | src/pages/Booking/MovieSelection.jsx:7 | the movie list starts empty |
| MovieSelection.MovieSelectionPage.FetchSettled | src/pages/Booking/MovieSelection.jsx:10-14 | a reply replaces the list; a failure leaves it as it was |
| MovieSelection.MovieSelectionPage.HandleMovieSelect | src/pages/Booking/MovieSelection.jsx:16-20 | selecting records the movie id in the draft and goes to the show step for that id |
| ShowSelection.ShowSelectionPage.constructor | src/pages/Booking/ShowSelection.jsx:7-10 | the page starts loading with no shows and no error, for the movie id of its route |
| ShowSelection.ShowSelectionPage.FetchSettled | src/pages/Booking/ShowSelection.jsx:13-24 | loading ends; a reply replaces the shows, a failure sets the load error and keeps the shows |
| ShowSelection.ShowSelectionPage.HandleShowSelect | src/pages/Booking/ShowSelection.jsx:26-30 | selecting records the show id in the draft and goes to the ticket step for that id |
| TicketSelection.TicketTotal | src/pages/Booking/TicketSelection.jsx:43 | the total is a number exactly when the typed count converts and the gold price is falsy or converts, and NaN otherwise |
| TicketSelection.CountTimesGoldPrice | src/pages/Booking/TicketSelection.jsx:43 | for any count that converts to a number k, whether the initial number or typed text, and any gold price, the total is k × gold price |
| TicketSelection.SilverPriceIgnored | src/pages/Booking/TicketSelection.jsx:43 | the total does not depend on the silver price |
| TicketSelection.Edges | src/pages/Booking/TicketSelection.jsx:43 | a missing or zero gold price gives 0, an empty count gives 0, and a count that does not convert gives NaN |
| TicketSelection.InitialAndTypedCounts | src/pages/Booking/TicketSelection.jsx:22-43 | the untouched field's count 1 costs one gold price, and the typed text of any integer n costs n gold prices |
| TicketSelection.ThreeGoldTickets | src/pages/Booking/TicketSelection.jsx:43 | three tickets at gold price 10 cost 30 |
| TicketSelection.TicketSelectionPage.constructor | src/pages/Booking/TicketSelection.jsx:18-22 | the page starts loading with no show, no error and a count of 1, for the show id of its route |
| TicketSelection.TicketSelectionPage.FetchSettled | src/pages/Booking/TicketSelection.jsx:25-36 | loading ends; a reply sets the show, a failure sets the load error; the count is kept |
| TicketSelection.TicketSelectionPage.HandleTicketChange | src/pages/Booking/TicketSelection.jsx:38-40 | the count becomes the typed text, unconverted |
| TicketSelection.TicketSelectionPage.HandleContinue | src/pages/Booking/TicketSelection.jsx:42-53 | the draft receives the route's show id, the count and count × gold price, and the page goes to /payment |
| Payment.SessionProfile | src/pages/Booking/Payment.jsx:49-58 | the booking's user carries the session's id and role; the other six profile fields are undefined |
| Payment.AssemblePayload | src/pages/Booking/Payment.jsx:45-70 | the payload keeps the draft's ids, count and total, takes the typed card fields, the session profile and the fetched show |
| Payment.WizardPayload | src/pages/Booking/Payment.jsx:45-70 | after the four wizard steps the payload has the chosen movie, the show id as route text (different from a numeric id), the count as the field holds it and count × gold price |
| Payment.PaymentPage.constructor | src/pages/Booking/Payment.jsx:21-26 | not loading, no error, all four card fields empty |
| Payment.PaymentPage.Edit | src/pages/Booking/Payment.jsx:119-157 | the four inputs take the typed values and nothing else changes |
| Payment.PaymentPage.StartPayment | src/pages/Booking/Payment.jsx:31-42 | with an empty field the error is set and no request is sent; otherwise loading starts, the error clears and the show of the draft is requested |
| Payment.PaymentPage.ShowFetched | src/pages/Booking/Payment.jsx:42-72 | a failed show fetch ends loading with the payment error; a reply yields the assembled payload to post |
| Payment.PaymentPage.PostSettled | src/pages/Booking/Payment.jsx:72-83 | a 201 reply ends loading and goes to the success page of the returned booking id; another 2xx reply changes nothing (loading stays on); a failure ends loading with the payment error |
| PaymentCard.CardNumberDisplay | src/pages/Booking/PaymentCard.jsx:11 | the JavaScript or (modelled `Or`) of the grouped, trimmed number and the placeholder: the grouped text when it is non-empty, the placeholder exactly when it is empty |
| PaymentCard.NameDisplay | src/pages/Booking/PaymentCard.jsx:8 | the JavaScript or of the name and "John Doe" (modelled `Or`): the name, or "John Doe" when it is empty |
| PaymentCard.ExpiryDisplay | src/pages/Booking/PaymentCard.jsx:15 | the JavaScript or of the expiry and "MM/YY" (modelled `Or`): the expiry, or "MM/YY" when it is empty |
| PaymentCard.CvvDisplay | src/pages/Booking/PaymentCard.jsx:18 | three stars exactly when the CVV is truthy, that is when one was typed, empty otherwise |
| PaymentCard.GroupingOnlyAddsSpaces | src/pages/Booking/PaymentCard.jsx:11 | grouping only inserts spaces: removing spaces from both sides gives the same text |
| PaymentCard.GroupedDigitsShape | src/pages/Booking/PaymentCard.jsx:11 | for a string of n digits, grouping adds one space per full group of four, starts with a digit and ends with a digit, or with a space after a digit when n is a multiple of four |
| PaymentCard.DigitsDisplay | src/pages/Booking/PaymentCard.jsx:11 | for a non-empty digit string of length n the preview has n + ⌈n/4⌉ − 1 characters, has a space exactly at the positions 4, 9, 14, … (after every fourth digit), and is the digits once the spaces are removed |
| PaymentCard.SpacesEveryFifth | src/pages/Booking/PaymentCard.jsx:11 | grouping a digit string puts a space exactly after every fourth digit (at the positions i with i mod 5 = 4) and nowhere else |
| PaymentCard.NonDigitRestartsGrouping | src/pages/Booking/PaymentCard.jsx:11 | a non-digit character ends the current group, and grouping starts again after it |
| PaymentCard.PlaceholderWhenBlank | src/pages/Booking/PaymentCard.jsx:11 | a card number made only of white space shows the placeholder |
| Register.MatchesDigitsIff | src/pages/Auth/Register.js:13 | the phone pattern accepts exactly strings of n decimal digits |
| Register.Rules | src/pages/Auth/Register.js:9-16 | the phone needs ten digits, the password eight characters, the age a non-negative number, the role USER or ADMIN, and the names must be non-empty |
| Register.InitialValuesIncomplete | src/pages/Auth/Register.js:44-53 | the initial values satisfy the role rule but fail the name and age rules, so they are rejected |
| Register.SelectOptionsRejected | src/pages/Auth/Register.js:110-113 | the values of the role select ("User", "Admin") both fail the role rule |
| Register.CompleteFormAccepted | src/pages/Auth/Register.js:8-17 | a completely filled form with a valid e-mail is accepted |
| Register.RegisterPage.constructor | src/pages/Auth/Register.js:44-53 | the form starts with the initial values |
| Register.RegisterPage.Change | src/pages/Auth/Register.js:110-113 | editing replaces the values; the disabled role select keeps role USER |
| Register.RegisterPage.Submit | src/pages/Auth/Register.js:26-37 | a form the schema rejects sends nothing and alerts nothing; an accepted one is posted; on success the page alerts "User registered successfully!", the form resets and the page goes to /login; on failure it alerts "Failed to register user. Please try again later." and the values stay |
| Lookup.Find | src/pages/Lists/BookingList.js:90-91 | `find` fails exactly when no element satisfies the test; otherwise it returns an element of the list that satisfies it |
| Lookup.FindIsFirst | src/pages/Lists/BookingList.js:90 | `find` returns the first satisfying element |
| Lookup.FindIgnoresAppended | src/pages/Lists/ScreenList.js:45 | once a match exists, appending elements does not change what `find` returns |
| Pagination.Slice | src/pages/Lists/BookingList.js:204 | `slice(start, end)` has `min(end, len) − start` elements when positive, and they are the elements at those positions |
| Pagination.Window | src/pages/Lists/MovieList.js:70 | a page shows at most rowsPerPage rows: none past the end, a full page when enough rows remain, and the rows at page × rowsPerPage onwards |
| Pagination.RowOnItsPage | src/pages/Lists/UserList.js:73 | row i appears on page i / rowsPerPage, at position i mod rowsPerPage |
| Pagination.ParsedRowsPerPage | src/pages/Lists/BookingList.js:80 | the option's decimal text is parsed in the given radix |
| Pagination.RadixValues | src/pages/Lists/UserList.js:44 | in radix 10 the options 5, 10, 25 parse to themselves; in radix 25 they parse to 5, 25 and 55 |
| Pagination.ChangeRowsPerPage | src/pages/Lists/ShowList.js:128-131 | changing the page size returns to page 0 with the parsed size |
| Pagination.ChosenSizeTaken | src/pages/Lists/UserList.js:43-46 | in radix 10 the chosen size is taken as is; in radix 25 the options 5, 10 and 25 give 5, 25 and 55 |
| Pagination.Render | src/pages/Lists/MovieList.js:47-96 | a loading page shows the spinner, then an error shows the message, otherwise the table shows the current window and the count of all rows |
| MovieList.MovieListPage.constructor | src/pages/Lists/MovieList.js:17-21 | loading, no movies, no error, page 0 of 10 rows |
| MovieList.MovieListPage.View | src/pages/Lists/MovieList.js:47-96 | the table counts every movie while showing at most one page of rows |
| MovieList.MovieListPage.FetchSettled | src/pages/Lists/MovieList.js:23-36 | loading ends; a reply replaces the movies (a missing body gives none); a failure sets the load error |
| MovieList.MovieListPage.HandleChangePage | src/pages/Lists/MovieList.js:38-40 | only the page number changes |
| MovieList.MovieListPage.HandleChangeRowsPerPage | src/pages/Lists/MovieList.js:42-45 | back to page 0 with the chosen size |
| UserList.UserListPage.constructor | src/pages/Lists/UserList.js:18-22 | loading, no users, no error, page 0 of 25 rows |
| UserList.UserListPage.View | src/pages/Lists/UserList.js:48-101 | the table counts every user while showing at most one page of rows |
| UserList.UserListPage.FetchSettled | src/pages/Lists/UserList.js:24-37 | loading ends; a reply replaces the users (a missing body gives none); a failure sets the load error |
| UserList.UserListPage.HandleChangePage | src/pages/Lists/UserList.js:39-41 | only the page number changes |
| UserList.UserListPage.HandleChangeRowsPerPage | src/pages/Lists/UserList.js:43-46 | back to page 0; the options 5, 10, 25 give 5, 25 and 55 rows, because the size is parsed in radix 25 |
| TheatreList.WithField | src/pages/Lists/TheatreList.js:33-36 | the named field takes the typed value and every other field is kept |
| TheatreList.TheatreListPage.constructor | src/pages/Lists/TheatreList.js:19-31 | loading, no theatres, no error, page 0 of 10 rows, an empty form |
| TheatreList.TheatreListPage.TheatresFetched | src/pages/Lists/TheatreList.js:51-63 | loading ends; a reply replaces the theatres (a missing body gives none); a failure sets the load error |
| TheatreList.TheatreListPage.HandleChangePage | src/pages/Lists/TheatreList.js:65-67 | only the page number changes |
| TheatreList.TheatreListPage.HandleChangeRowsPerPage | src/pages/Lists/TheatreList.js:69-72 | back to page 0 with the chosen size |
| TheatreList.TheatreListPage.HandleInputChange | src/pages/Lists/TheatreList.js:33-36 | the form's named field takes the typed value; lists and paging are kept |
| TheatreList.TheatreListPage.HandleAddTheatre | src/pages/Lists/TheatreList.js:38-49 | the form is posted as is; on success the created theatre is appended and the form resets; on failure an alert is raised and nothing changes |
| ScreenList.WithField | src/pages/Lists/ScreenList.js:38-41 | the named field takes the typed value and every other field is kept |
| ScreenList.PrepareScreen | src/pages/Lists/ScreenList.js:43-55 | nothing is posted exactly when no theatre has the chosen id (strict equality); otherwise the form is posted with a matching theatre from the list |
| ScreenList.LaterTheatresIgnored | src/pages/Lists/ScreenList.js:45 | once a theatre matches, theatres loaded after it do not change the request |
| ScreenList.ScreenListPage.constructor | src/pages/Lists/ScreenList.js:23-36 | loading, no screens or theatres, no error, page 0 of 10 rows, an empty form |
| ScreenList.ScreenListPage.ScreensFetched | src/pages/Lists/ScreenList.js:69-80 | loading ends; a reply replaces the screens (a missing body gives none); a failure sets the load error |
| ScreenList.ScreenListPage.TheatresFetched | src/pages/Lists/ScreenList.js:82-90 | a reply replaces the theatres; a failure sets the load error; loading is untouched |
| ScreenList.ScreenListPage.HandleChangePage | src/pages/Lists/ScreenList.js:93-95 | only the page number changes |
| ScreenList.ScreenListPage.HandleChangeRowsPerPage | src/pages/Lists/ScreenList.js:97-100 | back to page 0 with the chosen size |
| ScreenList.ScreenListPage.HandleInputChange | src/pages/Lists/ScreenList.js:38-41 | the form's named field takes the typed value; lists and paging are kept |
| ScreenList.ScreenListPage.HandleAddScreen | src/pages/Lists/ScreenList.js:43-67 | an unknown theatre raises the selection alert and changes nothing; otherwise the request is posted; on success the new screen is appended and the form resets; on failure an alert is raised |
| ShowList.WithField | src/pages/Lists/ShowList.js:46-49 | the named field takes the typed value; the time and every other field are kept |
| ShowList.PrepareShow | src/pages/Lists/ShowList.js:55-68 | nothing is posted exactly when the screen or movie id is falsy; otherwise every form field is posted with the time formatted, or empty when no time is set |
| ShowList.FreshFormRejected | src/pages/Lists/ShowList.js:65-68 | a freshly reset form is refused |
| ShowList.ShowListPage.constructor | src/pages/Lists/ShowList.js:26-44 | loading, empty lists, no error, page 0 of 10 rows, a fresh form with the current time |
| ShowList.ShowListPage.ShowsFetched | src/pages/Lists/ShowList.js:91-101 | loading ends; a reply replaces the shows (a missing body gives none); a failure sets the load error |
| ShowList.ShowListPage.MoviesFetched | src/pages/Lists/ShowList.js:103-111 | a reply replaces the movies; a failure sets the load error; loading is untouched |
| ShowList.ShowListPage.ScreensFetched | src/pages/Lists/ShowList.js:113-121 | a reply replaces the screens; a failure sets the load error; loading is untouched |
| ShowList.ShowListPage.HandleChangePage | src/pages/Lists/ShowList.js:124-126 | only the page number changes |
| ShowList.ShowListPage.HandleChangeRowsPerPage | src/pages/Lists/ShowList.js:128-131 | back to page 0 with the chosen size |
| ShowList.ShowListPage.HandleInputChange | src/pages/Lists/ShowList.js:46-49 | the form's named field takes the typed value; the lists and paging are kept |
| ShowList.ShowListPage.HandleTimeChange | src/pages/Lists/ShowList.js:51-53 | only the form's time changes |
| ShowList.ShowListPage.HandleAddShow | src/pages/Lists/ShowList.js:55-88 | a form without screen or movie raises the selection alert and changes nothing; otherwise it is posted; on success the new show is appended and the form resets to the current time; on failure an alert is raised |
| BookingList.WithField | src/pages/Lists/BookingList.js:84-87 | the named field takes the typed value and every other field is kept |
| BookingList.AdminCostDiffersFromWizard | src/pages/Lists/BookingList.js:100 | the admin form charges count × (gold + silver), which differs from the wizard's count × gold whenever all three are non-zero |
| BookingList.PrepareBooking | src/pages/Lists/BookingList.js:89-103 | nothing is posted exactly when no show or no user matches (strict equality); otherwise the form, with the admin cost, is posted with matching show and user records from the lists |
| BookingList.FirstMatchingShowBooked | src/pages/Lists/BookingList.js:90 | of several shows with the chosen id, the first is booked |
| BookingList.BookingListPage.constructor | src/pages/Lists/BookingList.js:23-39 | loading, empty lists, no error, page 0 of 25 rows, an empty form |
| BookingList.BookingListPage.BookingsFetched | src/pages/Lists/BookingList.js:42-52 | loading ends; a reply replaces the bookings (a missing body gives none); a failure sets the load error |
| BookingList.BookingListPage.UsersFetched | src/pages/Lists/BookingList.js:54-62 | a reply replaces the users; a failure sets the load error; loading is untouched |
| BookingList.BookingListPage.ShowsFetched | src/pages/Lists/BookingList.js:64-72 | a reply replaces the shows; a failure sets the load error; loading is untouched |
| BookingList.BookingListPage.HandleChangePage | src/pages/Lists/BookingList.js:75-77 | only the page number changes |
| BookingList.BookingListPage.HandleChangeRowsPerPage | src/pages/Lists/BookingList.js:79-82 | back to page 0; the options 5, 10, 25 give 5, 25 and 55 rows, because the size is parsed in radix 25 |
| BookingList.BookingListPage.HandleInputChange | src/pages/Lists/BookingList.js:84-87 | the form's named field takes the typed value; lists, paging and status are kept |
| BookingList.BookingListPage.HandleAddBooking | src/pages/Lists/BookingList.js:89-121 | an unmatched show or user raises the selection alert and changes nothing; otherwise the request is posted; on success the new booking is appended and the form resets; on failure an alert is raised |

## Left out

- HTTP and the API client (base URL, bearer header, interceptors): every reply is a `Response` parameter, and the request a handler would send is returned as a value. The order in which concurrent fetches settle is whatever order the caller calls the callbacks in.
- localStorage is reduced to the one `jwtToken` key (`App.TokenStorage`). The persistence of the store across reloads and the store configuration are not part of this model.
- `atob`, `decodeURIComponent` and `JSON.parse` are parameters (`Jwt.Decoders`). Their failures are modelled as None, which is the `catch` that returns null. The byte-to-character step before escaping is taken as given.
- The `jwt-decode` library called by the login reducer is a parameter that always yields claims. The reducer throwing on an undecodable token is not modelled.
- `Date.now()` is the parameter `now`. `dayjs()` and the time formatter of the show form are the parameters `now` and `format`.
- Yup's e-mail test is the parameter `isEmail`. Yup's number coercion is modelled by taking the age as an optional integer. Formik's touched/error display and field-level messages are left out.
- JavaScript numbers are integers here. Fractions, overflow to Infinity and `-0` are not modelled.
- JsValues.StringToNumber: accepts an optional sign and decimal digits only. Text with surrounding white space, a decimal point or an exponent converts to NaN in the model, where JavaScript gives a number. Examples are " 2", "1.5" and "1e3" typed into the number inputs of the ticket step or the admin booking form. There, JavaScript's total would be 2, 1.5 or 1000 times the price, and the model's total is NaN.
- `parseInt` does not cover radix 16. Its only inputs in the pages are the rows-per-page options, digit strings read in radix 10 or 25.
- Rendering and JSX layout, `console.log`, and `alert` dialogs. Alerts are returned as strings.
- Navigation is the returned target path. React Router's matching is modelled only by `Routing.RouteParam` for the wizard's parameter routes.
- Navi.NaviBar.HandleSignOut: states the final state only; the order of removing the token, dispatching logout and navigating is not observable in the model.
- Payment.PaymentPage.ShowFetched: takes the card fields as they are when the show reply arrives. A stale closure capturing older field values is not distinguished.
- Payment.PaymentPage.StartPayment: requires that no payment is in progress. The pay button is disabled while loading (src/pages/Booking/Payment.jsx:170), so a second click during a payment is not modelled.
- TicketSelection.TicketSelectionPage.HandleContinue: requires the show to be loaded without error, because the button exists only on the loaded page. The `min`/`max` limits of the number input are browser-side hints and are not modelled.
- TheatreList.TheatreListPage.HandleAddTheatre: appends the reply to the list as it is when the reply arrives. The source appends to the list captured at the click (src/pages/Lists/TheatreList.js:42), and the add button stays enabled, so of two adds in flight the later reply drops the earlier row. One call here is one click and its reply, so that interleaving is not modelled.
- ScreenList.ScreenListPage.HandleAddScreen: appends the reply to the list as it is when the reply arrives; the source uses the list captured at the click (src/pages/Lists/ScreenList.js:60), so two adds in flight lose a row there. That interleaving is not modelled.
- ShowList.ShowListPage.HandleAddShow: appends the reply to the list as it is when the reply arrives; the source uses the list captured at the click (src/pages/Lists/ShowList.js:72), so two adds in flight lose a row there. That interleaving is not modelled.
- BookingList.BookingListPage.HandleAddBooking: appends the reply to the list as it is when the reply arrives; the source uses the list captured at the click (src/pages/Lists/BookingList.js:107), so two adds in flight lose a row there. That interleaving is not modelled.
- Register.RegisterPage.Change: requires the role to stay USER, because the role select is disabled in the form.
- MovieSelection.MovieSelectionPage.FetchSettled: a reply without a body would make the page fail when it renders. The model stores the reply as a list.
- ShowSelection.ShowSelectionPage.FetchSettled: stores `response.data` unguarded (src/pages/Booking/ShowSelection.jsx:16). A reply without a body would make the page fail when it renders the list. The reply type here always carries a list, so the model cannot express that case.
- TicketSelection.TicketSelectionPage.FetchSettled: stores `response.data` unguarded (src/pages/Booking/TicketSelection.jsx:28). A 200 reply with an empty body would make the render fail at `showDetails.showTime.hour`. The reply type here always carries a show, so the model cannot express that case.
- The detail pages, AddFilm, the profile page, TicketList, Login, Logout, SignedIn/SignedOut and BookingSuccess are not part of this model. They are routed targets whose paths appear in the route tables.
- The services (MovieService, UserService) and the store configuration are not part of this model beyond the calls the modelled pages make.
