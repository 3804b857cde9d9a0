/** src/pages/Lists/BookingList.js: the admin's booking table and its add form. */
module BookingList {
  import opened Wrappers
  import opened JsValues
  import opened Entities
  import opened Lookup
  import opened Pagination
  import TicketSelection

  const LoadBookingsFailed := "Failed to load bookings."
  const LoadUsersFailed := "Failed to load users."
  const LoadShowsFailed := "Failed to load shows."
  const InvalidSelection := "Please select valid user and show."
  const AddFailed := "Failed to add booking. Please try again later."

  /** `newBooking`. */
  datatype BookingForm = BookingForm(userId: Value, showId: Value, noOfTickets: Value,
                                     totalCost: Value, cardNumber: Value, nameOnCard: Value)

  datatype BookingField = UserId | ShowId | NoOfTickets | TotalCost | CardNumber | NameOnCard

  const EmptyForm := BookingForm(Str(""), Str(""), Str(""), Str(""), Str(""), Str(""))

  function FieldOf(f: BookingForm, k: BookingField): Value {
    match k
    case UserId => f.userId
    case ShowId => f.showId
    case NoOfTickets => f.noOfTickets
    case TotalCost => f.totalCost
    case CardNumber => f.cardNumber
    case NameOnCard => f.nameOnCard
  }

  /** `{...newBooking, [name]: value}`: the named field changes and no other. */
  function WithField(f: BookingForm, k: BookingField, v: Value): (r: BookingForm)
    ensures FieldOf(r, k) == v
    ensures forall j :: j != k ==> FieldOf(r, j) == FieldOf(f, j)
  {
    match k
    case UserId => f.(userId := v)
    case ShowId => f.(showId := v)
    case NoOfTickets => f.(noOfTickets := v)
    case TotalCost => f.(totalCost := v)
    case CardNumber => f.(cardNumber := v)
    case NameOnCard => f.(nameOnCard := v)
  }

  /** `noOfTickets * (classCostGold + classCostSilver)`. */
  function AdminCost(noOfTickets: Value, show: Show): Value {
    Mul(noOfTickets, Add(show.classCostGold, show.classCostSilver))
  }

  /** With numeric prices the admin form charges every ticket gold plus silver, while the
      wizard charges gold only: the two differ whenever tickets and silver price are both
      non-zero. */
  lemma AdminCostDiffersFromWizard(count: int, show: Show, gold: int, silver: int)
    requires show.classCostGold == Num(gold) && show.classCostSilver == Num(silver)
    ensures AdminCost(Num(count), show) == Num(count * (gold + silver))
    ensures gold != 0 ==> TicketSelection.TicketTotal(Num(count), show) == Num(count * gold)
    ensures gold != 0 && count != 0 && silver != 0 ==>
              AdminCost(Num(count), show) != TicketSelection.TicketTotal(Num(count), show)
  {
    if gold != 0 && count != 0 && silver != 0 {
      assert count * (gold + silver) == count * gold + count * silver;
      assert count * silver != 0;
    }
  }

  /** What the add button posts: the form with the computed cost, plus the matched user
      and show records. */
  datatype BookingRequest = BookingRequest(form: BookingForm, user: User, show: Show)

  /** The lookups and the guard of `handleAddBooking`; None when either lookup fails. */
  function PrepareBooking(form: BookingForm, users: seq<User>, shows: seq<Show>): (r: Option<BookingRequest>)
    ensures r.None? <==> (forall i :: 0 <= i < |shows| ==> !StrictEquals(shows[i].showId, form.showId))
                         || (forall i :: 0 <= i < |users| ==> !StrictEquals(users[i].webUserId, form.userId))
    ensures r.Some? ==> r.value.show in shows && StrictEquals(r.value.show.showId, form.showId)
    ensures r.Some? ==> r.value.user in users && StrictEquals(r.value.user.webUserId, form.userId)
    ensures r.Some? ==> r.value.form == form.(totalCost := AdminCost(form.noOfTickets, r.value.show))
  {
    var show := Find(shows, (s: Show) => StrictEquals(s.showId, form.showId));
    var user := Find(users, (u: User) => StrictEquals(u.webUserId, form.userId));
    if show.None? || user.None? then None
    else Some(BookingRequest(form.(totalCost := AdminCost(form.noOfTickets, show.value)), user.value, show.value))
  }

  /** When two shows carry the same id, the first one in the list is booked. */
  lemma FirstMatchingShowBooked(form: BookingForm, users: seq<User>, shows: seq<Show>, i: nat, j: nat)
    requires i < j < |shows| && StrictEquals(shows[i].showId, form.showId)
    requires forall k :: 0 <= k < i ==> !StrictEquals(shows[k].showId, form.showId)
    requires PrepareBooking(form, users, shows).Some?
    ensures PrepareBooking(form, users, shows).value.show == shows[i]
  {
    var p := (s: Show) => StrictEquals(s.showId, form.showId);
    assert FirstIndex(shows, p) == i by {
      var k := FirstIndex(shows, p);
      assert k <= i;
    }
  }

  class BookingListPage {
    var bookings: seq<Booking>
    var users: seq<User>
    var shows: seq<Show>
    var paging: Paging
    var loading: bool
    var error: Option<string>
    var newBooking: BookingForm

    constructor()
      ensures bookings == [] && users == [] && shows == []
      ensures paging == Paging(0, 25) && loading && error == None && newBooking == EmptyForm
    {
      bookings, users, shows := [], [], [];
      paging := Paging(0, 25);
      loading, error := true, None;
      newBooking := EmptyForm;
    }

    /** What the page shows. */
    function View(): ListView<Booking>
      reads this
    {
      Render(loading, error, bookings, paging)
    }

    /** The booking list request settles; missing data counts as an empty list. */
    method BookingsFetched(response: Response<Option<seq<Booking>>>)
      modifies this
      ensures !loading
      ensures response.Ok? ==> bookings == response.data.GetOr([]) && error == old(error)
      ensures response.Failed? ==> bookings == old(bookings) && error == Some(LoadBookingsFailed)
      ensures users == old(users) && shows == old(shows) && paging == old(paging) && newBooking == old(newBooking)
    {
      if response.Ok? {
        bookings := response.data.GetOr([]);
      } else {
        error := Some(LoadBookingsFailed);
      }
      loading := false;
    }

    /** The user list request settles; it does not touch the loading flag. */
    method UsersFetched(response: Response<Option<seq<User>>>)
      modifies this
      ensures response.Ok? ==> users == response.data.GetOr([]) && error == old(error)
      ensures response.Failed? ==> users == old(users) && error == Some(LoadUsersFailed)
      ensures bookings == old(bookings) && shows == old(shows) && loading == old(loading)
      ensures paging == old(paging) && newBooking == old(newBooking)
    {
      if response.Ok? {
        users := response.data.GetOr([]);
      } else {
        error := Some(LoadUsersFailed);
      }
    }

    /** The show list request settles; it does not touch the loading flag. */
    method ShowsFetched(response: Response<Option<seq<Show>>>)
      modifies this
      ensures response.Ok? ==> shows == response.data.GetOr([]) && error == old(error)
      ensures response.Failed? ==> shows == old(shows) && error == Some(LoadShowsFailed)
      ensures bookings == old(bookings) && users == old(users) && loading == old(loading)
      ensures paging == old(paging) && newBooking == old(newBooking)
    {
      if response.Ok? {
        shows := response.data.GetOr([]);
      } else {
        error := Some(LoadShowsFailed);
      }
    }

    method HandleChangePage(page: nat)
      modifies this
      ensures paging == old(paging).(page := page)
      ensures bookings == old(bookings) && users == old(users) && shows == old(shows)
      ensures newBooking == old(newBooking) && loading == old(loading) && error == old(error)
    {
      paging := paging.(page := page);
    }

    /** The page size is parsed in radix 25: the options 5, 10 and 25 give 5, 25 and 55
        rows. */
    method HandleChangeRowsPerPage(option: nat)
      requires option in RowsPerPageOptions
      modifies this
      ensures paging == ChangeRowsPerPage(option, 25)
      ensures paging.rowsPerPage == (if option == 5 then 5 else if option == 10 then 25 else 55)
      ensures bookings == old(bookings) && users == old(users) && shows == old(shows)
      ensures newBooking == old(newBooking) && loading == old(loading) && error == old(error)
    {
      ChosenSizeTaken(option);
      paging := Paging(0, ParsedRowsPerPage(option, 25));
    }

    method HandleInputChange(name: BookingField, value: Value)
      modifies this
      ensures newBooking == WithField(old(newBooking), name, value)
      ensures bookings == old(bookings) && users == old(users) && shows == old(shows)
      ensures paging == old(paging) && loading == old(loading) && error == old(error)
    {
      newBooking := WithField(newBooking, name, value);
    }

    /** `handleAddBooking`, with the reply to its post. Without a matching show and user
        nothing is posted; a created booking is appended and the form emptied; a failed
        post changes nothing. Either problem is reported by an alert. */
    method HandleAddBooking(response: Response<Booking>) returns (request: Option<BookingRequest>, alert: Option<string>)
      modifies this
      ensures request == PrepareBooking(old(newBooking), old(users), old(shows))
      ensures request.None? ==> alert == Some(InvalidSelection)
      ensures request.Some? && response.Ok? ==>
                bookings == old(bookings) + [response.data] && newBooking == EmptyForm && alert == None
      ensures request.Some? && response.Failed? ==> alert == Some(AddFailed)
      ensures request.None? || response.Failed? ==> bookings == old(bookings) && newBooking == old(newBooking)
      ensures users == old(users) && shows == old(shows) && paging == old(paging)
      ensures loading == old(loading) && error == old(error)
    {
      request := PrepareBooking(newBooking, users, shows);
      if request.None? {
        alert := Some(InvalidSelection);
        return;
      }
      if response.Ok? {
        bookings := bookings + [response.data];
        newBooking := EmptyForm;
        alert := None;
      } else {
        alert := Some(AddFailed);
      }
    }
  }
}
