/** src/pages/Lists/ScreenList.js: the admin's screen table and its add form. */
module ScreenList {
  import opened Wrappers
  import opened JsValues
  import opened Entities
  import opened Lookup
  import opened Pagination

  const LoadScreensFailed := "Failed to load screens."
  const LoadTheatresFailed := "Failed to load theatres."
  const InvalidTheatre := "Please select a valid theatre."
  const AddFailed := "Failed to add screen. Please try again later."

  /** `newScreen`. */
  datatype ScreenForm = ScreenForm(screenId: Value, noOfSeatsGold: Value, noOfSeatsSilver: Value,
                                   theatreId: Value)

  datatype ScreenField = ScreenId | NoOfSeatsGold | NoOfSeatsSilver | TheatreId

  const EmptyForm := ScreenForm(Str(""), Str(""), Str(""), Str(""))

  function FieldOf(f: ScreenForm, k: ScreenField): Value {
    match k
    case ScreenId => f.screenId
    case NoOfSeatsGold => f.noOfSeatsGold
    case NoOfSeatsSilver => f.noOfSeatsSilver
    case TheatreId => f.theatreId
  }

  /** `{...newScreen, [name]: value}`: the named field changes and no other. */
  function WithField(f: ScreenForm, k: ScreenField, v: Value): (r: ScreenForm)
    ensures FieldOf(r, k) == v
    ensures forall j :: j != k ==> FieldOf(r, j) == FieldOf(f, j)
  {
    match k
    case ScreenId => f.(screenId := v)
    case NoOfSeatsGold => f.(noOfSeatsGold := v)
    case NoOfSeatsSilver => f.(noOfSeatsSilver := v)
    case TheatreId => f.(theatreId := v)
  }

  /** What the add button posts: the whole form plus the matched theatre record. */
  datatype ScreenRequest = ScreenRequest(form: ScreenForm, theatre: Theatre)

  /** The lookup and the guard of `handleAddScreen`. */
  function PrepareScreen(form: ScreenForm, theatres: seq<Theatre>): (r: Option<ScreenRequest>)
    ensures r.None? <==> forall i :: 0 <= i < |theatres| ==> !StrictEquals(theatres[i].theatreId, form.theatreId)
    ensures r.Some? ==> r.value.form == form
    ensures r.Some? ==> r.value.theatre in theatres && StrictEquals(r.value.theatre.theatreId, form.theatreId)
  {
    match Find(theatres, (t: Theatre) => StrictEquals(t.theatreId, form.theatreId))
    case None => None
    case Some(t) => Some(ScreenRequest(form, t))
  }

  /** Theatres loaded after a match do not change which theatre is attached. */
  lemma LaterTheatresIgnored(form: ScreenForm, theatres: seq<Theatre>, more: seq<Theatre>)
    requires PrepareScreen(form, theatres).Some?
    ensures PrepareScreen(form, theatres + more) == PrepareScreen(form, theatres)
  {
    FindIgnoresAppended(theatres, more, (t: Theatre) => StrictEquals(t.theatreId, form.theatreId));
  }

  class ScreenListPage {
    var screens: seq<Screen>
    var theatres: seq<Theatre>
    var paging: Paging
    var loading: bool
    var error: Option<string>
    var newScreen: ScreenForm

    constructor()
      ensures screens == [] && theatres == []
      ensures paging == Paging(0, 10) && loading && error == None && newScreen == EmptyForm
    {
      screens, theatres := [], [];
      paging := Paging(0, 10);
      loading, error := true, None;
      newScreen := EmptyForm;
    }

    function View(): ListView<Screen>
      reads this
    {
      Render(loading, error, screens, paging)
    }

    method ScreensFetched(response: Response<Option<seq<Screen>>>)
      modifies this
      ensures !loading
      ensures response.Ok? ==> screens == response.data.GetOr([]) && error == old(error)
      ensures response.Failed? ==> screens == old(screens) && error == Some(LoadScreensFailed)
      ensures theatres == old(theatres) && paging == old(paging) && newScreen == old(newScreen)
    {
      if response.Ok? {
        screens := response.data.GetOr([]);
      } else {
        error := Some(LoadScreensFailed);
      }
      loading := false;
    }

    method TheatresFetched(response: Response<Option<seq<Theatre>>>)
      modifies this
      ensures response.Ok? ==> theatres == response.data.GetOr([]) && error == old(error)
      ensures response.Failed? ==> theatres == old(theatres) && error == Some(LoadTheatresFailed)
      ensures screens == old(screens) && loading == old(loading) && paging == old(paging)
      ensures newScreen == old(newScreen)
    {
      if response.Ok? {
        theatres := response.data.GetOr([]);
      } else {
        error := Some(LoadTheatresFailed);
      }
    }

    method HandleChangePage(page: nat)
      modifies this
      ensures paging == old(paging).(page := page)
      ensures screens == old(screens) && theatres == old(theatres) && newScreen == old(newScreen)
      ensures loading == old(loading) && error == old(error)
    {
      paging := paging.(page := page);
    }

    method HandleChangeRowsPerPage(option: nat)
      requires option in RowsPerPageOptions
      modifies this
      ensures paging == ChangeRowsPerPage(option, 10) && paging.rowsPerPage == option
      ensures screens == old(screens) && theatres == old(theatres) && newScreen == old(newScreen)
      ensures loading == old(loading) && error == old(error)
    {
      ChosenSizeTaken(option);
      paging := Paging(0, ParsedRowsPerPage(option, 10));
    }

    method HandleInputChange(name: ScreenField, value: Value)
      modifies this
      ensures newScreen == WithField(old(newScreen), name, value)
      ensures screens == old(screens) && theatres == old(theatres) && paging == old(paging)
      ensures loading == old(loading) && error == old(error)
    {
      newScreen := WithField(newScreen, name, value);
    }

    /** `handleAddScreen`, with the reply to its post. */
    method HandleAddScreen(response: Response<Screen>) returns (request: Option<ScreenRequest>, alert: Option<string>)
      modifies this
      ensures request == PrepareScreen(old(newScreen), old(theatres))
      ensures request.None? ==> alert == Some(InvalidTheatre)
      ensures request.Some? && response.Ok? ==>
                screens == old(screens) + [response.data] && newScreen == EmptyForm && alert == None
      ensures request.Some? && response.Failed? ==> alert == Some(AddFailed)
      ensures request.None? || response.Failed? ==> screens == old(screens) && newScreen == old(newScreen)
      ensures theatres == old(theatres) && paging == old(paging)
      ensures loading == old(loading) && error == old(error)
    {
      request := PrepareScreen(newScreen, theatres);
      if request.None? {
        alert := Some(InvalidTheatre);
        return;
      }
      if response.Ok? {
        screens := screens + [response.data];
        newScreen := EmptyForm;
        alert := None;
      } else {
        alert := Some(AddFailed);
      }
    }
  }
}
