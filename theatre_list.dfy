/** src/pages/Lists/TheatreList.js: the admin's theatre table and its add form. */
module TheatreList {
  import opened Wrappers
  import opened JsValues
  import opened Entities
  import opened Pagination

  const LoadTheatresFailed := "Failed to load theatres."
  const AddFailed := "Failed to add theatre. Please try again later."

  /** `newTheatre`. */
  datatype TheatreForm = TheatreForm(theatreId: Value, nameOfTheatre: Value, noOfScreens: Value,
                                     area: Value)

  datatype TheatreField = TheatreId | NameOfTheatre | NoOfScreens | Area

  const EmptyForm := TheatreForm(Str(""), Str(""), Str(""), Str(""))

  function FieldOf(f: TheatreForm, k: TheatreField): Value {
    match k
    case TheatreId => f.theatreId
    case NameOfTheatre => f.nameOfTheatre
    case NoOfScreens => f.noOfScreens
    case Area => f.area
  }

  /** `{...newTheatre, [name]: value}`: the named field changes and no other. */
  function WithField(f: TheatreForm, k: TheatreField, v: Value): (r: TheatreForm)
    ensures FieldOf(r, k) == v
    ensures forall j :: j != k ==> FieldOf(r, j) == FieldOf(f, j)
  {
    match k
    case TheatreId => f.(theatreId := v)
    case NameOfTheatre => f.(nameOfTheatre := v)
    case NoOfScreens => f.(noOfScreens := v)
    case Area => f.(area := v)
  }

  class TheatreListPage {
    var theatres: seq<Theatre>
    var paging: Paging
    var loading: bool
    var error: Option<string>
    var newTheatre: TheatreForm

    constructor()
      ensures theatres == [] && paging == Paging(0, 10) && loading && error == None
      ensures newTheatre == EmptyForm
    {
      theatres := [];
      paging := Paging(0, 10);
      loading, error := true, None;
      newTheatre := EmptyForm;
    }

    function View(): ListView<Theatre>
      reads this
    {
      Render(loading, error, theatres, paging)
    }

    method TheatresFetched(response: Response<Option<seq<Theatre>>>)
      modifies this
      ensures !loading
      ensures response.Ok? ==> theatres == response.data.GetOr([]) && error == old(error)
      ensures response.Failed? ==> theatres == old(theatres) && error == Some(LoadTheatresFailed)
      ensures paging == old(paging) && newTheatre == old(newTheatre)
    {
      if response.Ok? {
        theatres := response.data.GetOr([]);
      } else {
        error := Some(LoadTheatresFailed);
      }
      loading := false;
    }

    method HandleChangePage(page: nat)
      modifies this
      ensures paging == old(paging).(page := page)
      ensures theatres == old(theatres) && newTheatre == old(newTheatre)
      ensures loading == old(loading) && error == old(error)
    {
      paging := paging.(page := page);
    }

    method HandleChangeRowsPerPage(option: nat)
      requires option in RowsPerPageOptions
      modifies this
      ensures paging == ChangeRowsPerPage(option, 10) && paging.rowsPerPage == option
      ensures theatres == old(theatres) && newTheatre == old(newTheatre)
      ensures loading == old(loading) && error == old(error)
    {
      ChosenSizeTaken(option);
      paging := Paging(0, ParsedRowsPerPage(option, 10));
    }

    method HandleInputChange(name: TheatreField, value: Value)
      modifies this
      ensures newTheatre == WithField(old(newTheatre), name, value)
      ensures theatres == old(theatres) && paging == old(paging)
      ensures loading == old(loading) && error == old(error)
    {
      newTheatre := WithField(newTheatre, name, value);
    }

    /** `handleAddTheatre`, with the reply to its post: the form is posted as it is,
        without any check. */
    method HandleAddTheatre(response: Response<Theatre>) returns (request: TheatreForm, alert: Option<string>)
      modifies this
      ensures request == old(newTheatre)
      ensures response.Ok? ==> theatres == old(theatres) + [response.data] && newTheatre == EmptyForm && alert == None
      ensures response.Failed? ==> theatres == old(theatres) && newTheatre == old(newTheatre) && alert == Some(AddFailed)
      ensures paging == old(paging) && loading == old(loading) && error == old(error)
    {
      request := newTheatre;
      if response.Ok? {
        theatres := theatres + [response.data];
        newTheatre := EmptyForm;
        alert := None;
      } else {
        alert := Some(AddFailed);
      }
    }
  }
}
