/** src/pages/Lists/ShowList.js: the admin's show table and its add form. */
module ShowList {
  import opened Wrappers
  import opened JsValues
  import opened Entities
  import opened Pagination

  const LoadShowsFailed := "Failed to load shows."
  const LoadMoviesFailed := "Failed to load movies."
  const LoadScreensFailed := "Failed to load screens."
  const InvalidSelection := "Please select a valid screen and movie."
  const AddFailed := "Failed to add show. Please try again later."

  /** A time picked in the time picker. */
  datatype TimeOfDay = TimeOfDay(hour: nat, minute: nat, second: nat)

  /** `newShow`: the picked time (None once cleared) and seven text or select fields. */
  datatype ShowForm = ShowForm(showTime: Option<TimeOfDay>, showDate: Value,
                               seatsRemainingGold: Value, seatsRemainingSilver: Value,
                               classCostGold: Value, classCostSilver: Value,
                               screenId: Value, movieId: Value)

  datatype ShowField = ShowDate | SeatsRemainingGold | SeatsRemainingSilver | ClassCostGold
                     | ClassCostSilver | ScreenId | MovieId

  /** The form as it starts and as it is reset: the current time, every other field empty. */
  function FreshForm(now: TimeOfDay): ShowForm {
    ShowForm(Some(now), Str(""), Str(""), Str(""), Str(""), Str(""), Str(""), Str(""))
  }

  function FieldOf(f: ShowForm, k: ShowField): Value {
    match k
    case ShowDate => f.showDate
    case SeatsRemainingGold => f.seatsRemainingGold
    case SeatsRemainingSilver => f.seatsRemainingSilver
    case ClassCostGold => f.classCostGold
    case ClassCostSilver => f.classCostSilver
    case ScreenId => f.screenId
    case MovieId => f.movieId
  }

  /** `{...newShow, [name]: value}`: the named field changes and no other, the time
      included. */
  function WithField(f: ShowForm, k: ShowField, v: Value): (r: ShowForm)
    ensures FieldOf(r, k) == v && r.showTime == f.showTime
    ensures forall j :: j != k ==> FieldOf(r, j) == FieldOf(f, j)
  {
    match k
    case ShowDate => f.(showDate := v)
    case SeatsRemainingGold => f.(seatsRemainingGold := v)
    case SeatsRemainingSilver => f.(seatsRemainingSilver := v)
    case ClassCostGold => f.(classCostGold := v)
    case ClassCostSilver => f.(classCostSilver := v)
    case ScreenId => f.(screenId := v)
    case MovieId => f.(movieId := v)
  }

  /** What the add button posts: the form with the time as a formatted string. */
  datatype ShowRequest = ShowRequest(showTime: string, showDate: Value,
                                     seatsRemainingGold: Value, seatsRemainingSilver: Value,
                                     classCostGold: Value, classCostSilver: Value,
                                     screenId: Value, movieId: Value)

  /** The guard and the payload of `handleAddShow`; `format` is the 'HH:mm:ss' formatter.
      None unless both a screen and a movie are chosen. */
  function PrepareShow(form: ShowForm, format: TimeOfDay -> string): (r: Option<ShowRequest>)
    ensures r.None? <==> !Truthy(form.screenId) || !Truthy(form.movieId)
    ensures r.Some? ==> r.value.showTime == (if form.showTime.Some? then format(form.showTime.value) else "")
    ensures r.Some? ==> forall k :: FieldOf(form, k) == RequestField(r.value, k)
  {
    var formatted := if form.showTime.Some? then format(form.showTime.value) else "";
    if !Truthy(form.screenId) || !Truthy(form.movieId) then None
    else Some(ShowRequest(formatted, form.showDate, form.seatsRemainingGold, form.seatsRemainingSilver,
                          form.classCostGold, form.classCostSilver, form.screenId, form.movieId))
  }

  function RequestField(r: ShowRequest, k: ShowField): Value {
    match k
    case ShowDate => r.showDate
    case SeatsRemainingGold => r.seatsRemainingGold
    case SeatsRemainingSilver => r.seatsRemainingSilver
    case ClassCostGold => r.classCostGold
    case ClassCostSilver => r.classCostSilver
    case ScreenId => r.screenId
    case MovieId => r.movieId
  }

  /** A freshly reset form cannot be posted: no screen and no movie are chosen. */
  lemma FreshFormRejected(now: TimeOfDay, format: TimeOfDay -> string)
    ensures PrepareShow(FreshForm(now), format).None?
  {
  }

  class ShowListPage {
    var shows: seq<Show>
    var movies: seq<Movie>
    var screens: seq<Screen>
    var paging: Paging
    var loading: bool
    var error: Option<string>
    var newShow: ShowForm

    /** `now` is the time `dayjs()` reads when the page mounts. */
    constructor(now: TimeOfDay)
      ensures shows == [] && movies == [] && screens == []
      ensures paging == Paging(0, 10) && loading && error == None && newShow == FreshForm(now)
    {
      shows, movies, screens := [], [], [];
      paging := Paging(0, 10);
      loading, error := true, None;
      newShow := FreshForm(now);
    }

    function View(): ListView<Show>
      reads this
    {
      Render(loading, error, shows, paging)
    }

    method ShowsFetched(response: Response<Option<seq<Show>>>)
      modifies this
      ensures !loading
      ensures response.Ok? ==> shows == response.data.GetOr([]) && error == old(error)
      ensures response.Failed? ==> shows == old(shows) && error == Some(LoadShowsFailed)
      ensures movies == old(movies) && screens == old(screens) && paging == old(paging) && newShow == old(newShow)
    {
      if response.Ok? {
        shows := response.data.GetOr([]);
      } else {
        error := Some(LoadShowsFailed);
      }
      loading := false;
    }

    method MoviesFetched(response: Response<Option<seq<Movie>>>)
      modifies this
      ensures response.Ok? ==> movies == response.data.GetOr([]) && error == old(error)
      ensures response.Failed? ==> movies == old(movies) && error == Some(LoadMoviesFailed)
      ensures shows == old(shows) && screens == old(screens) && loading == old(loading)
      ensures paging == old(paging) && newShow == old(newShow)
    {
      if response.Ok? {
        movies := response.data.GetOr([]);
      } else {
        error := Some(LoadMoviesFailed);
      }
    }

    method ScreensFetched(response: Response<Option<seq<Screen>>>)
      modifies this
      ensures response.Ok? ==> screens == response.data.GetOr([]) && error == old(error)
      ensures response.Failed? ==> screens == old(screens) && error == Some(LoadScreensFailed)
      ensures shows == old(shows) && movies == old(movies) && loading == old(loading)
      ensures paging == old(paging) && newShow == old(newShow)
    {
      if response.Ok? {
        screens := response.data.GetOr([]);
      } else {
        error := Some(LoadScreensFailed);
      }
    }

    method HandleChangePage(page: nat)
      modifies this
      ensures paging == old(paging).(page := page)
      ensures shows == old(shows) && movies == old(movies) && screens == old(screens)
      ensures newShow == old(newShow) && loading == old(loading) && error == old(error)
    {
      paging := paging.(page := page);
    }

    method HandleChangeRowsPerPage(option: nat)
      requires option in RowsPerPageOptions
      modifies this
      ensures paging == ChangeRowsPerPage(option, 10) && paging.rowsPerPage == option
      ensures shows == old(shows) && movies == old(movies) && screens == old(screens)
      ensures newShow == old(newShow) && loading == old(loading) && error == old(error)
    {
      ChosenSizeTaken(option);
      paging := Paging(0, ParsedRowsPerPage(option, 10));
    }

    method HandleInputChange(name: ShowField, value: Value)
      modifies this
      ensures newShow == WithField(old(newShow), name, value)
      ensures shows == old(shows) && movies == old(movies) && screens == old(screens)
      ensures paging == old(paging) && loading == old(loading) && error == old(error)
    {
      newShow := WithField(newShow, name, value);
    }

    /** The time picker's change handler; only the time changes. */
    method HandleTimeChange(time: Option<TimeOfDay>)
      modifies this
      ensures newShow == old(newShow).(showTime := time)
      ensures forall k :: FieldOf(newShow, k) == FieldOf(old(newShow), k)
      ensures shows == old(shows) && movies == old(movies) && screens == old(screens)
      ensures paging == old(paging) && loading == old(loading) && error == old(error)
    {
      newShow := newShow.(showTime := time);
    }

    /** `handleAddShow`, with the reply to its post; `now` is the time the reset reads. */
    method HandleAddShow(format: TimeOfDay -> string, now: TimeOfDay, response: Response<Show>)
      returns (request: Option<ShowRequest>, alert: Option<string>)
      modifies this
      ensures request == PrepareShow(old(newShow), format)
      ensures request.None? ==> alert == Some(InvalidSelection)
      ensures request.Some? && response.Ok? ==>
                shows == old(shows) + [response.data] && newShow == FreshForm(now) && alert == None
      ensures request.Some? && response.Failed? ==> alert == Some(AddFailed)
      ensures request.None? || response.Failed? ==> shows == old(shows) && newShow == old(newShow)
      ensures movies == old(movies) && screens == old(screens) && paging == old(paging)
      ensures loading == old(loading) && error == old(error)
    {
      request := PrepareShow(newShow, format);
      if request.None? {
        alert := Some(InvalidSelection);
        return;
      }
      if response.Ok? {
        shows := shows + [response.data];
        newShow := FreshForm(now);
        alert := None;
      } else {
        alert := Some(AddFailed);
      }
    }
  }
}
