/** src/pages/Booking/ShowSelection.jsx: the second wizard step, the shows of the movie
    named in the path. */
module ShowSelection {
  import opened Wrappers
  import opened JsValues
  import opened Entities
  import Draft

  const LoadShowsFailed := "Failed to load shows. Please try again later."

  class ShowSelectionPage {
    /** The `:movieId` route parameter. */
    const movieId: string
    var shows: seq<Show>
    var loading: bool
    var error: Option<string>

    constructor(movieId: string)
      ensures this.movieId == movieId
      ensures shows == [] && loading && error == None
    {
      this.movieId := movieId;
      shows := [];
      loading := true;
      error := None;
    }

    /** The request this page sends on mount. */
    function Request(): string
      reads this
    {
      "/shows/shows/getByMovieId/" + movieId
    }

    /** The show request settles: a reply replaces the list, a failure sets the error;
        either way the spinner stops. */
    method FetchSettled(response: Response<seq<Show>>)
      modifies this
      ensures !loading
      ensures response.Ok? ==> shows == response.data && error == old(error)
      ensures response.Failed? ==> shows == old(shows) && error == Some(LoadShowsFailed)
    {
      if response.Ok? {
        shows := response.data;
      } else {
        error := Some(LoadShowsFailed);
      }
      loading := false;
    }

    /** `handleShowSelect`: record the show in the draft, go to its ticket step. */
    method HandleShowSelect(cell: Draft.DraftCell, showId: Value) returns (target: string)
      modifies cell
      ensures cell.draft == Draft.WithShow(old(cell.draft), showId)
      ensures target == "/ticketSelection/" + ToString(showId)
    {
      cell.draft := cell.draft.(showId := showId);
      target := "/ticketSelection/" + ToString(showId);
    }
  }
}
