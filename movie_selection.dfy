/** src/pages/Booking/MovieSelection.jsx: the first wizard step. */
module MovieSelection {
  import opened Wrappers
  import opened JsValues
  import opened Entities
  import Draft

  class MovieSelectionPage {
    var movies: seq<Movie>

    constructor()
      ensures movies == []
    {
      movies := [];
    }

    /** The movie list request settles: a reply replaces the list, a failure is only
        logged and leaves the list as it was. */
    method FetchSettled(response: Response<seq<Movie>>)
      modifies this
      ensures response.Ok? ==> movies == response.data
      ensures response.Failed? ==> movies == old(movies)
    {
      if response.Ok? {
        movies := response.data;
      }
    }

    /** `handleMovieSelect`: record the movie in the draft, go to its show list. */
    method HandleMovieSelect(cell: Draft.DraftCell, movieId: Value) returns (target: string)
      modifies cell
      ensures cell.draft == Draft.WithMovie(old(cell.draft), movieId)
      ensures target == "/showSelection/" + ToString(movieId)
    {
      cell.draft := cell.draft.(movieId := movieId);
      target := "/showSelection/" + ToString(movieId);
    }
  }
}
