/** src/pages/Lists/MovieList.js: the admin's movie table. */
module MovieList {
  import opened Wrappers
  import opened JsValues
  import opened Entities
  import opened Pagination

  const LoadMoviesFailed := "Failed to load movies."

  class MovieListPage {
    var movies: seq<Movie>
    var paging: Paging
    var loading: bool
    var error: Option<string>

    constructor()
      ensures movies == [] && paging == Paging(0, 10) && loading && error == None
    {
      movies := [];
      paging := Paging(0, 10);
      loading, error := true, None;
    }

    /** What the page shows; the pager counts every movie, not the rows shown. */
    function View(): (v: ListView<Movie>)
      reads this
      ensures v.TableView? ==> v.count == |movies| && |v.rows| <= paging.rowsPerPage
    {
      Render(loading, error, movies, paging)
    }

    method FetchSettled(response: Response<Option<seq<Movie>>>)
      modifies this
      ensures !loading && paging == old(paging)
      ensures response.Ok? ==> movies == response.data.GetOr([]) && error == old(error)
      ensures response.Failed? ==> movies == old(movies) && error == Some(LoadMoviesFailed)
    {
      if response.Ok? {
        movies := response.data.GetOr([]);
      } else {
        error := Some(LoadMoviesFailed);
      }
      loading := false;
    }

    method HandleChangePage(page: nat)
      modifies this
      ensures paging == old(paging).(page := page)
      ensures movies == old(movies) && loading == old(loading) && error == old(error)
    {
      paging := paging.(page := page);
    }

    method HandleChangeRowsPerPage(option: nat)
      requires option in RowsPerPageOptions
      modifies this
      ensures paging == ChangeRowsPerPage(option, 10) && paging.rowsPerPage == option
      ensures movies == old(movies) && loading == old(loading) && error == old(error)
    {
      ChosenSizeTaken(option);
      paging := Paging(0, ParsedRowsPerPage(option, 10));
    }
  }
}
