/** src/pages/Lists/UserList.js: the admin's user table. */
module UserList {
  import opened Wrappers
  import opened JsValues
  import opened Entities
  import opened Pagination

  const LoadUsersFailed := "Failed to load users."

  class UserListPage {
    var users: seq<User>
    var paging: Paging
    var loading: bool
    var error: Option<string>

    constructor()
      ensures users == [] && paging == Paging(0, 25) && loading && error == None
    {
      users := [];
      paging := Paging(0, 25);
      loading, error := true, None;
    }

    /** What the page shows; the pager counts every user, not the rows shown. */
    function View(): (v: ListView<User>)
      reads this
      ensures v.TableView? ==> v.count == |users| && |v.rows| <= paging.rowsPerPage
    {
      Render(loading, error, users, paging)
    }

    method FetchSettled(response: Response<Option<seq<User>>>)
      modifies this
      ensures !loading && paging == old(paging)
      ensures response.Ok? ==> users == response.data.GetOr([]) && error == old(error)
      ensures response.Failed? ==> users == old(users) && error == Some(LoadUsersFailed)
    {
      if response.Ok? {
        users := response.data.GetOr([]);
      } else {
        error := Some(LoadUsersFailed);
      }
      loading := false;
    }

    method HandleChangePage(page: nat)
      modifies this
      ensures paging == old(paging).(page := page)
      ensures users == old(users) && loading == old(loading) && error == old(error)
    {
      paging := paging.(page := page);
    }

    /** The page size is parsed in radix 25: the options 5, 10 and 25 give 5, 25 and 55
        rows. */
    method HandleChangeRowsPerPage(option: nat)
      requires option in RowsPerPageOptions
      modifies this
      ensures paging == ChangeRowsPerPage(option, 25)
      ensures paging.rowsPerPage == (if option == 5 then 5 else if option == 10 then 25 else 55)
      ensures users == old(users) && loading == old(loading) && error == old(error)
    {
      ChosenSizeTaken(option);
      paging := Paging(0, ParsedRowsPerPage(option, 25));
    }
  }
}
