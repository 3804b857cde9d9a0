/** The client-side pagination every list page shares: the visible rows are
    `rows.slice(page * rowsPerPage, page * rowsPerPage + rowsPerPage)`, the pager counts all
    rows, and changing the page size goes back to the first page. */
module Pagination {
  import opened Wrappers
  import opened JsValues

  datatype Paging = Paging(page: nat, rowsPerPage: nat)

  /** The page sizes the pager offers. */
  const RowsPerPageOptions: seq<nat> := [5, 10, 25]

  function Min(a: int, b: int): int {
    if a <= b then a else b
  }

  /** `s.slice(start, end)` for non-negative bounds. */
  function Slice<T>(s: seq<T>, start: nat, end: nat): (r: seq<T>)
    ensures |r| == if start >= Min(end, |s|) then 0 else Min(end, |s|) - start
    ensures |r| > 0 ==> start + |r| <= |s|
    ensures forall i :: 0 <= i < |r| ==> r[i] == s[start + i]
  {
    if start >= Min(end, |s|) then [] else s[start..Min(end, |s|)]
  }

  /** The rows of the current page. */
  function Window<T>(rows: seq<T>, p: Paging): (r: seq<T>)
    ensures |r| <= p.rowsPerPage
    ensures p.page * p.rowsPerPage >= |rows| ==> r == []
    ensures (p.page + 1) * p.rowsPerPage <= |rows| ==> |r| == p.rowsPerPage
    ensures |r| > 0 ==> p.page * p.rowsPerPage + |r| <= |rows|
    ensures forall i :: 0 <= i < |r| ==> r[i] == rows[p.page * p.rowsPerPage + i]
  {
    Slice(rows, p.page * p.rowsPerPage, p.page * p.rowsPerPage + p.rowsPerPage)
  }

  /** Every row is shown, on page i / rowsPerPage at position i % rowsPerPage. */
  lemma RowOnItsPage<T>(rows: seq<T>, rowsPerPage: nat, i: nat)
    requires rowsPerPage > 0 && i < |rows|
    ensures var w := Window(rows, Paging(i / rowsPerPage, rowsPerPage));
            i % rowsPerPage < |w| && w[i % rowsPerPage] == rows[i]
  {
    var p := Paging(i / rowsPerPage, rowsPerPage);
    assert p.page * rowsPerPage + i % rowsPerPage == i;
  }

  /** `parseInt(event.target.value, radix)` on a page size the pager offers. */
  function ParsedRowsPerPage(option: nat, radix: nat): (n: nat)
    requires option in RowsPerPageOptions && (radix == 10 || radix == 25)
    ensures ParseInt(IntToString(option), radix) == Some(n)
  {
    OptionParses(option);
    if radix == 10 then option
    else if option == 5 then 5 else if option == 10 then 25 else 55
  }

  /** The sizes on offer read as themselves in radix 10, and as 5, 25 and 55 in radix 25. */
  lemma OptionParses(option: nat)
    requires option in RowsPerPageOptions
    ensures ParseInt(IntToString(option), 10) == Some(option)
    ensures ParseInt(IntToString(option), 25) == Some(if option == 5 then 5 else if option == 10 then 25 else 55)
  {
    assert option == 5 || option == 10 || option == 25;
    OptionText(option);
    if option == 5 {
      Parse5In10();
      Parse5In25();
    } else if option == 10 {
      Parse10In10();
      Parse10In25();
    } else {
      Parse25In10();
      Parse25In25();
    }
  }

  /** What parseInt makes of the three offered sizes in radix 10 and in radix 25. */
  lemma RadixValues()
    ensures ParseInt(IntToString(5), 10) == Some(5) && ParseInt(IntToString(5), 25) == Some(5)
    ensures ParseInt(IntToString(10), 10) == Some(10) && ParseInt(IntToString(10), 25) == Some(25)
    ensures ParseInt(IntToString(25), 10) == Some(25) && ParseInt(IntToString(25), 25) == Some(55)
  {
    OptionParses(5);
    OptionParses(10);
    OptionParses(25);
  }

  /** The text of each offered size. */
  lemma OptionText(option: nat)
    requires option == 5 || option == 10 || option == 25
    ensures option == 5 ==> IntToString(option) == "5"
    ensures option == 10 ==> IntToString(option) == "10"
    ensures option == 25 ==> IntToString(option) == "25"
  {
    if option >= 10 {
      assert DecimalString(option) == DecimalString(option / 10) + [DigitChar(option % 10)];
    }
  }

  lemma Parse5In10() ensures ParseInt("5", 10) == Some(5) { ParseIntOfDigits("5", 10); }
  lemma Parse5In25() ensures ParseInt("5", 25) == Some(5) { ParseIntOfDigits("5", 25); }
  lemma Parse10In10() ensures ParseInt("10", 10) == Some(10) { ParseIntOfDigits("10", 10); }
  lemma Parse10In25() ensures ParseInt("10", 25) == Some(25) { ParseIntOfDigits("10", 25); }
  lemma Parse25In10() ensures ParseInt("25", 10) == Some(25) { ParseIntOfDigits("25", 10); }
  lemma Parse25In25() ensures ParseInt("25", 25) == Some(55) { ParseIntOfDigits("25", 25); }

  /** `handleChangeRowsPerPage`: the parsed size, back to page 0. */
  function ChangeRowsPerPage(option: nat, radix: nat): (q: Paging)
    requires option in RowsPerPageOptions && (radix == 10 || radix == 25)
    ensures q.page == 0
    ensures ParseInt(IntToString(option), radix) == Some(q.rowsPerPage)
  {
    Paging(0, ParsedRowsPerPage(option, radix))
  }

  /** In radix 10 the chosen size is the size shown; the pages that parse in radix 25 show
      5, 25 and 55 rows for the options 5, 10 and 25. */
  lemma ChosenSizeTaken(option: nat)
    requires option in RowsPerPageOptions
    ensures ChangeRowsPerPage(option, 10).rowsPerPage == option
    ensures ChangeRowsPerPage(option, 25).rowsPerPage == (if option == 5 then 5 else if option == 10 then 25 else 55)
  {
  }

  /** What a list page shows: the loading text, the error text, or the table. */
  datatype ListView<T> = LoadingView | ErrorView(message: string)
                       | TableView(rows: seq<T>, count: nat, page: nat, rowsPerPage: nat)

  /** The render of a list page. */
  function Render<T>(loading: bool, error: Option<string>, rows: seq<T>, p: Paging): (v: ListView<T>)
    ensures v.LoadingView? <==> loading
    ensures v.ErrorView? <==> !loading && error.Some? && error.value != ""
    ensures v.TableView? ==> v.count == |rows| && v.rows == Window(rows, p) && v.page == p.page
                             && v.rowsPerPage == p.rowsPerPage
  {
    if loading then LoadingView
    else if error.Some? && error.value != "" then ErrorView(error.value)
    else TableView(Window(rows, p), |rows|, p.page, p.rowsPerPage)
  }
}
