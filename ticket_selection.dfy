/** src/pages/Booking/TicketSelection.jsx: the third wizard step, the number of tickets and
    the price. */
module TicketSelection {
  import opened Wrappers
  import opened JsValues
  import opened Entities
  import Draft

  const LoadShowFailed := "Failed to load show details. Please try again later."

  /** `ticketCount * (showDetails.classCostGold || 0)`: every ticket is priced as a gold
      seat, and a show without a gold price costs nothing. */
  function TicketTotal(ticketCount: Value, show: Show): (total: Value)
    ensures total.Num? || total.NaN?
    ensures total.Num? <==> ToNumber(ticketCount).Some?
                            && (!Truthy(show.classCostGold) || ToNumber(show.classCostGold).Some?)
  {
    Mul(ticketCount, Or(show.classCostGold, Num(0)))
  }

  /** Whatever the count field holds, the initial number 1 or the typed text, the total is
      the count as a number times the gold price. */
  lemma CountTimesGoldPrice(count: Value, k: int, show: Show, price: int)
    requires ToNumber(count) == Some(k) && show.classCostGold == Num(price)
    ensures TicketTotal(count, show) == Num(k * price)
  {
  }

  /** The untouched field's count 1 costs one gold seat, and a typed integer n, negative
      included, costs n gold seats. */
  lemma InitialAndTypedCounts(n: int, show: Show, price: int)
    requires show.classCostGold == Num(price)
    ensures TicketTotal(Num(1), show) == Num(price)
    ensures TicketTotal(Str(IntToString(n)), show) == Num(n * price)
  {
    CountTimesGoldPrice(Num(1), 1, show, price);
    NumberOfIntToString(n);
    CountTimesGoldPrice(Str(IntToString(n)), n, show, price);
  }

  /** The silver price plays no part. */
  lemma SilverPriceIgnored(ticketCount: Value, show: Show, silver: Value)
    ensures TicketTotal(ticketCount, show.(classCostSilver := silver)) == TicketTotal(ticketCount, show)
  {
  }

  /** A show whose gold price is missing, null or zero gives a total of 0 for any numeric
      count; a cleared count field ("") gives 0 too, and a count that is no number NaN. */
  lemma Edges(ticketCount: Value, show: Show)
    ensures !Truthy(show.classCostGold) && ToNumber(ticketCount).Some? ==> TicketTotal(ticketCount, show) == Num(0)
    ensures show.classCostGold.Num? ==> TicketTotal(Str(""), show) == Num(0)
    ensures ToNumber(ticketCount).None? ==> TicketTotal(ticketCount, show) == NaN
  {
  }

  /** The worked example: three tickets at a gold price of 10 cost 30. */
  lemma ThreeGoldTickets(show: Show)
    requires show.classCostGold == Num(10)
    ensures TicketTotal(Str("3"), show) == Num(30)
  {
    assert IntToString(3) == "3";
    InitialAndTypedCounts(3, show, 10);
  }

  class TicketSelectionPage {
    /** The `:showId` route parameter, a string. */
    const showId: string
    var showDetails: Option<Show>
    var loading: bool
    var error: Option<string>
    var ticketCount: Value

    /** Once loaded without error, the show details are present. */
    predicate Valid()
      reads this
    {
      !loading && error.None? ==> showDetails.Some?
    }

    constructor(showId: string)
      ensures this.showId == showId
      ensures showDetails == None && loading && error == None && ticketCount == Num(1)
      ensures Valid()
    {
      this.showId := showId;
      showDetails := None;
      loading := true;
      error := None;
      ticketCount := Num(1);
    }

    /** The request this page sends on mount. */
    function Request(): string
      reads this
    {
      "/shows/" + showId
    }

    /** The show request settles. */
    method FetchSettled(response: Response<Show>)
      requires Valid()
      modifies this
      ensures Valid() && !loading && ticketCount == old(ticketCount)
      ensures response.Ok? ==> showDetails == Some(response.data) && error == old(error)
      ensures response.Failed? ==> showDetails == old(showDetails) && error == Some(LoadShowFailed)
    {
      if response.Ok? {
        showDetails := Some(response.data);
      } else {
        error := Some(LoadShowFailed);
      }
      loading := false;
    }

    /** `handleTicketChange`: the field's value is kept as given, a string; its min and
        max attributes do not constrain it. */
    method HandleTicketChange(value: string)
      modifies this
      ensures ticketCount == Str(value)
      ensures showDetails == old(showDetails) && loading == old(loading) && error == old(error)
    {
      ticketCount := Str(value);
    }

    /** `handleContinue`, reachable once the details are shown: the route's showId, the
        count and the total go into the draft, then on to payment. */
    method HandleContinue(cell: Draft.DraftCell) returns (target: string)
      requires Valid() && !loading && error.None?
      modifies cell
      ensures cell.draft == Draft.WithTickets(old(cell.draft), Str(showId), ticketCount,
                                              TicketTotal(ticketCount, showDetails.value))
      ensures target == "/payment"
    {
      var totalCost := Mul(ticketCount, Or(showDetails.value.classCostGold, Num(0)));
      cell.draft := cell.draft.(showId := Str(showId), noOfTickets := ticketCount, totalCost := totalCost);
      target := "/payment";
    }
  }
}
