/** The booking draft Dashboard owns and hands, with its setter, to every step of the
    ticket-purchase wizard. */
module Draft {
  import opened JsValues

  /** `bookingData`. Route parameters and text inputs are strings, backend ids numbers. */
  datatype BookingDraft = BookingDraft(movieId: Value, showId: Value, noOfTickets: Value,
                                       totalCost: Value, cardNumber: Value, nameOnCard: Value)

  const InitialDraft := BookingDraft(Str(""), Str(""), Num(1), Num(0), Str(""), Str(""))

  /** The movie step: `{...bookingData, movieId}`. */
  function WithMovie(d: BookingDraft, movieId: Value): (r: BookingDraft)
    ensures r.movieId == movieId
    ensures r.(movieId := d.movieId) == d
  {
    d.(movieId := movieId)
  }

  /** The show step: `{...bookingData, showId}`. */
  function WithShow(d: BookingDraft, showId: Value): (r: BookingDraft)
    ensures r.showId == showId
    ensures r.(showId := d.showId) == d
  {
    d.(showId := showId)
  }

  /** The ticket step: `{...bookingData, showId, noOfTickets, totalCost}`. */
  function WithTickets(d: BookingDraft, showId: Value, noOfTickets: Value, totalCost: Value): (r: BookingDraft)
    ensures r.showId == showId && r.noOfTickets == noOfTickets && r.totalCost == totalCost
    ensures r.movieId == d.movieId && r.cardNumber == d.cardNumber && r.nameOnCard == d.nameOnCard
  {
    d.(showId := showId, noOfTickets := noOfTickets, totalCost := totalCost)
  }

  /** The state cell `[bookingData, setBookingData]`; one cell serves all the steps. */
  class DraftCell {
    var draft: BookingDraft

    constructor()
      ensures draft == InitialDraft
    {
      draft := InitialDraft;
    }
  }
}
