/** src/pages/Booking/Payment.jsx: the last wizard step. `handlePayment` is an async
    function; it is modelled as the three parts its awaits separate: the guard that starts
    the payment, the reply to the show request, and the reply to the booking post. */
module Payment {
  import opened Wrappers
  import opened JsValues
  import opened Entities
  import opened Session
  import Draft
  import Routing
  import TicketSelection

  const FillAllFields := "Please fill out all fields."
  const PaymentFailed := "Payment failed. Please try again."

  /** The booking the step posts: the draft with the card owner and number from the form,
      the user from the session and the show as just fetched. Expiry date and CVV are not
      part of it. */
  datatype BookingPayload = BookingPayload(movieId: Value, showId: Value, noOfTickets: Value,
                                           totalCost: Value, cardNumber: Value, nameOnCard: Value,
                                           user: User, show: Show)

  /** The `user` object of the payload. The session keeps only webUserId and role, so the
      six profile fields read from it are undefined. */
  function SessionProfile(u: SessionUser): (r: User)
    ensures r.webUserId == u.webUserId && r.role == u.role
    ensures r.firstName == r.lastName == r.emailId == r.age == r.phoneNumber == r.username == Undefined
  {
    User(u.webUserId, Undefined, Undefined, Undefined, Undefined, Undefined, Undefined, u.role)
  }

  /** `finalBookingData`. */
  function AssemblePayload(d: Draft.BookingDraft, cardNumber: string, nameOnCard: string,
                           u: SessionUser, show: Show): (p: BookingPayload)
    ensures p.movieId == d.movieId && p.showId == d.showId
    ensures p.noOfTickets == d.noOfTickets && p.totalCost == d.totalCost
    ensures p.cardNumber == Str(cardNumber) && p.nameOnCard == Str(nameOnCard)
    ensures p.user == SessionProfile(u) && p.show == show
  {
    BookingPayload(d.movieId, d.showId, d.noOfTickets, d.totalCost, Str(cardNumber),
                   Str(nameOnCard), SessionProfile(u), show)
  }

  /** The guard: one of the four inputs is empty. */
  predicate AnyFieldEmpty(cardNumber: string, nameOnCard: string, expiryDate: string, cvv: string) {
    cardNumber == "" || nameOnCard == "" || expiryDate == "" || cvv == ""
  }

  /** Through the whole wizard: the payload carries the chosen movie, the show id as the
      string the route gave the ticket step (not the backend's number), the count as the
      field holds it (the initial 1 or the typed text) and the gold-price total. */
  lemma WizardPayload(d0: Draft.BookingDraft, movieId: Value, showId: Value, count: Value,
                      k: int, show: Show, price: int, fetched: Show, cardNumber: string,
                      nameOnCard: string, u: SessionUser)
    requires showId.Num? && ToNumber(count) == Some(k) && show.classCostGold == Num(price)
    ensures Routing.RouteParam("/ticketSelection/", "/ticketSelection/" + ToString(showId)) == Some(ToString(showId))
    ensures var d := Draft.WithTickets(Draft.WithShow(Draft.WithMovie(d0, movieId), showId),
                                       Str(ToString(showId)), count,
                                       TicketSelection.TicketTotal(count, show));
            var p := AssemblePayload(d, cardNumber, nameOnCard, u, fetched);
            && p.movieId == movieId && p.showId == Str(ToString(showId)) && p.showId != showId
            && p.noOfTickets == count && p.totalCost == Num(k * price)
  {
    Routing.ParamOfId("/ticketSelection/", showId);
    TicketSelection.CountTimesGoldPrice(count, k, show, price);
  }

  class PaymentPage {
    var loading: bool
    var cardNumber: string
    var nameOnCard: string
    var expiryDate: string
    var cvv: string
    var error: Option<string>

    constructor()
      ensures !loading && error == None
      ensures cardNumber == nameOnCard == expiryDate == cvv == ""
    {
      loading := false;
      cardNumber, nameOnCard, expiryDate, cvv := "", "", "", "";
      error := None;
    }

    /** The four inputs' change handlers. */
    method Edit(newCardNumber: string, newNameOnCard: string, newExpiryDate: string, newCvv: string)
      modifies this
      ensures cardNumber == newCardNumber && nameOnCard == newNameOnCard
      ensures expiryDate == newExpiryDate && cvv == newCvv
      ensures loading == old(loading) && error == old(error)
    {
      cardNumber, nameOnCard, expiryDate, cvv := newCardNumber, newNameOnCard, newExpiryDate, newCvv;
    }

    /** `handlePayment` up to its first await; the button is disabled while loading. With
        an input empty, only the error is set; otherwise the spinner starts, the error is
        cleared and the show named in the draft is requested. */
    method StartPayment(d: Draft.BookingDraft) returns (request: Option<string>)
      requires !loading
      modifies this
      ensures cardNumber == old(cardNumber) && nameOnCard == old(nameOnCard)
      ensures expiryDate == old(expiryDate) && cvv == old(cvv)
      ensures AnyFieldEmpty(cardNumber, nameOnCard, expiryDate, cvv) ==>
                request == None && !loading && error == Some(FillAllFields)
      ensures !AnyFieldEmpty(cardNumber, nameOnCard, expiryDate, cvv) ==>
                request == Some("/shows/" + ToString(d.showId)) && loading && error == None
    {
      if cardNumber == "" || nameOnCard == "" || expiryDate == "" || cvv == "" {
        error := Some(FillAllFields);
        request := None;
        return;
      }
      loading := true;
      error := None;
      request := Some("/shows/" + ToString(d.showId));
    }

    /** The show request settles: a failure ends the payment with the error; a reply is
        turned into the booking to post. */
    method ShowFetched(d: Draft.BookingDraft, u: SessionUser, response: Response<Show>)
      returns (post: Option<BookingPayload>)
      modifies this
      ensures cardNumber == old(cardNumber) && nameOnCard == old(nameOnCard)
      ensures expiryDate == old(expiryDate) && cvv == old(cvv)
      ensures response.Failed? ==> post == None && !loading && error == Some(PaymentFailed)
      ensures response.Ok? ==> post == Some(AssemblePayload(d, cardNumber, nameOnCard, u, response.data))
                               && loading == old(loading) && error == old(error)
    {
      if response.Failed? {
        loading := false;
        error := Some(PaymentFailed);
        post := None;
      } else {
        post := Some(BookingPayload(d.movieId, d.showId, d.noOfTickets, d.totalCost,
                                    Str(cardNumber), Str(nameOnCard), SessionProfile(u), response.data));
      }
    }

    /** The booking post settles. Only status 201 leads to the confirmation of the booking
        the backend returns; another success status changes nothing, so the spinner stays;
        a failure ends the payment with the error. */
    method PostSettled(response: Response<Booking>) returns (target: Option<string>)
      modifies this
      ensures cardNumber == old(cardNumber) && nameOnCard == old(nameOnCard)
      ensures expiryDate == old(expiryDate) && cvv == old(cvv)
      ensures response.Failed? ==> target == None && !loading && error == Some(PaymentFailed)
      ensures response.Ok? && response.status == 201 ==>
                target == Some("/bookingSuccess/" + ToString(response.data.bookingId))
                && !loading && error == old(error)
      ensures response.Ok? && response.status != 201 ==>
                target == None && loading == old(loading) && error == old(error)
    {
      target := None;
      if response.Failed? {
        loading := false;
        error := Some(PaymentFailed);
      } else if response.status == 201 {
        loading := false;
        target := Some("/bookingSuccess/" + ToString(response.data.bookingId));
      }
    }
  }
}
