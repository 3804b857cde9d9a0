/** The records the backend sends and receives, with the fields the pages read. A field
    the backend leaves out is Undefined; a nested record may be missing (None). */
module Entities {
  import opened Wrappers
  import opened JsValues

  datatype Theatre = Theatre(theatreId: Value, nameOfTheatre: Value, noOfScreens: Value, area: Value)

  datatype Screen = Screen(screenId: Value, noOfSeatsGold: Value, noOfSeatsSilver: Value,
                           theatre: Option<Theatre>)

  datatype Movie = Movie(movieId: Value, name: Value, language: Value, genre: Value,
                         targetAudience: Value)

  datatype Show = Show(showId: Value, showDate: Value, showTime: Value,
                       seatsRemainingGold: Value, seatsRemainingSilver: Value,
                       classCostGold: Value, classCostSilver: Value,
                       screen: Option<Screen>, movie: Option<Movie>)

  datatype User = User(webUserId: Value, firstName: Value, lastName: Value, emailId: Value,
                       age: Value, phoneNumber: Value, username: Value, role: Value)

  datatype Booking = Booking(bookingId: Value, noOfTickets: Value, totalCost: Value,
                             user: Option<User>, show: Option<Show>)
}
