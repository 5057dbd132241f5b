/** The trip data the itinerary form collects and the document builder reads.
    Every value is immutable once the form hands it over. Strings that the
    source tests for truthiness are empty here when the field is empty or
    missing; counts and amounts that the source defaults with `|| 0` or `|| 1`
    are natural numbers whose 0 stands for "empty or missing". */
module Trip {
  import opened DateHelpers

  datatype Option<T> = None | Some(value: T)

  /** One entry of a day plan. `time` is a time slot (Morning, Afternoon,
      Evening, Night) and `kind` an activity type; both are display text. */
  datatype Activity = Activity(
    time: string,
    title: string,
    description: string,
    duration: string,
    kind: string)

  datatype DayPlan = DayPlan(date: DateValue, activities: seq<Activity>)

  datatype Flight = Flight(
    date: DateValue,
    airline: string,
    from: string,
    to: string,
    departure: string,
    arrival: string)

  /** `nights` is optional: a missing value prints as '' in the hotel table and
      costs nothing, while 0 prints as "0". */
  datatype Hotel = Hotel(
    city: string,
    name: string,
    checkIn: DateValue,
    checkOut: DateValue,
    nights: Option<nat>)

  /** The values of the itinerary form (what `watch()` returns). */
  datatype TripForm = TripForm(
    customerName: string,
    destination: string,
    travelers: nat,
    departureFrom: string,
    departureDate: DateValue,
    returnDate: DateValue,
    days: seq<DayPlan>,
    flights: seq<Flight>,
    hotels: seq<Hotel>,
    installment1: nat,
    installment2: nat)

  /** What the document builder is given: the form values plus the total amount. */
  datatype ItineraryData = ItineraryData(trip: TripForm, totalAmount: nat)
}
