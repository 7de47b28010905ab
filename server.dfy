/**
 * The server's state and its five tools: `search_tours`,
 * `get_tour_details`, `create_booking`, `check_availability` and
 * `get_booking_status`. The catalogue and the booking store are the two
 * fields of one server object; only `create_booking` changes anything,
 * and only by appending to the booking store.
 */
module Server {
  import opened Wrappers
  import opened Sequences
  import opened Catalogue
  import opened Queries

  /** What `search_tours` reports: "no tours found", or the count and the list. */
  datatype SearchOutcome = NoToursFound | ToursFound(count: nat, tours: seq<Tour>)

  /** What `check_availability` reports; the total is quoted only when the group fits. */
  datatype AvailabilityOutcome =
    | AvailabilityTourUnknown
    | SlotsAvailable(tour: Tour, total: int)
    | NotEnoughSlots(tour: Tour)

  /** The arguments of `create_booking`. */
  datatype BookingRequest = BookingRequest(
    tourId: string,
    customerName: string,
    customerEmail: string,
    customerPhone: string,
    travelDate: string,
    partySize: int)

  /** What `create_booking` reports. */
  datatype BookingOutcome =
    | BookingTourUnknown
    | InsufficientSlots(slots: int, requested: int)
    | Created(booking: Booking)

  function HasTourId(id: string): Tour -> bool
  {
    (t: Tour) => t.id == id
  }

  function HasBookingId(id: string): Booking -> bool
  {
    (b: Booking) => b.id == id
  }

  /**
   * The decision `create_booking` takes for a request, given the catalogue,
   * the clock reading `now` (milliseconds) and the creation timestamp: an
   * unknown tour is reported first, then a party larger than the tour's
   * slots; otherwise a pending booking priced at price times party size.
   */
  function Decide(tours: seq<Tour>, req: BookingRequest, now: nat, createdAt: string): (r: BookingOutcome)
    ensures r.BookingTourUnknown? <==> forall i :: 0 <= i < |tours| ==> tours[i].id != req.tourId
    ensures r.InsufficientSlots? ==>
      exists t :: IsFirstMatch(tours, HasTourId(req.tourId), t) && t.slots < req.partySize
        && r.slots == t.slots && r.requested == req.partySize
    ensures r.Created? ==>
      exists t :: IsFirstMatch(tours, HasTourId(req.tourId), t) && t.slots >= req.partySize
        && r.booking.tourName == t.name && r.booking.totalAmount == t.price * req.partySize
    ensures r.Created? ==>
      && r.booking.id == BookingId(now)
      && r.booking.tourId == req.tourId
      && r.booking.customerName == req.customerName
      && r.booking.customerEmail == req.customerEmail
      && r.booking.customerPhone == req.customerPhone
      && r.booking.travelDate == req.travelDate
      && r.booking.partySize == req.partySize
      && r.booking.status == Pending
      && r.booking.createdAt == createdAt
  {
    match Find(tours, HasTourId(req.tourId))
    case None => BookingTourUnknown
    case Some(t) =>
      if t.slots < req.partySize then InsufficientSlots(t.slots, req.partySize)
      else Created(Booking(BookingId(now), req.tourId, t.name, req.customerName, req.customerEmail,
                           req.customerPhone, req.travelDate, req.partySize, t.price * req.partySize,
                           Pending, createdAt))
  }

  /**
   * A booking as `create_booking` records it: its tour is in the catalogue,
   * the party (at most 20 people) fitted the tour's slots, it is priced at
   * price times party size, and it is pending.
   */
  predicate Accepted(tours: seq<Tour>, b: Booking)
  {
    match Find(tours, HasTourId(b.tourId))
    case None => false
    case Some(t) =>
      && b.tourName == t.name
      && 1 <= b.partySize <= 20
      && b.partySize <= t.slots
      && b.totalAmount == t.price * b.partySize
      && b.status == Pending
  }

  class TravelServer {
    /** The tour catalogue; no tool writes it. */
    var tours: seq<Tour>
    /** The booking store, grown only by `create_booking`. */
    var bookings: seq<Booking>

    ghost predicate Valid()
      reads this
    {
      forall i :: 0 <= i < |bookings| ==> Accepted(tours, bookings[i])
    }

    /** The server at start-up: the seeded catalogue and no bookings. */
    constructor ()
      ensures tours == DemoTours && bookings == []
      ensures Valid()
    {
      tours := DemoTours;
      bookings := [];
    }

    /**
     * `search_tours`: "no tours found" exactly when no catalogue tour
     * satisfies the supplied filters; otherwise the filtered list and its
     * length.
     */
    method SearchTours(q: Query) returns (out: SearchOutcome)
      ensures out.NoToursFound? <==> forall t :: t in tours ==> !Selected(q, t)
      ensures out.ToursFound? ==> out.tours == Search(tours, q) && out.count == |out.tours| > 0
    {
      var results := tours;
      if TruthyString(q.destination) {
        results := FilterLoop(results, ByDestination(q.destination.value));
      }
      if TruthyNumber(q.maxPrice) {
        results := FilterLoop(results, ByMaxPrice(q.maxPrice.value));
      }
      if TruthyString(q.duration) {
        results := FilterLoop(results, ByDuration(q.duration.value));
      }
      SearchCorrect(tours, q);
      if |results| == 0 {
        out := NoToursFound;
      } else {
        assert results[0] in results;
        out := ToursFound(|results|, results);
      }
    }

    /** `get_tour_details`: the first tour with the id, or not found when no tour has it. */
    function GetTourDetails(tourId: string): (r: Option<Tour>)
      reads this
      ensures r.None? <==> forall i :: 0 <= i < |tours| ==> tours[i].id != tourId
      ensures r.Some? ==> r.value.id == tourId && IsFirstMatch(tours, HasTourId(tourId), r.value)
    {
      Find(tours, HasTourId(tourId))
    }

    /**
     * `check_availability`: not found for an unknown id; otherwise available
     * exactly when the first tour with the id has at least `partySize`
     * slots, quoting price times party size. The travel date plays no part.
     */
    function CheckAvailability(tourId: string, travelDate: string, partySize: int): (r: AvailabilityOutcome)
      reads this
      ensures r.AvailabilityTourUnknown? <==> forall i :: 0 <= i < |tours| ==> tours[i].id != tourId
      ensures r.SlotsAvailable? ==>
        IsFirstMatch(tours, HasTourId(tourId), r.tour) && r.tour.slots >= partySize
          && r.total == r.tour.price * partySize
      ensures r.NotEnoughSlots? ==>
        IsFirstMatch(tours, HasTourId(tourId), r.tour) && r.tour.slots < partySize
    {
      match Find(tours, HasTourId(tourId))
      case None => AvailabilityTourUnknown
      case Some(t) =>
        if t.slots >= partySize then SlotsAvailable(t, t.price * partySize) else NotEnoughSlots(t)
    }

    /** `get_booking_status`: the first stored booking with the id, or not found. */
    function GetBookingStatus(bookingId: string): (r: Option<Booking>)
      reads this
      ensures r.None? <==> forall i :: 0 <= i < |bookings| ==> bookings[i].id != bookingId
      ensures r.Some? ==> r.value.id == bookingId && IsFirstMatch(bookings, HasBookingId(bookingId), r.value)
    {
      Find(bookings, HasBookingId(bookingId))
    }

    /**
     * `create_booking`. The party size is within 1..20, as the tool's
     * argument schema demands before the handler runs. A rejected request
     * leaves the store as it was; an accepted one appends exactly one
     * booking. The catalogue, slots included, is never changed.
     */
    method CreateBooking(req: BookingRequest, now: nat, createdAt: string) returns (r: BookingOutcome)
      requires Valid()
      requires 1 <= req.partySize <= 20
      modifies this
      ensures Valid()
      ensures tours == old(tours)
      ensures r == Decide(tours, req, now, createdAt)
      ensures bookings == if r.Created? then old(bookings) + [r.booking] else old(bookings)
      ensures r.Created? && old(GetBookingStatus(r.booking.id)).None? ==>
        GetBookingStatus(r.booking.id) == Some(r.booking)
      ensures r.Created? && old(GetBookingStatus(r.booking.id)).Some? ==>
        GetBookingStatus(r.booking.id) == old(GetBookingStatus(r.booking.id))
    {
      var found := Find(tours, HasTourId(req.tourId));
      if found.None? {
        r := BookingTourUnknown;
        return;
      }
      var tour := found.value;
      if tour.slots < req.partySize {
        r := InsufficientSlots(tour.slots, req.partySize);
        return;
      }
      var booking := Booking(BookingId(now), req.tourId, tour.name, req.customerName, req.customerEmail,
                             req.customerPhone, req.travelDate, req.partySize, tour.price * req.partySize,
                             Pending, createdAt);
      LookupAfterAppend(bookings, booking);
      bookings := bookings + [booking];
      r := Created(booking);
    }
  }

  /**
   * `check_availability` and `create_booking` agree: for the same tour and
   * party size, one says "available" exactly when the other accepts, an
   * unknown tour is unknown to both, and the quoted total is the amount
   * booked.
   */
  lemma AvailabilityPredictsBooking(s: TravelServer, req: BookingRequest, now: nat, createdAt: string)
    ensures s.CheckAvailability(req.tourId, req.travelDate, req.partySize).AvailabilityTourUnknown?
        <==> Decide(s.tours, req, now, createdAt).BookingTourUnknown?
    ensures s.CheckAvailability(req.tourId, req.travelDate, req.partySize).SlotsAvailable?
        <==> Decide(s.tours, req, now, createdAt).Created?
    ensures Decide(s.tours, req, now, createdAt).Created? ==>
      Decide(s.tours, req, now, createdAt).booking.totalAmount
        == s.CheckAvailability(req.tourId, req.travelDate, req.partySize).total
  {
  }

  /**
   * Looking a booking up right after appending it finds it unless an
   * earlier booking has the same id, in which case the earlier one is
   * found.
   */
  lemma {:induction false} LookupAfterAppend(bookings: seq<Booking>, b: Booking)
    ensures (forall i :: 0 <= i < |bookings| ==> bookings[i].id != b.id) ==>
      Find(bookings + [b], HasBookingId(b.id)) == Some(b)
    ensures (exists i :: 0 <= i < |bookings| && bookings[i].id == b.id) ==>
      Find(bookings + [b], HasBookingId(b.id)) == Find(bookings, HasBookingId(b.id))
  {
    FindAfterAppend(bookings, b, HasBookingId(b.id));
  }

  /** Every booking the store holds is pending and priced at its tour's price times its party size. */
  lemma StoredBookingsArePending(s: TravelServer, bookingId: string)
    requires s.Valid()
    ensures s.GetBookingStatus(bookingId).Some? ==>
      var b := s.GetBookingStatus(bookingId).value;
      && b.status == Pending
      && 1 <= b.partySize <= 20
      && s.GetTourDetails(b.tourId).Some?
      && b.totalAmount == s.GetTourDetails(b.tourId).value.price * b.partySize
  {
  }

  /** Booking three people on the Boracay tour (12800 per person) costs 38400 and is pending. */
  lemma BookingScenario(req: BookingRequest, now: nat, createdAt: string)
    requires req.tourId == "t2" && req.partySize == 3
    ensures Decide(DemoTours, req, now, createdAt).Created?
    ensures Decide(DemoTours, req, now, createdAt).booking.totalAmount == 38400
    ensures Decide(DemoTours, req, now, createdAt).booking.status == Pending
  {
  }

  /** A group of nine does not fit the Siargao tour's eight slots. */
  lemma AvailabilityScenario(s: TravelServer, travelDate: string)
    requires s.tours == DemoTours
    ensures s.CheckAvailability("t3", travelDate, 9) == NotEnoughSlots(DemoTours[2])
  {
  }

  /**
   * Slots are never deducted, so the same eight-person request for the
   * eight-slot Siargao tour is accepted again and again: two accepted
   * bookings already hold sixteen people.
   */
  lemma OversellScenario(req: BookingRequest, now1: nat, now2: nat, createdAt: string)
    requires req.tourId == "t3" && req.partySize == 8
    ensures Decide(DemoTours, req, now1, createdAt).Created?
    ensures Decide(DemoTours, req, now2, createdAt).Created?
    ensures Decide(DemoTours, req, now1, createdAt).booking.partySize
          + Decide(DemoTours, req, now2, createdAt).booking.partySize > DemoTours[2].slots
  {
  }

  /**
   * Two bookings made within the same millisecond share an id, and looking
   * that id up then returns the earlier booking, not the one just made.
   */
  lemma SameMillisecondShadowsLookup(now: nat, createdAt: string)
    ensures
      var first := Decide(DemoTours, BookingRequest("t1", "A", "a@x.ph", "1", "2026-01-01", 1), now, createdAt);
      var second := Decide(DemoTours, BookingRequest("t2", "B", "b@x.ph", "2", "2026-01-01", 3), now, createdAt);
      && first.Created? && second.Created?
      && second.booking.id == first.booking.id
      && Find([first.booking, second.booking], HasBookingId(second.booking.id)) == Some(first.booking)
      && first.booking != second.booking
  {
  }

  /**
   * On a fresh server, booking three people on tour t2 and then asking for
   * the booking's status finds that booking, pending, at 38400.
   */
  method BookThenLookUp(now: nat, createdAt: string) returns (r: BookingOutcome, status: Option<Booking>)
    ensures r.Created? && r.booking.totalAmount == 38400
    ensures status == Some(r.booking) && status.value.status == Pending
  {
    var server := new TravelServer();
    var req := BookingRequest("t2", "Juan dela Cruz", "juan@example.ph", "0917", "2026-12-01", 3);
    BookingScenario(req, now, createdAt);
    r := server.CreateBooking(req, now, createdAt);
    status := server.GetBookingStatus(r.booking.id);
  }

  /** Books the eight-person party on tour t3 of a server still holding the seeded catalogue. */
  method BookEightOnT3(server: TravelServer, now: nat, createdAt: string) returns (r: BookingOutcome)
    requires server.Valid() && server.tours == DemoTours
    modifies server
    ensures server.Valid() && server.tours == DemoTours
    ensures r.Created? && r.booking.partySize == 8
    ensures server.bookings == old(server.bookings) + [r.booking]
  {
    var req := BookingRequest("t3", "Maria Santos", "maria@example.ph", "0918", "2026-12-01", 8);
    OversellScenario(req, now, now, createdAt);
    r := server.CreateBooking(req, now, createdAt);
  }

  /**
   * On a fresh server, two successive eight-person bookings of the
   * eight-slot tour t3 are both accepted: the store then holds both,
   * sixteen people in all, and the tour still offers eight slots.
   */
  method BookTwiceOversells(now1: nat, now2: nat, createdAt: string)
    returns (first: BookingOutcome, second: BookingOutcome, stored: seq<Booking>, slotsLeft: int)
    ensures first.Created? && second.Created?
    ensures stored == [first.booking, second.booking]
    ensures first.booking.partySize + second.booking.partySize == 16 > slotsLeft == 8
  {
    var server := new TravelServer();
    first := BookEightOnT3(server, now1, createdAt);
    second := BookEightOnT3(server, now2, createdAt);
    stored := server.bookings;
    slotsLeft := server.tours[2].slots;
  }

  /**
   * On a fresh server, two bookings made in the same millisecond share an
   * id, and a status lookup of the second booking's id returns the first,
   * different booking.
   */
  method SameMillisecondOnOneServer(now: nat, createdAt: string)
    returns (first: BookingOutcome, second: BookingOutcome, found: Option<Booking>)
    ensures first.Created? && second.Created?
    ensures first.booking.id == second.booking.id && first.booking != second.booking
    ensures found == Some(first.booking)
  {
    var server := new TravelServer();
    SameMillisecondShadowsLookup(now, createdAt);
    first := server.CreateBooking(BookingRequest("t1", "A", "a@x.ph", "1", "2026-01-01", 1), now, createdAt);
    second := server.CreateBooking(BookingRequest("t2", "B", "b@x.ph", "2", "2026-01-01", 3), now, createdAt);
    found := server.GetBookingStatus(second.booking.id);
  }
}
