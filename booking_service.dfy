/**
 * The booking engine: creation behind the capacity check, the owner-or-ADMIN rule,
 * cancellation, the status and detail overwrites (neither checked for ownership), the amount due
 * and the expiry sweep.
 *
 * Each state-changing operation is given twice: a function from the stored bookings before the
 * call to the result and the bookings after it (the lemmas are about these), and a method of
 * `BookingService` that performs it on the store in place and is proved to agree. The lookups
 * and the amount due change nothing and are functions only.
 */
module BookingServiceImpl {
  import opened Common
  import opened Model
  import opened BookingsRepository

  type Bookings = map<BookingId, Booking>
  type Accommodations = map<AccommodationId, Accommodation>

  /** The body of a booking request (`CreateBookingDto`); the user and status are filled in by the service. */
  datatype CreateBookingRequest = CreateBookingRequest(
    checkinDate: Date, checkoutDate: Date, accommodationId: AccommodationId)

  /** The body of a booking correction (`UpdateBookingDto`). */
  datatype UpdateBookingRequest = UpdateBookingRequest(
    checkinDate: Date, checkoutDate: Date, accommodationId: AccommodationId)

  /** A booking joined with its accommodation (`BookingWithAccommodationInfoDto`). */
  datatype BookingDetails = BookingDetails(booking: Booking, accommodation: Accommodation)

  /** `checkAccess`: the acting user owns the booking or is an ADMIN. */
  predicate CheckAccess(user: User, booking: Booking): (r: bool)
    ensures user.role == Admin ==> r
    ensures user.role == Customer ==> (r <==> booking.userId == user.id)
  {
    booking.userId == user.id || user.role == Admin
  }

  // ---------------------------------------------------------------- availability

  /** Java `int` arithmetic: the value congruent to `x` modulo 2^32 in the `int` range. */
  function WrapInt32(x: int): (r: Int32)
    ensures Int32Min <= x <= Int32Max ==> r == x
    ensures (r - x) % 0x1_0000_0000 == 0
  {
    (x - Int32Min) % 0x1_0000_0000 + Int32Min
  }

  /**
   * `checkAccommodationAvailability` as written: `availability - 1 < size`, the subtraction
   * done in Java `int` arithmetic. True means "not available".
   */
  predicate UnavailableAsWritten(availability: Int32, overlapping: nat): (r: bool)
    ensures availability != Int32Min ==> (r <==> overlapping >= availability)
    ensures availability == Int32Min ==> (r <==> overlapping > Int32Max)
  {
    WrapInt32(availability - 1) < overlapping
  }

  /** With availability `Integer.MIN_VALUE` the subtraction wraps and the check lets every booking through. */
  lemma MinimumAvailabilityPassesCheck(overlapping: nat)
    requires overlapping <= Int32Max
    ensures !UnavailableAsWritten(Int32Min, overlapping)
    ensures IsUnavailable(Int32Min, overlapping)
  {
  }

  /**
   * The capacity check with the subtraction done without overflow: unavailable as soon as the
   * overlapping bookings reach the availability. It differs from the check as written only at
   * availability `Integer.MIN_VALUE`.
   */
  function IsUnavailable(availability: Int32, overlapping: nat): (r: bool)
    ensures r <==> overlapping >= availability
    ensures availability <= 0 ==> r
    ensures availability != Int32Min ==> (r <==> UnavailableAsWritten(availability, overlapping))
  {
    availability - 1 < overlapping
  }

  // ---------------------------------------------------------------- lookups

  /** `getBookingById`: the stored booking, or EntityNotFoundException. */
  function GetBookingById(bookings: Bookings, bookingId: BookingId): (r: Result<Booking>)
    ensures r.Ok? <==> bookingId in bookings
    ensures r.Ok? ==> r.value == bookings[bookingId]
    ensures r.Err? ==> r.error == BookingNotFound(bookingId) && ClassOf(r.error) == EntityNotFound
  {
    if bookingId in bookings then Ok(bookings[bookingId]) else Err(BookingNotFound(bookingId))
  }

  /**
   * `getBookingDetailsById`: the booking with its accommodation, for its owner or an ADMIN.
   * A booking whose accommodation is not stored (possible after `updateBooking`) cannot be
   * joined and fails as not found.
   */
  function GetBookingDetailsById(bookings: Bookings, accommodations: Accommodations,
                                 actor: User, bookingId: BookingId): (r: Result<BookingDetails>)
    ensures r.Ok? <==> bookingId in bookings && CheckAccess(actor, bookings[bookingId])
                        && bookings[bookingId].accommodationId in accommodations
    ensures bookingId !in bookings ==> r == Err(BookingNotFound(bookingId))
    ensures bookingId in bookings && !CheckAccess(actor, bookings[bookingId]) ==>
              r == Err(CannotAccessBookingData) && ClassOf(r.error) == Access
    ensures bookingId in bookings && CheckAccess(actor, bookings[bookingId]) &&
            bookings[bookingId].accommodationId !in accommodations ==>
              r == Err(AccommodationNotFound(bookings[bookingId].accommodationId))
    ensures r.Ok? ==> (r.value.booking == bookings[bookingId] &&
                       r.value.accommodation == accommodations[bookings[bookingId].accommodationId])
  {
    match GetBookingById(bookings, bookingId)
    case Err(e) => Err(e)
    case Ok(booking) =>
      if booking.userId != actor.id && actor.role != Admin then Err(CannotAccessBookingData)
      else if booking.accommodationId !in accommodations then Err(AccommodationNotFound(booking.accommodationId))
      else Ok(BookingDetails(booking, accommodations[booking.accommodationId]))
  }

  // ---------------------------------------------------------------- creation

  /** `save`: look up the accommodation, check capacity, store a PENDING booking of the acting user. */
  function SaveBooking(bookings: Bookings, accommodations: Accommodations, nextId: BookingId,
                       actor: User, request: CreateBookingRequest): (s: Step<BookingId, Bookings>)
    ensures s.result.Ok? <==>
      request.accommodationId in accommodations &&
      |FindByDateRange(bookings, request.accommodationId, request.checkinDate, request.checkoutDate)|
        < accommodations[request.accommodationId].availability
    ensures request.accommodationId !in accommodations ==>
      s.result == Err(AccommodationNotFound(request.accommodationId))
    ensures request.accommodationId in accommodations && s.result.Err? ==> s.result == Err(NotAvailable)
    ensures request.accommodationId in accommodations && accommodations[request.accommodationId].availability <= 0 ==>
      s.result == Err(NotAvailable)
    ensures s.result.Ok? ==>
      s.result.value == nextId &&
      s.state == bookings[nextId := Booking(request.checkinDate, request.checkoutDate,
                                            request.accommodationId, actor.id, Pending)]
    ensures s.result.Err? ==> s.state == bookings
  {
    if request.accommodationId !in accommodations then
      Step(Err(AccommodationNotFound(request.accommodationId)), bookings)
    else
      var accommodation := accommodations[request.accommodationId];
      var overlapping := FindByDateRange(bookings, request.accommodationId,
                                         request.checkinDate, request.checkoutDate);
      if IsUnavailable(accommodation.availability, |overlapping|) then Step(Err(NotAvailable), bookings)
      else
        var booking := Booking(request.checkinDate, request.checkoutDate,
                               request.accommodationId, actor.id, Pending);
        Step(Ok(nextId), bookings[nextId := booking])
  }

  /**
   * After a successful `save`, the stored bookings of that accommodation
   * overlapping the range, the new one included, number at most its availability.
   */
  lemma {:induction false} SaveKeepsOverlapWithinAvailability(
    bookings: Bookings, accommodations: Accommodations, nextId: BookingId,
    actor: User, request: CreateBookingRequest)
    requires nextId !in bookings
    requires SaveBooking(bookings, accommodations, nextId, actor, request).result.Ok?
    ensures |FindByDateRange(SaveBooking(bookings, accommodations, nextId, actor, request).state,
                             request.accommodationId, request.checkinDate, request.checkoutDate)|
            <= accommodations[request.accommodationId].availability
  {
    var after := SaveBooking(bookings, accommodations, nextId, actor, request).state;
    var acc, first, second := request.accommodationId, request.checkinDate, request.checkoutDate;
    var before := FindByDateRange(bookings, acc, first, second);
    var now := FindByDateRange(after, acc, first, second);
    assert now - {nextId} == before by {
      forall id | id in now - {nextId} ensures id in before {
        assert after[id] == bookings[id];
      }
      forall id | id in before ensures id in now - {nextId} {
        assert after[id] == bookings[id];
      }
    }
    if nextId in now {
      assert |now - {nextId}| == |now| - 1;
    } else {
      assert now - {nextId} == now;
    }
  }

  // ---------------------------------------------------------------- status changes

  /** `setBookingStatusCancelled`: the owner or an ADMIN cancels, whatever the prior status. */
  function CancelBooking(bookings: Bookings, actor: User, bookingId: BookingId): (s: Step<Booking, Bookings>)
    ensures s.result.Ok? <==> bookingId in bookings && CheckAccess(actor, bookings[bookingId])
    ensures bookingId !in bookings ==> s.result == Err(BookingNotFound(bookingId))
    ensures bookingId in bookings && !CheckAccess(actor, bookings[bookingId]) ==>
      s.result == Err(CannotAccessBooking)
    ensures s.result.Ok? ==>
      s.state == bookings[bookingId := bookings[bookingId].(status := Canceled)] &&
      s.result.value == s.state[bookingId]
    ensures s.result.Err? ==> s.state == bookings
  {
    match GetBookingById(bookings, bookingId)
    case Err(e) => Step(Err(e), bookings)
    case Ok(booking) =>
      if !CheckAccess(actor, booking) then Step(Err(CannotAccessBooking), bookings)
      else
        var cancelled := booking.(status := Canceled);
        Step(Ok(cancelled), bookings[bookingId := cancelled])
  }

  /** Cancelling a second time returns the same booking and leaves the same store. */
  lemma CancelIsIdempotent(bookings: Bookings, actor: User, bookingId: BookingId)
    ensures var once := CancelBooking(bookings, actor, bookingId);
            CancelBooking(once.state, actor, bookingId) == once
  {
    var once := CancelBooking(bookings, actor, bookingId);
    if once.result.Ok? {
      assert once.state[bookingId].userId == bookings[bookingId].userId;
      assert once.state[bookingId := once.state[bookingId].(status := Canceled)] == once.state;
    }
  }

  /** `updateBookingStatus`: overwrite the status of any booking that is not CANCELED. */
  function OverwriteStatus(bookings: Bookings, bookingId: BookingId, status: BookingStatus)
    : (s: Step<Booking, Bookings>)
    ensures s.result.Ok? <==> bookingId in bookings && bookings[bookingId].status != Canceled
    ensures bookingId !in bookings ==> s.result == Err(BookingNotFound(bookingId))
    ensures bookingId in bookings && bookings[bookingId].status == Canceled ==>
      s.result == Err(BookingIsCancelled)
    ensures s.result.Ok? ==>
      s.state == bookings[bookingId := bookings[bookingId].(status := status)] &&
      s.result.value == s.state[bookingId]
    ensures s.result.Err? ==> s.state == bookings
  {
    match GetBookingById(bookings, bookingId)
    case Err(e) => Step(Err(e), bookings)
    case Ok(booking) =>
      if booking.status == Canceled then Step(Err(BookingIsCancelled), bookings)
      else
        var updated := booking.(status := status);
        Step(Ok(updated), bookings[bookingId := updated])
  }

  /** Once cancelled, a booking's status can no longer be overwritten by `updateBookingStatus`. */
  lemma CancelledBookingIsFinalForStatusUpdate(bookings: Bookings, actor: User, bookingId: BookingId,
                                               status: BookingStatus)
    requires CancelBooking(bookings, actor, bookingId).result.Ok?
    ensures OverwriteStatus(CancelBooking(bookings, actor, bookingId).state, bookingId, status)
            == Step(Err(BookingIsCancelled), CancelBooking(bookings, actor, bookingId).state)
  {
  }

  /**
   * `updateBooking`: overwrite dates and accommodation, with no availability check. It takes no
   * acting user because the service checks neither ownership nor role: any caller may rewrite
   * any booking.
   */
  function OverwriteBooking(bookings: Bookings, bookingId: BookingId, request: UpdateBookingRequest)
    : (s: Step<Booking, Bookings>)
    ensures s.result.Ok? <==> bookingId in bookings
    ensures bookingId !in bookings ==> s.result == Err(BookingNotFound(bookingId))
    ensures s.result.Ok? ==>
      s.state.Keys == bookings.Keys && s.result.value == s.state[bookingId] &&
      s.state[bookingId].checkinDate == request.checkinDate &&
      s.state[bookingId].checkoutDate == request.checkoutDate &&
      s.state[bookingId].accommodationId == request.accommodationId &&
      s.state[bookingId].userId == bookings[bookingId].userId &&
      s.state[bookingId].status == bookings[bookingId].status &&
      forall id :: id in bookings && id != bookingId ==> s.state[id] == bookings[id]
    ensures s.result.Err? ==> s.state == bookings
  {
    match GetBookingById(bookings, bookingId)
    case Err(e) => Step(Err(e), bookings)
    case Ok(booking) =>
      var updated := booking.(checkinDate := request.checkinDate,
                              checkoutDate := request.checkoutDate,
                              accommodationId := request.accommodationId);
      Step(Ok(updated), bookings[bookingId := updated])
  }

  /**
   * `updateBooking` does not re-check capacity: it can move a booking onto dates that
   * `save` would refuse, leaving more overlapping bookings than the availability.
   */
  lemma UpdateBookingCanOverbook()
    ensures var accommodations := map[7 := Accommodation(100, 1)];
            var bookings := map[1 := Booking(10, 12, 7, 5, Pending), 2 := Booking(20, 22, 7, 6, Pending)];
            var moved := OverwriteBooking(bookings, 2, UpdateBookingRequest(10, 12, 7));
            SaveBooking(bookings, accommodations, 3, User(6, Customer), CreateBookingRequest(10, 12, 7)).result
              == Err(NotAvailable) &&
            moved.result.Ok? &&
            |FindByDateRange(moved.state, 7, 10, 12)| > accommodations[7].availability
  {
    var accommodations := map[7 := Accommodation(100, 1)];
    var bookings := map[1 := Booking(10, 12, 7, 5, Pending), 2 := Booking(20, 22, 7, 6, Pending)];
    assert FindByDateRange(bookings, 7, 10, 12) == {1};
    var moved := OverwriteBooking(bookings, 2, UpdateBookingRequest(10, 12, 7));
    assert FindByDateRange(moved.state, 7, 10, 12) == {1, 2};
  }

  // ---------------------------------------------------------------- amount due

  /** `dailyRate × DAYS.between(checkin, checkout)`: exact, signed, zero for a same-day stay. */
  function TotalAmount(dailyRate: Money, checkinDate: Date, checkoutDate: Date): (r: Money)
    ensures checkinDate == checkoutDate ==> r == 0
    ensures dailyRate > 0 && checkoutDate < checkinDate ==> r < 0
    ensures dailyRate >= 0 && checkinDate <= checkoutDate ==> r >= 0
  {
    dailyRate * (checkoutDate - checkinDate)
  }

  /** `countTotalAmount`: through `getBookingDetailsById`, so with its errors and its access rule. */
  function CountTotalAmount(bookings: Bookings, accommodations: Accommodations,
                            actor: User, bookingId: BookingId): (r: Result<Money>)
    ensures r.Ok? <==> GetBookingDetailsById(bookings, accommodations, actor, bookingId).Ok?
    ensures r.Err? ==> r.error == GetBookingDetailsById(bookings, accommodations, actor, bookingId).error
    ensures r.Ok? ==>
      var b := bookings[bookingId];
      r.value == TotalAmount(accommodations[b.accommodationId].dailyRate, b.checkinDate, b.checkoutDate)
  {
    match GetBookingDetailsById(bookings, accommodations, actor, bookingId)
    case Err(e) => Err(e)
    case Ok(details) =>
      Ok(TotalAmount(details.accommodation.dailyRate, details.booking.checkinDate, details.booking.checkoutDate))
  }

  // ---------------------------------------------------------------- expiry sweep

  /** `markExpiredBookings(today)`: every booking checked out before today becomes EXPIRED. */
  function ExpireBookings(bookings: Bookings, today: Date): (r: Bookings)
    ensures r.Keys == bookings.Keys
    ensures forall id :: id in FindAfterDate(bookings, today) ==> r[id] == bookings[id].(status := Expired)
    ensures forall id :: id in bookings && id !in FindAfterDate(bookings, today) ==> r[id] == bookings[id]
  {
    map id | id in bookings ::
      if bookings[id].checkoutDate < today then bookings[id].(status := Expired) else bookings[id]
  }

  /**
   * The sweep touches only the status, selects the same bookings afterwards, leaves all of them
   * EXPIRED (a CANCELED or CONFIRMED one included), and running it again changes nothing.
   */
  lemma ExpireIsIdempotent(bookings: Bookings, today: Date)
    ensures FindAfterDate(ExpireBookings(bookings, today), today) == FindAfterDate(bookings, today)
    ensures forall id :: id in FindAfterDate(bookings, today) ==>
              ExpireBookings(bookings, today)[id].status == Expired
    ensures ExpireBookings(ExpireBookings(bookings, today), today) == ExpireBookings(bookings, today)
  {
  }

  // ---------------------------------------------------------------- the service

  /** The booking store, updated in place, with the accommodation store it reads. */
  class BookingService {
    var bookings: Bookings
    var accommodations: Accommodations
    var nextId: BookingId

    /** Identity generation: every stored id was handed out before `nextId`. */
    ghost predicate Valid()
      reads this
    {
      forall id :: id in bookings ==> id < nextId
    }

    constructor (accommodations: Accommodations)
      ensures Valid()
      ensures bookings == map[] && this.accommodations == accommodations
    {
      bookings := map[];
      this.accommodations := accommodations;
      nextId := 1;
    }

    method Save(actor: User, request: CreateBookingRequest) returns (r: Result<BookingId>)
      requires Valid()
      modifies this
      ensures Valid() && accommodations == old(accommodations)
      ensures Step(r, bookings) == SaveBooking(old(bookings), accommodations, old(nextId), actor, request)
      ensures r.Ok? ==> r.value !in old(bookings)
    {
      if request.accommodationId !in accommodations {
        return Err(AccommodationNotFound(request.accommodationId));
      }
      var accommodation := accommodations[request.accommodationId];
      var overlapping := FindByDateRange(bookings, request.accommodationId,
                                         request.checkinDate, request.checkoutDate);
      if IsUnavailable(accommodation.availability, |overlapping|) {
        return Err(NotAvailable);
      }
      var booking := Booking(request.checkinDate, request.checkoutDate,
                             request.accommodationId, actor.id, Pending);
      r := Ok(nextId);
      bookings := bookings[nextId := booking];
      nextId := nextId + 1;
    }

    method SetBookingStatusCancelled(actor: User, bookingId: BookingId) returns (r: Result<Booking>)
      requires Valid()
      modifies this`bookings
      ensures Valid()
      ensures Step(r, bookings) == CancelBooking(old(bookings), actor, bookingId)
    {
      if bookingId !in bookings {
        return Err(BookingNotFound(bookingId));
      }
      var booking := bookings[bookingId];
      if !CheckAccess(actor, booking) {
        return Err(CannotAccessBooking);
      }
      booking := booking.(status := Canceled);
      bookings := bookings[bookingId := booking];
      r := Ok(booking);
    }

    method UpdateBookingStatus(bookingId: BookingId, status: BookingStatus) returns (r: Result<Booking>)
      requires Valid()
      modifies this`bookings
      ensures Valid()
      ensures Step(r, bookings) == OverwriteStatus(old(bookings), bookingId, status)
    {
      if bookingId !in bookings {
        return Err(BookingNotFound(bookingId));
      }
      var booking := bookings[bookingId];
      if booking.status == Canceled {
        return Err(BookingIsCancelled);
      }
      booking := booking.(status := status);
      bookings := bookings[bookingId := booking];
      r := Ok(booking);
    }

    method UpdateBooking(bookingId: BookingId, request: UpdateBookingRequest) returns (r: Result<Booking>)
      requires Valid()
      modifies this`bookings
      ensures Valid()
      ensures Step(r, bookings) == OverwriteBooking(old(bookings), bookingId, request)
    {
      if bookingId !in bookings {
        return Err(BookingNotFound(bookingId));
      }
      var booking := bookings[bookingId];
      booking := booking.(checkinDate := request.checkinDate,
                          checkoutDate := request.checkoutDate,
                          accommodationId := request.accommodationId);
      bookings := bookings[bookingId := booking];
      r := Ok(booking);
    }

    /** The scheduled sweep, one booking of `findAfterDate(today)` at a time. */
    method MarkExpiredBookings(today: Date)
      requires Valid()
      modifies this`bookings
      ensures Valid()
      ensures bookings == ExpireBookings(old(bookings), today)
    {
      var afterDate := FindAfterDate(bookings, today);
      var remaining := afterDate;
      while remaining != {}
        invariant remaining <= afterDate
        invariant bookings.Keys == old(bookings).Keys
        invariant forall id :: id in bookings ==>
          bookings[id] == if id in afterDate - remaining then old(bookings)[id].(status := Expired)
                          else old(bookings)[id]
        decreases remaining
      {
        ghost var some := PickElement(remaining);
        var id :| id in remaining;
        bookings := bookings[id := bookings[id].(status := Expired)];
        remaining := remaining - {id};
      }
      assert afterDate - remaining == afterDate;
      assert forall id :: id in bookings ==> bookings[id] == ExpireBookings(old(bookings), today)[id];
    }
  }
}
