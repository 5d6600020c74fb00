/**
 * The JPQL queries over the stored bookings. Each returns the ids of the
 * matching rows; paging and ordering are not modelled.
 */
module BookingsRepository {
  import opened Common
  import opened Model

  /**
   * Inclusive overlap of the date ranges [in1, out1] and [in2, out2]; with a stored booking's
   * dates first, the WHERE clause of `findByDateRange`: `b.checkinDate <= :second AND b.checkoutDate >= :first`.
   */
  predicate RangesOverlap(in1: Date, out1: Date, in2: Date, out2: Date) {
    in1 <= out2 && out1 >= in2
  }

  /** `findByDateRange`: the bookings of one accommodation overlapping [first, second], of any status. */
  function FindByDateRange(bookings: map<BookingId, Booking>, accommodationId: AccommodationId,
                           first: Date, second: Date): (r: set<BookingId>)
    ensures r <= bookings.Keys
    ensures forall id :: id in r <==>
      id in bookings && bookings[id].accommodationId == accommodationId &&
      RangesOverlap(bookings[id].checkinDate, bookings[id].checkoutDate, first, second)
  {
    set id | id in bookings && bookings[id].accommodationId == accommodationId
                            && RangesOverlap(bookings[id].checkinDate, bookings[id].checkoutDate, first, second)
  }

  /** The overlap test is the same whichever of the two ranges is the stored one. */
  lemma OverlapIsSymmetric(in1: Date, out1: Date, in2: Date, out2: Date)
    ensures RangesOverlap(in1, out1, in2, out2) <==> RangesOverlap(in2, out2, in1, out1)
  {
  }

  /**
   * Overlap is inclusive at both ends: a stay that checks out on the day another checks in
   * counts against it, and a well-ordered range overlaps itself.
   */
  lemma OverlapIsInclusive(b: Booking, first: Date, second: Date)
    ensures first <= second && b.checkoutDate == first && b.checkinDate <= first ==> RangesOverlap(b.checkinDate, b.checkoutDate, first, second)
    ensures first <= second && b.checkinDate == second && second <= b.checkoutDate ==> RangesOverlap(b.checkinDate, b.checkoutDate, first, second)
    ensures b.checkinDate <= b.checkoutDate ==> RangesOverlap(b.checkinDate, b.checkoutDate, b.checkinDate, b.checkoutDate)
    ensures b.checkoutDate < first || second < b.checkinDate ==> !RangesOverlap(b.checkinDate, b.checkoutDate, first, second)
  {
  }

  /** `findAfterDate`: every booking whose checkout is strictly before `date`, whatever its status. */
  function FindAfterDate(bookings: map<BookingId, Booking>, date: Date): (r: set<BookingId>)
    ensures r <= bookings.Keys
    ensures forall id :: id in bookings ==> (id in r <==> bookings[id].checkoutDate < date)
  {
    set id | id in bookings && bookings[id].checkoutDate < date
  }

  /** `findByUserId`: the bookings whose user is `userId`. */
  function FindByUserId(bookings: map<BookingId, Booking>, userId: UserId): (r: set<BookingId>)
    ensures r <= bookings.Keys
    ensures forall id :: id in bookings ==> (id in r <==> bookings[id].userId == userId)
  {
    set id | id in bookings && bookings[id].userId == userId
  }

  /**
   * `findByUserIdAndStatus`, with JPQL precedence as written:
   * `:userId IS NULL OR (u.id = :userId AND (:statuses IS NULL OR b.status IN :statuses))`.
   */
  function FindByUserIdAndStatus(bookings: map<BookingId, Booking>, userId: Option<UserId>,
                                 statuses: Option<seq<BookingStatus>>): (r: set<BookingId>)
    ensures r <= bookings.Keys
    ensures userId.None? ==> r == bookings.Keys
    ensures userId.Some? && statuses.None? ==> r == FindByUserId(bookings, userId.value)
    ensures userId.Some? ==> forall id :: id in bookings ==>
      (id in r <==> bookings[id].userId == userId.value
                    && (statuses.None? || bookings[id].status in statuses.value))
  {
    set id | id in bookings &&
             (userId.None? ||
              (bookings[id].userId == userId.value &&
               (statuses.None? || bookings[id].status in statuses.value)))
  }

  /**
   * The query differs from the reading with the OR parenthesised
   * (`(userId IS NULL OR u.id = userId) AND (statuses IS NULL OR status IN statuses)`)
   * exactly when no user is given: then the status filter is dropped.
   */
  lemma StatusFilterIgnoredWithoutUser(bookings: map<BookingId, Booking>, userId: Option<UserId>,
                                       statuses: Option<seq<BookingStatus>>)
    ensures userId.Some? || statuses.None? ==>
      FindByUserIdAndStatus(bookings, userId, statuses) ==
      (set id | id in bookings && (userId.None? || bookings[id].userId == userId.value)
                               && (statuses.None? || bookings[id].status in statuses.value))
    ensures userId.None? && statuses.Some? ==>
      forall id :: id in bookings && bookings[id].status !in statuses.value ==>
        id in FindByUserIdAndStatus(bookings, userId, statuses)
  {
  }
}
