/** The JPQL queries over the stored payments. */
module PaymentsRepository {
  import opened Common
  import opened Model

  /**
   * What a Spring Data query declared to return `Optional<Payment>` yields:
   * empty, the one matching row, or (more than one row) an exception.
   */
  datatype Lookup = NoMatch | Found(id: PaymentId) | NotUnique

  /** The single-result reading of a set of matching ids. */
  function AsOptional(matches: set<PaymentId>): (r: Lookup)
    ensures r.NoMatch? <==> matches == {}
    ensures r.Found? ==> matches == {r.id}
    ensures r.NotUnique? <==> |matches| > 1
  {
    if matches == {} then NoMatch
    else if |matches| == 1 then
      SingletonExists(matches);
      var id :| matches == {id}; Found(id)
    else NotUnique
  }

  /** At most one payment per booking: what the `Optional` return type of `findByBookingId` assumes. */
  ghost predicate UniquePerBooking(payments: map<PaymentId, Payment>) {
    forall p, q :: p in payments && q in payments && payments[p].bookingId == payments[q].bookingId ==> p == q
  }

  function PaymentsOfBooking(payments: map<PaymentId, Payment>, bookingId: BookingId): set<PaymentId> {
    set id | id in payments && payments[id].bookingId == bookingId
  }

  lemma UniqueKeyHasAtMostOneMatch(payments: map<PaymentId, Payment>, bookingId: BookingId)
    requires UniquePerBooking(payments)
    ensures |PaymentsOfBooking(payments, bookingId)| <= 1
  {
    var matches := PaymentsOfBooking(payments, bookingId);
    if matches != {} {
      var x := PickElement(matches);
      assert forall y :: y in matches ==> y == x;
      assert matches == {x};
    }
  }

  /** `findByBookingId`: `WHERE p.booking.id = :bookingId`. */
  function FindByBookingId(payments: map<PaymentId, Payment>, bookingId: BookingId): (r: Lookup)
    ensures r.Found? ==> r.id in payments && payments[r.id].bookingId == bookingId
    ensures r.Found? ==> PaymentsOfBooking(payments, bookingId) == {r.id}
    ensures r.NotUnique? <==> |PaymentsOfBooking(payments, bookingId)| > 1
    ensures r.NoMatch? <==> forall id :: id in payments ==> payments[id].bookingId != bookingId
  {
    var matches := PaymentsOfBooking(payments, bookingId);
    assert forall id :: id in payments && payments[id].bookingId == bookingId ==> id in matches;
    assert forall id :: id in matches ==> id in payments && payments[id].bookingId == bookingId;
    EmptyIffNoElement(matches);
    assert matches == {} ==> forall id :: id in payments ==> payments[id].bookingId != bookingId;
    assert (forall id :: id in payments ==> payments[id].bookingId != bookingId) ==> matches == {};
    AsOptional(matches)
  }

  /** While payments are unique per booking, `findByBookingId` never meets more than one row. */
  lemma {:induction false} FindByBookingIdIsSingleValued(payments: map<PaymentId, Payment>, bookingId: BookingId)
    requires UniquePerBooking(payments)
    ensures !FindByBookingId(payments, bookingId).NotUnique?
  {
    UniqueKeyHasAtMostOneMatch(payments, bookingId);
  }

  function PaymentsOfSession(payments: map<PaymentId, Payment>, sessionId: string): set<PaymentId> {
    set id | id in payments && payments[id].sessionId == sessionId
  }

  /** `findBySessionId`: `WHERE p.sessionId = :sessionId`. */
  function FindBySessionId(payments: map<PaymentId, Payment>, sessionId: string): (r: Lookup)
    ensures r.Found? ==> r.id in payments && payments[r.id].sessionId == sessionId
    ensures r.Found? ==> PaymentsOfSession(payments, sessionId) == {r.id}
    ensures r.Found? ==> forall id :: id in payments && payments[id].sessionId == sessionId ==> id == r.id
    ensures r.NotUnique? <==> |PaymentsOfSession(payments, sessionId)| > 1
    ensures r.NoMatch? <==> forall id :: id in payments ==> payments[id].sessionId != sessionId
  {
    var matches := PaymentsOfSession(payments, sessionId);
    assert forall id :: id in payments && payments[id].sessionId == sessionId ==> id in matches;
    assert forall id :: id in matches ==> id in payments && payments[id].sessionId == sessionId;
    EmptyIffNoElement(matches);
    assert matches == {} ==> forall id :: id in payments ==> payments[id].sessionId != sessionId;
    assert (forall id :: id in payments ==> payments[id].sessionId != sessionId) ==> matches == {};
    AsOptional(matches)
  }

  /**
   * `findAllByUserId`: `WHERE p.booking.user.id = :userId`, a join through the bookings;
   * a payment whose booking is not stored has no user and is not returned.
   */
  function FindAllByUserId(payments: map<PaymentId, Payment>, bookings: map<BookingId, Booking>,
                           userId: UserId): (r: set<PaymentId>)
    ensures r <= payments.Keys
    ensures forall id :: id in payments ==>
      (id in r <==> payments[id].bookingId in bookings && bookings[payments[id].bookingId].userId == userId)
  {
    set id | id in payments && payments[id].bookingId in bookings
                            && bookings[payments[id].bookingId].userId == userId
  }
}
