/**
 * Payments for bookings through an external checkout provider: one payment per booking, created
 * PENDING with the provider's session, then marked PAID or CANCELED when the provider's session
 * reports "complete" or "open".
 *
 * The provider is not modelled; what it answers is a parameter of each operation, and it is only
 * consulted once the checks before it have passed.
 */
module PaymentServiceImpl {
  import opened Common
  import opened Model
  import opened PaymentsRepository
  import opened BookingServiceImpl

  type Payments = map<PaymentId, Payment>

  /** The session status that `success` requires (`SESSION_COMPLETE_STATUS`). */
  const SessionCompleteStatus: string := "complete"
  /** The session status that `cancel` requires (`SESSION_OPEN_STATUS`). */
  const SessionOpenStatus: string := "open"

  /**
   * The outcome of `createSession(totalAmount, "total amount")` followed by `new URL(session.getUrl())`:
   * a provider failure, a url that does not parse, or the new session.
   */
  datatype SessionCreation = CreateFailed | UrlMalformed | Created(sessionId: string, sessionUrl: string)

  /** The outcome of `receiveSession(sessionId)`: a provider failure or the session's status. */
  datatype SessionRetrieval = RetrieveFailed | Retrieved(status: string)

  /** `findBySessionId` of the service: the single payment of the session, or not found. */
  function PaymentBySessionId(payments: Payments, sessionId: string): (r: Result<PaymentId>)
    ensures r.Ok? <==> FindBySessionId(payments, sessionId).Found?
    ensures r.Ok? ==> r.value in payments && payments[r.value].sessionId == sessionId
    ensures FindBySessionId(payments, sessionId).NoMatch? ==>
      r == Err(PaymentNotFound(sessionId)) && ClassOf(r.error) == EntityNotFound
  {
    match FindBySessionId(payments, sessionId)
    case NoMatch => Err(PaymentNotFound(sessionId))
    case NotUnique => Err(NonUniqueResult)
    case Found(id) => Ok(id)
  }

  /**
   * `save` with `createPayment`: refuse a second payment for the booking, check the booking through
   * `getBookingDetailsById`, price it with `countTotalAmount`, open a session and store a PENDING payment.
   */
  function CreatePayment(payments: Payments, nextId: PaymentId, bookings: Bookings,
                         accommodations: Accommodations, actor: User, bookingId: BookingId,
                         session: SessionCreation): (s: Step<PaymentId, Payments>)
    ensures FindByBookingId(payments, bookingId).Found? ==> s.result == Err(PaymentAlreadyExists)
    ensures FindByBookingId(payments, bookingId).NotUnique? ==> s.result == Err(NonUniqueResult)
    ensures s.result.Ok? <==>
      FindByBookingId(payments, bookingId).NoMatch? &&
      GetBookingDetailsById(bookings, accommodations, actor, bookingId).Ok? &&
      session.Created?
    ensures FindByBookingId(payments, bookingId).NoMatch? &&
            GetBookingDetailsById(bookings, accommodations, actor, bookingId).Err? ==>
      s.result == Err(GetBookingDetailsById(bookings, accommodations, actor, bookingId).error)
    ensures FindByBookingId(payments, bookingId).NoMatch? &&
            GetBookingDetailsById(bookings, accommodations, actor, bookingId).Ok? && !session.Created? ==>
      s.result == Err(CannotCreateSession)
    ensures s.result.Ok? ==>
      var b := bookings[bookingId];
      s.result.value == nextId &&
      s.state == payments[nextId := Payment(PaymentPending, bookingId, session.sessionUrl, session.sessionId,
        TotalAmount(accommodations[b.accommodationId].dailyRate, b.checkinDate, b.checkoutDate))]
    ensures s.result.Err? ==> s.state == payments
  {
    match FindByBookingId(payments, bookingId)
    case Found(_) => Step(Err(PaymentAlreadyExists), payments)
    case NotUnique => Step(Err(NonUniqueResult), payments)
    case NoMatch =>
      match GetBookingDetailsById(bookings, accommodations, actor, bookingId)
      case Err(e) => Step(Err(e), payments)
      case Ok(_) =>
        var totalAmount := CountTotalAmount(bookings, accommodations, actor, bookingId).value;
        match session
        case Created(sessionId, sessionUrl) =>
          Step(Ok(nextId), payments[nextId := Payment(PaymentPending, bookingId, sessionUrl, sessionId, totalAmount)])
        case _ => Step(Err(CannotCreateSession), payments)
  }

  /** Creating a payment keeps at most one payment per booking. */
  lemma CreatePaymentKeepsUniquePerBooking(payments: Payments, nextId: PaymentId, bookings: Bookings,
                                           accommodations: Accommodations, actor: User,
                                           bookingId: BookingId, session: SessionCreation)
    requires UniquePerBooking(payments)
    requires nextId !in payments
    ensures UniquePerBooking(CreatePayment(payments, nextId, bookings, accommodations, actor, bookingId, session).state)
  {
  }

  /** Once a booking has a payment, every further attempt to pay for it is refused. */
  lemma SecondPaymentIsRefused(payments: Payments, nextId: PaymentId, bookings: Bookings,
                               accommodations: Accommodations, actor: User, bookingId: BookingId,
                               session: SessionCreation, laterId: PaymentId, laterActor: User,
                               laterSession: SessionCreation)
    requires CreatePayment(payments, nextId, bookings, accommodations, actor, bookingId, session).result.Ok?
    ensures var after := CreatePayment(payments, nextId, bookings, accommodations, actor, bookingId, session).state;
            CreatePayment(after, laterId, bookings, accommodations, laterActor, bookingId, laterSession)
            == Step(Err(PaymentAlreadyExists), after)
  {
    var after := CreatePayment(payments, nextId, bookings, accommodations, actor, bookingId, session).state;
    assert PaymentsOfBooking(after, bookingId) == {nextId};
  }

  /** Payments whose only difference is the status of the one payment `id`. */
  predicate StatusOnlyChanged(before: Payments, after: Payments, id: PaymentId, status: PaymentStatus)
    requires id in before
  {
    after == before[id := before[id].(status := status)]
  }

  /** Changing a status keeps at most one payment per booking. */
  lemma StatusChangeKeepsUniquePerBooking(payments: Payments, id: PaymentId, status: PaymentStatus)
    requires UniquePerBooking(payments)
    requires id in payments
    ensures UniquePerBooking(payments[id := payments[id].(status := status)])
  {
  }

  /** `success`: on a "complete" session, mark the session's payment PAID unless it already is. */
  function MarkPaid(payments: Payments, sessionId: string, session: SessionRetrieval): (s: Step<PaymentId, Payments>)
    ensures session.RetrieveFailed? ==> s.result == Err(CannotFindSession)
    ensures session.Retrieved? && session.status != SessionCompleteStatus ==>
      s.result == Err(SessionNotComplete(sessionId))
    ensures session == Retrieved(SessionCompleteStatus) && FindBySessionId(payments, sessionId).NoMatch? ==>
      s.result == Err(PaymentNotFound(sessionId)) && ClassOf(s.result.error) == EntityNotFound
    ensures session == Retrieved(SessionCompleteStatus) && FindBySessionId(payments, sessionId).NotUnique? ==>
      s.result == Err(NonUniqueResult)
    ensures session == Retrieved(SessionCompleteStatus) && PaymentBySessionId(payments, sessionId).Ok? &&
            payments[PaymentBySessionId(payments, sessionId).value].status == Paid ==>
      s.result == Err(PaymentAlreadyPaid)
    ensures s.result.Ok? <==>
      session == Retrieved(SessionCompleteStatus) &&
      PaymentBySessionId(payments, sessionId).Ok? &&
      payments[PaymentBySessionId(payments, sessionId).value].status != Paid
    ensures s.result.Ok? ==>
      s.result.value == PaymentBySessionId(payments, sessionId).value &&
      StatusOnlyChanged(payments, s.state, s.result.value, Paid)
    ensures s.result.Err? ==> s.state == payments
  {
    match session
    case RetrieveFailed => Step(Err(CannotFindSession), payments)
    case Retrieved(status) =>
      if status != SessionCompleteStatus then Step(Err(SessionNotComplete(sessionId)), payments)
      else
        match PaymentBySessionId(payments, sessionId)
        case Err(e) => Step(Err(e), payments)
        case Ok(id) =>
          if payments[id].status == Paid then Step(Err(PaymentAlreadyPaid), payments)
          else Step(Ok(id), payments[id := payments[id].(status := Paid)])
  }

  /** A session cannot be paid twice: the second `success` is refused as already paid. */
  lemma MarkPaidIsNotRepeatable(payments: Payments, sessionId: string, session: SessionRetrieval)
    requires MarkPaid(payments, sessionId, session).result.Ok?
    ensures var after := MarkPaid(payments, sessionId, session).state;
            MarkPaid(after, sessionId, session) == Step(Err(PaymentAlreadyPaid), after)
  {
    var id := PaymentBySessionId(payments, sessionId).value;
    var after := MarkPaid(payments, sessionId, session).state;
    assert forall p :: p in after ==> after[p].sessionId == payments[p].sessionId;
    assert FindBySessionId(after, sessionId) == FindBySessionId(payments, sessionId) by {
      assert (set p | p in after && after[p].sessionId == sessionId)
          == (set p | p in payments && payments[p].sessionId == sessionId);
    }
  }

  /** `cancel`: on an "open" session, mark the session's payment CANCELED, whatever its status. */
  function MarkCanceled(payments: Payments, sessionId: string, session: SessionRetrieval)
    : (s: Step<PaymentId, Payments>)
    ensures session.RetrieveFailed? ==> s.result == Err(CannotFindSession)
    ensures session.Retrieved? && session.status != SessionOpenStatus ==>
      s.result == Err(SessionNotOpen(sessionId))
    ensures session == Retrieved(SessionOpenStatus) && FindBySessionId(payments, sessionId).NoMatch? ==>
      s.result == Err(PaymentNotFound(sessionId)) && ClassOf(s.result.error) == EntityNotFound
    ensures session == Retrieved(SessionOpenStatus) && FindBySessionId(payments, sessionId).NotUnique? ==>
      s.result == Err(NonUniqueResult)
    ensures s.result.Ok? <==>
      session == Retrieved(SessionOpenStatus) && PaymentBySessionId(payments, sessionId).Ok?
    ensures s.result.Ok? ==>
      s.result.value == PaymentBySessionId(payments, sessionId).value &&
      StatusOnlyChanged(payments, s.state, s.result.value, PaymentCanceled)
    ensures s.result.Err? ==> s.state == payments
  {
    match session
    case RetrieveFailed => Step(Err(CannotFindSession), payments)
    case Retrieved(status) =>
      if status != SessionOpenStatus then Step(Err(SessionNotOpen(sessionId)), payments)
      else
        match PaymentBySessionId(payments, sessionId)
        case Err(e) => Step(Err(e), payments)
        case Ok(id) => Step(Ok(id), payments[id := payments[id].(status := PaymentCanceled)])
  }

  /**
   * CANCELED is not final: a cancelled payment whose session is later reported "complete" is
   * marked PAID by `success`.
   */
  lemma CanceledPaymentCanStillBePaid(payments: Payments, sessionId: string)
    requires MarkCanceled(payments, sessionId, Retrieved(SessionOpenStatus)).result.Ok?
    ensures var canceled := MarkCanceled(payments, sessionId, Retrieved(SessionOpenStatus));
            MarkPaid(canceled.state, sessionId, Retrieved(SessionCompleteStatus)).result == Ok(canceled.result.value)
  {
    var after := MarkCanceled(payments, sessionId, Retrieved(SessionOpenStatus)).state;
    assert forall p :: p in after ==> after[p].sessionId == payments[p].sessionId;
    assert FindBySessionId(after, sessionId) == FindBySessionId(payments, sessionId) by {
      assert (set p | p in after && after[p].sessionId == sessionId)
          == (set p | p in payments && payments[p].sessionId == sessionId);
    }
  }

  /** The payment store, updated in place, next to the booking service it consults. */
  class PaymentService {
    const bookingService: BookingService
    var payments: Payments
    var nextId: PaymentId

    /** Identity generation, and at most one payment per booking. */
    ghost predicate Valid()
      reads this
    {
      (forall id :: id in payments ==> id < nextId) && UniquePerBooking(payments)
    }

    constructor (bookingService: BookingService)
      ensures Valid()
      ensures this.bookingService == bookingService && payments == map[]
    {
      this.bookingService := bookingService;
      payments := map[];
      nextId := 1;
    }

    method Save(actor: User, bookingId: BookingId, session: SessionCreation) returns (r: Result<PaymentId>)
      requires Valid()
      modifies this
      ensures Valid()
      ensures Step(r, payments) == CreatePayment(old(payments), old(nextId), bookingService.bookings,
                                                 bookingService.accommodations, actor, bookingId, session)
    {
      var existing := FindByBookingId(payments, bookingId);
      if existing.Found? {
        return Err(PaymentAlreadyExists);
      }
      if existing.NotUnique? {
        return Err(NonUniqueResult);
      }
      var details := GetBookingDetailsById(bookingService.bookings, bookingService.accommodations, actor, bookingId);
      if details.Err? {
        return Err(details.error);
      }
      var totalAmount := CountTotalAmount(bookingService.bookings, bookingService.accommodations,
                                          actor, bookingId).value;
      match session {
        case Created(sessionId, sessionUrl) =>
          CreatePaymentKeepsUniquePerBooking(payments, nextId, bookingService.bookings,
                                             bookingService.accommodations, actor, bookingId, session);
          payments := payments[nextId := Payment(PaymentPending, bookingId, sessionUrl, sessionId, totalAmount)];
          r := Ok(nextId);
          nextId := nextId + 1;
        case _ =>
          r := Err(CannotCreateSession);
      }
    }

    method Success(sessionId: string, session: SessionRetrieval) returns (r: Result<PaymentId>)
      requires Valid()
      modifies this`payments
      ensures Valid()
      ensures Step(r, payments) == MarkPaid(old(payments), sessionId, session)
    {
      if session.RetrieveFailed? {
        return Err(CannotFindSession);
      }
      if session.status != SessionCompleteStatus {
        return Err(SessionNotComplete(sessionId));
      }
      var found := PaymentBySessionId(payments, sessionId);
      if found.Err? {
        return Err(found.error);
      }
      var id := found.value;
      if payments[id].status == Paid {
        return Err(PaymentAlreadyPaid);
      }
      StatusChangeKeepsUniquePerBooking(payments, id, Paid);
      payments := payments[id := payments[id].(status := Paid)];
      r := Ok(id);
    }

    method Cancel(sessionId: string, session: SessionRetrieval) returns (r: Result<PaymentId>)
      requires Valid()
      modifies this`payments
      ensures Valid()
      ensures Step(r, payments) == MarkCanceled(old(payments), sessionId, session)
    {
      if session.RetrieveFailed? {
        return Err(CannotFindSession);
      }
      if session.status != SessionOpenStatus {
        return Err(SessionNotOpen(sessionId));
      }
      var found := PaymentBySessionId(payments, sessionId);
      if found.Err? {
        return Err(found.error);
      }
      var id := found.value;
      StatusChangeKeepsUniquePerBooking(payments, id, PaymentCanceled);
      payments := payments[id := payments[id].(status := PaymentCanceled)];
      r := Ok(id);
    }
  }
}
