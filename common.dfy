/** Failure-carrying values shared by the booking and payment services. */
module Common {

  datatype Option<+T> = None | Some(value: T)

  /** The exceptions the services raise, one variant per distinct throw site. */
  datatype Error =
    // jakarta.persistence.EntityNotFoundException
    | BookingNotFound(bookingId: int)          // "Booking with id X not found"
    | AccommodationNotFound(accommodationId: int) // "Accommodation with id X not found"
    | PaymentNotFound(sessionId: string)       // "Payment with session id: X not found"
    // AccessException
    | NotAvailable                             // "This accommodation is not available."
    | CannotAccessBookingData                  // "You can't access this booking data"
    | CannotAccessBooking                      // "You can't access this booking"
    | BookingIsCancelled                       // "This booking is cancelled"
    // PaymentException
    | PaymentAlreadyExists                     // "Payment already exists"
    | SessionNotComplete(sessionId: string)    // "Payment with session id: X cancelled!"
    | PaymentAlreadyPaid                       // "Payment is already paid"
    | SessionNotOpen(sessionId: string)        // "Payment with session id: X is not open!"
    | CannotFindSession                        // "Can't find payment session"
    | CannotCreateSession                      // "Can't create payment session"
    // Spring Data: an Optional-returning query that matched more than one row
    | NonUniqueResult

  datatype ExceptionClass = EntityNotFound | Access | PaymentFailure | DataAccess

  /** The Java exception class each error is thrown as. */
  function ClassOf(e: Error): ExceptionClass {
    match e
    case BookingNotFound(_) | AccommodationNotFound(_) | PaymentNotFound(_) => EntityNotFound
    case NotAvailable | CannotAccessBookingData | CannotAccessBooking | BookingIsCancelled => Access
    case NonUniqueResult => DataAccess
    case _ => PaymentFailure
  }

  datatype Result<+T> = Ok(value: T) | Err(error: Error)

  /** What a state-changing service call returns, together with the store it leaves behind. */
  datatype Step<+T, +S> = Step(result: Result<T>, state: S)

  /** Some element of a non-empty set. */
  lemma PickElement<T>(s: set<T>) returns (x: T)
    requires s != {}
    ensures x in s
  {
    if forall y :: y !in s { assert false; }
    x :| x in s;
  }

  /** A set of one element is that element's singleton. */
  lemma SingletonElement<T>(s: set<T>) returns (x: T)
    requires |s| == 1
    ensures s == {x}
  {
    x := PickElement(s);
    assert |s - {x}| == |s| - 1;
    if s - {x} != {} {
      var y := PickElement(s - {x});
      assert false;
    }
  }

  lemma SingletonExists(s: set<int>)
    requires |s| == 1
    ensures exists x :: s == {x}
  {
    var x := SingletonElement(s);
  }

  /** A set is empty exactly when nothing is in it. */
  lemma EmptyIffNoElement<T>(s: set<T>)
    ensures s == {} <==> forall x :: x !in s
  {
    if s != {} {
      var x := PickElement(s);
    }
  }
}
