# Home-rental bookings and payments in Dafny

This project models the state logic of a home-rental platform. Customers book date ranges of
accommodations and pay for a booking through an external checkout provider. The model covers:

- **the booking engine** (`BookingServiceImpl` with the queries of `BookingsRepository`):
  - creation behind a capacity check;
  - the owner-or-ADMIN rule;
  - cancellation;
  - the status overwrite and the detail overwrite, neither checked for ownership in the service (the controller limits the status overwrite to ADMIN, the detail overwrite to no role in particular);
  - the amount due;
  - the daily expiry sweep.
- **the payment state machine** (`PaymentServiceImpl` with the lookups of `PaymentsRepository`):
  - at most one payment per booking, created PENDING with the provider's session;
  - marking a payment PAID when its session is "complete";
  - marking it CANCELED when its session is "open".
- **`StringArrayConverter`**, the join/split codec that stores an amenity list in one column.

Layout:

- `common.dfy` (module `Common`): `Option`, `Result`, the errors, and `Step` (a result paired with the store after the call).
- `model.dfy` (module `Model`): the entities.
  - Dates are day numbers.
  - Money is an integer number of minor units (`BigDecimal` is exact).
  - `availability` is a Java `int`.
- `bookings_repository.dfy` and `payments_repository.dfy`: the JPQL queries, as set comprehensions over a store `map<id, entity>`.
- `booking_service.dfy` and `payment_service.dfy`: the services. Each state-changing operation has two forms:
  - a function from the store before the call to `Step(result, store after)`, which the lemmas are about;
  - a method of the classes `BookingService` and `PaymentService`, which update the store fields in place, proved equal to that function.
  - The lookups (`GetBookingById`, `GetBookingDetailsById`, `PaymentBySessionId`) and `CountTotalAmount` change nothing and are functions only.
- `string_array_converter.dfy`: the codec, with Java's `String.split` (limit 0) written out.

The acting user (`SecurityUtil`), "today" (`LocalDate.now()`) and the checkout provider's answers
are parameters. A provider answer is consulted only when the code reaches the provider call.
An `Optional` query that matches several rows throws in Spring; the model keeps that case
(`Lookup.NotUnique`, error `NonUniqueResult`).

## Model

| member | source | states |
|---|---|---|
| BookingsRepository.FindByDateRange | src/main/java/rental/project/repository/booking/BookingsRepository.java:27-34 | exactly the stored bookings of the accommodation with checkin <= second and checkout >= first, in any status |
| BookingsRepository.OverlapIsSymmetric | src/main/java/rental/project/repository/booking/BookingsRepository.java:30-31 | the overlap test is symmetric in the two ranges |
| BookingsRepository.OverlapIsInclusive | src/main/java/rental/project/repository/booking/BookingsRepository.java:30-31 | for a well-ordered range [first, second]: a booking with checkin <= first that checks out on first overlaps, and so does one that checks in on second with checkout >= second; a booking with checkin <= checkout overlaps its own range; a booking ending before first or starting after second does not overlap |
| BookingsRepository.FindAfterDate | src/main/java/rental/project/repository/booking/BookingsRepository.java:36-38 | exactly the bookings with checkout before the date, in any status |
| BookingsRepository.FindByUserId | src/main/java/rental/project/repository/booking/BookingsRepository.java:22-25 | exactly the bookings of the user |
| BookingsRepository.FindByUserIdAndStatus | src/main/java/rental/project/repository/booking/BookingsRepository.java:13-20 | AND binds tighter than OR: no user gives every booking; a user gives their bookings, filtered by the statuses when given |
| BookingsRepository.StatusFilterIgnoredWithoutUser | src/main/java/rental/project/repository/booking/BookingsRepository.java:13-20 | the query agrees with the parenthesised reading except with no user and a status filter, where bookings outside the filter are still returned |
| BookingServiceImpl.CheckAccess | src/main/java/rental/project/service/booking/BookingServiceImpl.java:127-130 | an ADMIN may act on every booking; a customer exactly on the bookings they own |
| BookingServiceImpl.UnavailableAsWritten | src/main/java/rental/project/service/booking/BookingServiceImpl.java:157 | the check as written in Java `int` arithmetic: unavailable iff the overlapping count reaches the availability, except at availability Integer.MIN_VALUE, where it is unavailable only past Integer.MAX_VALUE bookings, so never in practice |
| BookingServiceImpl.IsUnavailable | src/main/java/rental/project/service/booking/BookingServiceImpl.java:151-158 | unavailable iff the overlapping count reaches the availability; always so for availability <= 0; equal to the check as written except at availability Integer.MIN_VALUE |
| BookingServiceImpl.MinimumAvailabilityPassesCheck | src/main/java/rental/project/service/booking/BookingServiceImpl.java:157 | at availability Integer.MIN_VALUE the check as written reports every request available, the corrected one none |
| BookingServiceImpl.GetBookingById | src/main/java/rental/project/service/booking/BookingServiceImpl.java:132-136 | the stored booking, or EntityNotFound for an unknown id |
| BookingServiceImpl.GetBookingDetailsById | src/main/java/rental/project/service/booking/BookingServiceImpl.java:70-78 | succeeds iff the booking exists, the actor owns it or is ADMIN, and its accommodation exists; booking not found, access refused, accommodation not found, in that order |
| BookingServiceImpl.SaveBooking | src/main/java/rental/project/service/booking/BookingServiceImpl.java:37-47 | succeeds iff the accommodation exists and the overlapping bookings number less than its availability; stores a PENDING booking of the actor with the requested dates under the new id; any error stores nothing. The capacity check is the corrected IsUnavailable, so at availability Integer.MIN_VALUE the model refuses where the code as written saves (see Findings) |
| BookingServiceImpl.SaveKeepsOverlapWithinAvailability | src/main/java/rental/project/service/booking/BookingServiceImpl.java:151-158 | after any successful save, inverted ranges included, the bookings of that accommodation overlapping the requested range, new one included, are at most its availability |
| BookingServiceImpl.CancelBooking | src/main/java/rental/project/service/booking/BookingServiceImpl.java:81-89 | owner or ADMIN only; status becomes CANCELED whatever it was, nothing else changes; errors change nothing |
| BookingServiceImpl.CancelIsIdempotent | src/main/java/rental/project/service/booking/BookingServiceImpl.java:87-88 | cancelling twice gives the same result and store as cancelling once |
| BookingServiceImpl.OverwriteStatus | src/main/java/rental/project/service/booking/BookingServiceImpl.java:92-99 | refused on a CANCELED booking with no change; otherwise only the status is replaced |
| BookingServiceImpl.CancelledBookingIsFinalForStatusUpdate | src/main/java/rental/project/service/booking/BookingServiceImpl.java:94-96 | after a cancel, every status overwrite of that booking is refused |
| BookingServiceImpl.OverwriteBooking | src/main/java/rental/project/service/booking/BookingServiceImpl.java:102-106 | takes no acting user, since the service checks neither owner nor role; only checkin, checkout and accommodation change; owner, status and other bookings are kept |
| BookingServiceImpl.UpdateBookingCanOverbook | src/main/java/rental/project/service/booking/BookingServiceImpl.java:102-106 | an update can move a booking onto a range that save refuses, leaving more overlapping bookings than the availability |
| BookingServiceImpl.TotalAmount | src/main/java/rental/project/service/booking/BookingServiceImpl.java:111-114 | zero for equal dates, negative for inverted dates at a positive rate, non-negative for ordered dates at a non-negative rate |
| BookingServiceImpl.CountTotalAmount | src/main/java/rental/project/service/booking/BookingServiceImpl.java:109-115 | defined iff the detailed view is (same errors, same owner/ADMIN rule); then the daily rate times the days between checkin and checkout |
| BookingServiceImpl.ExpireBookings | src/main/java/rental/project/service/booking/BookingServiceImpl.java:117-125 | every booking with checkout before today becomes EXPIRED with its other fields kept; all others are untouched |
| BookingServiceImpl.ExpireIsIdempotent | src/main/java/rental/project/service/booking/BookingServiceImpl.java:117-125 | the sweep keeps the selection, leaves all selected bookings EXPIRED, and a second sweep changes nothing |
| BookingServiceImpl.BookingService.Save | src/main/java/rental/project/service/booking/BookingServiceImpl.java:37-47 | the store after the call and the result are those of SaveBooking; ids stay below the next id |
| BookingServiceImpl.BookingService.SetBookingStatusCancelled | src/main/java/rental/project/service/booking/BookingServiceImpl.java:81-89 | the store and result are those of CancelBooking |
| BookingServiceImpl.BookingService.UpdateBookingStatus | src/main/java/rental/project/service/booking/BookingServiceImpl.java:92-99 | the store and result are those of OverwriteStatus |
| BookingServiceImpl.BookingService.UpdateBooking | src/main/java/rental/project/service/booking/BookingServiceImpl.java:102-106 | the store and result are those of OverwriteBooking |
| BookingServiceImpl.BookingService.MarkExpiredBookings | src/main/java/rental/project/service/booking/BookingServiceImpl.java:117-125 | the loop over the bookings found after today leaves the store equal to ExpireBookings |
| PaymentsRepository.AsOptional | src/main/java/rental/project/repository/payment/PaymentsRepository.java:13 | empty for no row, the row for exactly one, not unique for more |
| PaymentsRepository.FindByBookingId | src/main/java/rental/project/repository/payment/PaymentsRepository.java:11-13 | a found payment is the only one of the booking; no match iff no payment belongs to it; not unique iff several do |
| PaymentsRepository.FindByBookingIdIsSingleValued | src/main/java/rental/project/repository/payment/PaymentsRepository.java:13 | while payments are unique per booking, the lookup never meets several rows |
| PaymentsRepository.FindBySessionId | src/main/java/rental/project/repository/payment/PaymentsRepository.java:15-17 | found iff exactly one payment has the session id, and then that one; not unique iff several have it; no match iff none has it |
| PaymentsRepository.FindAllByUserId | src/main/java/rental/project/repository/payment/PaymentsRepository.java:19-21 | exactly the payments whose stored booking belongs to the user |
| PaymentServiceImpl.PaymentBySessionId | src/main/java/rental/project/service/payment/PaymentServiceImpl.java:100-106 | the payment of the session, or EntityNotFound when none has it |
| PaymentServiceImpl.CreatePayment | src/main/java/rental/project/service/payment/PaymentServiceImpl.java:51-60 | refused if any payment exists for the booking (a non-unique match gives NonUniqueResult); then the detailed-view errors; then a provider failure or malformed url gives "Can't create payment session"; otherwise a PENDING payment with the booking's total amount and the provider's session id and url under the new id; errors store nothing |
| PaymentServiceImpl.CreatePaymentKeepsUniquePerBooking | src/main/java/rental/project/service/payment/PaymentServiceImpl.java:53-56 | creating a payment keeps payments unique per booking |
| PaymentServiceImpl.SecondPaymentIsRefused | src/main/java/rental/project/service/payment/PaymentServiceImpl.java:53-56 | after a payment is created for a booking, whatever the payments before, any later attempt for it fails with "Payment already exists" and stores nothing |
| PaymentServiceImpl.StatusChangeKeepsUniquePerBooking | src/main/java/rental/project/service/payment/PaymentServiceImpl.java:75 | changing one payment's status keeps payments unique per booking |
| PaymentServiceImpl.MarkPaid | src/main/java/rental/project/service/payment/PaymentServiceImpl.java:63-81 | provider failure, a session not "complete", an unknown session and an already PAID payment are refused and change nothing; any other payment, CANCELED included, becomes PAID and nothing else changes |
| PaymentServiceImpl.MarkPaidIsNotRepeatable | src/main/java/rental/project/service/payment/PaymentServiceImpl.java:72-74 | a second success on the same session fails with "Payment is already paid" |
| PaymentServiceImpl.MarkCanceled | src/main/java/rental/project/service/payment/PaymentServiceImpl.java:84-98 | provider failure, a session not "open" and an unknown session are refused and change nothing; otherwise the payment becomes CANCELED whatever its status and nothing else changes |
| PaymentServiceImpl.CanceledPaymentCanStillBePaid | src/main/java/rental/project/service/payment/PaymentServiceImpl.java:70-75 | a payment cancelled on an open session is marked PAID by a later success on a complete session |
| PaymentServiceImpl.PaymentService.Save | src/main/java/rental/project/service/payment/PaymentServiceImpl.java:108-126 | the store and result are those of CreatePayment; payments stay unique per booking |
| PaymentServiceImpl.PaymentService.Success | src/main/java/rental/project/service/payment/PaymentServiceImpl.java:63-81 | the store and result are those of MarkPaid; payments stay unique per booking |
| PaymentServiceImpl.PaymentService.Cancel | src/main/java/rental/project/service/payment/PaymentServiceImpl.java:84-98 | the store and result are those of MarkCanceled; payments stay unique per booking |
| StringArrayConverter.ConvertToDatabaseColumn | src/main/java/rental/project/helper/StringArrayConverter.java:10-14 | a null array maps to a null column and the empty array to "" |
| StringArrayConverter.Join | src/main/java/rental/project/helper/StringArrayConverter.java:13 | `String.join(", ", …)`: empty for no elements, starts with the first element, followed by the separator when more come, and is at least two characters (the separator's length) long for each gap between elements |
| StringArrayConverter.ConvertToEntityAttribute | src/main/java/rental/project/helper/StringArrayConverter.java:17-21 | a null or empty column maps to the empty array; the result never ends with an empty element and no element holds ", " |
| StringArrayConverter.Pieces | src/main/java/rental/project/helper/StringArrayConverter.java:20 | the split pieces, at least one, none holding ", " |
| StringArrayConverter.DropTrailingEmpty | src/main/java/rental/project/helper/StringArrayConverter.java:20 | drops exactly the trailing empty pieces |
| StringArrayConverter.PiecesOfJoin | src/main/java/rental/project/helper/StringArrayConverter.java:20 | splitting a join of separator-free parts gives the parts back |
| StringArrayConverter.JoinOfPieces | src/main/java/rental/project/helper/StringArrayConverter.java:13-20 | joining the pieces of a string gives the string back |
| StringArrayConverter.RoundTrip | src/main/java/rental/project/helper/StringArrayConverter.java:11-20 | decode(encode(a)) == a when no element holds ", " and a is empty or ends with a non-empty element |
| StringArrayConverter.ReverseRoundTrip | src/main/java/rental/project/helper/StringArrayConverter.java:11-20 | encode(decode(s)) == s for every s not ending in ", " |
| StringArrayConverter.LeadingEmptyPieceKept | src/main/java/rental/project/helper/StringArrayConverter.java:20 | a column starting with ", " and not ending with ", " decodes to at least two elements, the first one empty |

## Left out

- Pagination and sorting (`Pageable`): each query returns the set of matching ids.
- `findByUserIdAndStatus` and `getAllMyBookings` of the booking service, and `getAllByUserId` of the payment service: they pass straight through to the repository queries modelled above, with paging and mapping.
- Notifications (Telegram) and the scheduler's timing: I/O and framework. The sweep is an operation that takes "today".
- The checkout provider (Stripe): its replies are parameters, with `new URL` folded into the creation reply.
- Mapping between entities and DTOs, and bean validation. As a modelling choice, a booking references its accommodation by id and `updateBooking` stores the id it is given. Referential integrity of the accommodation column is not modelled; the detailed view reports a booking whose accommodation is not stored as not found.
- Transactions and concurrency. Two concurrent payment creations for one booking can both pass the existence check. The model runs operations one at a time.
- Soft delete, null fields other than the converter's inputs and the optional query parameters, null elements of the amenity array (which `String.join` writes as "null"; a `seq<string>` holds none), and the `Long` width of ids.
- `BigDecimal` scale and `long` day counts: money and days are unbounded integers.
- The repository's own tests expect behaviour the service code does not have. The model follows the code for each of these:
  - a pending-payment check on booking creation (src/test/java/rental/project/service/BookingServiceTests.java:107-134);
  - a guard against cancelling an EXPIRED booking (src/test/java/rental/project/service/BookingServiceTests.java:346-368);
  - a `findBookBeforeDateByStatus` query for the sweep (src/test/java/rental/project/service/BookingServiceTests.java:508-509);
  - CONFIRMED set on payment creation (src/test/java/rental/project/service/PaymentServiceTests.java:134, 152);
  - a guard against paying a CANCELED payment (src/test/java/rental/project/service/PaymentServiceTests.java:265-283);
  - payment renewal (src/test/java/rental/project/service/PaymentServiceTests.java:409-434).
- Payment expiry: there is neither an expiry sweep nor an EXPIRED payment status in the code (src/main/java/rental/project/model/Payment.java:54-58).

## Findings

| source | as written | input that shows it | evidently intended | confidence | as-written member | corrected member |
|---|---|---|---|---|---|---|
| src/main/java/rental/project/service/booking/BookingServiceImpl.java:157 | `accommodation.getAvailability() - 1 < bookingsByDateRange.size()` in Java `int` arithmetic wraps when availability is Integer.MIN_VALUE (-2147483648), which nothing rejects | availability -2147483648 with any number of overlapping bookings: the check as written reports available (BookingServiceImpl.MinimumAvailabilityPassesCheck), so `save` goes on past lines 40-42 and stores the booking | a non-positive availability never admits a booking | not executed; medium, needs a stored availability of -2147483648 | BookingServiceImpl.UnavailableAsWritten | BookingServiceImpl.IsUnavailable |
