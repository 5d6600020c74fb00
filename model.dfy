/** The persistent entities of the rental platform, as values. */
module Model {

  /** A calendar date as a day number; `LocalDate` comparison is integer comparison. */
  type Date = int

  /** A `BigDecimal` amount, exact, in minor currency units. */
  type Money = int

  type BookingId = int
  type AccommodationId = int
  type UserId = int
  type PaymentId = int

  const Int32Min: int := -0x8000_0000
  const Int32Max: int := 0x7fff_ffff

  /** Java's `int`: the values a `java.lang.Integer` can hold. */
  type Int32 = x: int | Int32Min <= x <= Int32Max

  datatype Role = Admin | Customer

  /** The acting user: only the identity and role matter to the services. */
  datatype User = User(id: UserId, role: Role)

  datatype BookingStatus = Pending | Confirmed | Canceled | Expired

  /** A booking row; its id is the key it is stored under. */
  datatype Booking = Booking(
    checkinDate: Date,
    checkoutDate: Date,
    accommodationId: AccommodationId,
    userId: UserId,
    status: BookingStatus)

  /** The parts of an accommodation that the booking engine reads. */
  datatype Accommodation = Accommodation(dailyRate: Money, availability: Int32)

  datatype PaymentStatus = PaymentPending | Paid | PaymentCanceled

  /** A payment row; `bookingId` is its one-to-one link to a booking. */
  datatype Payment = Payment(
    status: PaymentStatus,
    bookingId: BookingId,
    sessionUrl: string,
    sessionId: string,
    amount: Money)
}
