/**
 * The value model of the app: the four-state load container, the domain
 * records, the raw-string enums and the conversions between the records
 * kept in the local store and the values the screens use.
 *
 * Dates are whole seconds; money is an exact `real`; an identifier that the
 * app draws from `UUID()` is passed in by the caller.
 */
module Models {

  datatype Option<+T> = None | Some(value: T)

  /** A point in time, in seconds. */
  type Date = int

  const SecondsPerMinute: int := 60
  const SecondsPerHour: int := 3600
  const SecondsPerDay: int := 86400

  /** Calendar arithmetic without time zones: `k` whole days or hours later. */
  function AddDays(d: Date, k: int): Date { d + k * SecondsPerDay }
  function AddHours(d: Date, k: int): Date { d + k * SecondsPerHour }

  /** The lifecycle of one asynchronous load, as every screen shows it. */
  datatype ViewState<T> = Idle | Loading | Success(value: T) | Error(message: string)
  {
    /** A load that has come back, one way or the other. */
    predicate IsSettled() { Success? || Error? }
  }

  datatype User = User(id: string, name: string, email: string, phone: Option<string>, profileUrl: Option<string>)

  datatype Seat = Seat(id: string, seatNumber: string, hallId: string, isAvailable: bool, price: real)

  /** The seat initialiser with its defaults: available, at a price of 50. */
  function NewSeat(id: string, seatNumber: string, hallId: string): (s: Seat)
    ensures s.id == id && s.seatNumber == seatNumber && s.hallId == hallId
    ensures s.isAvailable && s.price == 50.0
  {
    Seat(id, seatNumber, hallId, true, 50.0)
  }

  datatype BookingStatus = Active | Completed | Cancelled | Upcoming
  {
    /** The raw string the enum is declared with: the case name in capitals. */
    function RawValue(): (r: string)
      ensures |r| > 0 && forall k :: 0 <= k < |r| ==> 'A' <= r[k] <= 'Z'
    {
      match this
      case Active => "ACTIVE"
      case Completed => "COMPLETED"
      case Cancelled => "CANCELLED"
      case Upcoming => "UPCOMING"
    }
  }

  /** The failable initialiser `BookingStatus(rawValue:)`. */
  function StatusFromRaw(raw: string): (r: Option<BookingStatus>)
    ensures r.Some? ==> r.value.RawValue() == raw
    ensures r.None? <==> raw !in {"ACTIVE", "COMPLETED", "CANCELLED", "UPCOMING"}
  {
    if raw == "ACTIVE" then Some(Active)
    else if raw == "COMPLETED" then Some(Completed)
    else if raw == "CANCELLED" then Some(Cancelled)
    else if raw == "UPCOMING" then Some(Upcoming)
    else None
  }

  /** Each status is recovered from its raw string, so the raw strings are pairwise distinct. */
  lemma StatusRawRoundTrip(s: BookingStatus)
    ensures StatusFromRaw(s.RawValue()) == Some(s)
  {
  }

  lemma StatusRawValuesDistinct(s: BookingStatus, t: BookingStatus)
    ensures s.RawValue() == t.RawValue() <==> s == t
  {
    StatusRawRoundTrip(s);
    StatusRawRoundTrip(t);
  }

  datatype Booking = Booking(
    id: string, seatId: string, seatNumber: string, userId: string,
    startTime: Date, endTime: Date, status: BookingStatus,
    planName: string, totalAmount: real)

  /** The booking initialiser with its default status. */
  function NewBooking(id: string, seatId: string, seatNumber: string, userId: string,
                      startTime: Date, endTime: Date, planName: string, totalAmount: real): (b: Booking)
    ensures b.status == Active
    ensures b.id == id && b.seatId == seatId && b.seatNumber == seatNumber && b.userId == userId
    ensures b.startTime == startTime && b.endTime == endTime
    ensures b.planName == planName && b.totalAmount == totalAmount
  {
    Booking(id, seatId, seatNumber, userId, startTime, endTime, Active, planName, totalAmount)
  }

  datatype Plan = Plan(id: string, name: string, duration: string, price: real,
                       features: seq<string>, isRecommended: bool)

  datatype LoginResponse = LoginResponse(success: bool, user: Option<User>, message: Option<string>, token: Option<string>)

  datatype DashboardStats = DashboardStats(hoursThisWeek: int, totalHours: int, currentStreak: int, bookingsThisMonth: int)

  datatype PaymentMethod = Card | Upi | NetBanking
  {
    function RawValue(): string
    {
      match this
      case Card => "Credit/Debit Card"
      case Upi => "UPI"
      case NetBanking => "Net Banking"
    }

    /** `Identifiable` conformance: the id is the raw value. */
    function Id(): (r: string)
      ensures r == RawValue()
      ensures |r| > 0
    {
      RawValue()
    }
  }

  /** `CaseIterable`: the cases in declaration order. */
  const AllPaymentMethods: seq<PaymentMethod> := [Card, Upi, NetBanking]

  lemma PaymentMethodCases(m: PaymentMethod)
    ensures m in AllPaymentMethods
    ensures |AllPaymentMethods| == 3
    ensures forall i, j :: 0 <= i < j < |AllPaymentMethods| ==>
              AllPaymentMethods[i].Id() != AllPaymentMethods[j].Id()
  {
  }

  /** The stored form of a user (a plain record of the local store). */
  datatype UserEntity = UserEntity(id: string, name: string, email: string, phone: Option<string>, profileUrl: Option<string>)

  /** The stored form of a booking: the status is kept as its raw string. */
  datatype BookingEntity = BookingEntity(
    id: string, seatId: string, seatNumber: string, userId: string,
    startTime: Date, endTime: Date, status: string,
    planName: string, totalAmount: real)

  /** `UserEntity.toUser`. */
  function ToUser(e: UserEntity): (u: User)
    ensures u.id == e.id && u.name == e.name && u.email == e.email
    ensures u.phone == e.phone && u.profileUrl == e.profileUrl
  {
    User(e.id, e.name, e.email, e.phone, e.profileUrl)
  }

  /** The entity the repository builds from a user when it saves one. */
  function UserToEntity(u: User): (e: UserEntity)
    ensures ToUser(e) == u
  {
    UserEntity(u.id, u.name, u.email, u.phone, u.profileUrl)
  }

  /** `BookingEntity.toBooking`: an unrecognised status string reads back as active. */
  function ToBooking(e: BookingEntity): (b: Booking)
    ensures b.id == e.id && b.seatId == e.seatId && b.seatNumber == e.seatNumber && b.userId == e.userId
    ensures b.startTime == e.startTime && b.endTime == e.endTime
    ensures b.planName == e.planName && b.totalAmount == e.totalAmount
    ensures StatusFromRaw(e.status).Some? ==> b.status.RawValue() == e.status
    ensures StatusFromRaw(e.status).None? ==> b.status == Active
  {
    Booking(e.id, e.seatId, e.seatNumber, e.userId, e.startTime, e.endTime,
            match StatusFromRaw(e.status) case Some(s) => s case None => Active,
            e.planName, e.totalAmount)
  }

  /** The entity the repository builds from a booking when it stores one. */
  function BookingToEntity(b: Booking): (e: BookingEntity)
    ensures e.id == b.id && e.status == b.status.RawValue()
  {
    BookingEntity(b.id, b.seatId, b.seatNumber, b.userId, b.startTime, b.endTime,
                  b.status.RawValue(), b.planName, b.totalAmount)
  }

  /** Storing a booking and reading it back gives the same booking. */
  lemma BookingRoundTrip(b: Booking)
    ensures ToBooking(BookingToEntity(b)) == b
  {
    StatusRawRoundTrip(b.status);
  }

  /** A stored status reads back as active exactly when it is "ACTIVE" or unrecognised. */
  lemma ToBookingActive(e: BookingEntity)
    ensures ToBooking(e).status == Active <==>
              (e.status == "ACTIVE" || e.status !in {"ACTIVE", "COMPLETED", "CANCELLED", "UPCOMING"})
  {
  }

  /** Reading a user entity back and storing it again gives the same entity. */
  lemma UserEntityRoundTrip(e: UserEntity)
    ensures UserToEntity(ToUser(e)) == e
  {
  }
}
