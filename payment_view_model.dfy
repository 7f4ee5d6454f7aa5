/**
 * The payment screen's controller: stages the booking from the chosen seat,
 * plan and date, then "pays" by handing it to the repository.
 */
module PaymentScreen {
  import opened Models
  import opened Repository
  import CheckoutScreen

  /** The length of a plan in days, by its duration label; an unknown label counts as one day. */
  function DurationDays(duration: string): (days: int)
    ensures duration == "1 Day" ==> days == 1
    ensures duration == "7 Days" ==> days == 7
    ensures duration == "30 Days" ==> days == 30
    ensures duration !in {"1 Day", "7 Days", "30 Days"} ==> days == 1
  {
    match duration
    case "7 Days" => 7
    case "30 Days" => 30
    case _ => 1
  }

  /** Every plan lasts at least a day, so a staged booking always ends after it starts. */
  lemma EndsAfterStart(date: Date, duration: string)
    ensures AddDays(date, DurationDays(duration)) >= date + SecondsPerDay
  {
  }

  /** The mock catalog's plans last 1, 7 and 30 days. */
  lemma CatalogDurations(ids: seq<string>)
    requires |ids| == 3
    ensures forall i :: 0 <= i < 3 ==> DurationDays(StudyNestRepository.GetPlans(ids)[i].duration) == [1, 7, 30][i]
  {
  }

  /** The booking the screen stages for a seat, a plan, a start date and a user. */
  ghost predicate IsStagedBooking(b: Booking, id: string, seat: Seat, plan: Plan, date: Date, userId: string)
  {
    && b.id == id && b.seatId == seat.id && b.seatNumber == seat.seatNumber && b.userId == userId
    && b.startTime == date && b.endTime == AddDays(date, DurationDays(plan.duration))
    && b.status == Active && b.planName == plan.name
    && b.totalAmount == CheckoutScreen.TotalOf(plan.price)
  }

  class PaymentViewModel {
    var selectedPaymentMethod: PaymentMethod
    var isProcessing: bool
    var paymentSuccess: bool
    var errorMessage: Option<string>
    var booking: Option<Booking>
    const repository: StudyNestRepository

    constructor (repository: StudyNestRepository)
      ensures this.repository == repository
      ensures selectedPaymentMethod == Card && !isProcessing && !paymentSuccess
      ensures errorMessage.None? && booking.None?
    {
      this.repository := repository;
      selectedPaymentMethod := Card;
      isProcessing := false;
      paymentSuccess := false;
      errorMessage := None;
      booking := None;
    }

    /** Stages the booking; without a seat or a plan nothing happens. `bookingId` is the fresh identifier. */
    method SetBookingData(seat: Option<Seat>, plan: Option<Plan>, date: Date, userId: string, bookingId: string)
      modifies this
      ensures seat.None? || plan.None? ==> booking == old(booking)
      ensures seat.Some? && plan.Some? ==>
                booking.Some? && IsStagedBooking(booking.value, bookingId, seat.value, plan.value, date, userId)
      ensures seat.Some? && plan.Some? ==> booking.value.startTime < booking.value.endTime
      ensures isProcessing == old(isProcessing) && paymentSuccess == old(paymentSuccess)
      ensures errorMessage == old(errorMessage) && selectedPaymentMethod == old(selectedPaymentMethod)
    {
      if seat.None? || plan.None? {
        return;
      }
      var s := seat.value;
      var p := plan.value;
      var startTime := date;
      var endTime: Date;
      if p.duration == "1 Day" {
        endTime := AddDays(startTime, 1);
      } else if p.duration == "7 Days" {
        endTime := AddDays(startTime, 7);
      } else if p.duration == "30 Days" {
        endTime := AddDays(startTime, 30);
      } else {
        endTime := AddDays(startTime, 1);
      }
      var gst := p.price * 0.18;
      var total := p.price + gst;
      booking := Some(Booking(bookingId, s.id, s.seatNumber, userId, startTime, endTime, Active, p.name, total));
      EndsAfterStart(date, p.duration);
    }

    /** Pays for the staged booking. */
    method ProcessPayment()
      modifies this, repository.modelContext
      ensures old(booking).None? ==>
                errorMessage == Some("No booking data available") &&
                isProcessing == old(isProcessing) && paymentSuccess == old(paymentSuccess)
      ensures old(booking).None? && repository.modelContext != null ==>
                repository.modelContext.bookings == old(repository.modelContext.bookings)
      ensures old(booking).Some? ==> !isProcessing && paymentSuccess && errorMessage.None?
      ensures old(booking).Some? && repository.modelContext != null ==>
                repository.modelContext.bookings == Upsert(old(repository.modelContext.bookings), BookingToEntity(old(booking).value), BookingKey)
      ensures booking == old(booking) && selectedPaymentMethod == old(selectedPaymentMethod)
      ensures repository.modelContext != null ==> repository.modelContext.users == old(repository.modelContext.users)
    {
      if booking.None? {
        errorMessage := Some("No booking data available");
        return;
      }
      isProcessing := true;
      errorMessage := None;
      var success := repository.CreateBooking(booking.value);
      CompletePayment(success);
    }

    /** What `processPayment` does once the repository has answered. */
    method CompletePayment(success: bool)
      modifies this
      ensures !isProcessing
      ensures success ==> paymentSuccess && errorMessage == old(errorMessage)
      ensures !success ==> paymentSuccess == old(paymentSuccess) && errorMessage == Some("Payment failed. Please try again.")
      ensures booking == old(booking) && selectedPaymentMethod == old(selectedPaymentMethod)
    {
      isProcessing := false;
      if success {
        paymentSuccess := true;
      } else {
        errorMessage := Some("Payment failed. Please try again.");
      }
    }
  }
}
