/**
 * The booking controller: hands one booking to the repository and publishes
 * the outcome as a load state.
 */
module BookingScreen {
  import opened Models
  import opened Repository

  class BookingViewModel {
    var state: ViewState<Booking>
    ghost var published: seq<ViewState<Booking>>
    const repository: StudyNestRepository

    constructor (repository: StudyNestRepository)
      ensures this.repository == repository
      ensures state == Idle && published == []
    {
      this.repository := repository;
      state := Idle;
      published := [];
    }

    method CreateBooking(booking: Booking)
      modifies this, repository.modelContext
      ensures state == Success(booking)
      ensures published == old(published) + [Loading, state]
      ensures repository.modelContext != null ==>
                repository.modelContext.bookings == Upsert(old(repository.modelContext.bookings), BookingToEntity(booking), BookingKey)
      ensures repository.modelContext != null ==> repository.modelContext.users == old(repository.modelContext.users)
    {
      state := Loading;
      published := published + [state];
      var success := repository.CreateBooking(booking);
      CompleteCreateBooking(booking, success);
    }

    /** What `createBooking` does once the repository has answered: success or an error, never idle or loading. */
    method CompleteCreateBooking(booking: Booking, success: bool)
      modifies this
      ensures success ==> state == Success(booking)
      ensures !success ==> state == Error("Failed to create booking")
      ensures state.IsSettled()
      ensures published == old(published) + [state]
    {
      if success {
        state := Success(booking);
      } else {
        state := Error("Failed to create booking");
      }
      published := published + [state];
    }
  }
}
