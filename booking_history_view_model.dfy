/**
 * The booking-history controller: loads the user's past bookings.
 */
module BookingHistoryScreen {
  import opened Models
  import opened Repository

  class BookingHistoryViewModel {
    var state: ViewState<seq<Booking>>
    ghost var published: seq<ViewState<seq<Booking>>>
    const repository: StudyNestRepository

    constructor (repository: StudyNestRepository)
      ensures this.repository == repository
      ensures state == Idle && published == []
    {
      this.repository := repository;
      state := Idle;
      published := [];
    }

    /** `now` and `ids` stand for the clock and the history's fresh identifiers. */
    method LoadBookings(userId: string, now: Date, ids: seq<string>)
      requires |ids| == 3
      modifies this
      ensures state == Success(StudyNestRepository.SyncBookings(userId, now, ids))
      ensures published == old(published) + [Loading, state]
      ensures forall i :: 0 <= i < |state.value| ==> state.value[i].userId == userId
    {
      state := Loading;
      published := published + [state];
      var bookings := StudyNestRepository.SyncBookings(userId, now, ids);
      state := Success(bookings);
      published := published + [state];
    }
  }
}
