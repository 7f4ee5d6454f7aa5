/**
 * The dashboard controller: loads the statistics, the current booking and the
 * stored user; logs out.
 */
module DashboardScreen {
  import opened Models
  import opened Repository

  /** The user the current booking is asked for: the known user, or "user_1". */
  function BookingOwner(currentUser: Option<User>): (id: string)
    ensures currentUser.Some? ==> id == currentUser.value.id
    ensures currentUser.None? ==> id == "user_1"
  {
    match currentUser
    case Some(u) => u.id
    case None => "user_1"
  }

  class DashboardViewModel {
    var state: ViewState<DashboardStats>
    var currentBooking: Option<Booking>
    var currentUser: Option<User>
    ghost var published: seq<ViewState<DashboardStats>>
    const repository: StudyNestRepository

    constructor (repository: StudyNestRepository)
      ensures this.repository == repository
      ensures state == Idle && currentBooking.None? && currentUser.None? && published == []
    {
      this.repository := repository;
      state := Idle;
      currentBooking := None;
      currentUser := None;
      published := [];
    }

    /** `bookingId` and `now` stand for the mock booking's fresh identifier and the clock. */
    method LoadDashboard(bookingId: string, now: Date)
      modifies this
      ensures state == Success(DashboardStats(24, 156, 7, 12))
      ensures published == old(published) + [Loading, state]
      ensures currentBooking.Some? && currentBooking.value.userId == BookingOwner(old(currentUser))
      ensures currentBooking.value.status == Active && currentBooking.value.seatNumber == "A1"
      ensures currentUser == repository.GetStoredUser()
    {
      state := Loading;
      published := published + [state];
      var stats := StudyNestRepository.GetDashboardStats();
      currentBooking := StudyNestRepository.GetCurrentBooking(BookingOwner(currentUser), bookingId, now);
      currentUser := repository.GetStoredUser();
      state := Success(stats);
      published := published + [state];
    }

    method Logout()
      modifies this, repository.modelContext
      ensures repository.GetStoredUser().None?
      ensures repository.modelContext != null ==>
                repository.modelContext.users == [] && repository.modelContext.bookings == old(repository.modelContext.bookings)
      ensures currentUser.None? && currentBooking.None? && state == Idle
      ensures published == old(published) + [Idle]
    {
      repository.Logout();
      currentUser := None;
      currentBooking := None;
      state := Idle;
      published := published + [state];
    }
  }
}
