/**
 * The seat-availability screen's controller: loads the grid for the chosen
 * date and keeps at most one selected seat, which is always an available one.
 */
module SeatAvailabilityScreen {
  import opened Models
  import opened Repository

  /** The hall the screen always asks for. */
  const HallId: string := "hall_1"

  class SeatAvailabilityViewModel {
    var state: ViewState<seq<Seat>>
    var selectedDate: Date
    var selectedSeat: Option<Seat>
    /** Every value `state` has been given, in order, as the screen observes them. */
    ghost var published: seq<ViewState<seq<Seat>>>
    const repository: StudyNestRepository

    /** The selection is empty or an available seat. */
    ghost predicate Valid()
      reads this
    {
      selectedSeat.Some? ==> selectedSeat.value.isAvailable
    }

    /** `today` stands for the `Date()` the date field starts at. */
    constructor (repository: StudyNestRepository, today: Date)
      ensures Valid()
      ensures this.repository == repository
      ensures state == Idle && selectedDate == today && selectedSeat.None? && published == []
    {
      this.repository := repository;
      state := Idle;
      selectedDate := today;
      selectedSeat := None;
      published := [];
    }

    /** Loads the grid of the selected date; `ids` are the seats' fresh identifiers. */
    method LoadSeats(ids: seq<string>)
      requires |ids| == 16
      modifies this
      ensures state.Success? && |state.value| == 16
      ensures forall i :: 0 <= i < 16 ==> state.value[i] == GridSeat(ids[i], HallId, i)
      ensures published == old(published) + [Loading, state]
      ensures selectedSeat == old(selectedSeat) && selectedDate == old(selectedDate)
    {
      state := Loading;
      published := published + [state];
      var seats := StudyNestRepository.GetSeats(selectedDate, HallId, ids);
      state := Success(seats);
      published := published + [state];
    }

    /** A tap on a seat: ignored when occupied, toggles off the same seat, otherwise replaces the selection. */
    method SelectSeat(seat: Seat)
      requires Valid()
      modifies this
      ensures Valid()
      ensures !seat.isAvailable ==> selectedSeat == old(selectedSeat)
      ensures seat.isAvailable && old(selectedSeat).Some? && old(selectedSeat).value.id == seat.id ==> selectedSeat.None?
      ensures seat.isAvailable && (old(selectedSeat).None? || old(selectedSeat).value.id != seat.id) ==> selectedSeat == Some(seat)
      ensures state == old(state) && selectedDate == old(selectedDate) && published == old(published)
    {
      if seat.isAvailable {
        if selectedSeat.Some? && selectedSeat.value.id == seat.id {
          selectedSeat := None;
        } else {
          selectedSeat := Some(seat);
        }
      }
    }

    /** A new date drops the selection and reloads the grid. */
    method DateChanged(ids: seq<string>)
      requires |ids| == 16
      modifies this
      ensures Valid()
      ensures selectedSeat.None? && state.Success? && |state.value| == 16
      ensures forall i :: 0 <= i < 16 ==> state.value[i] == GridSeat(ids[i], HallId, i)
      ensures published == old(published) + [Loading, state]
      ensures selectedDate == old(selectedDate)
    {
      selectedSeat := None;
      LoadSeats(ids);
    }
  }
}
