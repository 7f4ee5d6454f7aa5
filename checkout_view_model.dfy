/**
 * The checkout screen's controller: the chosen seat, plan and date, and the
 * price breakdown derived from the plan (18% GST, no rounding).
 */
module CheckoutScreen {
  import opened Models

  /** 18% goods and services tax. */
  const GstRate: real := 0.18

  function GstOf(subtotal: real): (gst: real)
    ensures subtotal >= 0.0 ==> gst >= 0.0
    ensures gst == subtotal * 18.0 / 100.0
  {
    subtotal * GstRate
  }

  /** Subtotal plus tax: 118% of the subtotal, never below a non-negative subtotal. */
  function TotalOf(subtotal: real): (total: real)
    ensures total == subtotal * 1.18
    ensures subtotal >= 0.0 ==> total >= subtotal
  {
    subtotal + GstOf(subtotal)
  }

  /** The weekly pass: 999 plus 179.82 tax comes to 1178.82. */
  lemma WeeklyPassTotal()
    ensures GstOf(999.0) == 179.82 && TotalOf(999.0) == 1178.82
  {
  }

  class CheckoutViewModel {
    var selectedSeat: Option<Seat>
    var selectedPlan: Option<Plan>
    var selectedDate: Date

    constructor (today: Date)
      ensures selectedSeat.None? && selectedPlan.None? && selectedDate == today
    {
      selectedSeat := None;
      selectedPlan := None;
      selectedDate := today;
    }

    /** The plan's price, or 0 with no plan. */
    function Subtotal(): (r: real)
      reads this
      ensures selectedPlan.None? ==> r == 0.0
      ensures selectedPlan.Some? ==> r == selectedPlan.value.price
    {
      match selectedPlan
      case Some(p) => p.price
      case None => 0.0
    }

    function Gst(): (r: real)
      reads this
      ensures r == GstOf(Subtotal())
    {
      Subtotal() * 0.18
    }

    function Total(): (r: real)
      reads this
      ensures r == TotalOf(Subtotal())
      ensures Subtotal() >= 0.0 ==> Gst() >= 0.0 && r >= Subtotal()
    {
      Subtotal() + Gst()
    }

    method SetCheckoutData(seat: Option<Seat>, plan: Option<Plan>, date: Date)
      modifies this
      ensures selectedSeat == seat && selectedPlan == plan && selectedDate == date
    {
      selectedSeat := seat;
      selectedPlan := plan;
      selectedDate := date;
    }
  }
}
