/**
 * The routes of the booking funnel and the navigation stack that holds them.
 *
 * Route equality is hand-written: routes that carry context compare only the
 * seat id, the plan id and the date; hashing feeds only the variant's name to
 * the hasher.
 */
module Navigation {
  import opened Models

  datatype AppRoute =
    | Login
    | Dashboard
    | SeatAvailability
    | SelectPlan(seat: Seat, date: Date)
    | Checkout(seat: Seat, plan: Plan, date: Date)
    | Payment(seat: Seat, plan: Plan, date: Date)
    | BookingHistory
    | Profile
    | Settings

  /** The variant names, in declaration order. */
  const VariantNames: seq<string> :=
    ["login", "dashboard", "seatAvailability", "selectPlan", "checkout", "payment",
     "bookingHistory", "profile", "settings"]

  /** The string `hash(into:)` combines into the hasher for each variant: the variant's name. */
  function HashKey(r: AppRoute): (k: string)
    ensures |k| > 0
    ensures k == VariantNames[VariantIndex(r)]
  {
    match r
    case Login => "login"
    case Dashboard => "dashboard"
    case SeatAvailability => "seatAvailability"
    case SelectPlan(_, _) => "selectPlan"
    case Checkout(_, _, _) => "checkout"
    case Payment(_, _, _) => "payment"
    case BookingHistory => "bookingHistory"
    case Profile => "profile"
    case Settings => "settings"
  }

  /** A hasher, modelled by the sequence of values combined into it. */
  type Hasher = seq<string>

  /** Hashing a route keeps what the hasher holds and combines exactly one more value into it. */
  function HashInto(h: Hasher, r: AppRoute): (h': Hasher)
    ensures |h'| == |h| + 1 && h'[..|h|] == h && h'[|h|] == HashKey(r)
  {
    h + [HashKey(r)]
  }

  /** The hand-written `==`. */
  predicate RouteEquals(lhs: AppRoute, rhs: AppRoute)
    ensures RouteEquals(lhs, rhs) ==> VariantIndex(lhs) == VariantIndex(rhs)
  {
    match (lhs, rhs)
    case (Login, Login) => true
    case (Dashboard, Dashboard) => true
    case (SeatAvailability, SeatAvailability) => true
    case (BookingHistory, BookingHistory) => true
    case (Profile, Profile) => true
    case (Settings, Settings) => true
    case (SelectPlan(s1, d1), SelectPlan(s2, d2)) => s1.id == s2.id && d1 == d2
    case (Checkout(s1, p1, d1), Checkout(s2, p2, d2)) => s1.id == s2.id && p1.id == p2.id && d1 == d2
    case (Payment(s1, p1, d1), Payment(s2, p2, d2)) => s1.id == s2.id && p1.id == p2.id && d1 == d2
    case _ => false
  }

  /** The variant of a route, independent of what it carries. */
  function VariantIndex(r: AppRoute): nat
  {
    match r
    case Login => 0
    case Dashboard => 1
    case SeatAvailability => 2
    case SelectPlan(_, _) => 3
    case Checkout(_, _, _) => 4
    case Payment(_, _, _) => 5
    case BookingHistory => 6
    case Profile => 7
    case Settings => 8
  }

  /** The hash key names the variant and nothing else. */
  lemma HashKeyIsVariant(a: AppRoute, b: AppRoute)
    ensures HashKey(a) == HashKey(b) <==> VariantIndex(a) == VariantIndex(b)
  {
  }

  /** Routes of different variants are never equal. */
  lemma DifferentVariantsUnequal(a: AppRoute, b: AppRoute)
    requires VariantIndex(a) != VariantIndex(b)
    ensures !RouteEquals(a, b)
  {
  }

  /** A route without context equals exactly the routes of its own variant. */
  lemma ParameterlessEquality(a: AppRoute, b: AppRoute)
    requires a.Login? || a.Dashboard? || a.SeatAvailability? || a.BookingHistory? || a.Profile? || a.Settings?
    ensures RouteEquals(a, b) <==> a == b
  {
  }

  lemma SelectPlanEquality(s1: Seat, d1: Date, s2: Seat, d2: Date)
    ensures RouteEquals(SelectPlan(s1, d1), SelectPlan(s2, d2)) <==> s1.id == s2.id && d1 == d2
  {
  }

  lemma CheckoutPaymentEquality(s1: Seat, p1: Plan, d1: Date, s2: Seat, p2: Plan, d2: Date)
    ensures RouteEquals(Checkout(s1, p1, d1), Checkout(s2, p2, d2)) <==> s1.id == s2.id && p1.id == p2.id && d1 == d2
    ensures RouteEquals(Payment(s1, p1, d1), Payment(s2, p2, d2)) <==> s1.id == s2.id && p1.id == p2.id && d1 == d2
    ensures !RouteEquals(Checkout(s1, p1, d1), Payment(s2, p2, d2))
  {
  }

  /** Equality ignores everything but identity: the same seat re-fetched with another price or availability. */
  lemma EqualityIgnoresDisplayFields(s: Seat, price: real, available: bool, d: Date)
    ensures RouteEquals(SelectPlan(s, d), SelectPlan(s.(price := price, isAvailable := available), d))
  {
  }

  lemma {:induction false} RouteEqualsReflexive(a: AppRoute)
    ensures RouteEquals(a, a)
  {
    match a
    case SelectPlan(s, d) =>
    case Checkout(s, p, d) =>
    case Payment(s, p, d) =>
    case _ =>
  }

  lemma RouteEqualsSymmetric(a: AppRoute, b: AppRoute)
    ensures RouteEquals(a, b) <==> RouteEquals(b, a)
  {
  }

  lemma RouteEqualsTransitive(a: AppRoute, b: AppRoute, c: AppRoute)
    requires RouteEquals(a, b) && RouteEquals(b, c)
    ensures RouteEquals(a, c)
  {
  }

  /** Equal routes hash equally, whatever the hasher already holds. */
  lemma HashConsistent(h: Hasher, a: AppRoute, b: AppRoute)
    requires RouteEquals(a, b)
    ensures HashInto(h, a) == HashInto(h, b)
  {
  }

  /** The stack of pushed routes, bottom first; the root screen (login) is not on it. */
  class NavigationManager {
    var path: seq<AppRoute>

    constructor ()
      ensures path == []
    {
      path := [];
    }

    method Navigate(route: AppRoute)
      modifies this
      ensures path == old(path) + [route]
      ensures |path| == |old(path)| + 1 && path[|path| - 1] == route
    {
      path := path + [route];
    }

    /** Pops the top route; does nothing on an empty path. */
    method GoBack()
      modifies this
      ensures old(path) == [] ==> path == []
      ensures old(path) != [] ==> path == old(path)[..|old(path)| - 1]
    {
      if path != [] {
        path := path[..|path| - 1];
      }
    }

    method GoToRoot()
      modifies this
      ensures path == []
    {
      path := [];
    }
  }
}
