# StudyNest booking funnel in Dafny

StudyNest is an iOS app for booking a seat in a study hall. A user signs in with a
phone number and OTP, an email and password, or a mock Google account. They then
pick a seat from a 4 x 4 grid, choose a daily, weekly or monthly pass, review the
price with 18% GST and pay. The booking then appears in the dashboard and the
history. All data comes from a mock repository. The repository fabricates its
answers, and it keeps the signed-in user and created bookings in a local record
store when one is attached.

This project models the logic below the SwiftUI views:

- `models.dfy` (module `Models`): the four-state load container `ViewState`, the
  records `User`, `Seat`, `Booking`, `Plan`, `LoginResponse` and `DashboardStats`,
  the raw-string enums `BookingStatus` and `PaymentMethod`, and the stored
  entities with their conversions.
- `text.dfy` (module `Text`): decimal rendering of a non-negative integer, as the
  app's string interpolation writes it, with its inverse.
- `repository.dfy` (module `Repository`): the mock repository as a class, with the
  record store as a class `ModelContext` holding sequences of records.
- `navigation.dfy` (module `Navigation`): the routes with their hand-written
  equality and hash, and the navigation stack.
- One module per screen controller: `LoginScreen`, `SeatAvailabilityScreen`,
  `SelectPlanScreen`, `CheckoutScreen`, `PaymentScreen`, `BookingScreen`,
  `DashboardScreen` and `BookingHistoryScreen`. Each controller is a class whose
  methods update its fields as the source does.
- `home_content.dfy` (module `HomeContent`): the dashboard's countdown label.
- `theme.dfy` (module `Theme`): the hex colour decoder's trimming, scanning and
  (alpha, red, green, blue) extraction.

Modelling conventions:

- A date is a whole number of seconds. Adding `k` days or hours adds `k * 86400` or
  `k * 3600`.
- Money is an exact `real`, so 0.18 is exactly 18/100.
- Every `UUID()` the source draws becomes a parameter, named `userId`, `tokenId`,
  `bookingId` or `ids`. So does every `Date()` the source reads, named `now` or
  `today`.
- Each `async` repository call is a synchronous call that returns the mock value.
- Where a controller awaits a result whose failure branch the mock never takes, the
  code after the await is its own method. These are `CompleteSendOTP`,
  `CompleteLogin`, `CompletePayment` and `CompleteCreateBooking`, and each takes the
  result as a parameter, so both branches are modelled and proved.
- A controller's `ghost var published` records every value its `state` field is
  given, in order. That is how the model states "passes through loading, then
  settles".
- The store's entity ids carry a unique constraint. Inserting a record whose id is
  already stored replaces that record in place (`Upsert`). A fetch returns records
  in insertion order.

Facts about the code that a reader of the app's screens might not expect:

- The third occupied seat is row 0, column 4 (1-based), which is A4.
- `getDashboardStats` takes no user id.
- GST is `subtotal * 0.18`; the code does not round it.
- Nothing in the code keeps the store to a single user record. Saving users with
  different ids keeps them all, and the first one stays the stored user
  (`Repository.StoredUserAfterSave`).

All source paths below are relative to the repository root.

## Model

| member | source | states |
|---|---|---|
| Models.NewSeat | studynest/studynest/Data/Model/Models.swift:44-50 | the seat initialiser keeps id, label and hall, and defaults to available at price 50 |
| Models.StatusFromRaw | studynest/studynest/Data/Model/Models.swift:78-83 | `BookingStatus(rawValue:)` succeeds exactly on ACTIVE, COMPLETED, CANCELLED and UPCOMING; a status it yields has the given raw value |
| Models.BookingStatus.RawValue | studynest/studynest/Data/Model/Models.swift:78-83 | every raw value is a non-empty string of capital letters |
| Models.StatusRawRoundTrip | studynest/studynest/Data/Model/Models.swift:78-83 | every status is recovered from its own raw value |
| Models.StatusRawValuesDistinct | studynest/studynest/Data/Model/Models.swift:78-83 | two statuses have the same raw value exactly when they are the same status |
| Models.NewBooking | studynest/studynest/Data/Model/Models.swift:65-75 | the booking initialiser keeps every argument and defaults the status to active |
| Models.PaymentMethod.Id | studynest/studynest/Data/Model/Models.swift:126 | a payment method's id is its non-empty raw value |
| Models.PaymentMethodCases | studynest/studynest/Data/Model/Models.swift:121-126 | there are exactly three payment methods, every method is among them, and their ids are distinct |
| Models.ToUser | studynest/studynest/Data/Model/Models.swift:155-157 | `toUser` copies id, name, email, phone and profile URL unchanged |
| Models.UserToEntity | studynest/studynest/Data/Repository/StudyNestRepository.swift:257-263 | the entity `saveUser` builds converts back by `toUser` to the same user |
| Models.UserEntityRoundTrip | studynest/studynest/Data/Model/Models.swift:147-157 | converting a stored user out and back gives the same entity |
| Models.ToBooking | studynest/studynest/Data/Model/Models.swift:184-196 | `toBooking` copies every field; a recognised status string gives the status with that raw value, and any other string gives active |
| Models.BookingToEntity | studynest/studynest/Data/Repository/StudyNestRepository.swift:234-244 | the entity `createBooking` builds keeps the booking's id and stores the status as its raw value |
| Models.BookingRoundTrip | studynest/studynest/Data/Model/Models.swift:172-196 | storing a booking as `createBooking` does and reading it back by `toBooking` gives the same booking |
| Models.ToBookingActive | studynest/studynest/Data/Model/Models.swift:192 | a stored booking reads back as active exactly when its string is "ACTIVE" or unrecognised |
| Text.NatToString | studynest/studynest/UI/Screens/HomeContentView.swift:192-194 | the interpolated numeral is nonempty, all digits, without a leading zero, one digit long exactly for n < 10 |
| Text.ParseNatToString | studynest/studynest/UI/Screens/HomeContentView.swift:192-194 | reading the numeral back gives the number |
| Text.NatToStringInjective | studynest/studynest/UI/Screens/HomeContentView.swift:192-194 | different numbers get different numerals, and equal numbers equal ones |
| Repository.RemoveFirst | studynest/studynest/Data/Repository/StudyNestRepository.swift:283 | deleting a record removes one occurrence of it: the multiset loses exactly that record, the length drops by one when it was present, and nothing changes otherwise |
| Repository.Upsert | studynest/studynest/Data/Model/Models.swift:141 | inserting under a unique id: appended when the id is new, same length when it exists, the record is present afterwards, records with other ids keep their positions, and nothing else is added |
| Repository.UpsertKeepsUnique | studynest/studynest/Data/Model/Models.swift:141 | inserting into a store whose ids are unique leaves the ids unique |
| Repository.ConsUnique | studynest/studynest/Data/Model/Models.swift:141 | a record whose id differs from every stored id can be put in front of a store with unique ids, and the ids stay unique |
| Repository.UpsertIdempotent | studynest/studynest/Data/Model/Models.swift:141 | inserting the same record twice gives the same store as inserting it once |
| Repository.ModelContext.constructor | studynest/studynest/Data/Repository/StudyNestRepository.swift:14-18 | a store attached to the repository holds exactly the user and booking records it was opened with |
| Repository.ModelContext.InsertUser | studynest/studynest/Data/Repository/StudyNestRepository.swift:264-265 | the user records are upserted with the new entity; booking records are unchanged |
| Repository.ModelContext.InsertBooking | studynest/studynest/Data/Repository/StudyNestRepository.swift:245-246 | the booking records are upserted with the new entity; user records are unchanged |
| Repository.ModelContext.FetchUsers | studynest/studynest/Data/Repository/StudyNestRepository.swift:271-272 | a fetch returns every stored user record, in store order |
| Repository.ModelContext.DeleteUser | studynest/studynest/Data/Repository/StudyNestRepository.swift:283 | deleting a fetched user removes its first occurrence; booking records are unchanged |
| Repository.FirstUser | studynest/studynest/Data/Repository/StudyNestRepository.swift:271-273 | the stored user is absent exactly when there are no records, and otherwise is the first record converted |
| Repository.StoredUserAfterSave | studynest/studynest/Data/Repository/StudyNestRepository.swift:254-274 | after a save the stored user is the saved one when the store was empty or its first record has the same id, and is unchanged otherwise |
| Repository.AvailableAt | studynest/studynest/Data/Repository/StudyNestRepository.swift:122 | every seat in the last row, and every seat in column 1, is available |
| Repository.GridLabels | studynest/studynest/Data/Repository/StudyNestRepository.swift:116-120 | the i-th generated seat is labelled A1 ... D4 in row-major order |
| Repository.GridOccupancy | studynest/studynest/Data/Repository/StudyNestRepository.swift:122 | a grid position is occupied exactly when its label is B2, C3 or A4 |
| Repository.OccupiedCount | studynest/studynest/Data/Repository/StudyNestRepository.swift:122 | the occupied grid positions are exactly indices 3, 5 and 10, so three seats |
| Repository.StudyNestRepository.constructor | studynest/studynest/Data/Repository/StudyNestRepository.swift:16-18 | the repository keeps the given store, or none |
| Repository.StudyNestRepository.Login | studynest/studynest/Data/Repository/StudyNestRepository.swift:22-40 | email login always succeeds, with a token, the message "Login successful" and a "John Doe" user carrying the given email and the fixed phone |
| Repository.StudyNestRepository.LoginWithOTP | studynest/studynest/Data/Repository/StudyNestRepository.swift:42-69 | OTP login succeeds exactly when the OTP is non-empty, returning a user with the given phone and a token; on failure there is no user and no token, and the message is "Invalid OTP. Please try again." |
| Repository.StudyNestRepository.SendOTP | studynest/studynest/Data/Repository/StudyNestRepository.swift:71-75 | sending an OTP always reports success |
| Repository.StudyNestRepository.GetDashboardStats | studynest/studynest/Data/Repository/StudyNestRepository.swift:79-89 | the statistics are 24, 156, 7 and 12 |
| Repository.StudyNestRepository.GetCurrentBooking | studynest/studynest/Data/Repository/StudyNestRepository.swift:91-106 | there is a current booking: the user's active daily pass on seat A1 (seat_1) for 199, from now to four hours later |
| Repository.StudyNestRepository.GetSeats | studynest/studynest/Data/Repository/StudyNestRepository.swift:110-134 | for any date, the nested loops yield 16 seats in row-major grid order, labelled A1 ... D4, in the requested hall at price 50, with exactly B2, C3 and A4 unavailable |
| Repository.StudyNestRepository.GetPlans | studynest/studynest/Data/Repository/StudyNestRepository.swift:138-182 | three plans: Daily Pass (1 Day, 199), Weekly Pass (7 Days, 999) and Monthly Pass (30 Days, 2999), with 3, 5 and 6 features; only the weekly pass is recommended |
| Repository.StudyNestRepository.SyncBookings | studynest/studynest/Data/Repository/StudyNestRepository.swift:186-226 | three past bookings of the given user (completed, completed, cancelled) start 1, 3 and 7 days ago, last 4, 8 and 6 hours, and end before now |
| Repository.StudyNestRepository.CreateBooking | studynest/studynest/Data/Repository/StudyNestRepository.swift:228-250 | reports success; with a store attached the booking's entity is upserted into it and the users are untouched |
| Repository.StudyNestRepository.SaveUser | studynest/studynest/Data/Repository/StudyNestRepository.swift:254-266 | with a store attached the user's entity is upserted and the bookings are untouched |
| Repository.StudyNestRepository.GetStoredUser | studynest/studynest/Data/Repository/StudyNestRepository.swift:268-274 | no user without a store, otherwise the first stored record converted |
| Repository.StudyNestRepository.Logout | studynest/studynest/Data/Repository/StudyNestRepository.swift:276-287 | the delete loop leaves no user records, keeps the bookings, and the stored user is then absent |
| Navigation.HashKey | studynest/studynest/UI/Navigation/AppNavigation.swift:22-43 | the value a route combines is the non-empty name of its own case |
| Navigation.HashInto | studynest/studynest/UI/Navigation/AppNavigation.swift:22-43 | hashing a route keeps what the hasher held and combines exactly that route's case name |
| Navigation.RouteEquals | studynest/studynest/UI/Navigation/AppNavigation.swift:45-63 | equal routes are of the same case |
| Navigation.HashKeyIsVariant | studynest/studynest/UI/Navigation/AppNavigation.swift:22-43 | two routes feed the same value to the hasher exactly when they are of the same variant |
| Navigation.DifferentVariantsUnequal | studynest/studynest/UI/Navigation/AppNavigation.swift:45-63 | routes of different variants are never equal, e.g. checkout and payment with the same arguments |
| Navigation.ParameterlessEquality | studynest/studynest/UI/Navigation/AppNavigation.swift:47-53 | a route without context equals exactly itself |
| Navigation.SelectPlanEquality | studynest/studynest/UI/Navigation/AppNavigation.swift:54-55 | two plan-selection routes are equal exactly when their seat ids and dates are |
| Navigation.CheckoutPaymentEquality | studynest/studynest/UI/Navigation/AppNavigation.swift:56-59 | checkout routes, and payment routes, are equal exactly when seat id, plan id and date are; a checkout never equals a payment |
| Navigation.EqualityIgnoresDisplayFields | studynest/studynest/UI/Navigation/AppNavigation.swift:54-55 | a seat re-fetched with another price or availability gives an equal route |
| Navigation.RouteEqualsReflexive | studynest/studynest/UI/Navigation/AppNavigation.swift:45-63 | every route equals itself |
| Navigation.RouteEqualsSymmetric | studynest/studynest/UI/Navigation/AppNavigation.swift:45-63 | route equality is symmetric |
| Navigation.RouteEqualsTransitive | studynest/studynest/UI/Navigation/AppNavigation.swift:45-63 | route equality is transitive |
| Navigation.HashConsistent | studynest/studynest/UI/Navigation/AppNavigation.swift:22-63 | equal routes leave any hasher in the same state |
| Navigation.NavigationManager.constructor | studynest/studynest/UI/Navigation/AppNavigation.swift:67 | the path starts empty |
| Navigation.NavigationManager.Navigate | studynest/studynest/UI/Navigation/AppNavigation.swift:69-71 | the route becomes the new last element and the path grows by one |
| Navigation.NavigationManager.GoBack | studynest/studynest/UI/Navigation/AppNavigation.swift:73-77 | the last route is removed, and an empty path stays empty |
| Navigation.NavigationManager.GoToRoot | studynest/studynest/UI/Navigation/AppNavigation.swift:79-81 | the path is empty |
| LoginScreen.Toggled | studynest/studynest/ViewModel/LoginViewModel.swift:122 | the toggled mode differs from the current one |
| LoginScreen.ToggleTwice | studynest/studynest/ViewModel/LoginViewModel.swift:121-124 | toggling twice restores the mode |
| LoginScreen.FailureMessage | studynest/studynest/ViewModel/LoginViewModel.swift:72 | the error shown is the response's message when it has one, and the screen's fallback otherwise |
| LoginScreen.LoginViewModel.constructor | studynest/studynest/ViewModel/LoginViewModel.swift:19-34 | phone mode, empty fields, flags down, no error, no user |
| LoginScreen.LoginViewModel.SendOTP | studynest/studynest/ViewModel/LoginViewModel.swift:36-53 | an empty phone sets "Please enter a phone number" and changes nothing else; otherwise the screen ends not loading, without error and with the OTP sent |
| LoginScreen.LoginViewModel.CompleteSendOTP | studynest/studynest/ViewModel/LoginViewModel.swift:47-52 | loading ends; success marks the OTP sent, failure sets "Failed to send OTP. Please try again.", and nothing else changes |
| LoginScreen.LoginViewModel.VerifyOTP | studynest/studynest/ViewModel/LoginViewModel.swift:55-74 | an empty OTP sets "Please enter the OTP" and the store is untouched; otherwise the user with the entered phone is signed in and saved, without error; the bookings are never touched |
| LoginScreen.LoginViewModel.LoginWithEmail | studynest/studynest/ViewModel/LoginViewModel.swift:76-99 | the email is checked before the password, with their two messages and no store change; otherwise the user with the entered email is signed in and saved; the bookings are never touched |
| LoginScreen.LoginViewModel.CompleteLogin | studynest/studynest/ViewModel/LoginViewModel.swift:66-73 | a successful response with a user signs that user in and saves it; any other response sets the failure message and leaves the store as it was; bookings are never touched |
| LoginScreen.LoginViewModel.LoginWithGoogle | studynest/studynest/ViewModel/LoginViewModel.swift:101-119 | the fixed Google account is signed in and saved, not loading and without error; the bookings are untouched |
| LoginScreen.LoginViewModel.ToggleLoginMode | studynest/studynest/ViewModel/LoginViewModel.swift:121-124 | the mode flips, the error is cleared, and nothing else changes |
| LoginScreen.LoginViewModel.ResetOTP | studynest/studynest/ViewModel/LoginViewModel.swift:126-129 | only the OTP-sent flag (to false) and the OTP (to "") change |
| LoginScreen.LoginViewModel.ResetLoginState | studynest/studynest/ViewModel/LoginViewModel.swift:131-141 | the four text fields and the flags are cleared; the mode and the user stay |
| SeatAvailabilityScreen.SeatAvailabilityViewModel.constructor | studynest/studynest/ViewModel/SeatAvailabilityViewModel.swift:14-22 | idle, no selection, the date is today |
| SeatAvailabilityScreen.SeatAvailabilityViewModel.LoadSeats | studynest/studynest/ViewModel/SeatAvailabilityViewModel.swift:24-30 | the state passes through loading and ends holding the 16-seat grid of hall "hall_1"; selection and date are unchanged |
| SeatAvailabilityScreen.SeatAvailabilityViewModel.SelectSeat | studynest/studynest/ViewModel/SeatAvailabilityViewModel.swift:32-40 | an unavailable seat changes nothing, the selected seat toggles off, any other available seat becomes the selection, and the selection stays empty or available |
| SeatAvailabilityScreen.SeatAvailabilityViewModel.DateChanged | studynest/studynest/ViewModel/SeatAvailabilityViewModel.swift:42-45 | the selection is cleared and the grid is reloaded, ending in success |
| SelectPlanScreen.FirstRecommended | studynest/studynest/ViewModel/SelectPlanViewModel.swift:32 | none exactly when no plan is recommended, and otherwise the earliest recommended plan |
| SelectPlanScreen.CatalogRecommendsWeekly | studynest/studynest/ViewModel/SelectPlanViewModel.swift:31-33 | in the mock catalog the first recommended plan is the weekly pass |
| SelectPlanScreen.SelectPlanViewModel.constructor | studynest/studynest/ViewModel/SelectPlanViewModel.swift:14-21 | idle, no plan chosen |
| SelectPlanScreen.SelectPlanViewModel.LoadPlans | studynest/studynest/ViewModel/SelectPlanViewModel.swift:23-34 | the state passes through loading and ends holding the catalog; a chosen plan stays, and otherwise the first recommended plan, the weekly pass, is chosen |
| SelectPlanScreen.SelectPlanViewModel.SelectPlan | studynest/studynest/ViewModel/SelectPlanViewModel.swift:36-38 | the given plan is chosen unconditionally; the state is unchanged |
| CheckoutScreen.GstOf | studynest/studynest/ViewModel/CheckoutViewModel.swift:22-24 | the tax is 18/100 of the subtotal, non-negative for a non-negative subtotal |
| CheckoutScreen.TotalOf | studynest/studynest/ViewModel/CheckoutViewModel.swift:26-28 | the total is 1.18 times the subtotal, never below a non-negative subtotal |
| CheckoutScreen.WeeklyPassTotal | studynest/studynest/ViewModel/CheckoutViewModel.swift:22-28 | a price of 999 gives tax 179.82 and total 1178.82 |
| CheckoutScreen.CheckoutViewModel.constructor | studynest/studynest/ViewModel/CheckoutViewModel.swift:14-16 | no seat, no plan, the date is today |
| CheckoutScreen.CheckoutViewModel.Subtotal | studynest/studynest/ViewModel/CheckoutViewModel.swift:18-20 | the chosen plan's price, or 0 with no plan |
| CheckoutScreen.CheckoutViewModel.Gst | studynest/studynest/ViewModel/CheckoutViewModel.swift:22-24 | the tax on the subtotal |
| CheckoutScreen.CheckoutViewModel.Total | studynest/studynest/ViewModel/CheckoutViewModel.swift:26-28 | subtotal plus tax; for a non-negative price the tax is non-negative and the total at least the subtotal |
| CheckoutScreen.CheckoutViewModel.SetCheckoutData | studynest/studynest/ViewModel/CheckoutViewModel.swift:30-34 | seat, plan and date are overwritten by the arguments, absent values included |
| PaymentScreen.DurationDays | studynest/studynest/ViewModel/PaymentViewModel.swift:33-42 | "1 Day", "7 Days" and "30 Days" last 1, 7 and 30 days, and any other label lasts 1 day |
| PaymentScreen.EndsAfterStart | studynest/studynest/ViewModel/PaymentViewModel.swift:30-42 | a staged booking ends at least a day after it starts |
| PaymentScreen.CatalogDurations | studynest/studynest/ViewModel/PaymentViewModel.swift:33-39 | the mock catalog's plans last 1, 7 and 30 days |
| PaymentScreen.PaymentViewModel.constructor | studynest/studynest/ViewModel/PaymentViewModel.swift:14-25 | card selected, not processing, no success, no error, nothing staged |
| PaymentScreen.PaymentViewModel.SetBookingData | studynest/studynest/ViewModel/PaymentViewModel.swift:27-57 | without a seat or a plan the staged booking is unchanged; otherwise the staged booking is active, on the seat, for the user and plan, starts at the date, ends the plan's duration later (so after it starts) and costs the checkout total; the flags are untouched |
| PaymentScreen.PaymentViewModel.ProcessPayment | studynest/studynest/ViewModel/PaymentViewModel.swift:59-80 | with nothing staged it sets "No booking data available" and leaves the flags and the store alone; otherwise it ends not processing, successful and without error, with the booking upserted into the store |
| PaymentScreen.PaymentViewModel.CompletePayment | studynest/studynest/ViewModel/PaymentViewModel.swift:73-79 | processing ends; success sets the success flag, failure sets "Payment failed. Please try again." |
| BookingScreen.BookingViewModel.constructor | studynest/studynest/ViewModel/BookingViewModel.swift:14-20 | the state starts idle |
| BookingScreen.BookingViewModel.CreateBooking | studynest/studynest/ViewModel/BookingViewModel.swift:22-32 | the state passes through loading and ends holding the given booking, which is upserted into the store |
| BookingScreen.BookingViewModel.CompleteCreateBooking | studynest/studynest/ViewModel/BookingViewModel.swift:27-31 | success holds the booking, failure is the error "Failed to create booking", and the state is never left idle or loading |
| DashboardScreen.BookingOwner | studynest/studynest/ViewModel/DashboardViewModel.swift:27 | the current booking is asked for the known user's id, or "user_1" |
| DashboardScreen.DashboardViewModel.constructor | studynest/studynest/ViewModel/DashboardViewModel.swift:13-21 | idle, no booking, no user |
| DashboardScreen.DashboardViewModel.LoadDashboard | studynest/studynest/ViewModel/DashboardViewModel.swift:23-31 | the state passes through loading and ends with the mock statistics; the current booking is the active A1 booking of the user known before the load; the user becomes the stored user |
| DashboardScreen.DashboardViewModel.Logout | studynest/studynest/ViewModel/DashboardViewModel.swift:33-38 | the store holds no users and bookings are kept, the stored user is absent, user and booking are cleared, and the state is idle |
| BookingHistoryScreen.BookingHistoryViewModel.constructor | studynest/studynest/ViewModel/BookingHistoryViewModel.swift:14-20 | the state starts idle |
| BookingHistoryScreen.BookingHistoryViewModel.LoadBookings | studynest/studynest/ViewModel/BookingHistoryViewModel.swift:22-28 | the state passes through loading and ends holding exactly the mock history, every booking of the given user |
| HomeContent.SplitIsHoursMinutes | studynest/studynest/UI/Screens/HomeContentView.swift:188-189 | for a positive interval the source's hours and minutes account for it: minutes below 60 and less than a minute left over |
| HomeContent.HoursMinutesUnique | studynest/studynest/UI/Screens/HomeContentView.swift:188-189 | the hours and minutes accounting for an interval are unique |
| HomeContent.TimeRemainingShows | studynest/studynest/UI/Screens/HomeContentView.swift:182-195 | a future end time shows "{h}h {m}m" for the hours and minutes left, or "{m} min" when no whole hour is left |
| HomeContent.UnderAMinute | studynest/studynest/UI/Screens/HomeContentView.swift:191-195 | less than a minute left shows "0 min" |
| HomeContent.TimeRemaining | studynest/studynest/UI/Screens/HomeContentView.swift:182-195 | the label is "Completed" exactly when the end time is not in the future |
| Theme.LeadingEnd | studynest/studynest/UI/Theme/Theme.swift:39 | the leading cut is the first letter or digit, nothing before it being one |
| Theme.TrailingStart | studynest/studynest/UI/Theme/Theme.swift:39 | the trailing cut is just after the last letter or digit, nothing after it being one |
| Theme.Trim | studynest/studynest/UI/Theme/Theme.swift:39 | trimming never lengthens the string, and a non-empty result starts and ends with a letter or digit |
| Theme.TrimKeepsMiddle | studynest/studynest/UI/Theme/Theme.swift:39 | trimming keeps one contiguous slice and drops only non-alphanumeric characters before and after it; a nonempty result starts and ends with a letter or digit |
| Theme.TrimIdentity | studynest/studynest/UI/Theme/Theme.swift:39 | a string that starts and ends with a letter or digit is not changed by trimming |
| Theme.HexRun | studynest/studynest/UI/Theme/Theme.swift:41 | the scanner reads the longest run of leading hex digits, all of a hex-only string |
| Theme.ScanHex | studynest/studynest/UI/Theme/Theme.swift:40-41 | a string that does not start with a hex digit scans as 0 |
| Theme.ScanHexBound | studynest/studynest/UI/Theme/Theme.swift:41 | the scanned value is below 16 to the power of the string's length |
| Theme.ScanAllHex | studynest/studynest/UI/Theme/Theme.swift:41 | on a string of hex digits the scanned value is its hexadecimal value |
| Theme.HexColor | studynest/studynest/UI/Theme/Theme.swift:38-52 | for every string, each of the four components is in 0..255 |
| Theme.ColorOfTrimmed | studynest/studynest/UI/Theme/Theme.swift:43-52 | for every trimmed string, whatever its length, each of the four components is in 0..255 |
| Theme.ThreeDigits | studynest/studynest/UI/Theme/Theme.swift:44-45 | three hex digits give opaque alpha and each channel as its digit times 17 |
| Theme.SixDigits | studynest/studynest/UI/Theme/Theme.swift:46-47 | six hex digits give opaque alpha and red, green and blue as the three digit pairs |
| Theme.EightDigits | studynest/studynest/UI/Theme/Theme.swift:48-49 | eight hex digits give alpha, red, green and blue as the four digit pairs |
| Theme.OtherLengths | studynest/studynest/UI/Theme/Theme.swift:50-51 | any other trimmed length gives (1, 1, 1, 0) |
| Theme.WhiteShorthand | studynest/studynest/UI/Theme/Theme.swift:44-45 | "FFF" decodes to (255, 255, 255, 255) |

## Left out

- Network delays (`Task.sleep`), `async` suspension and `@MainActor` scheduling are not modelled. Each call completes at once, so the races between overlapping loads are not represented.
- `UUID()` identifiers and tokens are parameters, and so is the clock (`Date()`).
- `Calendar.current` is plain arithmetic: a day is 86400 seconds and an hour 3600. Time zones and daylight saving are ignored, and so is the `?? startTime` fallback, which the calendar never takes for whole days.
- Times are whole seconds, so the sub-second part of `timeIntervalSince` and its truncation by `Int(...)` are not modelled.
- `Double` is modelled as an exact `real`, so rounding in IEEE arithmetic (for example of `999 * 0.18`) is not represented.
- The `try? context.save()` calls are assumed to succeed, so a failed save is not modelled.
- Repository.ModelContext.FetchUsers: returns records in insertion order, which the store does not promise without a sort descriptor.
- Repository.Upsert: replaces a record with the same id at insert time. The store may defer that replacement until the save that follows, which the model does not distinguish.
- Theme.IsAlphanumeric: only ASCII letters and digits count, where the app's character set holds all Unicode letters and digits. The length of a string is its number of Unicode scalars, not of grapheme clusters.
- Theme.HexColor: the scanned value is an unbounded integer. The 64-bit overflow of the scanner is not modelled, since lengths 3, 6 and 8 never reach it and other lengths discard the value.
- The conversion of the components to sRGB (divided by 255 as `Double`) is not modelled, nor the colour constants built from them.
- `PaymentMethod.icon` is not modelled; it holds only image names.
- Every SwiftUI view, component, style and preview is not modelled. Neither is the route-to-screen dispatch in `ContentView.swift`, the app's container setup in `studynestApp.swift`, the unused `Item` model, or the UI tests.
- Every controller in the app builds its repository without a store, so the store is never attached there. The model allows both, and each store property is stated for the attached case.

