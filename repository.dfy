/**
 * The mock repository: fabricated login responses, the seat grid, the plan
 * catalog, the booking history, and a small local record store for the
 * current user and created bookings.
 *
 * Network delays are dropped: every call returns its mock value at once.
 * Each `UUID()` the source draws is a parameter, and so is `Date()` (`now`).
 */
module Repository {
  import opened Models
  import opened Text

  /** Removes the first record equal to `e`, as deleting one fetched record does. */
  function RemoveFirst<R(==)>(s: seq<R>, e: R): (r: seq<R>)
    ensures e in s ==> |r| == |s| - 1
    ensures e !in s ==> r == s
    ensures multiset(r) == multiset(s) - multiset{e}
  {
    if s == [] then []
    else
      assert s == [s[0]] + s[1..];
      if s[0] == e then s[1..] else [s[0]] + RemoveFirst(s[1..], e)
  }

  /** No two records share a key. */
  predicate UniqueKeys<R>(s: seq<R>, key: R -> string)
  {
    forall i, j :: 0 <= i < j < |s| ==> key(s[i]) != key(s[j])
  }

  /**
   * Inserting a record whose entity id is unique: a record with the same key is
   * replaced in place, otherwise the record is added at the end.
   */
  function Upsert<R>(s: seq<R>, e: R, key: R -> string): (r: seq<R>)
    ensures (forall k :: 0 <= k < |s| ==> key(s[k]) != key(e)) ==> r == s + [e]
    ensures (exists k :: 0 <= k < |s| && key(s[k]) == key(e)) ==> |r| == |s|
    ensures e in r
    ensures forall k :: 0 <= k < |s| && key(s[k]) != key(e) ==> r[k] == s[k]
    ensures forall x :: x in r ==> x == e || x in s
  {
    if s == [] then [e]
    else if key(s[0]) == key(e) then [e] + s[1..]
    else
      var t := Upsert(s[1..], e, key);
      assert forall k :: 1 <= k < |s| ==> s[k] == s[1..][k - 1];
      [s[0]] + t
  }

  /** Inserting keeps the ids unique. */
  lemma {:induction false} UpsertKeepsUnique<R>(s: seq<R>, e: R, key: R -> string)
    requires UniqueKeys(s, key)
    ensures UniqueKeys(Upsert(s, e, key), key)
  {
    if s != [] && key(s[0]) != key(e) {
      var t := Upsert(s[1..], e, key);
      assert UniqueKeys(s[1..], key);
      UpsertKeepsUnique(s[1..], e, key);
      forall x | x in t
        ensures key(x) != key(s[0])
      {
        if x != e {
          var m :| 0 <= m < |s[1..]| && s[1..][m] == x;
          assert s[m + 1] == x;
        }
      }
      ConsUnique(s[0], t, key);
    } else if s != [] {
      ConsUnique(e, s[1..], key);
    }
  }

  /** A record whose key no other record has keeps the keys unique when put in front. */
  lemma ConsUnique<R>(a: R, t: seq<R>, key: R -> string)
    requires UniqueKeys(t, key)
    requires forall x :: x in t ==> key(x) != key(a)
    ensures UniqueKeys([a] + t, key)
  {
    var r := [a] + t;
    forall i, j | 0 <= i < j < |r|
      ensures key(r[i]) != key(r[j])
    {
      assert r[j] == t[j - 1];
      if i > 0 {
        assert r[i] == t[i - 1];
      }
    }
  }

  /** Saving the same record twice leaves the store as saving it once. */
  lemma {:induction false} UpsertIdempotent<R>(s: seq<R>, e: R, key: R -> string)
    ensures Upsert(Upsert(s, e, key), e, key) == Upsert(s, e, key)
  {
    if s != [] && key(s[0]) != key(e) {
      var r := Upsert(s, e, key);
      assert r[1..] == Upsert(s[1..], e, key);
      UpsertIdempotent(s[1..], e, key);
    }
  }

  function UserKey(e: UserEntity): string { e.id }
  function BookingKey(e: BookingEntity): string { e.id }

  /**
   * The local record store (the app's data context, with its fetch, insert and
   * delete). Records are kept in insertion order; a fetch returns them in that order.
   */
  class ModelContext {
    var users: seq<UserEntity>
    var bookings: seq<BookingEntity>

    /** A store opened with the records persisted from earlier runs. */
    constructor (users: seq<UserEntity>, bookings: seq<BookingEntity>)
      ensures this.users == users && this.bookings == bookings
    {
      this.users := users;
      this.bookings := bookings;
    }

    method InsertUser(e: UserEntity)
      modifies this
      ensures users == Upsert(old(users), e, UserKey) && bookings == old(bookings)
    {
      users := Upsert(users, e, UserKey);
    }

    method InsertBooking(e: BookingEntity)
      modifies this
      ensures bookings == Upsert(old(bookings), e, BookingKey) && users == old(users)
    {
      bookings := Upsert(bookings, e, BookingKey);
    }

    method FetchUsers() returns (r: seq<UserEntity>)
      ensures r == users
    {
      r := users;
    }

    method DeleteUser(e: UserEntity)
      modifies this
      ensures users == RemoveFirst(old(users), e) && bookings == old(bookings)
    {
      users := RemoveFirst(users, e);
    }
  }

  /** The current user as the store gives it back: the first stored record, converted. */
  function FirstUser(records: seq<UserEntity>): (u: Option<User>)
    ensures u.None? <==> records == []
    ensures u.Some? ==> UserToEntity(u.value) == records[0]
  {
    if records == [] then None else Some(ToUser(records[0]))
  }

  /**
   * Saving a user makes it the stored user when the store is empty or its first
   * record has the same id; otherwise the earlier first record stays the stored user.
   */
  lemma StoredUserAfterSave(records: seq<UserEntity>, u: User)
    ensures FirstUser(Upsert(records, UserToEntity(u), UserKey)) ==
              if records == [] || records[0].id == u.id then Some(u) else FirstUser(records)
  {
  }

  // ---------------------------------------------------------------- seats

  const SeatRows: seq<string> := ["A", "B", "C", "D"]

  /** Row (0-based) and column (1-based) of the `i`-th seat of the row-major grid. */
  function RowOf(i: nat): nat { i / 4 }
  function ColOf(i: nat): nat { i % 4 + 1 }

  /** The fixed occupancy pattern: row 1 col 2, row 2 col 3 and row 0 col 4 are taken. */
  predicate AvailableAt(rowIndex: nat, col: nat)
    ensures rowIndex >= 3 || col == 1 ==> AvailableAt(rowIndex, col)
  {
    !(rowIndex == 1 && col == 2) && !(rowIndex == 2 && col == 3) && !(rowIndex == 0 && col == 4)
  }

  function SeatLabel(rowIndex: nat, col: nat): string
    requires rowIndex < 4
  {
    SeatRows[rowIndex] + NatToString(col)
  }

  /** The `i`-th seat the grid generator produces. */
  function GridSeat(id: string, hallId: string, i: nat): Seat
    requires i < 16
  {
    Seat(id, SeatLabel(RowOf(i), ColOf(i)), hallId, AvailableAt(RowOf(i), ColOf(i)), 50.0)
  }

  const SeatLabels: seq<string> :=
    ["A1", "A2", "A3", "A4", "B1", "B2", "B3", "B4",
     "C1", "C2", "C3", "C4", "D1", "D2", "D3", "D4"]

  /** The grid is numbered A1 ... D4 in row-major order. */
  lemma GridLabels(i: nat)
    requires i < 16
    ensures SeatLabel(RowOf(i), ColOf(i)) == SeatLabels[i]
  {
    assert NatToString(1) == "1" && NatToString(2) == "2";
    assert NatToString(3) == "3" && NatToString(4) == "4";
  }

  /** Exactly B2, C3 and A4 are occupied. */
  lemma GridOccupancy(i: nat)
    requires i < 16
    ensures !AvailableAt(RowOf(i), ColOf(i)) <==> SeatLabels[i] in {"B2", "C3", "A4"}
  {
  }

  lemma OccupiedCount()
    ensures (set i | 0 <= i < 16 && !AvailableAt(RowOf(i), ColOf(i))) == {3, 5, 10}
  {
    var occupied := set i | 0 <= i < 16 && !AvailableAt(RowOf(i), ColOf(i));
    forall i | 0 <= i < 16
      ensures i in occupied <==> i in {3, 5, 10}
    {
      GridOccupancy(i);
    }
  }

  // ---------------------------------------------------------------- repository

  class StudyNestRepository {
    /** The attached store, if any. */
    const modelContext: ModelContext?

    constructor (modelContext: ModelContext?)
      ensures this.modelContext == modelContext
    {
      this.modelContext := modelContext;
    }

    /** Email login: always succeeds and fabricates a user for the given email. */
    static function Login(email: string, password: string, userId: string, tokenId: string): (r: LoginResponse)
      ensures r.success && r.user.Some? && r.token.Some?
      ensures r.user.value.id == userId && r.user.value.email == email
      ensures r.user.value.name == "John Doe" && r.user.value.phone == Some("+91 9876543210")
      ensures r.message == Some("Login successful")
    {
      LoginResponse(true, Some(User(userId, "John Doe", email, Some("+91 9876543210"), None)),
                    Some("Login successful"), Some("mock_token_" + tokenId))
    }

    /** OTP login: succeeds exactly when the OTP is non-empty. */
    static function LoginWithOTP(phone: string, otp: string, userId: string, tokenId: string): (r: LoginResponse)
      ensures r.success <==> otp != ""
      ensures r.success ==> r.user.Some? && r.user.value.phone == Some(phone) && r.user.value.id == userId
                            && r.token.Some? && r.message == Some("OTP verified successfully")
      ensures !r.success ==> r.user.None? && r.token.None? && r.message == Some("Invalid OTP. Please try again.")
    {
      if otp != "" then
        LoginResponse(true, Some(User(userId, "John Doe", "john@example.com", Some(phone), None)),
                      Some("OTP verified successfully"), Some("mock_token_" + tokenId))
      else
        LoginResponse(false, None, Some("Invalid OTP. Please try again."), None)
    }

    static function SendOTP(phone: string): (ok: bool)
      ensures ok
    {
      true
    }

    static function GetDashboardStats(): (stats: DashboardStats)
      ensures stats == DashboardStats(24, 156, 7, 12)
    {
      DashboardStats(24, 156, 7, 12)
    }

    /** The mock active booking: seat A1, a daily pass, four hours from `now`. */
    static function GetCurrentBooking(userId: string, bookingId: string, now: Date): (r: Option<Booking>)
      ensures r.Some? && r.value.userId == userId && r.value.id == bookingId
      ensures r.value.status == Active && r.value.seatNumber == "A1" && r.value.seatId == "seat_1"
      ensures r.value.startTime == now && r.value.endTime == now + 4 * SecondsPerHour
      ensures r.value.planName == "Daily Pass" && r.value.totalAmount == 199.0
    {
      Some(NewBooking(bookingId, "seat_1", "A1", userId, now, AddHours(now, 4), "Daily Pass", 199.0))
    }

    /** The 4 x 4 seat grid of a hall; the same for every date. */
    static method GetSeats(date: Date, hallId: string, ids: seq<string>) returns (seats: seq<Seat>)
      requires |ids| == 16
      ensures |seats| == 16
      ensures forall i :: 0 <= i < 16 ==> seats[i] == GridSeat(ids[i], hallId, i)
      ensures forall i :: 0 <= i < 16 ==> seats[i].seatNumber == SeatLabels[i]
      ensures forall i :: 0 <= i < 16 ==> seats[i].hallId == hallId && seats[i].price == 50.0
      ensures forall i :: 0 <= i < 16 ==> (!seats[i].isAvailable <==> seats[i].seatNumber in {"B2", "C3", "A4"})
    {
      seats := [];
      var rowIndex := 0;
      while rowIndex < 4
        invariant 0 <= rowIndex <= 4
        invariant |seats| == 4 * rowIndex
        invariant forall i :: 0 <= i < |seats| ==> seats[i] == GridSeat(ids[i], hallId, i)
      {
        var col := 1;
        while col <= 4
          invariant 1 <= col <= 5
          invariant |seats| == 4 * rowIndex + col - 1
          invariant forall i :: 0 <= i < |seats| ==> seats[i] == GridSeat(ids[i], hallId, i)
        {
          var seatNumber := SeatRows[rowIndex] + NatToString(col);
          var isAvailable := AvailableAt(rowIndex, col);
          assert RowOf(|seats|) == rowIndex && ColOf(|seats|) == col;
          seats := seats + [Seat(ids[|seats|], seatNumber, hallId, isAvailable, 50.0)];
          col := col + 1;
        }
        rowIndex := rowIndex + 1;
      }
      forall i | 0 <= i < 16
        ensures seats[i].seatNumber == SeatLabels[i]
        ensures !seats[i].isAvailable <==> seats[i].seatNumber in {"B2", "C3", "A4"}
      {
        GridLabels(i);
        GridOccupancy(i);
      }
    }

    /** The plan catalog: daily, weekly and monthly, with the weekly pass recommended. */
    static function GetPlans(ids: seq<string>): (plans: seq<Plan>)
      requires |ids| == 3
      ensures |plans| == 3
      ensures forall i :: 0 <= i < 3 ==> plans[i].id == ids[i]
      ensures forall i :: 0 <= i < 3 ==> (plans[i].isRecommended <==> i == 1)
      ensures plans[0].name == "Daily Pass" && plans[0].duration == "1 Day" && plans[0].price == 199.0
      ensures plans[1].name == "Weekly Pass" && plans[1].duration == "7 Days" && plans[1].price == 999.0
      ensures plans[2].name == "Monthly Pass" && plans[2].duration == "30 Days" && plans[2].price == 2999.0
      ensures forall i :: 0 <= i < 3 ==> |plans[i].features| == [3, 5, 6][i]
    {
      [ Plan(ids[0], "Daily Pass", "1 Day", 199.0,
             ["Access for 1 day", "High-speed WiFi", "Power outlet"], false),
        Plan(ids[1], "Weekly Pass", "7 Days", 999.0,
             ["Access for 7 days", "High-speed WiFi", "Power outlet", "Locker access", "Free coffee"], true),
        Plan(ids[2], "Monthly Pass", "30 Days", 2999.0,
             ["Access for 30 days", "High-speed WiFi", "Power outlet", "Locker access", "Free beverages",
              "Meeting room (2 hrs/week)"], false) ]
    }

    /** The mock booking history: three past bookings of the given user. */
    static function SyncBookings(userId: string, now: Date, ids: seq<string>): (bookings: seq<Booking>)
      requires |ids| == 3
      ensures |bookings| == 3
      ensures forall i :: 0 <= i < 3 ==> bookings[i].userId == userId && bookings[i].id == ids[i]
      ensures bookings[0].status == Completed && bookings[1].status == Completed && bookings[2].status == Cancelled
      ensures forall i :: 0 <= i < 3 ==> bookings[i].endTime - bookings[i].startTime == [4, 8, 6][i] * SecondsPerHour
      ensures forall i :: 0 <= i < 3 ==> bookings[i].startTime == now - [1, 3, 7][i] * SecondsPerDay
      ensures forall i :: 0 <= i < 3 ==> bookings[i].startTime < bookings[i].endTime < now
    {
      [ Booking(ids[0], "seat_1", "A1", userId, AddDays(now, -1), AddHours(AddDays(now, -1), 4),
                Completed, "Daily Pass", 199.0),
        Booking(ids[1], "seat_5", "B1", userId, AddDays(now, -3), AddHours(AddDays(now, -3), 8),
                Completed, "Weekly Pass", 999.0),
        Booking(ids[2], "seat_10", "C2", userId, AddDays(now, -7), AddHours(AddDays(now, -7), 6),
                Cancelled, "Daily Pass", 199.0) ]
    }

    /** Stores the booking when a store is attached, and reports success either way. */
    method CreateBooking(booking: Booking) returns (ok: bool)
      modifies modelContext
      ensures ok
      ensures modelContext != null ==> modelContext.bookings == Upsert(old(modelContext.bookings), BookingToEntity(booking), BookingKey)
      ensures modelContext != null ==> modelContext.users == old(modelContext.users)
    {
      if modelContext != null {
        var entity := BookingToEntity(booking);
        modelContext.InsertBooking(entity);
      }
      ok := true;
    }

    method SaveUser(user: User)
      modifies modelContext
      ensures modelContext != null ==> modelContext.users == Upsert(old(modelContext.users), UserToEntity(user), UserKey)
      ensures modelContext != null ==> modelContext.bookings == old(modelContext.bookings)
    {
      if modelContext == null {
        return;
      }
      var entity := UserToEntity(user);
      modelContext.InsertUser(entity);
    }

    /** The stored user: none without a store, otherwise the first stored record. */
    function GetStoredUser(): (u: Option<User>)
      reads modelContext
      ensures modelContext == null ==> u.None?
      ensures modelContext != null ==> u == FirstUser(modelContext.users)
    {
      if modelContext == null then None else FirstUser(modelContext.users)
    }

    /** Deletes every stored user, one fetched record at a time. */
    method Logout()
      modifies modelContext
      ensures modelContext != null ==> modelContext.users == [] && modelContext.bookings == old(modelContext.bookings)
      ensures GetStoredUser().None?
    {
      if modelContext == null {
        return;
      }
      var users := modelContext.FetchUsers();
      var i := 0;
      while i < |users|
        invariant 0 <= i <= |users|
        invariant modelContext.users == users[i..]
        invariant modelContext.bookings == old(modelContext.bookings)
      {
        modelContext.DeleteUser(users[i]);
        i := i + 1;
      }
    }
  }
}
