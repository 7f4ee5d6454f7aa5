/**
 * The dashboard's countdown label for the current booking: "Completed" once
 * the end time has passed, otherwise hours and minutes left.
 */
module HomeContent {
  import opened Models
  import opened Text

  /**
   * `timeRemaining(from:)`, with the clock's `Date()` passed in as `now`. Both
   * times are whole seconds, so `Int(interval)` is the interval itself; it is
   * positive wherever it is divided, where truncating and Euclidean division agree.
   */
  function TimeRemaining(endTime: Date, now: Date): (shown: string)
    ensures shown == "Completed" <==> endTime <= now
  {
    var interval := endTime - now;
    if interval <= 0 then "Completed"
    else
      var hours := interval / SecondsPerHour;
      var minutes := (interval % SecondsPerHour) / SecondsPerMinute;
      var shown := if hours > 0 then NatToString(hours) + "h " + NatToString(minutes) + "m"
                   else NatToString(minutes) + " min";
      assert shown[|shown| - 1] == 'm' || shown[|shown| - 1] == 'n';
      assert "Completed"[8] == 'd';
      shown
  }

  /** `h` whole hours and `m` whole minutes are what `s` seconds hold. */
  predicate IsHoursMinutes(s: int, h: nat, m: nat)
  {
    m < 60 && h * 3600 + m * 60 <= s < h * 3600 + m * 60 + 60
  }

  /** The source's split into hours and minutes is the one `IsHoursMinutes` describes. */
  lemma SplitIsHoursMinutes(s: int)
    requires s > 0
    ensures s / 3600 >= 0 && (s % 3600) / 60 < 60
    ensures IsHoursMinutes(s, s / 3600, (s % 3600) / 60)
  {
    var h, rest := s / 3600, s % 3600;
    assert s == h * 3600 + rest;
    var m, sec := rest / 60, rest % 60;
    assert rest == m * 60 + sec;
  }

  /** Hours and minutes are uniquely determined by the seconds. */
  lemma HoursMinutesUnique(s: int, h1: nat, m1: nat, h2: nat, m2: nat)
    requires IsHoursMinutes(s, h1, m1) && IsHoursMinutes(s, h2, m2)
    ensures h1 == h2 && m1 == m2
  {
    assert h1 == s / 3600 && h2 == s / 3600;
    assert m1 == (s - h1 * 3600) / 60 && m2 == (s - h2 * 3600) / 60;
  }

  /** For a future end time the label shows the hours and minutes left, without the hours when there are none. */
  lemma TimeRemainingShows(endTime: Date, now: Date, h: nat, m: nat)
    requires IsHoursMinutes(endTime - now, h, m) && endTime > now
    ensures TimeRemaining(endTime, now) ==
              if h > 0 then NatToString(h) + "h " + NatToString(m) + "m" else NatToString(m) + " min"
  {
    var s := endTime - now;
    SplitIsHoursMinutes(s);
    HoursMinutesUnique(s, h, m, s / 3600, (s % 3600) / 60);
  }

  /** Less than a minute left reads "0 min". */
  lemma UnderAMinute(endTime: Date, now: Date)
    requires 0 < endTime - now < 60
    ensures TimeRemaining(endTime, now) == "0 min"
  {
    TimeRemainingShows(endTime, now, 0, 0);
  }
}
