/**
 * `formateDate` of components/specifics/devices/DeviceInfoItem.tsx: how long ago a device
 * was last seen, from millisecond timestamps, by successive floor divisions.
 *
 * Date parsing and the clock are parameters (`parsed` is `None` for an invalid date), and
 * the `toLocaleString` rendering of the oldest bucket is an opaque string.
 */
module DeviceInfo {
  import opened Wrappers
  import opened Text

  /** The bucket a timestamp falls in. */
  datatype Age =
    | Unknown
    | SecondsAgo(seconds: int)   // below one minute, negative for a date in the future
    | MinutesAgo(minutes: nat)
    | HoursAgo(hours: nat)
    | Absolute                    // a day or more

  /** Whole seconds elapsed, `Math.floor((now - t) / 1000)`; Dafny's `/` floors for a positive divisor. */
  function ElapsedSeconds(t: int, now: int): int {
    (now - t) / 1000
  }

  /** Dividing by 60 twice is dividing by 3600, for the floor division the source uses. */
  lemma FloorTwice(sec: int)
    ensures sec / 60 / 60 == sec / 3600
  {
    var q := sec / 3600;
    var r := sec % 3600;
    assert sec == q * 3600 + r && 0 <= r < 3600;
    assert sec == (q * 60 + r / 60) * 60 + r % 60;
    assert sec / 60 == q * 60 + r / 60;
  }

  /** The branches of `formateDate`, on the elapsed seconds. */
  function Classify(parsed: Option<int>, now: int): (a: Age)
    ensures parsed.None? <==> a.Unknown?
    ensures parsed.Some? ==> var sec := ElapsedSeconds(parsed.value, now);
      && (a.SecondsAgo? <==> sec < 60)
      && (a.SecondsAgo? ==> a.seconds == sec)
      && (a.MinutesAgo? <==> 60 <= sec < 3600)
      && (a.MinutesAgo? ==> 1 <= a.minutes <= 59 && a.minutes == sec / 60)
      && (a.HoursAgo? <==> 3600 <= sec < 86400)
      && (a.HoursAgo? ==> 1 <= a.hours <= 23 && a.hours == sec / 3600)
      && (a.Absolute? <==> 86400 <= sec)
  {
    match parsed
    case None => Unknown
    case Some(t) =>
      var sec := ElapsedSeconds(t, now);
      if sec < 60 then SecondsAgo(sec)
      else
        var min := sec / 60;
        if min < 60 then MinutesAgo(min)
        else
          var hr := min / 60;
          FloorTwice(sec);
          if hr < 24 then HoursAgo(hr) else Absolute
  }

  /** The text shown for a bucket; `localized` is what `toLocaleString` gives for the date. */
  function Render(a: Age, localized: string): (s: string)
    ensures a.Unknown? ==> s == "Unknown"
    ensures a.SecondsAgo? ==> s == IntToString(a.seconds) + "s ago"
    ensures a.MinutesAgo? ==> s == NatToString(a.minutes) + "m ago"
    ensures a.HoursAgo? ==> s == NatToString(a.hours) + "h ago"
    ensures a.Absolute? ==> s == localized
  {
    match a
    case Unknown => "Unknown"
    case SecondsAgo(n) => IntToString(n) + "s ago"
    case MinutesAgo(n) => NatToString(n) + "m ago"
    case HoursAgo(n) => NatToString(n) + "h ago"
    case Absolute => localized
  }

  /** `formateDate`: the label for each range of elapsed seconds. */
  function FormateDate(parsed: Option<int>, now: int, localized: string): (s: string)
    ensures parsed.None? ==> s == "Unknown"
    ensures parsed.Some? ==> var sec := ElapsedSeconds(parsed.value, now);
      && (sec < 60 ==> s == IntToString(sec) + "s ago")
      && (60 <= sec < 3600 ==> s == NatToString(sec / 60) + "m ago")
      && (3600 <= sec < 86400 ==> s == NatToString(sec / 3600) + "h ago")
      && (86400 <= sec ==> s == localized)
  {
    Render(Classify(parsed, now), localized)
  }

  /** The unit letter of a relative label (`s`, `m`, `h`) and `k` of "Unknown", five from the end. */
  lemma UnitLetter(a: Age, localized: string)
    requires !a.Absolute?
    ensures var s := Render(a, localized);
      && |s| >= 6
      && s[|s| - 5] == (match a case Unknown => 'k' case SecondsAgo(_) => 's' case MinutesAgo(_) => 'm' case HoursAgo(_) => 'h')
  {
  }

  /**
   * Below one day the label tells the bucket and the number: two ages whose relative labels
   * agree are the same age.
   */
  lemma RelativeLabelsDetermineAge(a: Age, b: Age, localized: string)
    requires !a.Absolute? && !b.Absolute?
    requires Render(a, localized) == Render(b, localized)
    ensures a == b
  {
    var s := Render(a, localized);
    UnitLetter(a, localized);
    UnitLetter(b, localized);
    match a
    case Unknown =>
    case SecondsAgo(x) =>
      assert s[..|s| - 5] == IntToString(x) == IntToString(b.seconds);
      IntToStringInjective(x, b.seconds);
    case MinutesAgo(x) =>
      assert s[..|s| - 5] == NatToString(x) == NatToString(b.minutes);
      NatToStringInjective(x, b.minutes);
    case HoursAgo(x) =>
      assert s[..|s| - 5] == NatToString(x) == NatToString(b.hours);
      NatToStringInjective(x, b.hours);
  }
}
