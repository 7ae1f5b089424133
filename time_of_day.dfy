/**
 * Time-of-day strings as the profile and notification pages handle them: an
 * `"HH:MM"` text split at `':'`, the 24-hour to 12-hour display
 * (`formatTime12Hour`), and the hour, minute and AM/PM selects that write a
 * new `"HH:MM"` text back (src/pages/ProfilePage.tsx and
 * src/pages/NotificationsPage.tsx carry identical copies of the select code).
 */
module TimeOfDay {
  import opened Js

  datatype Meridiem = AM | PM

  function Label(m: Meridiem): string {
    if m == PM then "PM" else "AM"
  }

  // ---------------------------------------------------------------------------
  // `const [hours, minutes] = time.split(':')`
  // ---------------------------------------------------------------------------

  /** The text of `s` before its first `c` (all of `s` when there is none). */
  function Before(s: string, c: char): (r: string)
    ensures |r| <= |s| && r == s[..|r|] && c !in r
    ensures |r| < |s| ==> s[|r|] == c
  {
    if s == [] || s[0] == c then [] else [s[0]] + Before(s[1..], c)
  }

  lemma {:induction false} BeforeConcat(a: string, b: string, c: char)
    requires c !in a
    ensures Before(a + [c] + b, c) == a
  {
    if a != [] {
      assert (a + [c] + b)[1..] == a[1..] + [c] + b;
      BeforeConcat(a[1..], b, c);
    }
  }

  /** `hours`: the first `':'`-separated field. */
  function HoursField(t: string): string {
    Before(t, ':')
  }

  /** `minutes`: the second field, `undefined` (None) when `t` holds no `':'`. */
  function MinutesField(t: string): (r: Option<string>)
    ensures r.Some? ==> ':' !in r.value
  {
    var h := Before(t, ':');
    if |h| == |t| then None else Some(Before(t[|h| + 1..], ':'))
  }

  /** Interpolating a possibly undefined string into a template literal. */
  function Show(x: Option<string>): string {
    if x.None? then "undefined" else x.value
  }

  /** The `"HH:MM"` text for an hour and a minute, both zero-padded to two digits. */
  function Clock(h: nat, m: nat): string {
    PadStart2(NatToString(h)) + ":" + PadStart2(NatToString(m))
  }

  /** Splitting a text built as `hours + ':' + minutes` gives the two parts back. */
  lemma SplitJoin(hours: string, minutes: string)
    requires ':' !in hours && ':' !in minutes
    ensures HoursField(hours + ":" + minutes) == hours
    ensures MinutesField(hours + ":" + minutes) == Some(minutes)
  {
    var t := hours + ":" + minutes;
    BeforeConcat(hours, minutes, ':');
    assert t[|hours| + 1..] == minutes;
    BeforeConcat(minutes, [], ':');
    assert minutes + [':'] + [] == minutes + [':'];
    BeforeAll(minutes, ':');
  }

  lemma {:induction false} BeforeAll(s: string, c: char)
    requires c !in s
    ensures Before(s, c) == s
  {
    if s != [] {
      BeforeAll(s[1..], c);
    }
  }

  lemma PaddedDigits(n: nat)
    ensures AllDigits(PadStart2(NatToString(n))) && ':' !in PadStart2(NatToString(n))
  {
    var s := NatToString(n);
    var p := PadStart2(s);
    assert forall i :: 0 <= i < |p| ==> p[i] == '0' || p[i] == s[i - (|p| - |s|)];
  }

  /** A clock text splits back into its zero-padded hour and minute, and the hour parses. */
  lemma ClockFields(h: nat, m: nat)
    requires h < 24 && m < 60
    ensures HoursField(Clock(h, m)) == PadStart2(NatToString(h))
    ensures MinutesField(Clock(h, m)) == Some(PadStart2(NatToString(m)))
    ensures ParseInt(HoursField(Clock(h, m))) == Some(h)
  {
    PaddedDigits(h);
    PaddedDigits(m);
    SplitJoin(PadStart2(NatToString(h)), PadStart2(NatToString(m)));
    ParsePadded(h);
  }

  // ---------------------------------------------------------------------------
  // The 12-hour view: `hour24 % 12 || 12` and `hour24 >= 12 ? 'PM' : 'AM'`
  // ---------------------------------------------------------------------------

  /** The parsed hour of a time text (`parseInt(hours)`); None is NaN. An empty hours field
      is NaN, and one made of digits alone reads as its decimal value, leading zeros
      included. */
  function Hour24(t: string): (r: Option<int>)
    ensures HoursField(t) == [] ==> r.None?
    ensures HoursField(t) != [] && AllDigits(HoursField(t)) ==> r == Some(DigitsValue(HoursField(t)))
  {
    if HoursField(t) != [] && AllDigits(HoursField(t)) then
      ParseDigits(HoursField(t));
      ParseInt(HoursField(t))
    else
      ParseInt(HoursField(t))
  }

  /** `hour24 % 12 || 12`: a zero or NaN remainder shows as 12. */
  function Hour12(h: Option<int>): (r: int)
    ensures -12 < r <= 12 && r != 0
    ensures h.Some? && 0 <= h.value < 24 ==> 1 <= r <= 12
  {
    if h.None? then 12
    else
      var r := JsRem(h.value, 12);
      if r == 0 then 12 else r
  }

  /** `hour24 >= 12 ? 'PM' : 'AM'` (NaN compares false, so it is AM). On a clock hour the
      meridiem together with the 12-hour view recovers the hour. */
  function MeridiemOf(h: Option<int>): (m: Meridiem)
    ensures h.None? ==> m == AM
    ensures h.Some? && 0 <= h.value < 24 ==> To24(Hour12(h), m) == h.value
  {
    if h.Some? && h.value >= 12 then PM else AM
  }

  /** On a real 24-hour value the 12-hour view is the usual one. */
  lemma Hour12Table(h: int)
    requires 0 <= h < 24
    ensures h == 0 ==> Hour12(Some(h)) == 12
    ensures 1 <= h <= 12 ==> Hour12(Some(h)) == h
    ensures 13 <= h ==> Hour12(Some(h)) == h - 12
    ensures MeridiemOf(Some(h)) == PM <==> h >= 12
  {
  }

  /** `formatTime12Hour` of src/pages/ProfilePage.tsx: before the first ':' the 12-hour
      value in decimal, and at the end PM exactly when the parsed hour is 12 or more. */
  function FormatProfile(time24: string): (r: string)
    ensures HoursField(r) == IntToString(Hour12(Hour24(time24)))
    ensures |r| >= 2 && r[|r| - 2..] == if Hour24(time24).Some? && Hour24(time24).value >= 12
                                         then "PM" else "AM"
  {
    var h := Hour24(time24);
    IntToStringNoColon(Hour12(h));
    TextFields(IntToString(Hour12(h)), Show(MinutesField(time24)), MeridiemOf(h));
    ProfileText(h, Show(MinutesField(time24)))
  }

  function ProfileText(h: Option<int>, minutes: string): string {
    IntToString(Hour12(h)) + ":" + minutes + " " + Label(MeridiemOf(h))
  }

  /** `formatTime12Hour` of src/pages/NotificationsPage.tsx: `hours % 12`, then 0 becomes 12;
      a NaN hour stays NaN and prints as "NaN". Any hour that parses shows the same
      12-hour value as the profile page. */
  function FormatNotifications(time24: string): (r: string)
    ensures Hour24(time24).None? ==> HoursField(r) == "NaN"
    ensures Hour24(time24).Some? ==> HoursField(r) == IntToString(Hour12(Hour24(time24)))
    ensures |r| >= 2 && r[|r| - 2..] == if Hour24(time24).Some? && Hour24(time24).value >= 12
                                         then "PM" else "AM"
  {
    NotificationsFields(Hour24(time24), Show(MinutesField(time24)));
    NotificationsText(Hour24(time24), Show(MinutesField(time24)))
  }

  lemma IntToStringNoColon(i: int)
    ensures ':' !in IntToString(i)
  {
    var d := NatToString(if i < 0 then -i else i);
    assert forall k :: 0 <= k < |d| ==> IsDigit(d[k]);
  }

  /** The displayed text splits at its first ':' into the shown hour, and ends in the label. */
  lemma TextFields(shown: string, minutes: string, m: Meridiem)
    requires ':' !in shown
    ensures HoursField(shown + ":" + minutes + " " + Label(m)) == shown
    ensures var t := shown + ":" + minutes + " " + Label(m);
            |t| >= 2 && t[|t| - 2..] == Label(m)
  {
    var t := shown + ":" + minutes + " " + Label(m);
    assert t == shown + [':'] + (minutes + " " + Label(m));
    BeforeConcat(shown, minutes + " " + Label(m), ':');
  }

  /** The notifications text splits into NaN or the 12-hour value, and ends in the label. */
  lemma NotificationsFields(h: Option<int>, minutes: string)
    ensures var t := NotificationsText(h, minutes);
            && HoursField(t) == (if h.None? then "NaN" else IntToString(Hour12(h)))
            && |t| >= 2 && t[|t| - 2..] == if h.Some? && h.value >= 12 then "PM" else "AM"
  {
    var shown := if h.None? then "NaN" else IntToString(Hour12(h));
    IntToStringNoColon(Hour12(h));
    TextFields(shown, minutes, MeridiemOf(h));
    assert NotificationsText(h, minutes) == shown + ":" + minutes + " " + Label(MeridiemOf(h));
  }

  function NotificationsText(h: Option<int>, minutes: string): string {
    var shown :=
      if h.None? then "NaN"
      else
        var r := JsRem(h.value, 12);
        IntToString(if r == 0 then 12 else r);
    shown + ":" + minutes + " " + Label(MeridiemOf(h))
  }

  /** On every well-formed clock text both pages display hour 1..12 (0 -> 12, 13..23 -> 1..11),
      copy the two minute digits verbatim and say PM exactly from noon on. */
  lemma FormatClock(h: nat, m: nat)
    requires h < 24 && m < 60
    ensures FormatProfile(Clock(h, m))
            == NatToString(if h == 0 then 12 else if h > 12 then h - 12 else h)
               + ":" + PadStart2(NatToString(m)) + " " + (if h >= 12 then "PM" else "AM")
    ensures FormatNotifications(Clock(h, m)) == FormatProfile(Clock(h, m))
  {
    ClockFields(h, m);
    assert Hour24(Clock(h, m)) == Some(h);
    TextsOnHour(h, Show(MinutesField(Clock(h, m))));
  }

  lemma TextsOnHour(h: nat, minutes: string)
    requires h < 24
    ensures ProfileText(Some(h), minutes)
            == NatToString(if h == 0 then 12 else if h > 12 then h - 12 else h)
               + ":" + minutes + " " + (if h >= 12 then "PM" else "AM")
    ensures NotificationsText(Some(h), minutes) == ProfileText(Some(h), minutes)
  {
    Hour12Table(h);
  }

  /** The two copies agree whenever the hour parses. */
  lemma FormatsAgree(time24: string)
    requires Hour24(time24).Some?
    ensures FormatNotifications(time24) == FormatProfile(time24)
  {
    var h := Hour24(time24);
    var r := JsRem(h.value, 12);
    assert Hour12(h) == if r == 0 then 12 else r;
  }

  /** ... and differ on a NaN hour: the profile page shows 12, the notifications page NaN. */
  lemma FormatsDifferOnNaN(time24: string)
    requires Hour24(time24).None?
    ensures FormatProfile(time24)[..3] == "12:"
    ensures FormatNotifications(time24)[..4] == "NaN:"
  {
    TextsOnNaN(Show(MinutesField(time24)));
  }

  lemma TextsOnNaN(minutes: string)
    ensures ProfileText(None, minutes)[..3] == "12:"
    ensures NotificationsText(None, minutes)[..4] == "NaN:"
  {
    var tail := minutes + " " + Label(AM);
    TwelveText();
    assert ProfileText(None, minutes) == "12" + ":" + tail;
    HeadBeforeColon("12", tail);
    assert NotificationsText(None, minutes) == "NaN" + ":" + tail;
    HeadBeforeColon("NaN", tail);
  }

  lemma TwelveText()
    ensures IntToString(12) == "12"
  {
    assert NatToString(12) == NatToString(1) + [DigitChar(2)];
  }

  lemma HeadBeforeColon(head: string, tail: string)
    ensures (head + ":" + tail)[..|head| + 1] == head + ":"
  {
    assert (head + ":" + tail)[..|head| + 1] == (head + ":" + tail)[..|head + ":"|];
  }

  // ---------------------------------------------------------------------------
  // The selects
  // ---------------------------------------------------------------------------

  /** The 24-hour value written back for a 12-hour value and a meridiem. */
  function To24(hour12: int, m: Meridiem): (r: int)
    ensures 1 <= hour12 <= 12 ==> 0 <= r < 24
    ensures 1 <= hour12 <= 12 && m == AM ==> r < 12
    ensures 1 <= hour12 <= 12 && m == PM ==> r >= 12
  {
    if m == PM && hour12 != 12 then hour12 + 12
    else if m == AM && hour12 == 12 then 0
    else hour12
  }

  /** What the hour select writes: new hour, the row's current meridiem, minutes kept. */
  function HourSelected(time: string, newHour12: int): (r: string)
    ensures 1 <= newHour12 <= 12 ==>
              && Hour24(r) == Some(To24(newHour12, MeridiemOf(Hour24(time))))
              && |HoursField(r)| == 2
              && Show(MinutesField(r)) == Show(MinutesField(time))
  {
    var newHour24 := To24(newHour12, MeridiemOf(Hour24(time)));
    var r := PadStart2(IntToString(newHour24)) + ":" + Show(MinutesField(time));
    if 1 <= newHour12 <= 12 then WrittenText(newHour24, MinutesField(time)); r else r
  }

  /** What the AM/PM select writes: the row's current 12-hour value, new meridiem, minutes kept. */
  function MeridiemSelected(time: string, newMeridiem: Meridiem): (r: string)
    ensures 1 <= Hour12(Hour24(time)) ==>
              && Hour24(r) == Some(To24(Hour12(Hour24(time)), newMeridiem))
              && |HoursField(r)| == 2
              && Show(MinutesField(r)) == Show(MinutesField(time))
  {
    var newHour24 := To24(Hour12(Hour24(time)), newMeridiem);
    var r := PadStart2(IntToString(newHour24)) + ":" + Show(MinutesField(time));
    if 1 <= Hour12(Hour24(time)) then WrittenText(newHour24, MinutesField(time)); r else r
  }

  /** What the minute select writes: the hours text verbatim, new minutes. */
  function MinuteSelected(time: string, newMinutes: string): (r: string)
    requires ':' !in newMinutes
    ensures HoursField(r) == HoursField(time)
    ensures MinutesField(r) == Some(newMinutes)
  {
    SplitJoin(HoursField(time), newMinutes);
    HoursField(time) + ":" + newMinutes
  }

  /** The conversion used by both selects maps 1..12 with AM/PM onto 0..23 and back. */
  lemma To24RoundTrip(hour12: int, m: Meridiem)
    requires 1 <= hour12 <= 12
    ensures 0 <= To24(hour12, m) < 24
    ensures Hour12(Some(To24(hour12, m))) == hour12
    ensures MeridiemOf(Some(To24(hour12, m))) == m
  {
  }

  /** ... and every 24-hour value is reached from its own 12-hour view. */
  lemma To24FromView(h: int)
    requires 0 <= h < 24
    ensures To24(Hour12(Some(h)), MeridiemOf(Some(h))) == h
  {
  }

  /** Reading the written text back: the padded hour parses to itself, the hours field is
      two characters long, and the minutes show as they did. */
  lemma {:induction false} WrittenText(h: int, minutes: Option<string>)
    requires 0 <= h < 24
    requires minutes.Some? ==> ':' !in minutes.value
    ensures var t := PadStart2(IntToString(h)) + ":" + Show(minutes);
            && Hour24(t) == Some(h)
            && |HoursField(t)| == 2
            && Show(MinutesField(t)) == Show(minutes)
  {
    PaddedDigits(h);
    assert ':' !in Show(minutes);
    SplitJoin(PadStart2(IntToString(h)), Show(minutes));
    ParsePadded(h);
  }

  /** Picking 1..12 in the hour select yields a two-digit hour in 0..23 that the row then
      displays as exactly the picked hour, with the meridiem and the minutes unchanged. */
  lemma HourSelectRoundTrip(time: string, newHour12: int)
    requires 1 <= newHour12 <= 12
    ensures var t := HourSelected(time, newHour12);
            && Hour24(t).Some? && 0 <= Hour24(t).value < 24
            && |HoursField(t)| == 2
            && Hour12(Hour24(t)) == newHour12
            && MeridiemOf(Hour24(t)) == MeridiemOf(Hour24(time))
            && Show(MinutesField(t)) == Show(MinutesField(time))
  {
    To24RoundTrip(newHour12, MeridiemOf(Hour24(time)));
  }

  /** Picking AM or PM yields a two-digit hour in 0..23 that displays with the picked
      meridiem, while the 12-hour value and the minutes stay as they were. The one
      exception is a negative hour text ("-3:00"), whose 12-hour view is negative. */
  lemma MeridiemSelectRoundTrip(time: string, newMeridiem: Meridiem)
    requires 1 <= Hour12(Hour24(time))
    ensures var t := MeridiemSelected(time, newMeridiem);
            && Hour24(t).Some? && 0 <= Hour24(t).value < 24
            && |HoursField(t)| == 2
            && Hour12(Hour24(t)) == Hour12(Hour24(time))
            && MeridiemOf(Hour24(t)) == newMeridiem
            && Show(MinutesField(t)) == Show(MinutesField(time))
  {
    var h12 := Hour12(Hour24(time));
    To24RoundTrip(h12, newMeridiem);
    WrittenText(To24(h12, newMeridiem), MinutesField(time));
  }
}
