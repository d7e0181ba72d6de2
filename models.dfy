/** The data model of app/models.py: zone and event records with their field validators,
    and the schedule evaluator (a window's `contains`, `_parse_time`, `ActiveSchedule.is_active`). */
module Models {
  import opened Common
  import opened Text

  datatype VendorType = Intelbras | Hikvision

  datatype EventType = Intrusion | LineCross | RegionEntry | Loitering | FaceMatch | CameraDisconnect
  {
    /** The enum value, as it appears in payloads and gate keys. */
    function Value(): (v: string)
      ensures v != [] && ':' !in v
    {
      match this
      case Intrusion => "intrusion"
      case LineCross => "line_cross"
      case RegionEntry => "region_entry"
      case Loitering => "loitering"
      case FaceMatch => "face_match"
      case CameraDisconnect => "camera_disconnect"
    }
  }

  /** Distinct event types have distinct values. */
  lemma EventTypeValueInjective(a: EventType, b: EventType)
    requires a.Value() == b.Value()
    ensures a == b
  {
  }

  datatype Severity = Low | Medium | High

  datatype DayOfWeek = Mon | Tue | Wed | Thu | Fri | Sat | Sun

  /** The table `contains` indexes with `datetime.weekday()`, Monday first. */
  const WeekdayTable: seq<DayOfWeek> := [Mon, Tue, Wed, Thu, Fri, Sat, Sun]

  /** `datetime.weekday()`: 0 is Monday, 6 is Sunday. */
  type Weekday = d: nat | d < 7

  /** Microseconds since local midnight: what `datetime.time()` keeps of a local datetime. */
  type MicroOfDay = n: nat | n < MicrosPerDay

  /** A local datetime, reduced to the two things the schedule and the shift look at. */
  datatype LocalTime = LocalTime(weekday: Weekday, micro: MicroOfDay)
  {
    /** `local_dt.hour` */
    function Hour(): (h: nat)
      ensures h < 24
      ensures h * MicrosPerHour <= micro < (h + 1) * MicrosPerHour
    {
      micro / MicrosPerHour
    }
  }

  // ---------------------------------------------------------------- HH:MM

  /** The field pattern `^([01]\d|2[0-3]):([0-5]\d)$`, with `\d` read as an ASCII digit. */
  predicate IsClockText(s: string) {
    && |s| == 5
    && s[2] == ':'
    && ((('0' <= s[0] <= '1') && IsDigit(s[1])) || (s[0] == '2' && '0' <= s[1] <= '3'))
    && '0' <= s[3] <= '5'
    && IsDigit(s[4])
  }

  /** The pattern `^([01]\d|2[0-3]):([0-5]\d)$` admits exactly the five-character texts with a
      colon in the middle and two digits on each side that read as an hour up to 23 and a
      minute up to 59. */
  lemma ClockTextIff(s: string)
    ensures IsClockText(s) <==>
      && |s| == 5 && s[2] == ':'
      && IsDigit(s[0]) && IsDigit(s[1]) && IsDigit(s[3]) && IsDigit(s[4])
      && 10 * DigitValue(s[0]) + DigitValue(s[1]) <= 23
      && 10 * DigitValue(s[3]) + DigitValue(s[4]) <= 59
  {
  }

  /** `datetime.time(hour, minute)`: seconds and microseconds are zero. */
  datatype TimeOfDay = TimeOfDay(hour: nat, minute: nat)
  {
    /** Where this time falls, in microseconds since midnight. */
    function Micros(): nat {
      (hour * 60 + minute) * MicrosPerMinute
    }
  }

  /** `ScheduleWindow._parse_time`: split at the colon, `int()` each side. */
  function ParseTime(value: string): (t: TimeOfDay)
    requires IsClockText(value)
    ensures t.hour <= 23 && t.minute <= 59
    ensures t.Micros() < MicrosPerDay
  {
    ClockTextSplits(value);
    var parts := Split(value, ':');
    TwoDigitValue(parts[0]);
    TwoDigitValue(parts[1]);
    TimeOfDay(DecimalValue(parts[0]), DecimalValue(parts[1]))
  }

  lemma ClockTextSplits(value: string)
    requires IsClockText(value)
    ensures Split(value, ':') == [value[..2], value[3..]]
  {
    var a, b := value[..2], value[3..];
    assert value == a + [':'] + b;
    SplitAtSeparator(a, b, ':');
    SplitWithoutSeparator(a, ':');
    SplitWithoutSeparator(b, ':');
  }

  lemma TwoDigitValue(s: string)
    requires |s| == 2 && IsDigit(s[0]) && IsDigit(s[1])
    ensures DecimalValue(s) == 10 * DigitValue(s[0]) + DigitValue(s[1])
  {
    var first := s[..1];
    assert first[..0] == [] && first[0] == s[0];
    assert DecimalValue(first) == DigitValue(s[0]);
    assert s[..|s| - 1] == first;
  }

  /** The `HH:MM` text of a time, two digits each. */
  function FormatClock(t: TimeOfDay): (s: string)
    requires t.hour <= 23 && t.minute <= 59
    ensures IsClockText(s)
  {
    [DigitChar(t.hour / 10), DigitChar(t.hour % 10), ':', DigitChar(t.minute / 10), DigitChar(t.minute % 10)]
  }

  /** Parsing gives back the hour and minute that were written. */
  lemma ParseFormat(t: TimeOfDay)
    requires t.hour <= 23 && t.minute <= 59
    ensures ParseTime(FormatClock(t)) == t
  {
    var s := FormatClock(t);
    ClockTextSplits(s);
    TwoDigitValue(s[..2]);
    TwoDigitValue(s[3..]);
  }

  /** Every valid `HH:MM` text is the text of the time it parses to: hour and minute are its digits. */
  lemma FormatParse(s: string)
    requires IsClockText(s)
    ensures FormatClock(ParseTime(s)) == s
  {
    ClockTextSplits(s);
    TwoDigitValue(s[..2]);
    TwoDigitValue(s[3..]);
    var t := ParseTime(s);
    assert t.hour == 10 * DigitValue(s[0]) + DigitValue(s[1]);
    assert t.minute == 10 * DigitValue(s[3]) + DigitValue(s[4]);
    DigitRoundTrip(s[0]);
    DigitRoundTrip(s[1]);
    DigitRoundTrip(s[3]);
    DigitRoundTrip(s[4]);
  }

  lemma DigitRoundTrip(c: char)
    requires IsDigit(c)
    ensures DigitChar(DigitValue(c)) == c
  {
  }

  // ---------------------------------------------------------------- schedule

  datatype ScheduleWindow = ScheduleWindow(days: seq<DayOfWeek>, start: string, end: string)

  /** The field validators: at least one day, both bounds match the `HH:MM` pattern. */
  predicate ValidWindow(w: ScheduleWindow) {
    |w.days| >= 1 && IsClockText(w.start) && IsClockText(w.end)
  }

  /** `ScheduleWindow.contains`. Python compares `datetime.time` values; comparing their
      offsets from midnight in microseconds orders them the same way. */
  predicate Contains(w: ScheduleWindow, t: LocalTime)
    requires ValidWindow(w)
  {
    var weekday := WeekdayTable[t.weekday];
    if weekday !in w.days then false
    else
      var startTime := ParseTime(w.start).Micros();
      var endTime := ParseTime(w.end).Micros();
      var current := t.micro;
      if startTime <= endTime then startTime <= current <= endTime
      else current >= startTime || current <= endTime
  }

  datatype ActiveSchedule = ActiveSchedule(timezone: string, windows: seq<ScheduleWindow>)

  /** The default schedule: America/Sao_Paulo, no windows. */
  const DefaultSchedule: ActiveSchedule := ActiveSchedule("America/Sao_Paulo", [])

  predicate ValidSchedule(s: ActiveSchedule) {
    forall i :: 0 <= i < |s.windows| ==> ValidWindow(s.windows[i])
  }

  /** `any(window.contains(local_dt) for window in windows)` */
  predicate AnyContains(windows: seq<ScheduleWindow>, t: LocalTime)
    requires forall i :: 0 <= i < |windows| ==> ValidWindow(windows[i])
  {
    windows != [] && (Contains(windows[0], t) || AnyContains(windows[1..], t))
  }

  /** `ActiveSchedule.is_active` */
  predicate IsActive(s: ActiveSchedule, t: LocalTime)
    requires ValidSchedule(s)
  {
    if s.windows == [] then true else AnyContains(s.windows, t)
  }

  // ---------------------------------------------------------------- zones and events

  datatype ZoneConfig = ZoneConfig(
    zoneId: string,
    siteId: string,
    cameraIds: seq<string>,
    severity: Severity,
    activeSchedule: ActiveSchedule,
    alertDestinations: seq<string>,
    suppressionWindowSec: int,
    dedupeWindowSec: int)

  /** The field validators of a zone: at least one camera, valid windows, windows not negative. */
  predicate ValidZone(z: ZoneConfig) {
    && |z.cameraIds| >= 1
    && ValidSchedule(z.activeSchedule)
    && z.suppressionWindowSec >= 0
    && z.dedupeWindowSec >= 0
  }

  /** A detection event as the relay receives it. `raw_payload` is opaque and not part of this model. */
  datatype CVEvent = CVEvent(
    vendor: VendorType,
    eventType: EventType,
    cameraId: string,
    cameraName: string,
    zoneId: string,
    timestampUtc: Instant,
    confidence: Option<real>,
    mediaUrl: Option<string>)

  /** The field validator of an event: a confidence, when given, lies in [0, 1]. The web layer
      enforces it before an event reaches the relay, and no decision depends on the confidence,
      so no contract here needs it: it documents `CVEventIn`. */
  predicate ValidEvent(e: CVEvent) {
    e.confidence.Some? ==> 0.0 <= e.confidence.value <= 1.0
  }

  // ---------------------------------------------------------------- properties

  /** A window never admits a day it does not list. */
  lemma OffDayIsOutside(w: ScheduleWindow, t: LocalTime)
    requires ValidWindow(w)
    requires WeekdayTable[t.weekday] !in w.days
    ensures !Contains(w, t)
  {
  }

  /** Whatever the kind of window, a listed day at a time from the start bound to the end bound,
      both included, is inside it. */
  lemma BetweenBoundsIsInside(w: ScheduleWindow, t: LocalTime)
    requires ValidWindow(w)
    requires WeekdayTable[t.weekday] in w.days
    requires ParseTime(w.start).Micros() <= t.micro <= ParseTime(w.end).Micros()
    ensures Contains(w, t)
  {
  }

  /** A same-day window `HH:MM`-`HH:MM` admits its listed days from the first bound to the
      second, both bounds included, at microsecond precision. */
  lemma SameDayWindow(days: seq<DayOfWeek>, start: TimeOfDay, end: TimeOfDay, t: LocalTime)
    requires |days| >= 1
    requires start.hour <= 23 && start.minute <= 59 && end.hour <= 23 && end.minute <= 59
    requires start.Micros() <= end.Micros()
    ensures var w := ScheduleWindow(days, FormatClock(start), FormatClock(end));
      Contains(w, t) <==> WeekdayTable[t.weekday] in days && start.Micros() <= t.micro <= end.Micros()
  {
    ParseFormat(start);
    ParseFormat(end);
  }

  /** An overnight window (start after end) admits its listed days except strictly between
      the end bound and the start bound. */
  lemma OvernightWindow(days: seq<DayOfWeek>, start: TimeOfDay, end: TimeOfDay, t: LocalTime)
    requires |days| >= 1
    requires start.hour <= 23 && start.minute <= 59 && end.hour <= 23 && end.minute <= 59
    requires start.Micros() > end.Micros()
    ensures var w := ScheduleWindow(days, FormatClock(start), FormatClock(end));
      Contains(w, t) <==> WeekdayTable[t.weekday] in days && !(end.Micros() < t.micro < start.Micros())
  {
    ParseFormat(start);
    ParseFormat(end);
  }

  const EveryDay: seq<DayOfWeek> := [Mon, Tue, Wed, Thu, Fri, Sat, Sun]

  /** `18:00`-`06:00` every day admits 23:59 and 05:59 and not 12:00. */
  lemma OvernightExample(d: Weekday)
    ensures var w := ScheduleWindow(EveryDay, "18:00", "06:00");
      && ValidWindow(w)
      && Contains(w, LocalTime(d, 23 * MicrosPerHour + 59 * MicrosPerMinute))
      && Contains(w, LocalTime(d, 5 * MicrosPerHour + 59 * MicrosPerMinute))
      && !Contains(w, LocalTime(d, 12 * MicrosPerHour))
  {
    assert "18:00" == FormatClock(TimeOfDay(18, 0));
    assert "06:00" == FormatClock(TimeOfDay(6, 0));
    OvernightWindow(EveryDay, TimeOfDay(18, 0), TimeOfDay(6, 0), LocalTime(d, 23 * MicrosPerHour + 59 * MicrosPerMinute));
    OvernightWindow(EveryDay, TimeOfDay(18, 0), TimeOfDay(6, 0), LocalTime(d, 5 * MicrosPerHour + 59 * MicrosPerMinute));
    OvernightWindow(EveryDay, TimeOfDay(18, 0), TimeOfDay(6, 0), LocalTime(d, 12 * MicrosPerHour));
  }

  /** The bounds have no seconds: `00:00`-`23:59` admits 23:59:00 exactly but neither
      one microsecond later nor 23:59:30. */
  lemma AllDayWindowMissesLastMinute(d: Weekday)
    ensures var w := ScheduleWindow(EveryDay, "00:00", "23:59");
      && ValidWindow(w)
      && Contains(w, LocalTime(d, 23 * MicrosPerHour + 59 * MicrosPerMinute))
      && !Contains(w, LocalTime(d, 23 * MicrosPerHour + 59 * MicrosPerMinute + 1))
      && !Contains(w, LocalTime(d, 23 * MicrosPerHour + 59 * MicrosPerMinute + 30 * MicrosPerSecond))
  {
    assert "00:00" == FormatClock(TimeOfDay(0, 0));
    assert "23:59" == FormatClock(TimeOfDay(23, 59));
    var base := 23 * MicrosPerHour + 59 * MicrosPerMinute;
    SameDayWindow(EveryDay, TimeOfDay(0, 0), TimeOfDay(23, 59), LocalTime(d, base));
    SameDayWindow(EveryDay, TimeOfDay(0, 0), TimeOfDay(23, 59), LocalTime(d, base + 1));
    SameDayWindow(EveryDay, TimeOfDay(0, 0), TimeOfDay(23, 59), LocalTime(d, base + 30 * MicrosPerSecond));
  }

  /** A schedule without windows is active at every local time. */
  lemma NoWindowsAlwaysActive(s: ActiveSchedule, t: LocalTime)
    requires ValidSchedule(s) && s.windows == []
    ensures IsActive(s, t)
  {
  }

  /** `any` holds exactly when some window contains the time. */
  lemma {:induction false} AnyContainsIff(windows: seq<ScheduleWindow>, t: LocalTime)
    requires forall i :: 0 <= i < |windows| ==> ValidWindow(windows[i])
    ensures AnyContains(windows, t) <==> exists i :: 0 <= i < |windows| && Contains(windows[i], t)
    decreases |windows|
  {
    if windows != [] {
      AnyContainsIff(windows[1..], t);
      if exists i :: 0 <= i < |windows| && Contains(windows[i], t) {
        var i :| 0 <= i < |windows| && Contains(windows[i], t);
        if i > 0 {
          assert windows[1..][i - 1] == windows[i];
        }
      }
      if AnyContains(windows[1..], t) && !Contains(windows[0], t) {
        var j :| 0 <= j < |windows[1..]| && Contains(windows[1..][j], t);
        assert windows[j + 1] == windows[1..][j];
      }
    }
  }

  /** A schedule is active exactly when it has no windows or one of its windows contains the time. */
  lemma ActiveIff(s: ActiveSchedule, t: LocalTime)
    requires ValidSchedule(s)
    ensures IsActive(s, t) <==>
      s.windows == [] || exists w :: w in s.windows && Contains(w, t)
  {
    AnyContainsIff(s.windows, t);
    if exists w :: w in s.windows && Contains(w, t) {
      var w :| w in s.windows && Contains(w, t);
      var i :| 0 <= i < |s.windows| && s.windows[i] == w;
    }
  }

  /** The order of the windows does not matter: a schedule with the same windows in any
      order, with the same repetitions, gives the same verdict. */
  lemma ActiveIgnoresOrder(s1: ActiveSchedule, s2: ActiveSchedule, t: LocalTime)
    requires ValidSchedule(s1) && ValidSchedule(s2)
    requires multiset(s1.windows) == multiset(s2.windows)
    ensures IsActive(s1, t) == IsActive(s2, t)
  {
    ActiveIff(s1, t);
    ActiveIff(s2, t);
    assert forall w :: w in s1.windows <==> w in multiset(s1.windows);
    assert forall w :: w in s2.windows <==> w in multiset(s2.windows);
    assert s1.windows == [] <==> |multiset(s1.windows)| == 0;
    assert s2.windows == [] <==> |multiset(s2.windows)| == 0;
  }
}
