/** The alert decision engine of app/relay.py. `Decide` states, as a function of the zone found,
    the event, the gate stamps and what the delivery channels answer, which outcome one call of
    `process_event` reaches; the class `AlertRelay` performs the same steps on an `EventStore` and
    is proved to reach that outcome and to leave the store in the state the steps describe. */
module Relay {
  import opened Common
  import opened Text
  import opened Settings
  import opened Models
  import opened Zones
  import opened Store

  // ---------------------------------------------------------------- outcomes

  datatype Status = Rejected | Suppressed | Sent | Failed
  {
    /** The status string of `ProcessResponse`, also stored as the event's decision. */
    function Name(): (n: string)
      ensures n != []
    {
      match this
      case Rejected => "rejected"
      case Suppressed => "suppressed"
      case Sent => "sent"
      case Failed => "failed"
    }
  }

  /** The stored decision identifies the status: distinct statuses have distinct names. */
  lemma StatusNameInjective(a: Status, b: Status)
    requires a.Name() == b.Name()
    ensures a == b
  {
  }

  /** `ProcessResponse` */
  datatype Response = Response(status: Status, reason: Option<string>, eventId: nat)

  const UnknownZone := "unknown_zone"
  const CameraNotMapped := "camera_not_mapped_to_zone"
  const OutsideSchedule := "outside_active_schedule"
  const DedupeWindow := "dedupe_window"
  const SuppressionWindow := "suppression_window"
  const NoDeliveryChannel := "no_delivery_channel_configured"

  /** Python's `a or b` on two optional strings: None and "" are false. */
  function PyOr(a: Option<string>, b: Option<string>): Option<string> {
    if a.Some? && a.value != "" then a else b
  }

  // ---------------------------------------------------------------- gate keys

  /** `_dedupe_key`: zone, camera and event type. */
  function DedupeKey(event: CVEvent, zone: ZoneConfig): string {
    "dedupe:" + zone.zoneId + ":" + event.cameraId + ":" + event.eventType.Value()
  }

  /** `_suppression_key`: zone and camera only. */
  function SuppressionKey(event: CVEvent, zone: ZoneConfig): string {
    "suppress:" + zone.zoneId + ":" + event.cameraId
  }

  /** Whatever the ids, a dedupe key begins with "dedupe:" and ends with the event type's value, and a
      suppression key begins with "suppress:" and ends with the camera id. */
  lemma KeyShapes(event: CVEvent, zone: ZoneConfig)
    ensures var k, v := DedupeKey(event, zone), event.eventType.Value();
      |k| >= 7 + |v| && k[..7] == "dedupe:" && k[|k| - |v|..] == v
    ensures var k, c := SuppressionKey(event, zone), event.cameraId;
      |k| >= 9 + |c| && k[..9] == "suppress:" && k[|k| - |c|..] == c
  {
    var v := event.eventType.Value();
    var k := DedupeKey(event, zone);
    assert k == ("dedupe:" + zone.zoneId + ":" + event.cameraId + ":") + v;
    var c := event.cameraId;
    var q := SuppressionKey(event, zone);
    assert q == ("suppress:" + zone.zoneId + ":") + c;
  }

  /** A dedupe key is never a suppression key: they differ in their first character. */
  lemma KeyKindsDiffer(e1: CVEvent, z1: ZoneConfig, e2: CVEvent, z2: ZoneConfig)
    ensures DedupeKey(e1, z1) != SuppressionKey(e2, z2)
  {
    assert DedupeKey(e1, z1)[0] == 'd';
    assert SuppressionKey(e2, z2)[0] == 's';
  }

  /** Two events from the same camera of the same zone share a dedupe key only when they
      have the same type. */
  lemma DedupeKeySeparatesTypes(e1: CVEvent, e2: CVEvent, zone: ZoneConfig)
    requires e1.cameraId == e2.cameraId
    ensures DedupeKey(e1, zone) == DedupeKey(e2, zone) <==> e1.eventType == e2.eventType
  {
    var prefix := "dedupe:" + zone.zoneId + ":" + e1.cameraId + ":";
    var v1, v2 := e1.eventType.Value(), e2.eventType.Value();
    assert DedupeKey(e1, zone) == prefix + v1;
    assert DedupeKey(e2, zone) == prefix + v2;
    if prefix + v1 == prefix + v2 {
      assert v1 == (prefix + v1)[|prefix|..];
      assert v2 == (prefix + v2)[|prefix|..];
      EventTypeValueInjective(e1.eventType, e2.eventType);
    }
  }

  /** Without ':' in zone and camera ids, a dedupe key splits back into its four parts. */
  lemma DedupeKeyParts(event: CVEvent, zone: ZoneConfig)
    requires ':' !in zone.zoneId && ':' !in event.cameraId
    ensures Split(DedupeKey(event, zone), ':') == ["dedupe", zone.zoneId, event.cameraId, event.eventType.Value()]
  {
    var v := event.eventType.Value();
    var parts := ["dedupe", zone.zoneId, event.cameraId, v];
    assert parts[1..] == [zone.zoneId, event.cameraId, v];
    assert parts[1..][1..] == [event.cameraId, v];
    assert parts[1..][1..][1..] == [v];
    assert Join([event.cameraId, v], ':') == event.cameraId + [':'] + v;
    assert Join([zone.zoneId, event.cameraId, v], ':') == zone.zoneId + [':'] + (event.cameraId + [':'] + v);
    assert Join(parts, ':') == "dedupe" + [':'] + (zone.zoneId + [':'] + (event.cameraId + [':'] + v));
    assert Join(parts, ':') == DedupeKey(event, zone);
    SplitJoin(parts, ':');
  }

  /** Without ':' in zone and camera ids, a suppression key splits back into its three parts. */
  lemma SuppressionKeyParts(event: CVEvent, zone: ZoneConfig)
    requires ':' !in zone.zoneId && ':' !in event.cameraId
    ensures Split(SuppressionKey(event, zone), ':') == ["suppress", zone.zoneId, event.cameraId]
  {
    var parts := ["suppress", zone.zoneId, event.cameraId];
    assert parts[1..] == [zone.zoneId, event.cameraId];
    assert parts[1..][1..] == [event.cameraId];
    assert Join([zone.zoneId, event.cameraId], ':') == zone.zoneId + [':'] + event.cameraId;
    assert Join(parts, ':') == "suppress" + [':'] + (zone.zoneId + [':'] + event.cameraId);
    assert Join(parts, ':') == SuppressionKey(event, zone);
    SplitJoin(parts, ':');
  }

  /** Without ':' in the ids, dedupe keys are equal exactly when zone, camera and type are. */
  lemma DedupeKeyInjective(e1: CVEvent, z1: ZoneConfig, e2: CVEvent, z2: ZoneConfig)
    requires ':' !in z1.zoneId && ':' !in e1.cameraId && ':' !in z2.zoneId && ':' !in e2.cameraId
    ensures DedupeKey(e1, z1) == DedupeKey(e2, z2) <==>
      z1.zoneId == z2.zoneId && e1.cameraId == e2.cameraId && e1.eventType == e2.eventType
  {
    DedupeKeyParts(e1, z1);
    DedupeKeyParts(e2, z2);
    if DedupeKey(e1, z1) == DedupeKey(e2, z2) {
      EventTypeValueInjective(e1.eventType, e2.eventType);
    }
  }

  /** Without ':' in the ids, suppression keys are equal exactly when zone and camera are. */
  lemma SuppressionKeyInjective(e1: CVEvent, z1: ZoneConfig, e2: CVEvent, z2: ZoneConfig)
    requires ':' !in z1.zoneId && ':' !in e1.cameraId && ':' !in z2.zoneId && ':' !in e2.cameraId
    ensures SuppressionKey(e1, z1) == SuppressionKey(e2, z2) <==>
      z1.zoneId == z2.zoneId && e1.cameraId == e2.cameraId
  {
    SuppressionKeyParts(e1, z1);
    SuppressionKeyParts(e2, z2);
  }

  /** With ':' in an id, two different zone/camera pairs can share a suppression key. */
  lemma SuppressionKeyCollision(e1: CVEvent, z1: ZoneConfig, e2: CVEvent, z2: ZoneConfig)
    requires z1.zoneId == "a:b" && e1.cameraId == "c"
    requires z2.zoneId == "a" && e2.cameraId == "b:c"
    ensures SuppressionKey(e1, z1) == SuppressionKey(e2, z2)
  {
    assert SuppressionKey(e1, z1) == "suppress:a:b:c";
    assert SuppressionKey(e2, z2) == "suppress:a:b:c";
  }

  // ---------------------------------------------------------------- the gate

  /** One time window of `_dedupe_gate`: it blocks when it is switched on (a window above zero),
      a stamp exists, and less than the window has passed since it. `(now - last).total_seconds()
      < window` is compared here exactly, in microseconds. */
  predicate Blocks(windowSec: int, last: Option<Instant>, now: Instant) {
    windowSec > 0 && last.Some? && now - last.value < windowSec * MicrosPerSecond
  }

  /** `_dedupe_gate`: the dedupe window first, then the suppression window, both against the same
      reading of the clock. */
  function GateVerdict(event: CVEvent, zone: ZoneConfig, stamps: map<string, Instant>, now: Instant): (r: Option<string>)
    ensures r == Some(DedupeWindow) <==> Blocks(zone.dedupeWindowSec, Get(stamps, DedupeKey(event, zone)), now)
    ensures r == Some(SuppressionWindow) <==>
      !Blocks(zone.dedupeWindowSec, Get(stamps, DedupeKey(event, zone)), now)
      && Blocks(zone.suppressionWindowSec, Get(stamps, SuppressionKey(event, zone)), now)
    ensures r.None? || r == Some(DedupeWindow) || r == Some(SuppressionWindow)
  {
    if Blocks(zone.dedupeWindowSec, Get(stamps, DedupeKey(event, zone)), now) then Some(DedupeWindow)
    else if Blocks(zone.suppressionWindowSec, Get(stamps, SuppressionKey(event, zone)), now) then Some(SuppressionWindow)
    else None
  }

  /** What a sent alert writes: both keys stamped with the same instant. */
  function CommitStamps(stamps: map<string, Instant>, event: CVEvent, zone: ZoneConfig, at: Instant): (r: map<string, Instant>)
    ensures r.Keys == stamps.Keys + {DedupeKey(event, zone), SuppressionKey(event, zone)}
    ensures r[DedupeKey(event, zone)] == at && r[SuppressionKey(event, zone)] == at
    ensures forall k :: k in stamps && k != DedupeKey(event, zone) && k != SuppressionKey(event, zone) ==> r[k] == stamps[k]
  {
    KeyKindsDiffer(event, zone, event, zone);
    stamps[DedupeKey(event, zone) := at][SuppressionKey(event, zone) := at]
  }

  /** A gate whose two windows are zero lets everything through. */
  lemma ZeroWindowsNeverBlock(event: CVEvent, zone: ZoneConfig, stamps: map<string, Instant>, now: Instant)
    requires zone.dedupeWindowSec == 0 && zone.suppressionWindowSec == 0
    ensures GateVerdict(event, zone, stamps, now).None?
  {
  }

  /** Dedupe wins: when both windows would block, the verdict is "dedupe_window". */
  lemma DedupeWinsOverSuppression(event: CVEvent, zone: ZoneConfig, stamps: map<string, Instant>, now: Instant)
    requires Blocks(zone.dedupeWindowSec, Get(stamps, DedupeKey(event, zone)), now)
    requires Blocks(zone.suppressionWindowSec, Get(stamps, SuppressionKey(event, zone)), now)
    ensures GateVerdict(event, zone, stamps, now) == Some(DedupeWindow)
  {
  }

  /** A repeat of a sent event inside the dedupe window is stopped by the dedupe window. */
  lemma RepeatInsideDedupeWindow(event: CVEvent, zone: ZoneConfig, stamps: map<string, Instant>, sentAt: Instant, now: Instant)
    requires zone.dedupeWindowSec > 0
    requires now - sentAt < zone.dedupeWindowSec * MicrosPerSecond
    ensures GateVerdict(event, zone, CommitStamps(stamps, event, zone, sentAt), now) == Some(DedupeWindow)
  {
  }

  /** Once the longer window has passed since a sent alert, the same event passes both gates again. */
  lemma RepeatAfterBothWindows(event: CVEvent, zone: ZoneConfig, stamps: map<string, Instant>, sentAt: Instant, now: Instant)
    requires now - sentAt >= zone.dedupeWindowSec * MicrosPerSecond
    requires now - sentAt >= zone.suppressionWindowSec * MicrosPerSecond
    ensures GateVerdict(event, zone, CommitStamps(stamps, event, zone, sentAt), now).None?
  {
  }

  /** Past the dedupe window but inside the suppression window, a repeat is suppressed instead. */
  lemma RepeatBetweenWindows(event: CVEvent, zone: ZoneConfig, stamps: map<string, Instant>, sentAt: Instant, now: Instant)
    requires now - sentAt >= zone.dedupeWindowSec * MicrosPerSecond
    requires zone.suppressionWindowSec > 0 && now - sentAt < zone.suppressionWindowSec * MicrosPerSecond
    ensures GateVerdict(event, zone, CommitStamps(stamps, event, zone, sentAt), now) == Some(SuppressionWindow)
  {
  }

  /** After an alert for one event type, another type from the same camera passes the dedupe window
      (its own key was never stamped) but is held by the shared suppression window. */
  lemma OtherTypeIsSuppressed(sent: CVEvent, next: CVEvent, zone: ZoneConfig, stamps: map<string, Instant>, sentAt: Instant, now: Instant)
    requires sent.cameraId == next.cameraId && sent.eventType != next.eventType
    requires DedupeKey(next, zone) !in stamps
    requires zone.suppressionWindowSec > 0 && now - sentAt < zone.suppressionWindowSec * MicrosPerSecond
    ensures GateVerdict(next, zone, CommitStamps(stamps, sent, zone, sentAt), now) == Some(SuppressionWindow)
  {
    DedupeKeySeparatesTypes(sent, next, zone);
    KeyKindsDiffer(next, zone, sent, zone);
    assert SuppressionKey(next, zone) == SuppressionKey(sent, zone);
  }

  // ---------------------------------------------------------------- dispatch

  /** What a channel client's `send` returns: success, and an error text on failure. */
  datatype SendReport = SendReport(ok: bool, error: Option<string>)

  /** What the two channels would answer for this alert, and when each answer is recorded. */
  datatype ChannelReplies = ChannelReplies(whatsapp: SendReport, whatsappAt: Instant, email: SendReport, emailAt: Instant)

  /** One delivery attempt, as `save_alert` records it. */
  datatype Attempt = Attempt(channel: string, destination: string, report: SendReport, at: Instant)

  /** The result of `_dispatch_event_alert`, with the attempts it made in order. */
  datatype Delivery = Delivery(sent: bool, reason: Option<string>, attempts: seq<Attempt>)

  /** The fixed part of the relay: its settings, the tz database and which clients exist. */
  datatype Wiring = Wiring(settings: Settings, tzdb: TzDatabase, whatsappConfigured: bool, emailConfigured: bool)

  /** `zone.alert_destinations`, or both channels when there is no zone. */
  function Destinations(zone: Option<ZoneConfig>): seq<string> {
    if zone.Some? then zone.value.alertDestinations else ["whatsapp", "email"]
  }

  /** Whether WhatsApp is tried: it is a destination and its client exists. */
  predicate TriesWhatsApp(w: Wiring, destinations: seq<string>) {
    "whatsapp" in destinations && w.whatsappConfigured
  }

  /** Whether e-mail is tried once WhatsApp has not succeeded: its client exists and there are
      recipients. The zone's destinations are not consulted. */
  predicate TriesEmail(w: Wiring) {
    w.emailConfigured && EmailRecipients(w.settings.emailToCsv) != []
  }

  /** The attempt a WhatsApp send is recorded as. */
  function WhatsAppAttempt(replies: ChannelReplies): Attempt {
    Attempt("whatsapp", "webhook", replies.whatsapp, replies.whatsappAt)
  }

  /** The attempt an e-mail send is recorded as: addressed to every recipient, joined by commas. */
  function EmailAttempt(w: Wiring, replies: ChannelReplies): Attempt {
    Attempt("email", Join(EmailRecipients(w.settings.emailToCsv), ','), replies.email, replies.emailAt)
  }

  /** `_dispatch_event_alert`: the WhatsApp attempt, when it is tried, comes first; the e-mail attempt
      follows exactly when WhatsApp did not succeed and e-mail can be tried. */
  function Dispatch(w: Wiring, destinations: seq<string>, replies: ChannelReplies): (d: Delivery)
    ensures d.sent ==> d.reason.None?
    ensures |d.attempts| <= 2
    ensures d.attempts ==
      (if TriesWhatsApp(w, destinations) then [WhatsAppAttempt(replies)] else []) +
      (if !(TriesWhatsApp(w, destinations) && replies.whatsapp.ok) && TriesEmail(w) then [EmailAttempt(w, replies)] else [])
  {
    var whatsappTried := TriesWhatsApp(w, destinations);
    var tried := if whatsappTried then [Attempt("whatsapp", "webhook", replies.whatsapp, replies.whatsappAt)] else [];
    var whatsappError := if whatsappTried then replies.whatsapp.error else None;
    if whatsappTried && replies.whatsapp.ok then Delivery(true, None, tried)
    else Fallback(w, tried, whatsappError, replies)
  }

  /** The rest of `_dispatch_event_alert` once WhatsApp has not succeeded: e-mail when it can be
      tried, which then decides; otherwise a failure. */
  function Fallback(w: Wiring, tried: seq<Attempt>, whatsappError: Option<string>, replies: ChannelReplies): (d: Delivery)
    ensures d.sent ==> d.reason.None?
    ensures |d.attempts| <= |tried| + 1
  {
    if TriesEmail(w) then
      var attempts := tried + [Attempt("email", Join(EmailRecipients(w.settings.emailToCsv), ','), replies.email, replies.emailAt)];
      if replies.email.ok then Delivery(true, None, attempts)
      else Delivery(false, PyOr(replies.email.error, whatsappError), attempts)
    else Delivery(false, PyOr(whatsappError, Some(NoDeliveryChannel)), tried)
  }

  /** An alert is sent exactly when one of the attempts made succeeded. */
  lemma SentIffSomeAttemptSucceeded(w: Wiring, destinations: seq<string>, replies: ChannelReplies)
    ensures var d := Dispatch(w, destinations, replies);
      d.sent <==> exists i :: 0 <= i < |d.attempts| && d.attempts[i].report.ok
  {
    var d := Dispatch(w, destinations, replies);
    var whatsapp := Attempt("whatsapp", "webhook", replies.whatsapp, replies.whatsappAt);
    if TriesWhatsApp(w, destinations) && replies.whatsapp.ok {
      assert d.attempts[0] == whatsapp;
    } else {
      var tried := if TriesWhatsApp(w, destinations) then [whatsapp] else [];
      if TriesEmail(w) {
        var email := Attempt("email", Join(EmailRecipients(w.settings.emailToCsv), ','), replies.email, replies.emailAt);
        assert d == Delivery(replies.email.ok, d.reason, tried + [email]);
        OnlyLastCanSucceed(tried, email);
      } else {
        assert d == Delivery(false, d.reason, tried);
      }
    }
  }

  /** When no earlier attempt succeeded, a run of attempts succeeded exactly when its last one did. */
  lemma OnlyLastCanSucceed(tried: seq<Attempt>, last: Attempt)
    requires forall i :: 0 <= i < |tried| ==> !tried[i].report.ok
    ensures (exists i :: 0 <= i < |tried + [last]| && (tried + [last])[i].report.ok) <==> last.report.ok
  {
    var all := tried + [last];
    assert all[|tried|] == last;
    assert forall i :: 0 <= i < |tried| ==> all[i] == tried[i];
  }

  /** A WhatsApp success ends the dispatch: e-mail is not tried. */
  lemma WhatsAppSuccessSkipsEmail(w: Wiring, destinations: seq<string>, replies: ChannelReplies)
    requires TriesWhatsApp(w, destinations) && replies.whatsapp.ok
    ensures Dispatch(w, destinations, replies) ==
      Delivery(true, None, [Attempt("whatsapp", "webhook", replies.whatsapp, replies.whatsappAt)])
  {
  }

  /** When WhatsApp fails or is not tried and e-mail can be tried, e-mail is the last attempt,
      addressed to the recipients joined by commas, and it decides the outcome. */
  lemma FallsBackToEmail(w: Wiring, destinations: seq<string>, replies: ChannelReplies)
    requires !(TriesWhatsApp(w, destinations) && replies.whatsapp.ok) && TriesEmail(w)
    ensures var d := Dispatch(w, destinations, replies);
      && d.sent == replies.email.ok
      && |d.attempts| == (if TriesWhatsApp(w, destinations) then 2 else 1)
      && d.attempts[|d.attempts| - 1] ==
         Attempt("email", Join(EmailRecipients(w.settings.emailToCsv), ','), replies.email, replies.emailAt)
  {
  }

  /** The failure reason: the e-mail error, else the WhatsApp error, when e-mail was tried;
      otherwise the WhatsApp error, else "no_delivery_channel_configured". */
  lemma FailureReason(w: Wiring, destinations: seq<string>, replies: ChannelReplies)
    requires !Dispatch(w, destinations, replies).sent
    ensures var whatsappError := if TriesWhatsApp(w, destinations) then replies.whatsapp.error else None;
      Dispatch(w, destinations, replies).reason ==
        if TriesEmail(w) then PyOr(replies.email.error, whatsappError)
        else PyOr(whatsappError, Some(NoDeliveryChannel))
  {
  }

  /** With neither channel usable nothing is attempted and the reason names that. */
  lemma NoChannelConfigured(w: Wiring, destinations: seq<string>, replies: ChannelReplies)
    requires !TriesWhatsApp(w, destinations) && !TriesEmail(w)
    ensures Dispatch(w, destinations, replies) == Delivery(false, Some(NoDeliveryChannel), [])
  {
  }

  /** The e-mail destination recorded for an attempt splits back into exactly the recipients. */
  lemma EmailDestinationListsRecipients(csv: string)
    requires EmailRecipients(csv) != []
    ensures Split(Join(EmailRecipients(csv), ','), ',') == EmailRecipients(csv)
  {
    SplitJoin(EmailRecipients(csv), ',');
  }

  // ---------------------------------------------------------------- local time

  /** The tz database as an oracle: the names it knows, and the local weekday and time of day of
      an instant in a named zone. */
  datatype TzDatabase = TzDatabase(names: set<string>, localize: (string, Instant) -> LocalTime)

  /** The zone name `_to_local_dt` ends up using: the schedule's timezone unless it is empty, else
      the default; a name the database does not know falls back to the default. */
  function ResolveTimezone(defaultTz: string, zone: Option<ZoneConfig>, names: set<string>): (name: string)
    ensures name == defaultTz || name in names
    ensures zone.Some? && zone.value.activeSchedule.timezone != "" && zone.value.activeSchedule.timezone in names
      ==> name == zone.value.activeSchedule.timezone
    ensures (zone.None? || zone.value.activeSchedule.timezone == "" || zone.value.activeSchedule.timezone !in names)
      ==> name == defaultTz
  {
    var requested := if zone.Some? && zone.value.activeSchedule.timezone != "" then zone.value.activeSchedule.timezone else defaultTz;
    if requested in names then requested else defaultTz
  }

  /** A known default makes every resolved name one the database knows. */
  lemma ResolvedNameIsKnown(defaultTz: string, zone: Option<ZoneConfig>, names: set<string>)
    requires defaultTz in names
    ensures ResolveTimezone(defaultTz, zone, names) in names
  {
  }

  /** `_to_local_dt` */
  function LocalTimeOf(w: Wiring, zone: Option<ZoneConfig>, at: Instant): LocalTime {
    w.tzdb.localize(ResolveTimezone(w.settings.defaultTimezone, zone, w.tzdb.names), at)
  }

  /** The local time is taken in the schedule's timezone when it is given and known, and in the
      default timezone otherwise: without a zone, with an empty timezone, or with an unknown one. */
  lemma LocalTimeOfZone(w: Wiring, zone: Option<ZoneConfig>, at: Instant)
    ensures var tz := if zone.Some? then zone.value.activeSchedule.timezone else "";
      LocalTimeOf(w, zone, at) ==
        if tz != "" && tz in w.tzdb.names then w.tzdb.localize(tz, at)
        else w.tzdb.localize(w.settings.defaultTimezone, at)
  {
  }

  /** `_shift_name`: 06:00 to 13:59 is the morning, 14:00 to 21:59 the afternoon, the rest the night. */
  function ShiftName(t: LocalTime): (name: string)
    ensures name == "morning" <==> 6 <= t.Hour() < 14
    ensures name == "afternoon" <==> 14 <= t.Hour() < 22
    ensures name == "night" <==> t.Hour() < 6 || 22 <= t.Hour()
  {
    var hour := t.Hour();
    if 6 <= hour < 14 then "morning"
    else if 14 <= hour < 22 then "afternoon"
    else "night"
  }

  /** The shifts in terms of the time of day: they change at exactly 06:00, 14:00 and 22:00. */
  lemma ShiftBoundaries(t: LocalTime)
    ensures ShiftName(t) == "morning" <==> 6 * MicrosPerHour <= t.micro < 14 * MicrosPerHour
    ensures ShiftName(t) == "afternoon" <==> 14 * MicrosPerHour <= t.micro < 22 * MicrosPerHour
  {
    HourAtLeast(t, 6);
    HourAtLeast(t, 14);
    HourAtLeast(t, 22);
  }

  /** The hour is at least `k` exactly when the time of day is at least `k` o'clock. */
  lemma HourAtLeast(t: LocalTime, k: nat)
    ensures k * MicrosPerHour <= t.micro <==> k <= t.Hour()
  {
    var h := t.Hour();
    if k <= h {
      HoursMonotone(k, h);
    } else {
      HoursMonotone(h + 1, k);
    }
  }

  lemma HoursMonotone(a: nat, b: nat)
    requires a <= b
    ensures a * MicrosPerHour <= b * MicrosPerHour
  {
  }

  // ---------------------------------------------------------------- the decision

  /** What one `process_event` call decides. */
  datatype Decision = Decision(status: Status, reason: Option<string>, attempts: seq<Attempt>)

  /** `process_event`, as a function: zone found, camera mapped, schedule active, gates open, then
      the dispatch decides between sent and failed. `zone` is what `get_zone` returned. */
  function Decide(w: Wiring, zone: Option<ZoneConfig>, event: CVEvent, stamps: map<string, Instant>,
                  gateAt: Instant, replies: ChannelReplies): (d: Decision)
    requires zone.Some? ==> ValidZone(zone.value)
    ensures d.attempts != [] ==> d.status == Sent || d.status == Failed
    ensures d.status == Sent ==> d.reason.None?
  {
    if zone.None? then Decision(Rejected, Some(UnknownZone), [])
    else if event.cameraId !in zone.value.cameraIds then Decision(Rejected, Some(CameraNotMapped), [])
    else if !IsActive(zone.value.activeSchedule, LocalTimeOf(w, zone, event.timestampUtc)) then
      Decision(Suppressed, Some(OutsideSchedule), [])
    else
      var verdict := GateVerdict(event, zone.value, stamps, gateAt);
      if verdict.Some? then Decision(Suppressed, verdict, [])
      else
        var delivery := Dispatch(w, zone.value.alertDestinations, replies);
        if delivery.sent then Decision(Sent, None, delivery.attempts)
        else Decision(Failed, delivery.reason, delivery.attempts)
  }

  /** With the zone known, the camera mapped and the schedule active, a gate that blocks makes the
      event "suppressed" with the gate's reason, and nothing is dispatched. */
  lemma GateBlockedSuppresses(w: Wiring, zone: ZoneConfig, event: CVEvent, stamps: map<string, Instant>,
                              gateAt: Instant, replies: ChannelReplies)
    requires ValidZone(zone) && event.cameraId in zone.cameraIds
    requires IsActive(zone.activeSchedule, LocalTimeOf(w, Some(zone), event.timestampUtc))
    requires GateVerdict(event, zone, stamps, gateAt).Some?
    ensures Decide(w, Some(zone), event, stamps, gateAt, replies) ==
      Decision(Suppressed, GateVerdict(event, zone, stamps, gateAt), [])
  {
  }

  /** The gate stamps after the call: written, both with the commit instant, only on "sent". */
  function StampsAfter(w: Wiring, zone: Option<ZoneConfig>, event: CVEvent, stamps: map<string, Instant>,
                       gateAt: Instant, replies: ChannelReplies, commitAt: Instant): map<string, Instant>
    requires zone.Some? ==> ValidZone(zone.value)
  {
    if zone.Some? && Decide(w, zone, event, stamps, gateAt, replies).status == Sent
    then CommitStamps(stamps, event, zone.value, commitAt)
    else stamps
  }

  /** Rejection happens exactly for an unknown zone or a camera the zone does not list; the zone
      check comes first. */
  lemma RejectedIff(w: Wiring, zone: Option<ZoneConfig>, event: CVEvent, stamps: map<string, Instant>,
                    gateAt: Instant, replies: ChannelReplies)
    requires zone.Some? ==> ValidZone(zone.value)
    ensures var d := Decide(w, zone, event, stamps, gateAt, replies);
      && (d.status == Rejected <==> zone.None? || event.cameraId !in zone.value.cameraIds)
      && (zone.None? ==> d == Decision(Rejected, Some(UnknownZone), []))
      && (zone.Some? && event.cameraId !in zone.value.cameraIds ==> d == Decision(Rejected, Some(CameraNotMapped), []))
  {
  }

  /** Outside the active schedule the event is suppressed whatever the gate stamps and the channels
      would say: the gate is not consulted. */
  lemma InactiveScheduleSkipsGate(w: Wiring, zone: ZoneConfig, event: CVEvent,
                                  stamps1: map<string, Instant>, gateAt1: Instant, replies1: ChannelReplies,
                                  stamps2: map<string, Instant>, gateAt2: Instant, replies2: ChannelReplies)
    requires ValidZone(zone) && event.cameraId in zone.cameraIds
    requires !IsActive(zone.activeSchedule, LocalTimeOf(w, Some(zone), event.timestampUtc))
    ensures Decide(w, Some(zone), event, stamps1, gateAt1, replies1) == Decision(Suppressed, Some(OutsideSchedule), [])
    ensures Decide(w, Some(zone), event, stamps1, gateAt1, replies1) == Decide(w, Some(zone), event, stamps2, gateAt2, replies2)
  {
  }

  /** "sent" needs every earlier check passed and one delivery attempt succeeded. */
  lemma SentMeansAllChecksPassed(w: Wiring, zone: Option<ZoneConfig>, event: CVEvent, stamps: map<string, Instant>,
                                 gateAt: Instant, replies: ChannelReplies)
    requires zone.Some? ==> ValidZone(zone.value)
    requires Decide(w, zone, event, stamps, gateAt, replies).status == Sent
    ensures zone.Some? && event.cameraId in zone.value.cameraIds
    ensures IsActive(zone.value.activeSchedule, LocalTimeOf(w, zone, event.timestampUtc))
    ensures GateVerdict(event, zone.value, stamps, gateAt).None?
    ensures var attempts := Decide(w, zone, event, stamps, gateAt, replies).attempts;
      exists i :: 0 <= i < |attempts| && attempts[i].report.ok
  {
    SentIffSomeAttemptSucceeded(w, zone.value.alertDestinations, replies);
  }

  /** The gate stamps change only on "sent", and then exactly the event's two keys, to the same instant. */
  lemma StampsChangeOnlyOnSent(w: Wiring, zone: Option<ZoneConfig>, event: CVEvent, stamps: map<string, Instant>,
                               gateAt: Instant, replies: ChannelReplies, commitAt: Instant)
    requires zone.Some? ==> ValidZone(zone.value)
    ensures var after := StampsAfter(w, zone, event, stamps, gateAt, replies, commitAt);
      && (Decide(w, zone, event, stamps, gateAt, replies).status != Sent ==> after == stamps)
      && (Decide(w, zone, event, stamps, gateAt, replies).status == Sent ==>
            && zone.Some?
            && after.Keys == stamps.Keys + {DedupeKey(event, zone.value), SuppressionKey(event, zone.value)}
            && after[DedupeKey(event, zone.value)] == commitAt
            && after[SuppressionKey(event, zone.value)] == commitAt
            && forall k :: k in stamps && k != DedupeKey(event, zone.value) && k != SuppressionKey(event, zone.value)
                 ==> after[k] == stamps[k])
  {
  }

  /** Two identical events in a row: if the first is sent, the second, arriving inside the dedupe
      window of the commit, is suppressed by it. */
  lemma SecondEventDeduped(w: Wiring, zone: ZoneConfig, event: CVEvent, stamps: map<string, Instant>,
                           gateAt1: Instant, replies1: ChannelReplies, commitAt: Instant,
                           gateAt2: Instant, replies2: ChannelReplies)
    requires ValidZone(zone)
    requires Decide(w, Some(zone), event, stamps, gateAt1, replies1).status == Sent
    requires zone.dedupeWindowSec > 0 && gateAt2 - commitAt < zone.dedupeWindowSec * MicrosPerSecond
    ensures Decide(w, Some(zone), event, StampsAfter(w, Some(zone), event, stamps, gateAt1, replies1, commitAt), gateAt2, replies2)
      == Decision(Suppressed, Some(DedupeWindow), [])
  {
    RepeatInsideDedupeWindow(event, zone, stamps, commitAt, gateAt2);
  }

  // ---------------------------------------------------------------- recording attempts

  /** The `alerts` row `save_alert` writes for one attempt. */
  function AlertRow(eventId: Option<nat>, a: Attempt): AlertRecord {
    AlertRecord(eventId, a.channel, Some(a.destination), a.at, if a.report.ok then "success" else "failed", a.report.error)
  }

  /** The alerts table after recording the attempts in order, under consecutive ids from `firstId`. */
  function Recorded(alerts: map<nat, AlertRecord>, firstId: nat, eventId: Option<nat>, attempts: seq<Attempt>): map<nat, AlertRecord>
    decreases |attempts|
  {
    if attempts == [] then alerts
    else
      var r := Recorded(alerts, firstId, eventId, attempts[..|attempts| - 1]);
      r[firstId + |attempts| - 1 := AlertRow(eventId, attempts[|attempts| - 1])]
  }

  lemma RecordedStep(alerts: map<nat, AlertRecord>, firstId: nat, eventId: Option<nat>, attempts: seq<Attempt>, a: Attempt)
    ensures Recorded(alerts, firstId, eventId, attempts + [a]) ==
      Recorded(alerts, firstId, eventId, attempts)[firstId + |attempts| := AlertRow(eventId, a)]
  {
    assert (attempts + [a])[..|attempts|] == attempts;
  }

  /** Recording adds one row per attempt, in order under the fresh ids, and keeps every other row. */
  lemma {:induction false} RecordedRows(alerts: map<nat, AlertRecord>, firstId: nat, eventId: Option<nat>, attempts: seq<Attempt>, id: nat)
    ensures var r := Recorded(alerts, firstId, eventId, attempts);
      && (id in r <==> id in alerts || firstId <= id < firstId + |attempts|)
      && (firstId <= id < firstId + |attempts| ==> r[id] == AlertRow(eventId, attempts[id - firstId]))
      && (id in alerts && !(firstId <= id < firstId + |attempts|) ==> r[id] == alerts[id])
    decreases |attempts|
  {
    if attempts != [] {
      var prefix := attempts[..|attempts| - 1];
      RecordedRows(alerts, firstId, eventId, prefix, id);
      if firstId <= id < firstId + |prefix| {
        assert attempts[id - firstId] == prefix[id - firstId];
      }
    }
  }

  /** The three tables a cleanup touches. */
  datatype Tables = Tables(events: map<nat, EventRecord>, alerts: map<nat, AlertRecord>, stamps: map<string, Instant>)

  function TablesOf(store: EventStore): Tables
    reads store
  {
    Tables(store.events, store.alerts, store.dedupeState)
  }

  /** The tables after `_post_process`: cleaned up at the cutoff when the counter hit the interval. */
  function Tidied(t: Tables, cleanup: bool, cutoff: Instant): Tables {
    if cleanup then Tables(EventsSince(t.events, cutoff), AlertsSince(t.alerts, cutoff), StampsSince(t.stamps, cutoff))
    else t
  }

  /** The clock readings one `process_event` call takes, in order: `save_event`'s, the gate's,
      the commit's and the cleanup's. The two delivery instants are part of `ChannelReplies`. */
  datatype Clock = Clock(receivedAt: Instant, gateAt: Instant, commitAt: Instant, cleanupAt: Instant)

  /** The tables `process_event` leaves, before any cleanup: the event row with its final decision,
      one alert row per attempt, and the gate stamps. */
  function TablesAfter(w: Wiring, zone: Option<ZoneConfig>, event: CVEvent, before: Tables, id: nat,
                       replies: ChannelReplies, clock: Clock): Tables
    requires zone.Some? ==> ValidZone(zone.value)
  {
    var d := Decide(w, zone, event, before.stamps, clock.gateAt, replies);
    Tables(
      before.events[id := EventRecord(event, clock.receivedAt, d.status.Name(), d.reason)],
      Recorded(before.alerts, id + 1, Some(id), d.attempts),
      StampsAfter(w, zone, event, before.stamps, clock.gateAt, replies, clock.commitAt))
  }

  /** Once the zone and camera checks passed and the schedule or a gate stopped the event, the
      call only records the decision. */
  lemma SuppressedTables(w: Wiring, zone: ZoneConfig, event: CVEvent, before: Tables, id: nat,
                         replies: ChannelReplies, clock: Clock, reason: Option<string>)
    requires ValidZone(zone)
    requires Decide(w, Some(zone), event, before.stamps, clock.gateAt, replies) == Decision(Suppressed, reason, [])
    ensures TablesAfter(w, Some(zone), event, before, id, replies, clock) ==
      Tables(before.events[id := EventRecord(event, clock.receivedAt, Suppressed.Name(), reason)], before.alerts, before.stamps)
  {
  }

  /** Once every check passed, the dispatch decides: "sent" with its attempts, or "failed" with its reason. */
  lemma DeliveredDecision(w: Wiring, zone: ZoneConfig, event: CVEvent, stamps: map<string, Instant>,
                          gateAt: Instant, replies: ChannelReplies)
    requires ValidZone(zone) && event.cameraId in zone.cameraIds
    requires IsActive(zone.activeSchedule, LocalTimeOf(w, Some(zone), event.timestampUtc))
    requires GateVerdict(event, zone, stamps, gateAt).None?
    ensures var delivery := Dispatch(w, Destinations(Some(zone)), replies);
      Decide(w, Some(zone), event, stamps, gateAt, replies) ==
        if delivery.sent then Decision(Sent, None, delivery.attempts) else Decision(Failed, delivery.reason, delivery.attempts)
  {
  }

  // ---------------------------------------------------------------- the relay

  class AlertRelay {
    const settings: Settings
    const store: EventStore
    const zones: ZoneRegistry
    const tzdb: TzDatabase
    /** Whether a WhatsApp client was configured. */
    const whatsappConfigured: bool
    /** Whether an e-mail client was configured. */
    const emailConfigured: bool
    /** `self._events_processed` */
    var eventsProcessed: nat

    ghost predicate Valid()
      reads this, store, zones
    {
      && store.Valid()
      && zones.Valid()
      && ValidSettings(settings)
      && settings.defaultTimezone in tzdb.names
    }

    function Wires(): Wiring
      reads this
    {
      Wiring(settings, tzdb, whatsappConfigured, emailConfigured)
    }

    /** `AlertRelay.__init__` */
    constructor (settings: Settings, store: EventStore, zones: ZoneRegistry, tzdb: TzDatabase,
                 whatsappConfigured: bool, emailConfigured: bool)
      requires store.Valid() && zones.Valid() && ValidSettings(settings)
      requires settings.defaultTimezone in tzdb.names
      ensures Valid() && eventsProcessed == 0
      ensures this.settings == settings && this.store == store && this.zones == zones && this.tzdb == tzdb
      ensures this.whatsappConfigured == whatsappConfigured && this.emailConfigured == emailConfigured
    {
      this.settings := settings;
      this.store := store;
      this.zones := zones;
      this.tzdb := tzdb;
      this.whatsappConfigured := whatsappConfigured;
      this.emailConfigured := emailConfigured;
      eventsProcessed := 0;
    }

    /** `_dedupe_gate`, reading the stamps through the store. */
    method DedupeGate(event: CVEvent, zone: ZoneConfig, now: Instant) returns (r: Option<string>)
      ensures r == GateVerdict(event, zone, store.dedupeState, now)
    {
      if zone.dedupeWindowSec > 0 {
        var last := store.GetLastSentAt(DedupeKey(event, zone));
        if last.Some? && now - last.value < zone.dedupeWindowSec * MicrosPerSecond {
          return Some(DedupeWindow);
        }
      }
      if zone.suppressionWindowSec > 0 {
        var last := store.GetLastSentAt(SuppressionKey(event, zone));
        if last.Some? && now - last.value < zone.suppressionWindowSec * MicrosPerSecond {
          return Some(SuppressionWindow);
        }
      }
      return None;
    }

    /** `_dispatch_event_alert`: tries the channels as `Dispatch` says and records each attempt. */
    method DispatchEventAlert(eventId: Option<nat>, zone: Option<ZoneConfig>, replies: ChannelReplies)
      returns (sent: bool, reason: Option<string>)
      requires store.Valid()
      modifies store
      ensures store.Valid()
      ensures var d := Dispatch(Wires(), Destinations(zone), replies);
        && sent == d.sent && reason == d.reason
        && store.alerts == Recorded(old(store.alerts), old(store.nextId), eventId, d.attempts)
        && store.nextId == old(store.nextId) + |d.attempts|
      ensures store.events == old(store.events) && store.dedupeState == old(store.dedupeState)
      ensures store.heartbeats == old(store.heartbeats) && store.healthAlerts == old(store.healthAlerts)
    {
      var destinations := Destinations(zone);
      ghost var w := Wires();
      ghost var tried: seq<Attempt> := [];
      var whatsappSent := false;
      var whatsappError: Option<string> := None;
      if "whatsapp" in destinations && whatsappConfigured {
        var report := replies.whatsapp;
        var attempt := Attempt("whatsapp", "webhook", report, replies.whatsappAt);
        SaveAttempt(eventId, attempt);
        RecordedStep(old(store.alerts), old(store.nextId), eventId, [], attempt);
        tried := [attempt];
        whatsappSent, whatsappError := report.ok, report.error;
      }
      assert store.alerts == Recorded(old(store.alerts), old(store.nextId), eventId, tried);
      if whatsappSent {
        sent, reason := true, None;
        assert Dispatch(w, destinations, replies) == Delivery(sent, reason, tried);
      } else {
        assert Dispatch(w, destinations, replies) == Fallback(w, tried, whatsappError, replies);
        sent, reason := EmailFallback(eventId, old(store.alerts), old(store.nextId), tried, whatsappError, replies);
      }
    }

    /** The e-mail branch of `_dispatch_event_alert`, after `tried` (WhatsApp, if it was tried and failed). */
    method EmailFallback(eventId: Option<nat>, ghost alerts: map<nat, AlertRecord>, ghost firstId: nat,
                         ghost tried: seq<Attempt>, whatsappError: Option<string>, replies: ChannelReplies)
      returns (sent: bool, reason: Option<string>)
      requires store.Valid()
      requires store.alerts == Recorded(alerts, firstId, eventId, tried) && store.nextId == firstId + |tried|
      modifies store
      ensures store.Valid()
      ensures var d := Fallback(Wires(), tried, whatsappError, replies);
        && sent == d.sent && reason == d.reason
        && store.alerts == Recorded(alerts, firstId, eventId, d.attempts)
        && store.nextId == firstId + |d.attempts|
      ensures store.events == old(store.events) && store.dedupeState == old(store.dedupeState)
      ensures store.heartbeats == old(store.heartbeats) && store.healthAlerts == old(store.healthAlerts)
    {
      var recipients := EmailRecipients(settings.emailToCsv);
      if emailConfigured && recipients != [] {
        var report := replies.email;
        var attempt := Attempt("email", Join(recipients, ','), report, replies.emailAt);
        SaveAttempt(eventId, attempt);
        RecordedStep(alerts, firstId, eventId, tried, attempt);
        if report.ok {
          return true, None;
        }
        return false, PyOr(report.error, whatsappError);
      }
      return false, PyOr(whatsappError, Some(NoDeliveryChannel));
    }

    /** The `save_alert` call that records one attempt. */
    method SaveAttempt(eventId: Option<nat>, attempt: Attempt)
      requires store.Valid()
      modifies store
      ensures store.Valid()
      ensures store.alerts == old(store.alerts)[old(store.nextId) := AlertRow(eventId, attempt)]
      ensures store.nextId == old(store.nextId) + 1
      ensures store.events == old(store.events) && store.dedupeState == old(store.dedupeState)
      ensures store.heartbeats == old(store.heartbeats) && store.healthAlerts == old(store.healthAlerts)
    {
      store.SaveAlert(eventId, attempt.channel, Some(attempt.destination), if attempt.report.ok then "success" else "failed",
                      attempt.report.error, attempt.at);
    }

    /** `process_event`: the response is the one `Decide` gives for the zone `get_zone` finds, the
        rejected outcomes leave the counter (and the cleanup) alone, and every other outcome counts
        the event and cleans up every `cleanup_interval_events` events. */
    method ProcessEvent(event: CVEvent, replies: ChannelReplies, clock: Clock) returns (r: Response)
      requires Valid()
      modifies this, store
      ensures Valid()
      ensures var zone := zones.GetZone(event.zoneId);
        var d := Decide(Wires(), zone, event, old(store.dedupeState), clock.gateAt, replies);
        var id := old(store.nextId);
        var counted := d.status != Rejected;
        && r == Response(d.status, d.reason, id)
        && store.nextId == id + 1 + |d.attempts|
        && eventsProcessed == old(eventsProcessed) + (if counted then 1 else 0)
        && TablesOf(store) ==
             Tidied(TablesAfter(Wires(), zone, event, old(TablesOf(store)), id, replies, clock),
                    counted && eventsProcessed % settings.cleanupIntervalEvents == 0,
                    Cutoff(settings.retentionDays, clock.cleanupAt))
      ensures store.heartbeats == old(store.heartbeats) && store.healthAlerts == old(store.healthAlerts)
    {
      var id := store.SaveEvent(event, "processing", None, clock.receivedAt);
      var zone := zones.GetZone(event.zoneId);
      if zone.None? {
        store.UpdateEventDecision(id, Rejected.Name(), Some(UnknownZone));
        return Response(Rejected, Some(UnknownZone), id);
      }
      if event.cameraId !in zone.value.cameraIds {
        store.UpdateEventDecision(id, Rejected.Name(), Some(CameraNotMapped));
        return Response(Rejected, Some(CameraNotMapped), id);
      }
      r := ProcessMapped(id, event, zone.value, replies, clock, old(TablesOf(store)));
    }

    /** The part of `process_event` after the zone and camera checks passed. */
    method ProcessMapped(id: nat, event: CVEvent, zone: ZoneConfig, replies: ChannelReplies, clock: Clock,
                         ghost before: Tables) returns (r: Response)
      requires store.Valid() && ValidSettings(settings) && ValidZone(zone) && event.cameraId in zone.cameraIds
      requires id + 1 == store.nextId && id !in before.events
      requires TablesOf(store) == before.(events := before.events[id := EventRecord(event, clock.receivedAt, "processing", None)])
      modifies this, store
      ensures store.Valid()
      ensures var d := Decide(Wires(), Some(zone), event, before.stamps, clock.gateAt, replies);
        && d.status != Rejected
        && r == Response(d.status, d.reason, id)
        && store.nextId == id + 1 + |d.attempts|
        && eventsProcessed == old(eventsProcessed) + 1
        && TablesOf(store) ==
             Tidied(TablesAfter(Wires(), Some(zone), event, before, id, replies, clock),
                    eventsProcessed % settings.cleanupIntervalEvents == 0,
                    Cutoff(settings.retentionDays, clock.cleanupAt))
      ensures store.heartbeats == old(store.heartbeats) && store.healthAlerts == old(store.healthAlerts)
    {
      var local := LocalTimeOf(Wires(), Some(zone), event.timestampUtc);
      if !IsActive(zone.activeSchedule, local) {
        store.UpdateEventDecision(id, Suppressed.Name(), Some(OutsideSchedule));
        SuppressedTables(Wires(), zone, event, before, id, replies, clock, Some(OutsideSchedule));
        assert TablesOf(store) == TablesAfter(Wires(), Some(zone), event, before, id, replies, clock);
        PostProcess(clock.cleanupAt);
        return Response(Suppressed, Some(OutsideSchedule), id);
      }
      var verdict := DedupeGate(event, zone, clock.gateAt);
      if verdict.Some? {
        store.UpdateEventDecision(id, Suppressed.Name(), verdict);
        SuppressedTables(Wires(), zone, event, before, id, replies, clock, verdict);
        assert TablesOf(store) == TablesAfter(Wires(), Some(zone), event, before, id, replies, clock);
        PostProcess(clock.cleanupAt);
        return Response(Suppressed, verdict, id);
      }
      r := Deliver(id, event, zone, replies, clock, before);
    }

    /** The part of `process_event` after every check passed: dispatch, then the decision, the
        gate stamps on "sent", and the post-processing. */
    method Deliver(id: nat, event: CVEvent, zone: ZoneConfig, replies: ChannelReplies, clock: Clock,
                   ghost before: Tables) returns (r: Response)
      requires store.Valid() && ValidSettings(settings) && ValidZone(zone) && event.cameraId in zone.cameraIds
      requires IsActive(zone.activeSchedule, LocalTimeOf(Wires(), Some(zone), event.timestampUtc))
      requires GateVerdict(event, zone, before.stamps, clock.gateAt).None?
      requires id + 1 == store.nextId && id !in before.events
      requires TablesOf(store) == before.(events := before.events[id := EventRecord(event, clock.receivedAt, "processing", None)])
      modifies this, store
      ensures store.Valid()
      ensures var d := Decide(Wires(), Some(zone), event, before.stamps, clock.gateAt, replies);
        && r == Response(d.status, d.reason, id)
        && store.nextId == id + 1 + |d.attempts|
        && eventsProcessed == old(eventsProcessed) + 1
        && TablesOf(store) ==
             Tidied(TablesAfter(Wires(), Some(zone), event, before, id, replies, clock),
                    eventsProcessed % settings.cleanupIntervalEvents == 0,
                    Cutoff(settings.retentionDays, clock.cleanupAt))
      ensures store.heartbeats == old(store.heartbeats) && store.healthAlerts == old(store.healthAlerts)
    {
      DeliveredDecision(Wires(), zone, event, before.stamps, clock.gateAt, replies);
      ghost var after := TablesAfter(Wires(), Some(zone), event, before, id, replies, clock);
      var sent, reason := DispatchEventAlert(Some(id), Some(zone), replies);
      assert store.alerts == after.alerts;
      if sent {
        store.UpdateEventDecision(id, Sent.Name(), None);
        assert store.events == after.events;
        store.SetLastSentAt(DedupeKey(event, zone), clock.commitAt);
        store.SetLastSentAt(SuppressionKey(event, zone), clock.commitAt);
        assert store.dedupeState == after.stamps;
        PostProcess(clock.cleanupAt);
        return Response(Sent, None, id);
      }
      store.UpdateEventDecision(id, Failed.Name(), reason);
      assert store.events == after.events;
      assert store.dedupeState == after.stamps;
      PostProcess(clock.cleanupAt);
      return Response(Failed, reason, id);
    }

    /** `send_camera_offline_alert`: dispatches for the zone listing the camera (or none), with no
        event id, and reports whether the alert went out. */
    method SendCameraOfflineAlert(cameraId: string, replies: ChannelReplies) returns (sent: bool)
      requires Valid()
      modifies store
      ensures Valid()
      ensures var d := Dispatch(Wires(), Destinations(zones.ZoneForCamera(cameraId)), replies);
        && sent == d.sent
        && store.alerts == Recorded(old(store.alerts), old(store.nextId), None, d.attempts)
        && store.nextId == old(store.nextId) + |d.attempts|
      ensures store.events == old(store.events) && store.dedupeState == old(store.dedupeState)
      ensures store.heartbeats == old(store.heartbeats) && store.healthAlerts == old(store.healthAlerts)
    {
      var zone := zones.ZoneForCamera(cameraId);
      var reason;
      sent, reason := DispatchEventAlert(None, zone, replies);
    }

    /** `_post_process`: counts the event and, every `cleanup_interval_events` events, cleans up. */
    method PostProcess(cleanupAt: Instant)
      requires store.Valid() && ValidSettings(settings)
      modifies this, store
      ensures store.Valid()
      ensures eventsProcessed == old(eventsProcessed) + 1
      ensures TablesOf(store) ==
        Tidied(old(TablesOf(store)), eventsProcessed % settings.cleanupIntervalEvents == 0, Cutoff(settings.retentionDays, cleanupAt))
      ensures store.nextId == old(store.nextId)
      ensures store.heartbeats == old(store.heartbeats) && store.healthAlerts == old(store.healthAlerts)
    {
      eventsProcessed := eventsProcessed + 1;
      if eventsProcessed % settings.cleanupIntervalEvents == 0 {
        store.CleanupOldRecords(settings.retentionDays, cleanupAt);
      }
    }
  }
}
