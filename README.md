# ez-watch alert relay — a Dafny model

This project models the decision engine of the ez-watch alert relay. The relay takes
computer-vision events from cameras and decides for each one:

- whether it is rejected (unknown zone, or a camera the zone does not list);
- whether it is suppressed (outside the zone's active schedule, or held by the dedupe or the
  suppression window);
- whether it is sent, over WhatsApp first and then e-mail as a fallback;
- whether it failed, with the reason.

Every decision, every delivery attempt and the gate's time stamps are recorded in a store. The
store is cleaned up every `cleanup_interval_events` counted events.

The modules follow the source files:

| module | models |
|---|---|
| `Common` (common.dfy) | `Option`, instants as integer microseconds, the time unit constants |
| `Text` (text.dfy) | Python's `str.split(sep)`, `str.strip()`, `sep.join` and `int()` on ASCII digits, as much as the relay uses |
| `Settings` (settings.dfy) | `app/settings.py`: the settings the core reads, their validators and defaults, `email_recipients` |
| `Models` (models.dfy) | `app/models.py`: the enums, `ScheduleWindow` (`_parse_time`, `contains`), `ActiveSchedule.is_active`, `ZoneConfig` and `CVEventIn` with their field validators |
| `Zones` (zones.dfy) | `app/zones.py`: `ZoneRegistry`, a class whose constructor builds the zone table and the camera index with loops |
| `Store` (store.dfy) | `app/store.py`: `EventStore`, a class over five maps (events, alerts, dedupe state, heartbeats, health-alert state) |
| `Relay` (relay.dfy) | `app/relay.py`: `AlertRelay`, the gate keys, `_dedupe_gate`, `_dispatch_event_alert`, `_to_local_dt`, `_shift_name`, `_post_process`, `process_event`, `send_camera_offline_alert` |

`Relay.Decide` is the pure specification of one `process_event` call. Its inputs are:

- the zone `get_zone` returned;
- the event;
- the gate stamps;
- the instant the gate reads the clock;
- what the channels answer.

`Relay.AlertRelay.ProcessEvent` runs the same steps against an `EventStore` and a `ZoneRegistry`. It is
proved to return `Decide`'s outcome and to leave exactly the tables `TablesAfter` and `Tidied`
describe:

- the event row with its final decision;
- one alert row per attempt, in order;
- both gate keys stamped with the commit instant, only on "sent";
- the cleanup, when the counter reaches a multiple of the interval.

Inputs the source gets from outside are parameters of the model:

- what the channel clients return (`ChannelReplies`, `SendReport`);
- the clock readings (`Clock`);
- the tz database (`TzDatabase`: its known names and a localisation function).

Where the intended behaviour and the code differ, the model follows the code:

- `process_event` has no `invalid_payload` outcome. Payload validation happens before it, in the
  web layer, which answers 422. `ValidEvent` and `ValidZone` state the field validators.
- The e-mail fallback is tried whenever an e-mail client exists and there are recipients. This
  holds even when the zone's `alert_destinations` does not list "email" (app/relay.py:127).
- When a failed e-mail send's error is None or "", the reason is the WhatsApp error as
  returned, so a failed outcome can have reason None or "" (`PyOr`, app/relay.py:145).
- A channel's failure reason is the text the client returns. The model does not invent a
  "timeout" reason.
- Nothing serializes two events with the same keys. The gate read and the stamp write are
  separate store calls (see "## Left out").

## Model

| member | source | states |
|---|---|---|
| Relay.Status.Name | app/relay.py:41-74 | the status string stored and returned is never empty |
| Relay.StatusNameInjective | app/relay.py:41-74 | distinct statuses have distinct names, so the stored decision identifies the status |
| Relay.KeyShapes | app/relay.py:201-205 | whatever the ids, `DedupeKey` begins with "dedupe:" and ends with the event type's value; `SuppressionKey` begins with "suppress:" and ends with the camera id (with DedupeKeyInjective and SuppressionKeyInjective, this characterises the two keys) |
| Relay.KeyKindsDiffer | app/relay.py:201-205 | no dedupe key equals any suppression key |
| Relay.DedupeKeySeparatesTypes | app/relay.py:201-202 | for one camera in one zone, two events share the dedupe key if and only if they have the same type |
| Relay.DedupeKeyParts | app/relay.py:201-202 | for ids without ':', the dedupe key splits back into "dedupe", zone id, camera id and type value |
| Relay.SuppressionKeyParts | app/relay.py:204-205 | for ids without ':', the suppression key splits back into "suppress", zone id and camera id |
| Relay.DedupeKeyInjective | app/relay.py:201-202 | for ids without ':', dedupe keys are equal if and only if zone, camera and type are |
| Relay.SuppressionKeyInjective | app/relay.py:204-205 | for ids without ':', suppression keys are equal if and only if zone and camera are; the type plays no part |
| Relay.SuppressionKeyCollision | app/relay.py:204-205 | with ':' inside ids, zone "a:b" with camera "c" and zone "a" with camera "b:c" share a suppression key |
| Relay.GateVerdict | app/relay.py:149-166 | the verdict is "dedupe_window" if and only if the dedupe window blocks; it is "suppression_window" if and only if the dedupe window does not block and the suppression window does; otherwise none. A window blocks only when it is above zero, a stamp exists and less than the window has passed |
| Relay.AlertRelay.DedupeGate | app/relay.py:149-166 | the gate, reading the stamps through the store, returns exactly `GateVerdict` of the current stamps |
| Relay.CommitStamps | app/relay.py:64-68 | a sent alert stamps both keys with the same instant; every other stamp is kept |
| Relay.ZeroWindowsNeverBlock | app/relay.py:152-166 | with both windows at zero the gate passes everything |
| Relay.DedupeWinsOverSuppression | app/relay.py:152-157 | when both windows would block, the reason is "dedupe_window" |
| Relay.RepeatInsideDedupeWindow | app/relay.py:55-68 | after a commit, the same event inside the dedupe window is stopped by "dedupe_window" |
| Relay.RepeatAfterBothWindows | app/relay.py:152-166 | once both windows have passed since the commit, the same event passes the gate again |
| Relay.RepeatBetweenWindows | app/relay.py:152-166 | past the dedupe window but inside the suppression window, the same event gets "suppression_window" |
| Relay.OtherTypeIsSuppressed | app/relay.py:152-166 | after an alert for one type, another type from the same camera passes the dedupe window and is held by the suppression window |
| Relay.Dispatch | app/relay.py:101-147 | a sent delivery has no reason. The attempts are, in order: the WhatsApp attempt when WhatsApp is a destination with a client; then the e-mail attempt exactly when WhatsApp did not succeed and e-mail can be tried. So a failed WhatsApp send without an e-mail fallback records exactly one row |
| Relay.SentIffSomeAttemptSucceeded | app/relay.py:111-147 | the alert counts as sent if and only if one of the recorded attempts succeeded |
| Relay.WhatsAppSuccessSkipsEmail | app/relay.py:114-125 | a WhatsApp success is the only attempt: e-mail is not tried |
| Relay.FallsBackToEmail | app/relay.py:127-145 | when WhatsApp failed or was not tried and e-mail can be tried, e-mail is the last attempt, addressed to the comma-joined recipients, and its result is the outcome |
| Relay.FailureReason | app/relay.py:145-147 | the failure reason: the e-mail error, else the WhatsApp error, when e-mail was tried; otherwise the WhatsApp error, else "no_delivery_channel_configured" |
| Relay.NoChannelConfigured | app/relay.py:147 | with neither channel usable nothing is attempted and the reason is "no_delivery_channel_configured" |
| Relay.EmailDestinationListsRecipients | app/relay.py:138 | the recorded e-mail destination splits back at ',' into exactly the recipients |
| Relay.AlertRelay.DispatchEventAlert | app/relay.py:101-147 | returns `Dispatch`'s outcome for the zone's destinations (both channels without a zone). It writes one alert row per attempt, in order, under fresh ids, and changes no other table |
| Relay.AlertRelay.EmailFallback | app/relay.py:127-147 | the e-mail branch returns `Fallback`'s outcome and appends its attempt, if any, to the rows already recorded |
| Relay.AlertRelay.SaveAttempt | app/relay.py:116-123 | one attempt becomes one alert row under the next fresh id, with "success" or "failed" and the client's error |
| Relay.RecordedRows | app/relay.py:116-142 | recording the attempts adds exactly one row per attempt, the k-th under the k-th fresh id, and keeps every other row |
| Relay.ResolveTimezone | app/relay.py:207-215 | the name used is the schedule's timezone unless it is missing or empty, then the default; a name the database does not know also falls back to the default |
| Relay.ResolvedNameIsKnown | app/relay.py:207-215 | with a known default, the resolved name is always one the database knows |
| Relay.LocalTimeOfZone | app/relay.py:207-217 | `LocalTimeOf` localises in the schedule's timezone when it is non-empty and known; otherwise (no zone, empty timezone, unknown name) in the default timezone |
| Relay.ShiftName | app/relay.py:219-225 | "morning" if and only if 6 <= hour < 14; "afternoon" if and only if 14 <= hour < 22; "night" if and only if hour < 6 or hour >= 22 |
| Relay.ShiftBoundaries | app/relay.py:219-225 | the shifts change at exactly 06:00, 14:00 and 22:00 local time |
| Relay.Decide | app/relay.py:35-74 | any attempt at all means "sent" or "failed"; "sent" has no reason |
| Relay.RejectedIff | app/relay.py:39-46 | "rejected" if and only if the zone is unknown or does not list the camera, with "unknown_zone" checked first, then "camera_not_mapped_to_zone" |
| Relay.GateBlockedSuppresses | app/relay.py:55-60 | with the zone known, the camera mapped and the schedule active, a blocking gate makes the outcome "suppressed" with the gate's reason, and nothing is dispatched |
| Relay.InactiveScheduleSkipsGate | app/relay.py:48-53 | outside the active schedule the outcome is "suppressed"/"outside_active_schedule", whatever the stamps, the gate clock and the channels |
| Relay.SentMeansAllChecksPassed | app/relay.py:35-70 | "sent" implies: the zone is known, it lists the camera, the schedule is active, the gate is open, and one attempt succeeded |
| Relay.StampsChangeOnlyOnSent | app/relay.py:64-74 | the gate stamps change only on "sent", and then exactly the event's two keys, both to the commit instant |
| Relay.SecondEventDeduped | tests/test_api.py:88-103 | when an event is sent, the same event inside the dedupe window of the commit is "suppressed"/"dedupe_window" |
| Relay.SuppressedTables | app/relay.py:48-60 | when the schedule or the gate stops the event, only the event row changes, to "suppressed" with its reason |
| Relay.DeliveredDecision | app/relay.py:62-74 | once every check passed, the outcome is the dispatch's: "sent" with no reason, or "failed" with the dispatch's reason |
| Relay.AlertRelay.constructor | app/relay.py:20-33 | a relay starts with a zero event counter over the given store, zones, settings and clients |
| Relay.AlertRelay.ProcessEvent | app/relay.py:35-74 | returns `Decide`'s status and reason under the id of the saved event. Every table ends as described: the event row with the decision, one alert row per attempt, the stamps only on "sent", the cleanup at each multiple of the interval. Rejected events are not counted |
| Relay.AlertRelay.ProcessMapped | app/relay.py:48-74 | after the zone and camera checks, the outcome is never "rejected", the event is counted, and the tables end as `ProcessEvent` states |
| Relay.AlertRelay.Deliver | app/relay.py:62-74 | after every check passed: the dispatch, the decision, both keys stamped on "sent", then the post-processing |
| Relay.AlertRelay.SendCameraOfflineAlert | app/relay.py:76-99 | dispatches for the zone listing the camera (both channels when none), records attempts with no event id, returns whether the alert was sent |
| Relay.AlertRelay.PostProcess | app/relay.py:227-231 | the counter goes up by one; when it reaches a multiple of `cleanup_interval_events`, alerts, events and stamps older than the retention cutoff are removed |
| Models.EventTypeValueInjective | app/models.py:15-21 | distinct event types have distinct values |
| Models.LocalTime.Hour | app/relay.py:220 | the hour is below 24 and brackets the time of day |
| Models.ClockTextIff | app/models.py:42-43 | `IsClockText` holds if and only if the text has five characters, a colon in the middle and two digits on each side, reading as an hour up to 23 and a minute up to 59 |
| Models.ParseTime | app/models.py:45-47 | a valid `HH:MM` text parses to an hour of at most 23 and a minute of at most 59 |
| Models.FormatClock | app/models.py:42-43 | the two-digit text of a time matches the `HH:MM` pattern |
| Models.ParseFormat | app/models.py:45-47 | parsing the text of a time gives back that time |
| Models.FormatParse | app/models.py:42-47 | every text that matches the pattern is the text of the time it parses to |
| Models.OffDayIsOutside | app/models.py:50-61 | `Contains` never admits a day the window does not list |
| Models.BetweenBoundsIsInside | app/models.py:49-70 | `Contains` admits a listed day at any time from the start bound to the end bound, both included, whichever kind the window is |
| Models.SameDayWindow | app/models.py:63-68 | `Contains` on a window whose start is not after its end contains, on its days, exactly the times from start to end, both included |
| Models.OvernightWindow | app/models.py:63-70 | `Contains` on a window whose start is after its end contains, on its days, every time except those strictly between end and start |
| Models.OvernightExample | tests/test_api.py:13-17 | `18:00`-`06:00` every day contains 23:59 and 05:59 and not 12:00 |
| Models.AllDayWindowMissesLastMinute | tests/test_api.py:20-22 | `00:00`-`23:59` contains 23:59:00 exactly but not one microsecond later, nor 23:59:30 |
| Models.NoWindowsAlwaysActive | app/models.py:78-79 | a schedule without windows is always active |
| Models.AnyContainsIff | app/models.py:80 | `any` over the windows holds if and only if one window contains the time |
| Models.ActiveIff | app/models.py:77-80 | `IsActive`: a schedule is active if and only if it has no windows or one of its windows contains the time |
| Models.ActiveIgnoresOrder | app/models.py:77-80 | the order of the windows does not change the verdict |
| Zones.ZoneTable | app/zones.py:12 | the table's keys are exactly the ids listed, and each id maps to a config with that id |
| Zones.ZoneTableLastWins | app/zones.py:12 | an id listed more than once maps to its last config |
| Zones.IdOrder | app/zones.py:12 | the ids in table order: every listed id once, no repeats |
| Zones.CameraIndexed | app/zones.py:13-16 | a camera is indexed if and only if some config lists it |
| Zones.CameraIndexLastWins | app/zones.py:13-16 | a camera listed by several configs is indexed to the zone of the last one |
| Zones.CameraIndexPointsIntoTable | app/zones.py:35-39 | every indexed camera's zone id is in the table. With unique zone ids, that zone lists the camera |
| Zones.RepeatedIdMisroutesCamera | app/zones.py:12-16 | with a repeated zone id, `zone_for_camera` can return a config that does not list the camera |
| Zones.ZoneRegistry.constructor | app/zones.py:11-16 | builds the zone table (last config per id wins) and the camera index (last listing wins) over the given configs |
| Zones.ZoneRegistry.IndexZones | app/zones.py:12 | the loop builds exactly `ZoneTable` and `IdOrder` |
| Zones.ZoneRegistry.IndexCamerasOfZones | app/zones.py:13-16 | the nested loop builds exactly `CameraIndex` |
| Zones.ZoneRegistry.GetZone | app/zones.py:32-33 | none if and only if no config has that id; otherwise a valid config with that id, the last one listed |
| Zones.ZoneRegistry.ZoneForCamera | app/zones.py:35-39 | none if and only if no config lists the camera; otherwise the zone with the id of the last config listing it, and that zone is exactly what `GetZone` returns for its id: the last config with that id |
| Zones.ZoneRegistry.Zones | app/zones.py:41-43 | one config per distinct id, in first-listed order, each the one `get_zone` returns for its id |
| Store.EventsSince | app/store.py:217 | keeps exactly the events received at or after the cutoff, unchanged |
| Store.AlertsSince | app/store.py:216 | keeps exactly the alerts sent at or after the cutoff, unchanged |
| Store.StampsSince | app/store.py:218 | keeps exactly the stamps at or after the cutoff, unchanged |
| Store.StampsSinceIdempotent | app/store.py:212-218 | a second cleanup at the same or an earlier cutoff removes nothing more |
| Store.StampsSinceCompose | app/store.py:212-218 | two cleanups remove what one cleanup at the later cutoff removes |
| Store.StampsSinceAfterWrite | app/store.py:154-164 | writing a stamp that is not older than the cutoff commutes with a cleanup |
| Store.OldStampRemoved | app/store.py:218 | a stamp older than the cutoff is gone after a cleanup |
| Store.EventStore.constructor | app/store.py:21-76 | a new store has every table empty |
| Store.EventStore.SaveEvent | app/store.py:78-105 | inserts the event row under an id never used before, returns it, changes nothing else |
| Store.EventStore.UpdateEventDecision | app/store.py:107-112 | sets decision and reason of that row only; an unknown id changes nothing |
| Store.EventStore.SaveAlert | app/store.py:114-141 | inserts one alert row under a fresh id and changes nothing else |
| Store.EventStore.GetLastSentAt | app/store.py:143-152 | none if and only if the key has no stamp; otherwise that stamp |
| Store.EventStore.SetLastSentAt | app/store.py:154-164 | upsert: reading the key back gives the new instant, every other key reads as before |
| Store.EventStore.UpsertCameraHeartbeat | app/store.py:166-176 | upsert of the camera's last-seen instant, nothing else changes |
| Store.EventStore.GetStaleCameras | app/store.py:178-188 | exactly the cameras last seen strictly before `now - threshold`, each with its last-seen instant |
| Store.EventStore.GetLastHealthAlertAt | app/store.py:190-198 | none if and only if the camera has no health-alert stamp; otherwise that stamp |
| Store.EventStore.SetLastHealthAlertAt | app/store.py:200-210 | upsert with the same read-back behaviour as the dedupe state |
| Store.EventStore.CleanupOldRecords | app/store.py:212-218 | removes the alerts, events and stamps older than `now - retention_days` and keeps everything else; heartbeats and health-alert stamps are untouched |
| Settings.EmailRecipients | app/settings.py:42-45 | every recipient is non-empty, has no surrounding whitespace and contains no ',' |
| Settings.RecipientsOfConcat | app/settings.py:44-45 | the recipients of `a,b` are those of `a` followed by those of `b`: order is kept |
| Settings.RecipientsOfPiece | app/settings.py:44-45 | a piece without a comma gives itself stripped, or nothing when only whitespace is left |
| Settings.NoRecipientsIff | app/settings.py:42-45 | there are no recipients if and only if the list holds nothing but commas and whitespace |
| Settings.DefaultHasNoRecipients | app/settings.py:35 | the default empty `email_to_csv` gives no recipients, so e-mail is off by default |
| Text.Split | app/settings.py:44 | `split` always gives at least one piece |
| Text.JoinSplit | app/relay.py:138 | joining the pieces of a split with the separator gives back the string |
| Text.SplitJoin | app/relay.py:138 | splitting a join of separator-free pieces gives back the pieces |
| Text.SplitAtSeparator | app/settings.py:44 | a split at one separator splits both sides independently |
| Text.SplitPiecesHaveNoSeparator | app/settings.py:44 | no piece of a split contains the separator |
| Text.Strip | app/settings.py:44 | the result of `strip` neither begins nor ends with whitespace |
| Text.StripIsInfix | app/settings.py:44 | what `strip` keeps is a contiguous part of the string with only whitespace around it |
| Text.StripSurrounded | app/settings.py:44 | `strip` removes exactly the surrounding whitespace and nothing else |
| Text.StripEmptyIff | app/settings.py:45 | `strip` gives "" if and only if the string is all whitespace |
| Text.TrimLeft | app/settings.py:44 | what is dropped from the left is whitespace; what is kept does not start with it |
| Text.TrimRight | app/settings.py:44 | what is dropped from the right is whitespace; what is kept does not end with it |

## Left out

- The web layer (app/main.py) is not part of this model: routing, request validation and its 422 answers, the heartbeat endpoint, and the background camera-health loop with its offline cooldown.
- The channel clients (app/channels.py) are not modelled. Their `send` results are inputs (`SendReport`), including the text of a failure reason such as a timeout.
- Metrics, logging and the processing latency (`started_at`, `PROCESSING_LATENCY`) do not affect any outcome and are not modelled.
- Message building and rendering (`_build_alert_message`, `_render_message_text`, app/relay.py:168-199) are not modelled. Neither are the e-mail subject, the JSON payload stored as `message_json`, or `raw_payload_json`.
- `ZoneRegistry.from_yaml` (YAML reading) and the rest of the settings (channel connection details, health thresholds) are not modelled.
- SQLite is modelled as maps. `uuid4` row ids are numbers from one counter, so a fresh id is one never issued. The table layout and indexes are not modelled.
- Stored ISO-8601 strings are modelled as instants. The store's string comparisons are compared as instants, which assumes every stored string has the same UTC format.
- `threading.Lock` and concurrency are not modelled. Each call is one atomic step. Two concurrent events with the same keys can both pass the gate in the source; the model makes no exactly-once claim.
- Relay.GateVerdict: compares `now - last < window` exactly in microseconds, not through the float `total_seconds()`.
- Models.ParseTime: the bound pattern is read with ASCII digits only; Python's `\d` also admits other Unicode decimal digits.
- Relay.LocalTimeOf: the tz database is an oracle (`TzDatabase`), and DST rules and `astimezone` are not modelled. A malformed zone name makes `ZoneInfo` raise `ValueError`, which the source does not catch; the model treats every unknown name as not found.
- Relay.AlertRelay.constructor: requires the default timezone to be known. With an unknown default the source raises inside `_to_local_dt` only on a call that falls back to the default: no zone, an empty schedule timezone, or an unknown schedule timezone. The model has no such error path.
- Store.EventStore.GetStaleCameras: `now or utcnow()` becomes a required `now` parameter. Each clock reading the source takes with `utcnow()` is a parameter (`Clock`, `ChannelReplies`).
- Relay.AlertRelay.SendCameraOfflineAlert: the local time and the message it builds are not modelled, and neither is the warning it logs. Only the dispatch and its result are.
