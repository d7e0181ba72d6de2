/** The relay's persistent state (app/store.py) as five tables held in maps. Row ids, which the
    source draws from `uuid4`, come from one counter, so a fresh id is one the store has never issued.
    Timestamps are instants; the clock readings the source takes inside a call (`utcnow()`) are
    parameters of that call. */
module Store {
  import opened Common
  import opened Models

  /** A row of `events`. `raw_payload_json` is not part of this model. */
  datatype EventRecord = EventRecord(
    event: CVEvent,
    receivedAt: Instant,
    decision: string,
    reason: Option<string>)

  /** A row of `alerts`. `message_json` is not part of this model. */
  datatype AlertRecord = AlertRecord(
    eventId: Option<nat>,
    channel: string,
    destination: Option<string>,
    sentAt: Instant,
    status: string,
    error: Option<string>)

  // ---------------------------------------------------------------- cleanup, on values

  /** `DELETE FROM events WHERE received_at_utc < cutoff` */
  function EventsSince(events: map<nat, EventRecord>, cutoff: Instant): (r: map<nat, EventRecord>)
    ensures r.Keys <= events.Keys
    ensures forall id :: id in r ==> r[id] == events[id] && cutoff <= r[id].receivedAt
    ensures forall id :: id in events && cutoff <= events[id].receivedAt ==> id in r
  {
    map id | id in events && cutoff <= events[id].receivedAt :: events[id]
  }

  /** `DELETE FROM alerts WHERE sent_at_utc < cutoff` */
  function AlertsSince(alerts: map<nat, AlertRecord>, cutoff: Instant): (r: map<nat, AlertRecord>)
    ensures r.Keys <= alerts.Keys
    ensures forall id :: id in r ==> r[id] == alerts[id] && cutoff <= r[id].sentAt
    ensures forall id :: id in alerts && cutoff <= alerts[id].sentAt ==> id in r
  {
    map id | id in alerts && cutoff <= alerts[id].sentAt :: alerts[id]
  }

  /** `DELETE FROM dedupe_state WHERE last_sent_at_utc < cutoff` */
  function StampsSince(stamps: map<string, Instant>, cutoff: Instant): (r: map<string, Instant>)
    ensures r.Keys <= stamps.Keys
    ensures forall k :: k in r ==> r[k] == stamps[k] && cutoff <= r[k]
    ensures forall k :: k in stamps && cutoff <= stamps[k] ==> k in r
  {
    map k | k in stamps && cutoff <= stamps[k] :: stamps[k]
  }

  /** The cutoff of `cleanup_old_records`: `now - timedelta(days=retention_days)`. */
  function Cutoff(retentionDays: int, now: Instant): Instant {
    now - retentionDays * MicrosPerDay
  }

  /** A second cleanup with the same or an earlier cutoff removes nothing more. */
  lemma StampsSinceIdempotent(stamps: map<string, Instant>, first: Instant, second: Instant)
    requires second <= first
    ensures StampsSince(StampsSince(stamps, first), second) == StampsSince(stamps, first)
  {
  }

  /** Two cleanups remove what one cleanup at the later cutoff removes. */
  lemma StampsSinceCompose(stamps: map<string, Instant>, first: Instant, second: Instant)
    ensures StampsSince(StampsSince(stamps, first), second) == StampsSince(stamps, if first < second then second else first)
  {
  }

  /** Writing a stamp and then cleaning up is cleaning up and then writing it, as long as the
      new stamp is not itself older than the cutoff. */
  lemma StampsSinceAfterWrite(stamps: map<string, Instant>, k: string, t: Instant, cutoff: Instant)
    requires cutoff <= t
    ensures StampsSince(stamps[k := t], cutoff) == StampsSince(stamps, cutoff)[k := t]
  {
  }

  /** A stamp older than the cutoff is gone after a cleanup, whatever it was. */
  lemma OldStampRemoved(stamps: map<string, Instant>, k: string, t: Instant, cutoff: Instant)
    requires t < cutoff
    ensures k !in StampsSince(stamps[k := t], cutoff)
  {
  }

  // ---------------------------------------------------------------- the store

  class EventStore {
    /** `events`, by id */
    var events: map<nat, EventRecord>
    /** `alerts`, by id */
    var alerts: map<nat, AlertRecord>
    /** `dedupe_state`: dedupe or suppression key to the instant of the last sent alert */
    var dedupeState: map<string, Instant>
    /** `camera_heartbeat`: camera id to the instant it was last seen */
    var heartbeats: map<string, Instant>
    /** `health_alert_state`: camera id to the instant of its last offline alert */
    var healthAlerts: map<string, Instant>
    /** The next fresh row id. */
    var nextId: nat

    /** Every id in use was issued before. */
    ghost predicate Valid()
      reads this
    {
      && (forall id :: id in events ==> id < nextId)
      && (forall id :: id in alerts ==> id < nextId)
    }

    /** `EventStore.__init__` on a new database: every table empty. */
    constructor ()
      ensures Valid()
      ensures events == map[] && alerts == map[] && dedupeState == map[]
      ensures heartbeats == map[] && healthAlerts == map[]
    {
      events, alerts, dedupeState, heartbeats, healthAlerts := map[], map[], map[], map[], map[];
      nextId := 0;
    }

    /** `save_event`: inserts a row under an id never used before and returns that id. */
    method SaveEvent(event: CVEvent, decision: string, reason: Option<string>, receivedAt: Instant) returns (id: nat)
      requires Valid()
      modifies this
      ensures Valid()
      ensures id !in old(events) && id !in old(alerts) && id == old(nextId) && nextId == id + 1
      ensures events == old(events)[id := EventRecord(event, receivedAt, decision, reason)]
      ensures alerts == old(alerts) && dedupeState == old(dedupeState)
      ensures heartbeats == old(heartbeats) && healthAlerts == old(healthAlerts)
    {
      id := nextId;
      nextId := nextId + 1;
      events := events[id := EventRecord(event, receivedAt, decision, reason)];
    }

    /** `update_event_decision`: sets decision and reason of that row, and of no other; an unknown id
        changes nothing. */
    method UpdateEventDecision(id: nat, decision: string, reason: Option<string>)
      requires Valid()
      modifies this
      ensures Valid()
      ensures events == if id in old(events)
        then old(events)[id := old(events)[id].(decision := decision, reason := reason)]
        else old(events)
      ensures alerts == old(alerts) && dedupeState == old(dedupeState) && nextId == old(nextId)
      ensures heartbeats == old(heartbeats) && healthAlerts == old(healthAlerts)
    {
      if id in events {
        events := events[id := events[id].(decision := decision, reason := reason)];
      }
    }

    /** `save_alert`: inserts an alert row under a fresh id. */
    method SaveAlert(eventId: Option<nat>, channel: string, destination: Option<string>, status: string,
                     error: Option<string>, sentAt: Instant)
      requires Valid()
      modifies this
      ensures Valid()
      ensures old(nextId) !in old(alerts) && nextId == old(nextId) + 1
      ensures alerts == old(alerts)[old(nextId) := AlertRecord(eventId, channel, destination, sentAt, status, error)]
      ensures events == old(events) && dedupeState == old(dedupeState)
      ensures heartbeats == old(heartbeats) && healthAlerts == old(healthAlerts)
    {
      alerts := alerts[nextId := AlertRecord(eventId, channel, destination, sentAt, status, error)];
      nextId := nextId + 1;
    }

    /** `get_last_sent_at`: the stamp under that key, None for a key never written (or cleaned up). */
    function GetLastSentAt(key: string): (r: Option<Instant>)
      reads this
      ensures r.None? <==> key !in dedupeState
      ensures r.Some? ==> r.value == dedupeState[key]
    {
      Get(dedupeState, key)
    }

    /** `set_last_sent_at`: an upsert; reading the key back gives `when`, every other key reads as before. */
    method SetLastSentAt(key: string, when: Instant)
      requires Valid()
      modifies this
      ensures Valid()
      ensures dedupeState == old(dedupeState)[key := when]
      ensures GetLastSentAt(key) == Some(when)
      ensures forall k :: k != key ==> GetLastSentAt(k) == old(GetLastSentAt(k))
      ensures events == old(events) && alerts == old(alerts) && nextId == old(nextId)
      ensures heartbeats == old(heartbeats) && healthAlerts == old(healthAlerts)
    {
      dedupeState := dedupeState[key := when];
    }

    /** `upsert_camera_heartbeat` */
    method UpsertCameraHeartbeat(cameraId: string, seenAt: Instant)
      requires Valid()
      modifies this
      ensures Valid()
      ensures heartbeats == old(heartbeats)[cameraId := seenAt]
      ensures events == old(events) && alerts == old(alerts) && nextId == old(nextId)
      ensures dedupeState == old(dedupeState) && healthAlerts == old(healthAlerts)
    {
      heartbeats := heartbeats[cameraId := seenAt];
    }

    /** `get_stale_cameras`: exactly the cameras last seen strictly before `now - threshold`, each with
        its last-seen instant. The rows come back in no particular order, so the result is a set. */
    function GetStaleCameras(thresholdSeconds: int, now: Instant): (r: set<(string, Instant)>)
      reads this
      ensures forall c, t :: (c, t) in r <==> c in heartbeats && heartbeats[c] == t && t < now - thresholdSeconds * MicrosPerSecond
    {
      set c | c in heartbeats && heartbeats[c] < now - thresholdSeconds * MicrosPerSecond :: (c, heartbeats[c])
    }

    /** `get_last_health_alert_at` */
    function GetLastHealthAlertAt(cameraId: string): (r: Option<Instant>)
      reads this
      ensures r.None? <==> cameraId !in healthAlerts
      ensures r.Some? ==> r.value == healthAlerts[cameraId]
    {
      Get(healthAlerts, cameraId)
    }

    /** `set_last_health_alert_at`: an upsert with the same read-back behaviour as the dedupe state. */
    method SetLastHealthAlertAt(cameraId: string, when: Instant)
      requires Valid()
      modifies this
      ensures Valid()
      ensures healthAlerts == old(healthAlerts)[cameraId := when]
      ensures GetLastHealthAlertAt(cameraId) == Some(when)
      ensures forall c :: c != cameraId ==> GetLastHealthAlertAt(c) == old(GetLastHealthAlertAt(c))
      ensures events == old(events) && alerts == old(alerts) && nextId == old(nextId)
      ensures dedupeState == old(dedupeState) && heartbeats == old(heartbeats)
    {
      healthAlerts := healthAlerts[cameraId := when];
    }

    /** `cleanup_old_records`: drops alerts, events and dedupe stamps strictly older than the cutoff and
        keeps everything else as it was; heartbeats and health-alert stamps are not touched. */
    method CleanupOldRecords(retentionDays: int, now: Instant)
      requires Valid()
      modifies this
      ensures Valid()
      ensures alerts == AlertsSince(old(alerts), Cutoff(retentionDays, now))
      ensures events == EventsSince(old(events), Cutoff(retentionDays, now))
      ensures dedupeState == StampsSince(old(dedupeState), Cutoff(retentionDays, now))
      ensures nextId == old(nextId) && heartbeats == old(heartbeats) && healthAlerts == old(healthAlerts)
    {
      var cutoff := Cutoff(retentionDays, now);
      alerts := AlertsSince(alerts, cutoff);
      events := EventsSince(events, cutoff);
      dedupeState := StampsSince(dedupeState, cutoff);
    }
  }
}
