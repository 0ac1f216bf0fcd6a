/** The event-processing half of the integration: turning a loosely typed
    payload into a canonical kiosk event, the ordered effects that event
    causes (bus broadcast, logbook line, persistent notifications), the two
    ingress handlers gated by the `fire_events` setting, and the per-domain
    registry of runtime records that unloading an entry prunes.

    Framework calls are not performed: each becomes an `Effect` value, and a
    handler returns the effects it would issue, in the order it issues them. */
module KioskIntegration {
  import opened Values
  import opened KioskConst

  // ---------------------------------------------------------------------
  // Configuration

  /** The stored settings of a config entry. Settings the entry lacks are `None`. */
  datatype EntryData = EntryData(
    webhookId: string,
    fireEvents: Option<bool>,
    notifyOnError: Option<bool>,
    notifyAdminOpen: Option<bool>)

  datatype ConfigEntry = ConfigEntry(entryId: string, data: EntryData)

  /** `fire_events`, true when missing. */
  predicate FireEventsEnabled(entry: ConfigEntry)
  {
    BoolOr(entry.data.fireEvents, true)
  }

  /** `notify_on_error`, true when missing. */
  predicate NotifyOnErrorEnabled(entry: ConfigEntry)
  {
    BoolOr(entry.data.notifyOnError, true)
  }

  /** `notify_on_admin_open`, false when missing. */
  predicate NotifyAdminOpenEnabled(entry: ConfigEntry)
  {
    BoolOr(entry.data.notifyAdminOpen, false)
  }

  // ---------------------------------------------------------------------
  // Payloads and the canonical event

  /** The keys an inbound mapping (a webhook JSON body or the data of an app
      event) may carry. `deviceIdAlias` is the second device-id key that the
      webhook also consults. */
  datatype InboundPayload = InboundPayload(
    event: Option<string>,
    timestamp: Option<string>,
    idleReason: Option<string>,
    errorType: Option<string>,
    deviceId: Option<string>,
    deviceIdAlias: Option<string>)

  /** The five-key mapping both ingress handlers pass to the processor. */
  datatype RawEvent = RawEvent(
    event: Option<string>,
    timestamp: Option<string>,
    idleReason: Option<string>,
    errorType: Option<string>,
    deviceId: Option<string>)

  /** The canonical event: every field defaulted except the device id. */
  datatype KioskEvent = KioskEvent(
    kind: string,
    timestamp: string,
    idleReason: string,
    errorType: string,
    deviceId: Option<string>)

  /** Normalisation never fails: a falsy field becomes "" (the timestamp
      becomes the current time), a truthy one is kept, and the device id is
      passed through as it is, absent or empty included. */
  function Normalize(raw: RawEvent, now: IsoTime): (e: KioskEvent)
    ensures Truthy(raw.event) ==> e.kind == raw.event.value
    ensures !Truthy(raw.event) ==> e.kind == ""
    ensures Truthy(raw.timestamp) ==> e.timestamp == raw.timestamp.value
    ensures !Truthy(raw.timestamp) ==> e.timestamp == now
    ensures Truthy(raw.idleReason) ==> e.idleReason == raw.idleReason.value
    ensures !Truthy(raw.idleReason) ==> e.idleReason == ""
    ensures Truthy(raw.errorType) ==> e.errorType == raw.errorType.value
    ensures !Truthy(raw.errorType) ==> e.errorType == ""
    ensures e.deviceId == raw.deviceId
  {
    KioskEvent(
      StrOr(raw.event, ""),
      StrOr(raw.timestamp, now),
      StrOr(raw.idleReason, ""),
      StrOr(raw.errorType, ""),
      raw.deviceId)
  }

  /** A canonical event written back as a mapping with every key present. */
  function AsRaw(e: KioskEvent): RawEvent
  {
    RawEvent(Some(e.kind), Some(e.timestamp), Some(e.idleReason), Some(e.errorType), e.deviceId)
  }

  /** Normalising a canonical event that carries a timestamp gives it back
      unchanged, whatever the clock says. */
  lemma NormalizeRoundTrip(e: KioskEvent, now: IsoTime)
    requires e.timestamp != ""
    ensures Normalize(AsRaw(e), now) == e
  {
  }

  /** Normalisation is idempotent as long as the clock gives a non-empty time. */
  lemma NormalizeIdempotent(raw: RawEvent, now: IsoTime, later: IsoTime)
    requires now != ""
    ensures Normalize(AsRaw(Normalize(raw, now)), later) == Normalize(raw, now)
  {
    NormalizeRoundTrip(Normalize(raw, now), later);
  }

  // ---------------------------------------------------------------------
  // Effects

  /** The data of the `kiosk_event_received` broadcast. */
  datatype KioskBroadcast = KioskBroadcast(
    event: string,
    timestamp: string,
    idleReason: string,
    errorType: string,
    entryId: string,
    webhookId: string,
    deviceId: Option<string>)

  /** One call the handler makes into the host: a bus event, or a
      `logbook.log` or `persistent_notification.create` service call. The
      service calls are created but neither awaited nor scheduled, so a
      value here records that the call was made, not that the host carried
      it out. */
  datatype Effect =
    | BusFire(eventType: string, data: KioskBroadcast)
    | LogbookLog(name: string, message: string)
    | PersistentNotification(title: string, message: string)

  const LogbookName: string := "Kiosk Event"
  const AdminOpenTitle: string := "Kiosk Admin Opened"
  const AdminOpenMessage: string := "Someone opened the admin panel on the dashboard kiosk."
  const ErrorTitle: string := "Kiosk Error"
  const ErrorMessagePrefix: string := "Dashboard kiosk error. Type: "

  function BroadcastOf(entry: ConfigEntry, e: KioskEvent): KioskBroadcast
  {
    KioskBroadcast(e.kind, e.timestamp, e.idleReason, e.errorType, entry.entryId, entry.data.webhookId, e.deviceId)
  }

  /** The logbook text: the kind, then " (idle_reason)" when there is an idle
      reason, then " - error_type" when there is an error type. */
  function LogLine(kind: string, idleReason: string, errorType: string): (line: string)
    ensures idleReason == "" && errorType == "" ==> line == kind
    ensures idleReason != "" && errorType == "" ==> line == kind + " (" + idleReason + ")"
    ensures idleReason == "" && errorType != "" ==> line == kind + " - " + errorType
    ensures idleReason != "" && errorType != "" ==> line == kind + " (" + idleReason + ")" + " - " + errorType
  {
    kind
    + (if idleReason != "" then " (" + idleReason + ")" else "")
    + (if errorType != "" then " - " + errorType else "")
  }

  /** The kind always leads the logbook text, and each suffix adds its own
      length plus three characters of punctuation exactly when it is present. */
  lemma LogLineShape(kind: string, idleReason: string, errorType: string)
    ensures kind <= LogLine(kind, idleReason, errorType)
    ensures |LogLine(kind, idleReason, errorType)|
         == |kind| + (if idleReason != "" then |idleReason| + 3 else 0)
                   + (if errorType != "" then |errorType| + 3 else 0)
  {
    var line := LogLine(kind, idleReason, errorType);
    assert line[..|kind|] == kind;
  }

  /** The error notification text; an empty error type reads "unknown". */
  function ErrorMessage(errorType: string): (m: string)
    ensures ErrorMessagePrefix <= m
    ensures errorType != "" ==> m[|ErrorMessagePrefix|..] == errorType
    ensures errorType == "" ==> m[|ErrorMessagePrefix|..] == "unknown"
  {
    ErrorMessagePrefix + (if errorType != "" then errorType else "unknown")
  }

  /** The text names the error type, so distinct non-empty error types give
      distinct notifications; an empty type and the literal type "unknown"
      cannot be told apart. */
  lemma ErrorMessageDistinguishes(a: string, b: string)
    ensures a != "" && b != "" && a != b ==> ErrorMessage(a) != ErrorMessage(b)
    ensures ErrorMessage("") == ErrorMessage("unknown")
  {
    if a != "" && b != "" && ErrorMessage(a) == ErrorMessage(b) {
      assert a == ErrorMessage(a)[|ErrorMessagePrefix|..] == ErrorMessage(b)[|ErrorMessagePrefix|..] == b;
    }
  }

  const AdminOpenNotification: Effect := PersistentNotification(AdminOpenTitle, AdminOpenMessage)

  function ErrorNotification(errorType: string): Effect
  {
    PersistentNotification(ErrorTitle, ErrorMessage(errorType))
  }

  predicate AdminNotificationDue(entry: ConfigEntry, e: KioskEvent)
  {
    e.kind == KioskEventAdminOpen && NotifyAdminOpenEnabled(entry)
  }

  predicate ErrorNotificationDue(entry: ConfigEntry, e: KioskEvent)
  {
    e.kind == KioskEventError && NotifyOnErrorEnabled(entry)
  }

  /** The bus events of topic `kiosk_event_received` among some effects, in order. */
  function KioskFires(effects: seq<Effect>): (fired: seq<KioskBroadcast>)
    ensures |fired| <= |effects|
  {
    if effects == [] then []
    else
      var last := effects[|effects| - 1];
      KioskFires(effects[..|effects| - 1])
      + (if last.BusFire? && last.eventType == EventKiosk then [last.data] else [])
  }

  /** The persistent notifications among some effects, in order. */
  function Notifications(effects: seq<Effect>): seq<Effect>
  {
    if effects == [] then []
    else
      var last := effects[|effects| - 1];
      Notifications(effects[..|effects| - 1])
      + (if last.PersistentNotification? then [last] else [])
  }

  /** Selecting broadcasts or notifications distributes over concatenation. */
  lemma {:induction false} SelectAppend(a: seq<Effect>, b: seq<Effect>)
    ensures KioskFires(a + b) == KioskFires(a) + KioskFires(b)
    ensures Notifications(a + b) == Notifications(a) + Notifications(b)
    decreases |b|
  {
    if b == [] {
      assert a + b == a;
    } else {
      var ab := a + b;
      assert ab[..|ab| - 1] == a + b[..|b| - 1];
      SelectAppend(a, b[..|b| - 1]);
    }
  }

  lemma SelectOne(s: seq<Effect>)
    requires |s| <= 1
    ensures |s| == 1 && s[0].PersistentNotification? ==> KioskFires(s) == [] && Notifications(s) == s
    ensures s == [] ==> KioskFires(s) == [] && Notifications(s) == []
  {
    if |s| == 1 {
      assert s[..0] == [];
    }
  }

  lemma HeadEffects(head: seq<Effect>)
    requires |head| == 2 && head[0].BusFire? && head[0].eventType == EventKiosk && head[1].LogbookLog?
    ensures KioskFires(head) == [head[0].data]
    ensures Notifications(head) == []
  {
    assert head[..1] == [head[0]];
    assert [head[0]][..0] == [];
    assert KioskFires([head[0]]) == [head[0].data];
    assert Notifications([head[0]]) == [];
  }

  /** The effects one processed payload causes, in issue order: the broadcast
      carrying every normalised field plus the entry and webhook ids, then
      the logbook line, then the admin or the error notification when due. */
  function Effects(entry: ConfigEntry, raw: RawEvent, now: IsoTime): (effects: seq<Effect>)
    ensures var e := Normalize(raw, now);
      && 2 <= |effects| <= 3
      && effects[0] == BusFire(EventKiosk, BroadcastOf(entry, e))
      && effects[1] == LogbookLog(LogbookName, LogLine(e.kind, e.idleReason, e.errorType))
      && (forall i :: 2 <= i < |effects| ==> effects[i].PersistentNotification?)
  {
    var e := Normalize(raw, now);
    [BusFire(EventKiosk, BroadcastOf(entry, e)), LogbookLog(LogbookName, LogLine(e.kind, e.idleReason, e.errorType))]
    + (if AdminNotificationDue(entry, e) then [AdminOpenNotification] else [])
    + (if ErrorNotificationDue(entry, e) then [ErrorNotification(e.errorType)] else [])
  }

  /** Every processed payload, whatever its kind, fires exactly one
      `kiosk_event_received`, first; the admin notification is raised exactly
      when the kind is admin_open and admin notifications are on, the error
      notification exactly when the kind is error and error notifications
      are on, and never both, since the kinds differ. */
  lemma EffectsSelections(entry: ConfigEntry, raw: RawEvent, now: IsoTime)
    ensures var effects := Effects(entry, raw, now); var e := Normalize(raw, now);
      && (forall i :: 1 <= i < |effects| ==> !effects[i].BusFire?)
      && KioskFires(effects) == [BroadcastOf(entry, e)]
      && (Notifications(effects) == [AdminOpenNotification] <==> AdminNotificationDue(entry, e))
      && (Notifications(effects) == [ErrorNotification(e.errorType)] <==> ErrorNotificationDue(entry, e))
      && (Notifications(effects) == [] <==> !AdminNotificationDue(entry, e) && !ErrorNotificationDue(entry, e))
  {
    var e := Normalize(raw, now);
    var head := [BusFire(EventKiosk, BroadcastOf(entry, e)), LogbookLog(LogbookName, LogLine(e.kind, e.idleReason, e.errorType))];
    var admin := if AdminNotificationDue(entry, e) then [AdminOpenNotification] else [];
    var error := if ErrorNotificationDue(entry, e) then [ErrorNotification(e.errorType)] else [];
    assert Effects(entry, raw, now) == head + admin + error;
    HeadEffects(head);
    SelectAppend(head, admin);
    SelectAppend(head + admin, error);
    SelectOne(admin);
    SelectOne(error);
  }

  /** `_process_payload`: normalise, then issue the broadcast, build the
      logbook text by appending the suffixes, issue the logbook call, and
      issue each notification whose condition holds. */
  method ProcessPayload(entry: ConfigEntry, payload: RawEvent, now: IsoTime) returns (effects: seq<Effect>)
    ensures effects == Effects(entry, payload, now)
  {
    var e := Normalize(payload, now);
    effects := [BusFire(EventKiosk, BroadcastOf(entry, e))];

    var message := e.kind;
    if e.idleReason != "" {
      message := message + " (" + e.idleReason + ")";
    }
    if e.errorType != "" {
      message := message + " - " + e.errorType;
    }
    effects := effects + [LogbookLog(LogbookName, message)];

    if e.kind == KioskEventAdminOpen && BoolOr(entry.data.notifyAdminOpen, false) {
      effects := effects + [PersistentNotification(AdminOpenTitle, AdminOpenMessage)];
    }
    if e.kind == KioskEventError && BoolOr(entry.data.notifyOnError, true) {
      effects := effects + [PersistentNotification(ErrorTitle, ErrorMessage(e.errorType))];
    }
  }

  // ---------------------------------------------------------------------
  // Ingress

  datatype Response = Response(status: int, text: string)

  /** The mapping the webhook hands on: the device id falls back to the alias
      key when the primary key is falsy. */
  function WebhookArgs(body: InboundPayload): RawEvent
  {
    RawEvent(body.event, body.timestamp, body.idleReason, body.errorType, Or(body.deviceId, body.deviceIdAlias))
  }

  /** The mapping the app-event handler hands on; missing event data reads as empty. */
  function AppArgs(data: Option<InboundPayload>): RawEvent
  {
    if data.None? then RawEvent(None, None, None, None, None)
    else RawEvent(data.value.event, data.value.timestamp, data.value.idleReason, data.value.errorType, data.value.deviceId)
  }

  /** `handle_webhook`: `body` is `None` when the request body is not JSON.
      Unparsable bodies get 400 and cause nothing; every parsed body gets
      200 "OK", and is processed only when `fire_events` holds. */
  method HandleWebhook(entry: ConfigEntry, body: Option<InboundPayload>, now: IsoTime)
    returns (response: Response, effects: seq<Effect>)
    ensures body.None? ==> response == Response(400, "Invalid JSON") && effects == []
    ensures body.Some? ==> response == Response(200, "OK")
    ensures body.Some? && FireEventsEnabled(entry) ==> effects == Effects(entry, WebhookArgs(body.value), now)
    ensures !FireEventsEnabled(entry) ==> effects == []
  {
    if body.None? {
      return Response(400, "Invalid JSON"), [];
    }
    var payload := body.value;
    var deviceId := Or(payload.deviceId, payload.deviceIdAlias);
    effects := [];
    if BoolOr(entry.data.fireEvents, true) {
      effects := ProcessPayload(entry, RawEvent(payload.event, payload.timestamp, payload.idleReason, payload.errorType, deviceId), now);
    }
    response := Response(200, "OK");
  }

  /** `_handle_app_event`: nothing happens when `fire_events` is off;
      otherwise the event's data (empty when missing) is processed. */
  method HandleAppEvent(entry: ConfigEntry, data: Option<InboundPayload>, now: IsoTime) returns (effects: seq<Effect>)
    ensures FireEventsEnabled(entry) ==> effects == Effects(entry, AppArgs(data), now)
    ensures !FireEventsEnabled(entry) ==> effects == []
  {
    if !BoolOr(entry.data.fireEvents, true) {
      return [];
    }
    var d := if data.Some? then data.value else InboundPayload(None, None, None, None, None, None);
    effects := ProcessPayload(entry, RawEvent(d.event, d.timestamp, d.idleReason, d.errorType, d.deviceId), now);
  }

  // ---------------------------------------------------------------------
  // The per-domain registry

  /** What setup stores per entry; either key may be missing. The listener
      handle is an opaque number standing for the unsubscribe callback. */
  datatype KioskRuntimeData = KioskRuntimeData(webhookId: Option<string>, removeAppListener: Option<nat>)

  /** Framework calls made while unloading an entry. */
  datatype Teardown = UnregisterWebhook(webhookId: string) | RemoveAppListener(handle: nat)

  /** The teardown calls for `entryId`: none when the entry is not registered;
      otherwise the webhook is unregistered when its id is non-empty and the
      app listener removed when a handle was stored, in that order. */
  function TeardownFor(registry: map<string, KioskRuntimeData>, entryId: string): (calls: seq<Teardown>)
    ensures entryId !in registry ==> calls == []
    ensures |calls| <= 2
    ensures forall w :: UnregisterWebhook(w) in calls <==>
      entryId in registry && registry[entryId].webhookId == Some(w) && w != ""
    ensures forall h: nat :: RemoveAppListener(h) in calls <==>
      entryId in registry && registry[entryId].removeAppListener == Some(h)
    ensures |calls| == 2 ==> calls[0].UnregisterWebhook? && calls[1].RemoveAppListener?
  {
    if entryId !in registry then []
    else
      var runtime := registry[entryId];
      (if Truthy(runtime.webhookId) then [UnregisterWebhook(runtime.webhookId.value)] else [])
      + (if runtime.removeAppListener.Some? then [RemoveAppListener(runtime.removeAppListener.value)] else [])
  }

  /** `hass.data[DOMAIN]`: runtime records keyed by config entry id. */
  class KioskRegistry {
    var entries: map<string, KioskRuntimeData>

    constructor ()
      ensures entries == map[]
    {
      entries := map[];
    }

    /** The record `async_setup_entry` stores for an entry once its webhook
        and its app-event listener are registered. */
    method SetupEntry(entry: ConfigEntry, listener: nat)
      modifies this
      ensures entries == old(entries)[entry.entryId := KioskRuntimeData(Some(entry.data.webhookId), Some(listener))]
    {
      entries := entries[entry.entryId := KioskRuntimeData(Some(entry.data.webhookId), Some(listener))];
    }

    /** `async_unload_entry`: issue the teardown calls for the entry's record,
        report what unloading the platforms reported, and drop the record.
        Other entries are untouched; an unknown entry changes nothing. */
    method UnloadEntry(entryId: string, platformsUnloaded: bool) returns (unloadOk: bool, teardown: seq<Teardown>)
      modifies this
      ensures teardown == TeardownFor(old(entries), entryId)
      ensures unloadOk == platformsUnloaded
      ensures entries.Keys == old(entries).Keys - {entryId}
      ensures forall id :: id in entries ==> entries[id] == old(entries)[id]
      ensures entryId !in old(entries) ==> entries == old(entries)
    {
      teardown := [];
      if entryId in entries {
        var runtime := entries[entryId];
        if Truthy(runtime.webhookId) {
          teardown := teardown + [UnregisterWebhook(runtime.webhookId.value)];
        }
        if runtime.removeAppListener.Some? {
          teardown := teardown + [RemoveAppListener(runtime.removeAppListener.value)];
        }
      }
      unloadOk := platformsUnloaded;
      entries := entries - {entryId};
    }
  }
}
