/** The two halves composed: the integration fires `kiosk_event_received`,
    the sensor platform's listener handles every such bus event. These
    members state what a processed payload does to the statistics and to
    the sensors, end to end. */
module KioskPipeline {
  import opened Values
  import opened KioskConst
  import I = KioskIntegration
  import S = KioskSensor

  /** The two keys of a broadcast the sensor listener reads. */
  function BusDataOf(b: I.KioskBroadcast): S.BusData
  {
    S.BusData(Some(b.event), b.deviceId)
  }

  /** The statistics after the listener has handled, at time `at`, every
      `kiosk_event_received` among the effects; other effects do not reach it. */
  function Dispatch(s: S.Stats, effects: seq<I.Effect>, at: IsoTime): S.Stats
    decreases |effects|
  {
    if effects == [] then s
    else
      var last := effects[|effects| - 1];
      var before := Dispatch(s, effects[..|effects| - 1], at);
      if last.BusFire? && last.eventType == EventKiosk then S.Apply(before, BusDataOf(last.data), at) else before
  }

  /** The sensor states written while the listener handles, at time `at`,
      every `kiosk_event_received` among the effects: after each such event,
      the nine refreshed states of the record as that event left it. */
  function DispatchWrites(s: S.Stats, effects: seq<I.Effect>, at: IsoTime): seq<S.SensorState>
    decreases |effects|
  {
    if effects == [] then []
    else
      var last := effects[|effects| - 1];
      DispatchWrites(s, effects[..|effects| - 1], at)
      + (if last.BusFire? && last.eventType == EventKiosk then S.RefreshedStates(Dispatch(s, effects, at)) else [])
  }

  /** Effects that hold no bus event leave the statistics alone. */
  lemma {:induction false} DispatchWithoutFires(s: S.Stats, effects: seq<I.Effect>, at: IsoTime)
    requires forall i :: 0 <= i < |effects| ==> !effects[i].BusFire?
    ensures Dispatch(s, effects, at) == s
    decreases |effects|
  {
    if effects != [] {
      DispatchWithoutFires(s, effects[..|effects| - 1], at);
    }
  }

  /** Effects whose only bus event comes first apply that one event. */
  lemma {:induction false} DispatchFirstFire(s: S.Stats, effects: seq<I.Effect>, at: IsoTime)
    requires |effects| >= 1 && effects[0].BusFire? && effects[0].eventType == EventKiosk
    requires forall i :: 1 <= i < |effects| ==> !effects[i].BusFire?
    ensures Dispatch(s, effects, at) == S.Apply(s, BusDataOf(effects[0].data), at)
    ensures DispatchWrites(s, effects, at) == S.RefreshedStates(S.Apply(s, BusDataOf(effects[0].data), at))
    decreases |effects|
  {
    if |effects| == 1 {
      assert effects[..0] == [];
    } else {
      DispatchFirstFire(s, effects[..|effects| - 1], at);
    }
  }

  /** One processed payload updates the statistics exactly once, with the
      normalised kind and the device id as passed in, at the time the
      listener handles it (not the event's own timestamp). */
  lemma ProcessedPayloadAppliesOnce(entry: I.ConfigEntry, raw: I.RawEvent, now: IsoTime, s: S.Stats, at: IsoTime)
    ensures var e := I.Normalize(raw, now); var after := S.Apply(s, S.BusData(Some(e.kind), raw.deviceId), at);
      && Dispatch(s, I.Effects(entry, raw, now), at) == after
      && DispatchWrites(s, I.Effects(entry, raw, now), at) == S.RefreshedStates(after)
  {
    I.EffectsSelections(entry, raw, now);
    DispatchFirstFire(s, I.Effects(entry, raw, now), at);
  }

  /** The admin-open scenario: with admin notifications on, a payload holding
      only `event: admin_open` raises exactly the admin notification, and the
      freshly set-up statistics then read admin_open = 1, every other counter
      0, total 1 and last event "admin_open". */
  lemma AdminOpenScenario(entry: I.ConfigEntry, now: IsoTime, at: IsoTime)
    requires I.NotifyAdminOpenEnabled(entry)
    ensures var effects := I.Effects(entry, I.RawEvent(Some("admin_open"), None, None, None, None), now);
      var s := Dispatch(S.SeededStats(), effects, at);
      && I.Notifications(effects) == [I.AdminOpenNotification]
      && S.CounterValue(s, KioskEventAdminOpen) == 1
      && (forall k :: k in KioskCounterEvents && k != KioskEventAdminOpen ==> S.CounterValue(s, k) == 0)
      && s.totalEvents == 1
      && S.LastEventValue(s) == Some("admin_open")
  {
    I.EffectsSelections(entry, I.RawEvent(Some("admin_open"), None, None, None, None), now);
    ProcessedPayloadAppliesOnce(entry, I.RawEvent(Some("admin_open"), None, None, None, None), now, S.SeededStats(), at);
  }

  /** The error scenario: with error notifications on (the default), the
      notification names the error type, or "unknown" when there is none. */
  lemma ErrorScenario(entry: I.ConfigEntry, now: IsoTime, errorType: Option<string>)
    requires I.NotifyOnErrorEnabled(entry)
    ensures var effects := I.Effects(entry, I.RawEvent(Some("error"), None, None, errorType, None), now);
      && (errorType == Some("network") ==>
            I.Notifications(effects) == [I.PersistentNotification("Kiosk Error", "Dashboard kiosk error. Type: network")])
      && (!Truthy(errorType) ==>
            I.Notifications(effects) == [I.PersistentNotification("Kiosk Error", "Dashboard kiosk error. Type: unknown")])
  {
    var raw := I.RawEvent(Some("error"), None, None, errorType, None);
    I.EffectsSelections(entry, raw, now);
    assert Truthy(raw.event);
    assert I.Normalize(raw, now).kind == KioskEventError;
    if errorType == Some("network") {
      assert I.ErrorMessage("network") == "Dashboard kiosk error. Type: network";
    }
    if !Truthy(errorType) {
      assert I.ErrorMessage("") == "Dashboard kiosk error. Type: unknown";
    }
  }

  /** A device id on the payload shows in the last-event sensor; none, or an
      empty one, leaves the kind alone. */
  lemma DeviceSuffixScenario(entry: I.ConfigEntry, kind: string, deviceId: Option<string>, now: IsoTime, s: S.Stats, at: IsoTime)
    requires kind != ""
    ensures var after := Dispatch(s, I.Effects(entry, I.RawEvent(Some(kind), None, None, None, deviceId), now), at);
      && (deviceId == Some("dev1") ==> S.LastEventValue(after) == Some(kind + " (dev1)"))
      && (!Truthy(deviceId) ==> S.LastEventValue(after) == Some(kind))
  {
    ProcessedPayloadAppliesOnce(entry, I.RawEvent(Some(kind), None, None, None, deviceId), now, s, at);
    if deviceId == Some("dev1") {
      assert Truthy(deviceId);
      assert kind + " (" + "dev1" + ")" == kind + " (dev1)";
    }
  }

  /** The bus handing each `kiosk_event_received` among the effects to the
      sensor platform's listener, in order. */
  method DeliverToSensors(platform: S.KioskSensorPlatform, effects: seq<I.Effect>, at: IsoTime)
    requires platform.Valid()
    modifies platform.data, platform`written
    ensures platform.Valid()
    ensures platform.data.Snapshot() == Dispatch(old(platform.data.Snapshot()), effects, at)
    ensures platform.written == old(platform.written) + DispatchWrites(old(platform.data.Snapshot()), effects, at)
  {
    var i := 0;
    while i < |effects|
      invariant 0 <= i <= |effects|
      invariant platform.Valid()
      invariant platform.data.Snapshot() == Dispatch(old(platform.data.Snapshot()), effects[..i], at)
      invariant platform.written == old(platform.written) + DispatchWrites(old(platform.data.Snapshot()), effects[..i], at)
    {
      var effect := effects[i];
      assert effects[..i + 1][..i] == effects[..i];
      if effect.BusFire? && effect.eventType == EventKiosk {
        platform.HandleKioskEvent(BusDataOf(effect.data), at);
      }
      i := i + 1;
    }
    assert effects[..i] == effects;
  }

  /** A webhook call end to end: unparsable JSON and a disabled install leave
      the statistics and the written sensor states untouched; any other body
      updates the statistics exactly once and has the nine sensors write
      their states once, from the updated record. */
  method WebhookToSensors(entry: I.ConfigEntry, platform: S.KioskSensorPlatform, body: Option<I.InboundPayload>, now: IsoTime, at: IsoTime)
    returns (response: I.Response)
    requires platform.Valid()
    modifies platform.data, platform`written
    ensures platform.Valid()
    ensures body.None? ==> response.status == 400
    ensures body.Some? ==> response.status == 200
    ensures (body.None? || !I.FireEventsEnabled(entry)) ==>
      platform.data.Snapshot() == old(platform.data.Snapshot()) && platform.written == old(platform.written)
    ensures body.Some? && I.FireEventsEnabled(entry) ==>
      var raw := I.WebhookArgs(body.value);
      && platform.data.Snapshot() == S.Apply(old(platform.data.Snapshot()), S.BusData(Some(I.Normalize(raw, now).kind), raw.deviceId), at)
      && platform.written == old(platform.written) + S.RefreshedStates(platform.data.Snapshot())
  {
    var effects;
    response, effects := I.HandleWebhook(entry, body, now);
    DeliverToSensors(platform, effects, at);
    if body.Some? && I.FireEventsEnabled(entry) {
      ProcessedPayloadAppliesOnce(entry, I.WebhookArgs(body.value), now, old(platform.data.Snapshot()), at);
    }
  }
}
