# Dashboard kiosk events — a Dafny model

This project models the event pipeline of the `ha_dashboard_kiosk` Home
Assistant integration. A dashboard-kiosk app reports lifecycle events
(idle start/end, fade to black start/end, admin panel open/close, error).
They arrive through a webhook or as a bus event. The integration does two things with each one:

- **Processing** (`__init__.py`): it normalises the payload into a fixed record.
  It then fires `kiosk_event_received` on the bus. It also builds a
  `logbook.log` service call and, when its conditions hold, a
  `persistent_notification.create` call; see "## Left out" on whether the
  host carries these out. A `fire_events` setting gates
  both ingress paths. Unloading an entry removes its runtime record from
  the per-domain registry.
- **Statistics** (`sensor.py`): a listener on `kiosk_event_received`
  updates one shared record in place. That record holds the last kind, the
  last device, the last time, a total, and a counter for each of the seven
  known kinds. Nine sensors read the record by reference: last event, total
  events, and one counter per kind. After each update, each sensor writes
  its state.

Modules:

- `Values` (values.dfy): optional values and Python truthiness.
  Absent and `""` are the falsy strings. Also `a or b` and `.get(k, default)`.
- `KioskConst` (kiosk_const.dfy): the `kiosk_event_received` topic and the seven counted kinds.
- `KioskIntegration` (kiosk_integration.dfy):
  - normalisation;
  - the effect list of one processed payload. The spec function is
    `Effects`; the imperative `ProcessPayload` builds the logbook text by
    appending and issues the effects in order;
  - the two ingress handlers;
  - the registry class and its unload method.
- `KioskSensor` (kiosk_sensor.dfy):
  - the statistics value `Stats` and its one-event transition `Apply`;
  - the three projections;
  - lemmas over event sequences;
  - the mutable record `KioskSensorData`;
  - the three sensor classes, which share the record;
  - the platform class, whose listener updates the record and then has
    every sensor write its state (a loop over the counter sensors).
- `KioskPipeline` (kiosk_pipeline.dfy): the two halves composed. The bus
  hands each `kiosk_event_received` to the sensor listener. End-to-end
  scenarios.

Framework calls are represented as values, not performed. A bus fire, a
`logbook.log` call, a `persistent_notification.create` call, a webhook
unregistration, a listener removal and a sensor state write are each a
datatype value, returned or appended in issue order. The clock is a
parameter: `now` for the timestamp default, `at` for the listener's
handling time.

Points where the code's behaviour is easy to misread:

- The last-event value is absent whenever the last kind is absent or
  empty, not only before the first event. The device suffix appears only
  for a non-empty device id.
- Only the webhook consults the second device-id key. The app-event path
  passes `device_id` through alone.
- The broadcast carries `entry_id` and `webhook_id`.
- A kind is counted when the record's `counts` map has it as a key. Setup
  seeds exactly the seven known kinds.
- One payload raises at most one notification, because the admin and
  error kinds differ.

## Model

| member | source | states |
|---|---|---|
| KioskConst.CounterEventsDistinct | custom_components/ha_dashboard_kiosk/const.py:38-46 | the seven counted kinds are pairwise distinct |
| KioskIntegration.Normalize | custom_components/ha_dashboard_kiosk/__init__.py:54-60 | never fails; event, idle_reason and error_type keep a truthy input and become "" otherwise; the timestamp keeps a truthy input and otherwise is the supplied current time; the device id is passed through unchanged, absent included |
| KioskIntegration.NormalizeRoundTrip | custom_components/ha_dashboard_kiosk/__init__.py:54-60 | normalising a canonical event that has a timestamp gives the same event back, whatever the clock says |
| KioskIntegration.NormalizeIdempotent | custom_components/ha_dashboard_kiosk/__init__.py:54-60 | normalising twice equals normalising once when the clock gives a non-empty time |
| KioskIntegration.LogLine | custom_components/ha_dashboard_kiosk/__init__.py:77-81 | the logbook text is the kind, then " (idle_reason)" exactly when idle_reason is non-empty, then " - error_type" exactly when error_type is non-empty, in that order (all four cases) |
| KioskIntegration.LogLineShape | custom_components/ha_dashboard_kiosk/__init__.py:77-81 | the kind is a prefix of the logbook text, and each suffix adds its length plus three exactly when present |
| KioskIntegration.ErrorMessage | custom_components/ha_dashboard_kiosk/__init__.py:114 | the error notification text is the fixed prefix followed by error_type, or by "unknown" when error_type is empty |
| KioskIntegration.ErrorMessageDistinguishes | custom_components/ha_dashboard_kiosk/__init__.py:114 | distinct non-empty error types give distinct texts; an empty type and the type "unknown" give the same text |
| KioskIntegration.Effects | custom_components/ha_dashboard_kiosk/__init__.py:63-117 | one processed payload yields 2 or 3 effects: the `kiosk_event_received` broadcast with every normalised field plus entry_id and webhook_id, then the logbook call with the log text, then only notifications |
| KioskIntegration.EffectsSelections | custom_components/ha_dashboard_kiosk/__init__.py:94-117 | exactly one `kiosk_event_received` is fired for every kind, unknown and empty included; the admin notification is raised iff kind is admin_open and notify_on_admin_open (default false) holds; the error notification is raised iff kind is error and notify_on_error (default true) holds; no notification is raised otherwise |
| KioskIntegration.ProcessPayload | custom_components/ha_dashboard_kiosk/__init__.py:52-117 | issuing the effects step by step, with the log text built by appends, yields exactly `Effects` of the payload |
| KioskIntegration.HandleWebhook | custom_components/ha_dashboard_kiosk/__init__.py:119-141 | unparsable JSON gives 400 "Invalid JSON" and no effects; any parsed body gives 200 "OK"; it is processed, with the device id falling back to the alias key, iff fire_events (default true) holds |
| KioskIntegration.HandleAppEvent | custom_components/ha_dashboard_kiosk/__init__.py:151-166 | nothing happens when fire_events is off; otherwise the event data, empty when missing, is processed |
| KioskIntegration.TeardownFor | custom_components/ha_dashboard_kiosk/__init__.py:182-187 | an unregistered entry needs no teardown; otherwise the webhook is unregistered iff its stored id is non-empty, and the listener is removed iff a handle was stored, webhook first |
| KioskIntegration.KioskRegistry.constructor | custom_components/ha_dashboard_kiosk/__init__.py:47 | the domain registry starts empty |
| KioskIntegration.KioskRegistry.SetupEntry | custom_components/ha_dashboard_kiosk/__init__.py:170-173 | setup stores the entry's webhook id and listener handle under its entry id and changes no other entry |
| KioskIntegration.KioskRegistry.UnloadEntry | custom_components/ha_dashboard_kiosk/__init__.py:180-193 | unloading issues the entry's teardown calls, returns what platform unloading reported, and removes only that entry; an absent entry leaves the registry unchanged |
| KioskSensor.SeededCounts | custom_components/ha_dashboard_kiosk/sensor.py:57 | the seeded counts have exactly the seven known kinds as keys, each at 0 |
| KioskSensor.Apply | custom_components/ha_dashboard_kiosk/sensor.py:120-131 | one bus event overwrites the last kind and device (an event without a device clears it); it stores the handling time, not the event's timestamp; the total rises by 1 for every kind; a counted kind's counter rises by 1; every other counter is unchanged and no key is added |
| KioskSensor.LastEventValue | custom_components/ha_dashboard_kiosk/sensor.py:165-171 | the value is absent iff the last kind is absent or empty; it is "kind (device)" when the device id is non-empty, and the kind alone otherwise |
| KioskSensor.LastEventAttrs | custom_components/ha_dashboard_kiosk/sensor.py:173-180 | the attributes carry the device id iff it is non-empty, and the last event time iff one has been recorded |
| KioskSensor.CounterValue | custom_components/ha_dashboard_kiosk/sensor.py:223-227 | a counter reads counts[name], or 0 when the counts map or the key is missing |
| KioskSensor.TotalCountsDeliveries | custom_components/ha_dashboard_kiosk/sensor.py:128 | after N bus events the total has risen by exactly N, whatever the kinds |
| KioskSensor.CountKeysStable | custom_components/ha_dashboard_kiosk/sensor.py:130-131 | seeded counts stay seeded and keep exactly the same key set through any sequence of events |
| KioskSensor.CountsTrackOccurrences | custom_components/ha_dashboard_kiosk/sensor.py:130-131 | a counted kind's counter rises by exactly the number of events of that kind |
| KioskSensor.CounterReadsOccurrences | custom_components/ha_dashboard_kiosk/sensor.py:223-227 | after setup, a counter sensor for a known kind reads the number of events of that kind; a sensor for any other name reads 0 |
| KioskSensor.ApplyAllMonotone | custom_components/ha_dashboard_kiosk/sensor.py:128-131 | neither the total nor any count ever decreases |
| KioskSensor.NoDeduplication | custom_components/ha_dashboard_kiosk/sensor.py:128-131 | handling the same event twice counts it twice |
| KioskSensor.SeededCountsWithinTotal | custom_components/ha_dashboard_kiosk/sensor.py:57 | right after setup, the counts hold exactly the seven kinds and their sum does not exceed the total |
| KioskSensor.ApplyKeepsCountsWithinTotal | custom_components/ha_dashboard_kiosk/sensor.py:128-131 | one bus event keeps the count keys at the seven kinds and the sum of counts at most the total |
| KioskSensor.CountsNeverExceedTotal | custom_components/ha_dashboard_kiosk/sensor.py:128-131 | from setup on, after any sequence of events, the sum of the counts never exceeds the total |
| KioskSensor.LastEventReflectsLatest | custom_components/ha_dashboard_kiosk/sensor.py:125-127 | after a non-empty run, the last-event value and attributes depend only on the latest event, and the attribute time is that event's handling time |
| KioskSensor.LastEventAfterOne | custom_components/ha_dashboard_kiosk/sensor.py:166-171 | after one event: an empty or missing kind gives no value even though it was counted; a non-empty device gives "kind (device)"; otherwise the kind alone |
| KioskSensor.RefreshedStates | custom_components/ha_dashboard_kiosk/sensor.py:133-136 | every update writes nine states from the same record: slot 0 the last-event value and attributes, slot 1 the total, slots 2-8 the counters of the seven kinds in vocabulary order |
| KioskSensor.RefreshedStatesConsistent | custom_components/ha_dashboard_kiosk/sensor.py:133-136 | after N events from setup, the written total is N, each kind's counter slot reads that kind's number of events (at most N), and the last-event slot shows only the latest event |
| KioskSensor.KioskSensorData.constructor | custom_components/ha_dashboard_kiosk/sensor.py:30-38 | a new record has no last event, no time, total 0 and no counts |
| KioskSensor.KioskSensorData.SeedCounts | custom_components/ha_dashboard_kiosk/sensor.py:56-57 | seeding sets the counts to the seven kinds at 0 and changes nothing else |
| KioskSensor.KioskSensorData.Record | custom_components/ha_dashboard_kiosk/sensor.py:122-131 | the in-place field updates leave the record equal to `Apply` of its old value |
| KioskSensor.KioskLastEventSensor.constructor | custom_components/ha_dashboard_kiosk/sensor.py:158-163 | the last-event sensor holds the shared record |
| KioskSensor.KioskTotalEventsSensor.constructor | custom_components/ha_dashboard_kiosk/sensor.py:190-195 | the total sensor holds the shared record |
| KioskSensor.KioskEventCounterSensor.constructor | custom_components/ha_dashboard_kiosk/sensor.py:205-221 | a counter sensor holds the shared record and its kind |
| KioskSensor.KioskSensorPlatform.constructor | custom_components/ha_dashboard_kiosk/sensor.py:56-112 | setup creates one seeded record that all nine sensors share, with the counter sensors in vocabulary order |
| KioskSensor.KioskSensorPlatform.HandleKioskEvent | custom_components/ha_dashboard_kiosk/sensor.py:119-136 | the listener leaves the record equal to `Apply` of its old value, and appends the nine refreshed states, all computed from the new record |
| KioskPipeline.ProcessedPayloadAppliesOnce | custom_components/ha_dashboard_kiosk/__init__.py:63-74 | one processed payload updates the statistics exactly once, with the normalised kind, the device id as given, and the handling time; the sensors write their nine states once, from the updated record |
| KioskPipeline.AdminOpenScenario | custom_components/ha_dashboard_kiosk/__init__.py:94-106 | with admin notifications on, an admin_open payload raises exactly the admin notification and leaves admin_open = 1, every other counter 0, total 1 and last event "admin_open" |
| KioskPipeline.ErrorScenario | custom_components/ha_dashboard_kiosk/__init__.py:108-117 | with error notifications on, error_type "network" gives a text ending in "network", and a missing error_type gives one ending in "unknown" |
| KioskPipeline.DeviceSuffixScenario | custom_components/ha_dashboard_kiosk/sensor.py:166-171 | a processed payload with device "dev1" shows as "kind (dev1)"; without a device id, it shows as the kind alone |
| KioskPipeline.DeliverToSensors | custom_components/ha_dashboard_kiosk/sensor.py:138 | the bus hands every `kiosk_event_received` among the effects, in order, to the sensor listener; the record ends as `Dispatch` of the effects, and the written states grow by exactly `DispatchWrites` (nine refreshed states per delivered event, none for other effects) |
| KioskPipeline.WebhookToSensors | custom_components/ha_dashboard_kiosk/__init__.py:119-141 | end to end: unparsable JSON (400) and fire_events off (200) leave the statistics and the written sensor states untouched; any other body updates the statistics exactly once and appends the nine states of the updated record |

## Left out

- `LogbookLog` and `PersistentNotification` stand for the
  `hass.services.async_call(...)` expressions at `__init__.py:83-91`,
  `98-106` and `109-117`. The source makes these calls inside a synchronous
  callback and neither awaits nor schedules what they return. The model
  records each call and its order. It says nothing about whether the host
  performs the logbook write or the notification.
- Framework plumbing is not performed. This covers firing on the bus,
  listening, registering and unregistering the webhook, calling services,
  forwarding and unloading platforms, and writing entity state. Each call
  is an abstract effect value. The webhook registration itself
  (`__init__.py:143-149`) is not modelled.
- The sensor listener's subscription is never removed. So the model
  captures nothing about unloading stopping updates to the record.
- Parsing a request body is an input: `None` stands for unparsable JSON.
  A parsed body is assumed to be a mapping.
- JSON values are modelled as optional strings. `str()` of numbers, lists
  and other non-string values is not modelled. Python truthiness is
  modelled only for strings (absent or "") and booleans.
- The second device-id key of the webhook is an opaque field. Its name
  comes from a module that is not part of this model. The same holds for
  the name of the device-id attribute of the last-event sensor.
- Clock reads and ISO formatting are parameters: an opaque `IsoTime` string.
- Integer widths: Python integers are unbounded, and so are the model's
  `nat` counters.
- The `if runtime:` test of unload is not modelled as such. A present but
  empty runtime record issues no teardown calls either way.
- The config flow, the entity names, icons, unique ids and device info,
  and the no-op YAML setup functions are not part of this model.
- The sensors' `NativeValue`/`ExtraStateAttributes` functions delegate to
  `LastEventValue`, `LastEventAttrs`, `CounterValue` and the `totalEvents`
  field. Their properties are stated on those functions, not on the sensor
  classes.
