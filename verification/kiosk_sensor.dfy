/** The aggregate half of the integration: one mutable statistics record per
    config entry, updated by every `kiosk_event_received` bus event, and the
    sensors that read it by reference (last event, total events, and one
    counter per known kind).

    `Stats` is the value of the record at one moment; `Apply` says what one
    bus event does to it, and the lemmas below say what any sequence of bus
    events does. The class `KioskSensorData` is the record itself, and
    `KioskSensorPlatform` is what the sensor platform sets up for one entry:
    the record, the nine sensors sharing it, and the log of states the
    sensors have written to the host. */
module KioskSensor {
  import opened Values
  import opened KioskConst

  /** The two keys of a bus event's data that the statistics read. */
  datatype BusData = BusData(event: Option<string>, deviceId: Option<string>)

  /** One bus event together with the time at which the listener handled it. */
  datatype Delivery = Delivery(data: BusData, at: IsoTime)

  /** The statistics record at one moment. `counts` is `None` until the
      platform seeds it. */
  datatype Stats = Stats(
    lastEventType: Option<string>,
    lastEventDeviceId: Option<string>,
    lastEventTime: Option<IsoTime>,
    totalEvents: nat,
    counts: Option<map<string, nat>>)

  /** The record as the dataclass defaults leave it. */
  function InitialStats(): Stats
  {
    Stats(None, None, None, 0, None)
  }

  /** A zero for each of the seven counted kinds, and no other key. */
  function SeededCounts(): (counts: map<string, nat>)
    ensures counts.Keys == CounterEventSet
    ensures forall k :: k in counts ==> counts[k] == 0
  {
    map k | k in KioskCounterEvents :: 0
  }

  /** The record right after the platform is set up. */
  function SeededStats(): Stats
  {
    InitialStats().(counts := Some(SeededCounts()))
  }

  /** What one bus event does to the record: the last kind and device are
      overwritten (an event without a device id clears the device), the last
      time is the time of handling, the total goes up by one whatever the
      kind, and the counter of the event's kind goes up by one if the record
      has a counter for it. No other counter changes and no key is added. */
  function Apply(s: Stats, d: BusData, now: IsoTime): (r: Stats)
    ensures r.lastEventType == d.event && r.lastEventDeviceId == d.deviceId
    ensures r.lastEventTime == Some(now)
    ensures r.totalEvents == s.totalEvents + 1
    ensures r.counts.Some? <==> s.counts.Some?
    ensures s.counts.Some? ==> r.counts.value.Keys == s.counts.value.Keys
    ensures s.counts.Some? ==> forall k :: k in s.counts.value ==>
      r.counts.value[k] == s.counts.value[k] + (if d.event == Some(k) then 1 else 0)
    ensures !(s.counts.Some? && d.event.Some? && d.event.value in s.counts.value) ==> r.counts == s.counts
  {
    var counts :=
      if s.counts.Some? && d.event.Some? && d.event.value in s.counts.value
      then Some(s.counts.value[d.event.value := s.counts.value[d.event.value] + 1])
      else s.counts;
    Stats(d.event, d.deviceId, Some(now), s.totalEvents + 1, counts)
  }

  /** The record after handling the deliveries in order. */
  function ApplyAll(s: Stats, ds: seq<Delivery>): Stats
    decreases |ds|
  {
    if ds == [] then s
    else
      var last := ds[|ds| - 1];
      Apply(ApplyAll(s, ds[..|ds| - 1]), last.data, last.at)
  }

  /** How many of the deliveries carry the kind `kind`. */
  function Occurrences(ds: seq<Delivery>, kind: string): (n: nat)
    ensures n <= |ds|
    decreases |ds|
  {
    if ds == [] then 0
    else Occurrences(ds[..|ds| - 1], kind) + (if ds[|ds| - 1].data.event == Some(kind) then 1 else 0)
  }

  // ---------------------------------------------------------------------
  // Projections

  /** The attributes of the last-event sensor; `None` means the key is absent. */
  datatype LastEventAttributes = LastEventAttributes(deviceId: Option<string>, lastEventTime: Option<IsoTime>)

  /** The last-event sensor's value: nothing while the last kind is absent or
      empty (even though the total counts the event), "kind (device)" when the
      last device id is non-empty, and the kind alone otherwise. */
  function LastEventValue(s: Stats): (r: Option<string>)
    ensures r.None? <==> !Truthy(s.lastEventType)
    ensures r.Some? && Truthy(s.lastEventDeviceId) ==>
      r.value == s.lastEventType.value + " (" + s.lastEventDeviceId.value + ")"
    ensures r.Some? && !Truthy(s.lastEventDeviceId) ==> r.value == s.lastEventType.value
  {
    if !Truthy(s.lastEventType) then None
    else if Truthy(s.lastEventDeviceId) then Some(s.lastEventType.value + " (" + s.lastEventDeviceId.value + ")")
    else Some(s.lastEventType.value)
  }

  /** The last-event sensor's attributes: the device id only when it is
      non-empty, the last event time only once one has been recorded. */
  function LastEventAttrs(s: Stats): (r: LastEventAttributes)
    ensures r.deviceId.Some? <==> Truthy(s.lastEventDeviceId)
    ensures r.deviceId.Some? ==> r.deviceId == s.lastEventDeviceId
    ensures r.lastEventTime == s.lastEventTime
  {
    LastEventAttributes(
      if Truthy(s.lastEventDeviceId) then s.lastEventDeviceId else None,
      s.lastEventTime)
  }

  /** A counter sensor's value: the count for its kind, 0 when the record has
      no counts or no key for that kind. */
  function CounterValue(s: Stats, eventName: string): (n: nat)
    ensures s.counts.None? ==> n == 0
    ensures s.counts.Some? && eventName !in s.counts.value ==> n == 0
    ensures s.counts.Some? && eventName in s.counts.value ==> n == s.counts.value[eventName]
  {
    if s.counts.None? then 0
    else if eventName in s.counts.value then s.counts.value[eventName]
    else 0
  }

  // ---------------------------------------------------------------------
  // What sequences of events do to the record

  /** The total counts every delivery, whatever its kind. */
  lemma {:induction false} TotalCountsDeliveries(s: Stats, ds: seq<Delivery>)
    ensures ApplyAll(s, ds).totalEvents == s.totalEvents + |ds|
    decreases |ds|
  {
    if ds != [] {
      TotalCountsDeliveries(s, ds[..|ds| - 1]);
    }
  }

  /** Counts stay seeded and keep exactly their keys: no kind outside the
      record's keys ever gets one. */
  lemma {:induction false} CountKeysStable(s: Stats, ds: seq<Delivery>)
    requires s.counts.Some?
    ensures ApplyAll(s, ds).counts.Some?
    ensures ApplyAll(s, ds).counts.value.Keys == s.counts.value.Keys
    decreases |ds|
  {
    if ds != [] {
      CountKeysStable(s, ds[..|ds| - 1]);
    }
  }

  /** A counted kind's counter goes up by the number of deliveries of that kind. */
  lemma {:induction false} CountsTrackOccurrences(s: Stats, ds: seq<Delivery>, kind: string)
    requires s.counts.Some? && kind in s.counts.value
    ensures ApplyAll(s, ds).counts.Some? && kind in ApplyAll(s, ds).counts.value
    ensures ApplyAll(s, ds).counts.value[kind] == s.counts.value[kind] + Occurrences(ds, kind)
    decreases |ds|
  {
    if ds != [] {
      CountsTrackOccurrences(s, ds[..|ds| - 1], kind);
    }
  }

  /** From the seeded record, each counter sensor reads the number of
      deliveries of its kind, and a sensor for any other name reads 0. */
  lemma CounterReadsOccurrences(ds: seq<Delivery>, eventName: string)
    ensures IsCounterEvent(eventName) ==> CounterValue(ApplyAll(SeededStats(), ds), eventName) == Occurrences(ds, eventName)
    ensures !IsCounterEvent(eventName) ==> CounterValue(ApplyAll(SeededStats(), ds), eventName) == 0
  {
    CountKeysStable(SeededStats(), ds);
    if IsCounterEvent(eventName) {
      CountsTrackOccurrences(SeededStats(), ds, eventName);
    }
  }

  /** Later state dominates earlier state: the total and every count never go down. */
  ghost predicate Dominates(later: Stats, earlier: Stats)
  {
    && later.totalEvents >= earlier.totalEvents
    && (earlier.counts.Some? ==> later.counts.Some? && later.counts.value.Keys == earlier.counts.value.Keys)
    && (earlier.counts.Some? ==> forall k :: k in earlier.counts.value ==> later.counts.value[k] >= earlier.counts.value[k])
  }

  lemma {:induction false} ApplyAllMonotone(s: Stats, ds: seq<Delivery>)
    ensures Dominates(ApplyAll(s, ds), s)
    decreases |ds|
  {
    if ds != [] {
      ApplyAllMonotone(s, ds[..|ds| - 1]);
    }
  }

  /** Handling the same bus event twice counts it twice: there is no deduplication. */
  lemma NoDeduplication(s: Stats, d: BusData, t1: IsoTime, t2: IsoTime)
    requires s.counts.Some? && d.event.Some? && d.event.value in s.counts.value
    ensures Apply(Apply(s, d, t1), d, t2).totalEvents == s.totalEvents + 2
    ensures Apply(Apply(s, d, t1), d, t2).counts.value[d.event.value] == s.counts.value[d.event.value] + 2
  {
  }

  /** The sum of the counters of the given kinds (missing keys read 0). */
  function CountsSum(counts: map<string, nat>, kinds: seq<string>): nat
    decreases |kinds|
  {
    if kinds == [] then 0
    else CountsSum(counts, kinds[..|kinds| - 1]) + (if kinds[|kinds| - 1] in counts then counts[kinds[|kinds| - 1]] else 0)
  }

  /** Incrementing one key raises the sum over distinct kinds by one exactly
      when the key is among the kinds. */
  lemma {:induction false} CountsSumIncrement(counts: map<string, nat>, kinds: seq<string>, k: string)
    requires k in counts
    requires forall i, j :: 0 <= i < j < |kinds| ==> kinds[i] != kinds[j]
    ensures CountsSum(counts[k := counts[k] + 1], kinds) == CountsSum(counts, kinds) + (if k in kinds then 1 else 0)
    decreases |kinds|
  {
    if kinds != [] {
      var init := kinds[..|kinds| - 1];
      CountsSumIncrement(counts, init, k);
      if kinds[|kinds| - 1] == k {
        assert k !in init;
      }
      assert k in kinds <==> k in init || kinds[|kinds| - 1] == k;
    }
  }

  /** The invariant the platform keeps: the seven counters, and only they,
      exist, and together they never exceed the total. */
  ghost predicate CountsWithinTotal(s: Stats)
  {
    && s.counts.Some?
    && s.counts.value.Keys == CounterEventSet
    && CountsSum(s.counts.value, KioskCounterEvents) <= s.totalEvents
  }

  lemma SeededCountsWithinTotal()
    ensures CountsWithinTotal(SeededStats())
  {
    var c := SeededCounts();
    assert forall n :: 0 <= n <= |KioskCounterEvents| ==> CountsSum(c, KioskCounterEvents[..n]) == 0 by {
      forall n | 0 <= n <= |KioskCounterEvents|
        ensures CountsSum(c, KioskCounterEvents[..n]) == 0
      {
        SumOfZeros(c, KioskCounterEvents[..n]);
      }
    }
    assert KioskCounterEvents[..|KioskCounterEvents|] == KioskCounterEvents;
  }

  lemma {:induction false} SumOfZeros(c: map<string, nat>, kinds: seq<string>)
    requires forall k :: k in c ==> c[k] == 0
    ensures CountsSum(c, kinds) == 0
    decreases |kinds|
  {
    if kinds != [] {
      SumOfZeros(c, kinds[..|kinds| - 1]);
    }
  }

  lemma ApplyKeepsCountsWithinTotal(s: Stats, d: BusData, now: IsoTime)
    requires CountsWithinTotal(s)
    ensures CountsWithinTotal(Apply(s, d, now))
  {
    var c := s.counts.value;
    if d.event.Some? && d.event.value in c {
      KioskConst.CounterEventsDistinct();
      CountsSumIncrement(c, KioskCounterEvents, d.event.value);
    }
  }

  /** From setup on, however many bus events arrive, the counters never add
      up to more than the total. */
  lemma {:induction false} CountsNeverExceedTotal(ds: seq<Delivery>)
    ensures CountsWithinTotal(ApplyAll(SeededStats(), ds))
    decreases |ds|
  {
    if ds == [] {
      SeededCountsWithinTotal();
    } else {
      CountsNeverExceedTotal(ds[..|ds| - 1]);
      ApplyKeepsCountsWithinTotal(ApplyAll(SeededStats(), ds[..|ds| - 1]), ds[|ds| - 1].data, ds[|ds| - 1].at);
    }
  }

  /** The last-event sensor reflects only the latest delivery: its value and
      attributes after a non-empty run depend on nothing that came before. */
  lemma {:induction false} LastEventReflectsLatest(s: Stats, ds: seq<Delivery>)
    requires ds != []
    ensures var r := ApplyAll(s, ds); var last := ds[|ds| - 1];
      && LastEventValue(r) == LastEventValue(Apply(InitialStats(), last.data, last.at))
      && LastEventAttrs(r) == LastEventAttrs(Apply(InitialStats(), last.data, last.at))
      && LastEventAttrs(r).lastEventTime == Some(last.at)
  {
  }

  /** The three shapes of the last-event value after one bus event. */
  lemma LastEventAfterOne(s: Stats, kind: string, deviceId: Option<string>, now: IsoTime)
    ensures kind == "" ==> LastEventValue(Apply(s, BusData(Some(kind), deviceId), now)) == None
    ensures kind != "" && Truthy(deviceId) ==>
      LastEventValue(Apply(s, BusData(Some(kind), deviceId), now)) == Some(kind + " (" + deviceId.value + ")")
    ensures kind != "" && !Truthy(deviceId) ==>
      LastEventValue(Apply(s, BusData(Some(kind), deviceId), now)) == Some(kind)
    ensures LastEventValue(Apply(s, BusData(None, deviceId), now)) == None
  {
  }

  // ---------------------------------------------------------------------
  // The record and the sensors as objects

  /** The shared, mutable statistics record. */
  class KioskSensorData {
    var lastEventType: Option<string>
    var lastEventDeviceId: Option<string>
    var lastEventTime: Option<IsoTime>
    var totalEvents: nat
    var counts: Option<map<string, nat>>

    function Snapshot(): Stats
      reads this
    {
      Stats(lastEventType, lastEventDeviceId, lastEventTime, totalEvents, counts)
    }

    constructor ()
      ensures Snapshot() == InitialStats()
    {
      lastEventType := None;
      lastEventDeviceId := None;
      lastEventTime := None;
      totalEvents := 0;
      counts := None;
    }

    /** Platform setup gives the record a zero counter for each known kind. */
    method SeedCounts()
      modifies this
      ensures Snapshot() == old(Snapshot()).(counts := Some(SeededCounts()))
    {
      counts := Some(map k | k in KioskCounterEvents :: 0);
    }

    /** The record's part of handling a bus event, field by field. */
    method Record(d: BusData, now: IsoTime)
      modifies this
      ensures Snapshot() == Apply(old(Snapshot()), d, now)
    {
      lastEventType := d.event;
      lastEventDeviceId := d.deviceId;
      lastEventTime := Some(now);
      totalEvents := totalEvents + 1;
      if counts.Some? && d.event.Some? && d.event.value in counts.value {
        counts := Some(counts.value[d.event.value := counts.value[d.event.value] + 1]);
      }
    }
  }

  class KioskLastEventSensor {
    const data: KioskSensorData

    constructor (data: KioskSensorData)
      ensures this.data == data
    {
      this.data := data;
    }

    function NativeValue(): Option<string>
      reads data
    {
      LastEventValue(data.Snapshot())
    }

    function ExtraStateAttributes(): LastEventAttributes
      reads data
    {
      LastEventAttrs(data.Snapshot())
    }
  }

  class KioskTotalEventsSensor {
    const data: KioskSensorData

    constructor (data: KioskSensorData)
      ensures this.data == data
    {
      this.data := data;
    }

    function NativeValue(): nat
      reads data
    {
      data.totalEvents
    }
  }

  class KioskEventCounterSensor {
    const data: KioskSensorData
    const eventName: string

    constructor (data: KioskSensorData, eventName: string)
      ensures this.data == data && this.eventName == eventName
    {
      this.data := data;
      this.eventName := eventName;
    }

    function NativeValue(): nat
      reads data
    {
      CounterValue(data.Snapshot(), eventName)
    }
  }

  /** A state a sensor writes to the host. */
  datatype SensorState =
    | LastEventState(value: Option<string>, attributes: LastEventAttributes)
    | TotalEventsState(total: nat)
    | CounterState(eventName: string, count: nat)

  /** The states the nine sensors write after an update, in write order:
      the last-event sensor's value and attributes, the total, then one
      counter state per known kind in vocabulary order, each reading the
      same record. */
  function RefreshedStates(s: Stats): (states: seq<SensorState>)
    ensures |states| == 2 + |KioskCounterEvents|
    ensures states[0] == LastEventState(LastEventValue(s), LastEventAttrs(s))
    ensures states[1] == TotalEventsState(s.totalEvents)
    ensures forall i :: 0 <= i < |KioskCounterEvents| ==>
      states[2 + i] == CounterState(KioskCounterEvents[i], CounterValue(s, KioskCounterEvents[i]))
  {
    [LastEventState(LastEventValue(s), LastEventAttrs(s)), TotalEventsState(s.totalEvents)]
    + seq(|KioskCounterEvents|, i requires 0 <= i < |KioskCounterEvents| =>
        CounterState(KioskCounterEvents[i], CounterValue(s, KioskCounterEvents[i])))
  }

  /** After any run from setup, the written states agree with the run: the
      total slot reads the number of deliveries, the counter slot of each
      kind reads how many deliveries had that kind (never more than the
      total), and the last-event slot shows only the latest delivery. */
  lemma RefreshedStatesConsistent(ds: seq<Delivery>)
    ensures var s := ApplyAll(SeededStats(), ds); var states := RefreshedStates(s);
      && states[1] == TotalEventsState(|ds|)
      && (forall i :: 0 <= i < |KioskCounterEvents| ==>
            states[2 + i] == CounterState(KioskCounterEvents[i], Occurrences(ds, KioskCounterEvents[i]))
            && Occurrences(ds, KioskCounterEvents[i]) <= |ds|)
      && (ds != [] ==>
            var last := Apply(InitialStats(), ds[|ds| - 1].data, ds[|ds| - 1].at);
            states[0] == LastEventState(LastEventValue(last), LastEventAttrs(last)))
  {
    var s := ApplyAll(SeededStats(), ds);
    TotalCountsDeliveries(SeededStats(), ds);
    forall i | 0 <= i < |KioskCounterEvents|
      ensures CounterValue(s, KioskCounterEvents[i]) == Occurrences(ds, KioskCounterEvents[i])
    {
      CounterReadsOccurrences(ds, KioskCounterEvents[i]);
    }
    if ds != [] {
      LastEventReflectsLatest(SeededStats(), ds);
    }
  }

  /** What the sensor platform sets up for one entry: one record shared by
      the last-event sensor, the total sensor and the seven counter sensors,
      and the log of states those sensors have written. */
  class KioskSensorPlatform {
    const data: KioskSensorData
    const lastEventSensor: KioskLastEventSensor
    const totalEventsSensor: KioskTotalEventsSensor
    const counterSensors: seq<KioskEventCounterSensor>
    var written: seq<SensorState>

    /** Every sensor reads the one shared record; counter sensors follow the vocabulary. */
    ghost predicate Valid()
    {
      && lastEventSensor.data == data
      && totalEventsSensor.data == data
      && |counterSensors| == |KioskCounterEvents|
      && forall i :: 0 <= i < |counterSensors| ==>
           counterSensors[i].data == data && counterSensors[i].eventName == KioskCounterEvents[i]
    }

    constructor ()
      ensures Valid() && fresh(data)
      ensures data.Snapshot() == SeededStats()
      ensures written == []
    {
      var d := new KioskSensorData();
      d.SeedCounts();
      data := d;
      lastEventSensor := new KioskLastEventSensor(d);
      totalEventsSensor := new KioskTotalEventsSensor(d);
      var idleStart := new KioskEventCounterSensor(d, KioskEventIdleStart);
      var idleEnd := new KioskEventCounterSensor(d, KioskEventIdleEnd);
      var fadeStart := new KioskEventCounterSensor(d, KioskEventFadeStart);
      var fadeEnd := new KioskEventCounterSensor(d, KioskEventFadeEnd);
      var adminOpen := new KioskEventCounterSensor(d, KioskEventAdminOpen);
      var adminClose := new KioskEventCounterSensor(d, KioskEventAdminClose);
      var error := new KioskEventCounterSensor(d, KioskEventError);
      counterSensors := [idleStart, idleEnd, fadeStart, fadeEnd, adminOpen, adminClose, error];
      written := [];
    }

    /** The bus listener: update the shared record, then have the last-event
        sensor, the total sensor and each counter sensor write its state. */
    method HandleKioskEvent(d: BusData, now: IsoTime)
      requires Valid()
      modifies data, this`written
      ensures Valid()
      ensures data.Snapshot() == Apply(old(data.Snapshot()), d, now)
      ensures written == old(written) + RefreshedStates(data.Snapshot())
    {
      data.Record(d, now);
      ghost var s := data.Snapshot();
      ghost var states := RefreshedStates(s);
      written := written + [LastEventState(lastEventSensor.NativeValue(), lastEventSensor.ExtraStateAttributes())];
      written := written + [TotalEventsState(totalEventsSensor.NativeValue())];
      assert written == old(written) + states[..2];
      var i := 0;
      while i < |counterSensors|
        invariant 0 <= i <= |counterSensors|
        invariant written == old(written) + states[..2 + i]
        modifies this`written
      {
        var sensor := counterSensors[i];
        assert sensor.NativeValue() == CounterValue(s, KioskCounterEvents[i]);
        written := written + [CounterState(sensor.eventName, sensor.NativeValue())];
        assert states[..2 + i + 1] == states[..2 + i] + [states[2 + i]];
        i := i + 1;
      }
      assert states[..2 + i] == states;
    }
  }
}
