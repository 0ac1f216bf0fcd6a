/** The names the integration shares between its files: the topic it fires
    after processing an event and the vocabulary of kiosk event kinds that have a dedicated counter. */
module KioskConst {

  /** Topic the integration fires after processing an event. */
  const EventKiosk: string := "kiosk_event_received"

  const KioskEventIdleStart: string := "idle_start"
  const KioskEventIdleEnd: string := "idle_end"
  const KioskEventFadeStart: string := "fade_to_black_start"
  const KioskEventFadeEnd: string := "fade_to_black_end"
  const KioskEventAdminOpen: string := "admin_open"
  const KioskEventAdminClose: string := "admin_close"
  const KioskEventError: string := "error"

  /** The seven kinds that have a counter, in the order the counter sensors are created. */
  const KioskCounterEvents: seq<string> := [
    KioskEventIdleStart,
    KioskEventIdleEnd,
    KioskEventFadeStart,
    KioskEventFadeEnd,
    KioskEventAdminOpen,
    KioskEventAdminClose,
    KioskEventError
  ]

  /** The counter vocabulary as a set. */
  const CounterEventSet: set<string> := set k | k in KioskCounterEvents

  predicate IsCounterEvent(kind: string)
  {
    kind in KioskCounterEvents
  }

  /** No kind appears twice in the vocabulary, so each counter is incremented by one kind only. */
  lemma CounterEventsDistinct()
    ensures forall i, j :: 0 <= i < j < |KioskCounterEvents| ==> KioskCounterEvents[i] != KioskCounterEvents[j]
  {
  }
}
