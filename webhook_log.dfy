/**
 * The idempotency gate and log-entry state machine that both webhook dispatchers run
 * around their event handlers (src/app/api/webhooks/stripe/route.ts:29-76 and
 * src/app/api/webhooks/conekta/route.ts:56-101 are the same code for two processors).
 *
 * A log entry is keyed by (processor, event id). A delivery whose entry is already
 * `processed` is answered "skipped"; otherwise the entry is upserted as `processing`,
 * the handler runs, and the entry becomes `processed` (with a timestamp) or `failed`
 * (with the exception message).
 */
module WebhookLog {
  import opened Database
  import opened Store

  datatype WebhookResponse = Acknowledged | SkippedDuplicate | BadRequest(error: string) | ServerError(error: string)

  function HttpStatus(r: WebhookResponse): (code: int)
    ensures code == 200 <==> r.Acknowledged? || r.SkippedDuplicate?
    ensures code == 400 <==> r.BadRequest?
    ensures code == 500 <==> r.ServerError?
  {
    match r
    case Acknowledged => 200
    case SkippedDuplicate => 200
    case BadRequest(_) => 400
    case ServerError(_) => 500
  }

  /**
   * The two log writes whose failure changes what happens next. The store reports a
   * failed write as a value, which the dispatcher does not inspect: a lost upsert leaves
   * it without a record id (so it never marks the entry), a lost mark leaves the entry
   * `processing`.
   */
  datatype LogFaults = LogFaults(recordLost: bool, markLost: bool)

  const NoFaults: LogFaults := LogFaults(false, false)

  /** A handler's outcome: the tables after its writes and the message of the exception it threw. */
  datatype Handled = Handled(tables: Tables, thrown: Option<string>)

  datatype Delivery = Delivery(tables: Tables, response: WebhookResponse)

  predicate AlreadyProcessed(events: map<EventKey, WebhookEvent>, key: EventKey) {
    key in events && events[key].status == Processed
  }

  /**
   * The upsert on (processor, event_id): a new entry starts with no error and no
   * processed_at; an existing one keeps those two columns, which the upsert does not name.
   */
  function BeginProcessing(events: map<EventKey, WebhookEvent>, key: EventKey, eventType: string): (r: map<EventKey, WebhookEvent>)
    ensures r.Keys == events.Keys + {key}
    ensures r[key].status == Processing && r[key].eventType == eventType
    ensures key in events ==> r[key].errorMessage == events[key].errorMessage && r[key].processedAt == events[key].processedAt
    ensures key !in events ==> r[key].errorMessage.None? && r[key].processedAt.None?
    ensures forall k :: k in events && k != key ==> r[k] == events[k]
  {
    if key in events then events[key := events[key].(eventType := eventType, status := Processing)]
    else events[key := WebhookEvent(eventType, Processing, None, None)]
  }

  function MarkProcessed(events: map<EventKey, WebhookEvent>, key: EventKey, now: Timestamp): (r: map<EventKey, WebhookEvent>)
    ensures r.Keys == events.Keys
    ensures key in events ==> r[key] == events[key].(status := Processed, processedAt := Some(now))
    ensures forall k :: k in events && k != key ==> r[k] == events[k]
  {
    if key in events then events[key := events[key].(status := Processed, processedAt := Some(now))] else events
  }

  function MarkFailed(events: map<EventKey, WebhookEvent>, key: EventKey, message: string): (r: map<EventKey, WebhookEvent>)
    ensures r.Keys == events.Keys
    ensures key in events ==> r[key] == events[key].(status := EventStatus.Failed, errorMessage := Some(message))
    ensures forall k :: k in events && k != key ==> r[k] == events[k]
  {
    if key in events then events[key := events[key].(status := EventStatus.Failed, errorMessage := Some(message))] else events
  }

  /** The tables as the handler sees them: with the `processing` entry, unless the upsert was lost. */
  function Begun(t: Tables, key: EventKey, eventType: string, faults: LogFaults): Tables {
    if faults.recordLost then t else t.(events := BeginProcessing(t.events, key, eventType))
  }

  /** A handler leaves the webhook log to the dispatcher. */
  predicate KeepsLog(h: Handled, t: Tables) {
    h.tables.events == t.events
  }

  /**
   * The gate and log transitions around one authentic, parsed event. `handled` is what the
   * handler does when run on `Begun(t, ...)`.
   */
  function Dispatch(t: Tables, key: EventKey, eventType: string, handled: Handled, faults: LogFaults, now: Timestamp): (d: Delivery)
    ensures AlreadyProcessed(t.events, key) ==> d == Delivery(t, SkippedDuplicate)
    ensures !AlreadyProcessed(t.events, key) ==>
      (d.response == Acknowledged <==> handled.thrown.None?) &&
      (d.response.ServerError? <==> handled.thrown.Some?) &&
      (handled.thrown.Some? ==> d.response.error == handled.thrown.value)
    ensures !AlreadyProcessed(t.events, key) ==> d.tables == handled.tables.(events := d.tables.events)
  {
    if AlreadyProcessed(t.events, key) then Delivery(t, SkippedDuplicate)
    else
      var marks := !faults.recordLost && !faults.markLost;
      var h := handled.tables;
      if handled.thrown.None? then
        Delivery(if marks then h.(events := MarkProcessed(h.events, key, now)) else h, Acknowledged)
      else
        Delivery(if marks then h.(events := MarkFailed(h.events, key, handled.thrown.value)) else h,
                 ServerError(handled.thrown.value))
  }

  /**
   * With both log writes landing, a delivery that is not skipped leaves its entry
   * `processed` when the handler returned and `failed` when it threw; no other entry moves.
   */
  lemma DispatchOutcome(t: Tables, key: EventKey, eventType: string, handled: Handled, now: Timestamp)
    requires !AlreadyProcessed(t.events, key)
    requires KeepsLog(handled, Begun(t, key, eventType, NoFaults))
    ensures var d := Dispatch(t, key, eventType, handled, NoFaults, now);
      key in d.tables.events &&
      d.tables.events[key].eventType == eventType &&
      (d.tables.events[key].status == Processed <==> handled.thrown.None?) &&
      (d.tables.events[key].status == EventStatus.Failed <==> handled.thrown.Some?) &&
      (handled.thrown.None? ==> d.tables.events[key].processedAt == Some(now)) &&
      (handled.thrown.Some? ==> d.tables.events[key].errorMessage == handled.thrown) &&
      (forall k :: k in t.events && k != key ==> k in d.tables.events && d.tables.events[k] == t.events[k])
  {
    var began := BeginProcessing(t.events, key, eventType);
    assert handled.tables.events == began;
  }

  /**
   * Idempotency: once a delivery has been handled and marked, a second delivery of the
   * same (processor, event id) is skipped and changes nothing, whatever its handler would do.
   */
  lemma {:induction false} SecondDeliverySkipped(t: Tables, key: EventKey, eventType: string, handled: Handled,
                                                 now: Timestamp, eventType2: string, handled2: Handled,
                                                 faults2: LogFaults, now2: Timestamp)
    requires !AlreadyProcessed(t.events, key)
    requires KeepsLog(handled, Begun(t, key, eventType, NoFaults))
    requires handled.thrown.None?
    ensures var d := Dispatch(t, key, eventType, handled, NoFaults, now);
      d.response == Acknowledged &&
      Dispatch(d.tables, key, eventType2, handled2, faults2, now2) == Delivery(d.tables, SkippedDuplicate)
  {
    DispatchOutcome(t, key, eventType, handled, now);
  }

  /**
   * A lost mark leaves the entry `processing`, so the processor's retry is not skipped:
   * the handler runs again on the retry.
   */
  lemma LostMarkIsRetried(t: Tables, key: EventKey, eventType: string, handled: Handled, now: Timestamp)
    requires !AlreadyProcessed(t.events, key)
    requires KeepsLog(handled, Begun(t, key, eventType, LogFaults(false, true)))
    ensures var d := Dispatch(t, key, eventType, handled, LogFaults(false, true), now);
      key in d.tables.events && d.tables.events[key].status == Processing &&
      !AlreadyProcessed(d.tables.events, key)
  {
    assert handled.tables.events == BeginProcessing(t.events, key, eventType);
  }

  /**
   * The upsert does not clear error_message: an event that failed and then succeeds on a
   * retry ends `processed` and still carries the first attempt's error message.
   */
  lemma RetryKeepsStaleError(t: Tables, key: EventKey, eventType: string, h1: Handled, now1: Timestamp,
                             h2: Handled, now2: Timestamp, message: string)
    requires !AlreadyProcessed(t.events, key)
    requires KeepsLog(h1, Begun(t, key, eventType, NoFaults))
    requires h1.thrown == Some(message)
    requires var d1 := Dispatch(t, key, eventType, h1, NoFaults, now1);
      KeepsLog(h2, Begun(d1.tables, key, eventType, NoFaults)) && h2.thrown.None?
    ensures var d1 := Dispatch(t, key, eventType, h1, NoFaults, now1);
      var d2 := Dispatch(d1.tables, key, eventType, h2, NoFaults, now2);
      d1.response == ServerError(message) && d2.response == Acknowledged &&
      d2.tables.events[key].status == Processed && d2.tables.events[key].errorMessage == Some(message)
  {
    var d1 := Dispatch(t, key, eventType, h1, NoFaults, now1);
    DispatchOutcome(t, key, eventType, h1, now1);
    DispatchOutcome(d1.tables, key, eventType, h2, now2);
  }
}
