/** The connector object: the remote mixer's address and the buffer of
    events waiting to be sent. */
module MixerConnector {
  import opened Json
  import opened MixerEvents

  /** What the TCP exchange with the mixer yields: either the socket could
      not be used at all, or some reply arrived, which parses as JSON
      (`Some`) or does not (`None`). */
  datatype Delivery = Unreachable | Received(parsed: Option<Value>)

  /** How `sendRequest` ends: it returns the parsed reply, or it raises. */
  datatype Outcome = Returned(reply: Value) | Raised

  /** `{:events => events}` when `events` is an Array, `{:events => [events]}`
      otherwise. */
  function WrapEvents(events: Value): (request: Value)
    ensures request.Obj? && request.fields.Keys == {"events"}
    ensures request.fields["events"].Arr?
    ensures events.Arr? ==> request.fields["events"] == events
    ensures !events.Arr? ==> request.fields["events"].items == [events]
  {
    if events.Arr? then Obj(map["events" := events])
    else Obj(map["events" := Arr([events])])
  }

  /** `appendEvent` writes the delay into the event hash itself. */
  function Stamp(event: Event, delay: Value): (stamped: Event)
    ensures stamped.Keys == event.Keys + {"delay"}
    ensures stamped["delay"] == delay
    ensures forall k :: k in event && k != "delay" ==> stamped[k] == event[k]
  {
    event["delay" := delay]
  }

  class Connector {
    /** Remote mixer host address. */
    const host: string
    /** Remote mixer port. */
    const port: Value
    /** Stored at construction and never consulted. */
    const testing: Value
    /** Events appended and not yet sent. */
    var eventArray: seq<Event>

    /** `initialize(host, port, testing = nil)`: the buffer starts empty. */
    constructor (host: string, port: Value, testing: Value := Null)
      ensures this.host == host && this.port == port && this.testing == testing
      ensures eventArray == []
    {
      this.host := host;
      this.port := port;
      this.testing := testing;
      eventArray := [];
    }

    /** `appendEvent(event, delay = 0)`: the stamped event becomes the last
        buffered one, earlier entries are untouched, and `{:error => nil}`
        is returned. */
    method AppendEvent(event: Event, delay: Value := Num(0)) returns (status: Hash)
      modifies this
      ensures eventArray == old(eventArray) + [Stamp(event, delay)]
      ensures status == map["error" := Null]
    {
      var stamped := event["delay" := delay];
      eventArray := eventArray + [stamped];
      status := map["error" := Null];
    }

    /** `sendRequest(events)`: wraps `events` into a request, hands it to the
        socket exchange `exchange` (an opaque step), and clears the buffer
        once the exchange has completed. A socket that cannot be used
        raises before the buffer is cleared; a reply that is not JSON raises
        after it. */
    method SendRequest(events: Value, exchange: Value -> Delivery) returns (request: Value, outcome: Outcome)
      modifies this
      ensures request == WrapEvents(events)
      ensures exchange(request).Unreachable? ==> outcome == Raised && eventArray == old(eventArray)
      ensures exchange(request).Received? ==> eventArray == []
      ensures exchange(request) == Received(None) ==> outcome == Raised
      ensures forall v :: exchange(request) == Received(Some(v)) ==> outcome == Returned(v)
    {
      if events.Arr? {
        request := Obj(map["events" := events]);
      } else {
        var eventArr := [events];
        request := Obj(map["events" := Arr(eventArr)]);
      }
      var response := exchange(request);
      if response.Unreachable? {
        return request, Raised;
      }
      eventArray := [];
      match response.parsed {
        case None => outcome := Raised;
        case Some(v) => outcome := Returned(v);
      }
    }
  }
}
