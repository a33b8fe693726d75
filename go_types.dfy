/**
 * The Go-side event types of eventlibgo/types.go: the EventType constants
 * (the same numbering as the C enum event_type_t), their names, the Go
 * Event record and the handler function types.
 */
module GoTypes {
  import opened Options

  const EventTypeData: int := 0
  const EventTypeConnect: int := 1
  const EventTypeDisconnect: int := 2
  const EventTypeError: int := 3

  /**
   * EventType.String: each of the four constants has its own name and every
   * other value is "UNKNOWN".
   */
  function TypeName(t: int): (name: string)
    ensures name == "DATA" <==> t == EventTypeData
    ensures name == "CONNECT" <==> t == EventTypeConnect
    ensures name == "DISCONNECT" <==> t == EventTypeDisconnect
    ensures name == "ERROR" <==> t == EventTypeError
    ensures name == "UNKNOWN" <==> !(EventTypeData <= t <= EventTypeError)
  {
    if t == EventTypeData then "DATA"
    else if t == EventTypeConnect then "CONNECT"
    else if t == EventTypeDisconnect then "DISCONNECT"
    else if t == EventTypeError then "ERROR"
    else "UNKNOWN"
  }

  /** String is injective on the four constants. */
  lemma TypeNameInjective(a: int, b: int)
    requires EventTypeData <= a <= EventTypeError && EventTypeData <= b <= EventTypeError
    requires TypeName(a) == TypeName(b)
    ensures a == b
  {
  }

  /** Event. A nil Data slice is None; a non-nil one, even empty, is Some. */
  datatype Event = Event(kind: int, source: string, data: Option<seq<bv8>>)

  /** How a call into user code ends: it returns a value, or it panics. */
  datatype Outcome<+T> = Returned(value: T) | Panicked(reason: string)

  type EventHandler = Event -> Outcome<()>
  type FilterHandler = Event -> Outcome<bool>
  type StateChangeHandler = (string, string) -> Outcome<()>
}
