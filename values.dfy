/**
 * Values as the realtime database hands them to the function. A stored value
 * is a JSON-like tree; the database never stores null, so an absent child
 * stands for both `null` and `undefined`. An event record is an object, seen
 * here as the map from its top-level field names to their values.
 */
module Values {
  import opened Wrappers

  datatype Json =
    | JStr(s: string)
    | JNum(n: int)
    | JBool(b: bool)
    | JObj(fields: map<string, Json>)

  /** A record stored under /doorbells/{did}/events/{timestamp}. */
  type Event = map<string, Json>

  /** The ways one invocation of the function can end in a rejected promise. */
  datatype Error =
    | NoSubscribers     // Object.keys of a missing /doorbells/{did}/users node
    | NoTokenRegistry   // reading `.settings` of a missing /users/{uid}/gcm-ids node
    | NoPayload         // `event.payload.isGongOn` on an event without a payload
    | UndefinedGong     // the database refuses to `set` an undefined value
    | InvalidTag        // the tag query refuses an object as `equalTo` value
    | UnknownEventType  // the `default` branch of handleOnlineOffline

  /** JavaScript truthiness of a stored value. */
  predicate Truthy(v: Json) {
    match v
    case JStr(s) => s != ""
    case JNum(n) => n != 0
    case JBool(b) => b
    case JObj(_) => true
  }

  /** `e.name` for a top-level field of an event. */
  function FieldOf(e: Event, name: string): Option<Json> {
    if name in e then Some(e[name]) else None
  }

  /** `o.name`: undefined when `o` is undefined, a primitive, or lacks `name`. */
  function Child(o: Option<Json>, name: string): Option<Json> {
    if o.Some? && o.value.JObj? && name in o.value.fields then Some(o.value.fields[name]) else None
  }

  /** `event.payload.tag`, the correlation tag (when the payload is an object). */
  function TagOf(e: Event): Option<Json> {
    Child(FieldOf(e, "payload"), "tag")
  }

  /** The event's type as the `switch` sees it: only a string can equal a case label. */
  function TypeOf(e: Event): Option<string> {
    if "type" in e && e["type"].JStr? then Some(e["type"].s) else None
  }

  /** `{...a, ...b}`: the top-level fields of both, those of `b` winning. */
  function Spread(a: Event, b: Event): Event {
    a + b
  }
}
