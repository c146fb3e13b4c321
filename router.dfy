/**
 * The write trigger on /doorbells/{did}/events/{timestamp} (eventListener):
 * the tag dedup it starts, the switch on the event type, and the two state
 * handlers handleOnlineOffline and handleGong.
 */
module Router {
  import opened Wrappers
  import opened Values
  import opened Preferences
  import opened Store
  import opened Dispatch
  import opened Dedup

  /** The redirect URL built from the project id at start-up, taken as given. */
  const AppUrl: string := "https://project-id.firebaseapp.com/"

  /** The doorbell's derived state, /doorbells/{did}/state. */
  datatype DoorbellState = DoorbellState(online: Option<bool>, gong: Option<Json>)

  /**
   * One event's effect on the state: the new state, the notification handed
   * to sendNotification (if any), and the error the handler ends in (if any).
   */
  datatype Step = Step(state: DoorbellState, dispatch: Option<Notification>, error: Option<Error>)

  /** The switch of handleOnlineOffline: the new `online` value and the notification. */
  function OnlineOffline(kind: string): (r: Result<(bool, Notification), Error>)
    ensures r.Success? <==> kind == "ONLINE" || kind == "OFFLINE"
    ensures r.Success? ==> r.value.0 == (kind == "ONLINE") && r.value.1 == Notification(kind, Some(AppUrl))
    ensures r.Failure? ==> r.error == UnknownEventType
  {
    if kind == "OFFLINE" then Success((false, Notification("OFFLINE", Some(AppUrl))))
    else if kind == "ONLINE" then Success((true, Notification("ONLINE", Some(AppUrl))))
    else Failure(UnknownEventType)
  }

  /**
   * `event.payload.isGongOn` as handleGong writes it: reading it from a
   * missing payload throws, and the database refuses to store undefined.
   */
  function GongValue(e: Event): (r: Result<Json, Error>)
    ensures "payload" !in e <==> r == Failure(NoPayload)
    ensures r.Success? <==> Child(FieldOf(e, "payload"), "isGongOn").Some?
    ensures r.Success? ==> r.value == e["payload"].fields["isGongOn"]
  {
    if "payload" !in e then Failure(NoPayload)
    else match Child(FieldOf(e, "payload"), "isGongOn")
      case None => Failure(UndefinedGong)
      case Some(v) => Success(v)
  }

  predicate IsType(after: Option<Event>, kind: string) {
    after.Some? && TypeOf(after.value) == Some(kind)
  }

  /**
   * The event-type switch as a state machine over the doorbell's state.
   * A null event and every type other than ONLINE, OFFLINE and TOGGLE_GONG
   * change nothing and dispatch nothing; the only notification dispatched
   * has the event's own type.
   */
  function Transition(s: DoorbellState, after: Option<Event>): (st: Step)
    ensures after.None? ==> st == Step(s, None, None)
    ensures IsType(after, "ONLINE") ==>
      st == Step(s.(online := Some(true)), Some(Notification("ONLINE", Some(AppUrl))), None)
    ensures IsType(after, "OFFLINE") ==>
      st == Step(s.(online := Some(false)), Some(Notification("OFFLINE", Some(AppUrl))), None)
    ensures IsType(after, "TOGGLE_GONG") ==> st.dispatch.None? && st.state.online == s.online
    ensures IsType(after, "TOGGLE_GONG") && GongValue(after.value).Success? ==>
      st == Step(s.(gong := Some(GongValue(after.value).value)), None, None)
    ensures IsType(after, "TOGGLE_GONG") && GongValue(after.value).Failure? ==>
      st == Step(s, None, Some(GongValue(after.value).error))
    ensures !IsType(after, "ONLINE") && !IsType(after, "OFFLINE") && !IsType(after, "TOGGLE_GONG") ==>
      st == Step(s, None, None)
    ensures st.dispatch.Some? ==> after.Some? && TypeOf(after.value) == Some(st.dispatch.value.kind)
    ensures st.error != Some(UnknownEventType)
  {
    var kind := if after.Some? then TypeOf(after.value) else None;
    if kind == Some("ONLINE") || kind == Some("OFFLINE") then
      match OnlineOffline(kind.value)
      case Success((isOnline, note)) => Step(s.(online := Some(isOnline)), Some(note), None)
      case Failure(err) => Step(s, None, Some(err))
    else if kind == Some("TOGGLE_GONG") then
      match GongValue(after.value)
      case Success(v) => Step(s.(gong := Some(v)), None, None)
      case Failure(err) => Step(s, None, Some(err))
    else
      Step(s, None, None)
  }

  /** Two status reports in a row: the later one decides `online`, the gong is untouched. */
  lemma LastStatusWins(s: DoorbellState, first: Event, second: Event)
    requires TypeOf(first) in {Some("ONLINE"), Some("OFFLINE")}
    requires TypeOf(second) in {Some("ONLINE"), Some("OFFLINE")}
    ensures var s2 := Transition(Transition(s, Some(first)).state, Some(second)).state;
      s2.online == Some(TypeOf(second) == Some("ONLINE")) && s2.gong == s.gong
  {
    assert IsType(Some(first), TypeOf(first).value);
    assert IsType(Some(second), TypeOf(second).value);
  }

  /** handleGong: write `payload.isGongOn` to state/gong. */
  method HandleGong(d: Doorbell, event: Event) returns (r: Result<Option<DeliveryReport>, Error>)
    modifies d`gong
    ensures GongValue(event).Success? ==> d.gong == Some(GongValue(event).value) && r == Success(None)
    ensures GongValue(event).Failure? ==> d.gong == old(d.gong) && r == Failure(GongValue(event).error)
  {
    var v := GongValue(event);
    if v.Failure? {
      return Failure(v.error);
    }
    d.SetGong(v.value);
    r := Success(None);
  }

  /**
   * What a handler that awaits sendNotification without returning its value
   * resolves to: a rejection passes through, a report is dropped.
   */
  function Awaited(sent: Result<Option<DeliveryReport>, Error>): (r: Result<Option<DeliveryReport>, Error>)
    ensures sent.Failure? ==> r == sent
    ensures sent.Success? ==> r == Success(None)
  {
    if sent.Failure? then sent else Success(None)
  }

  /**
   * handleOnlineOffline: write state/online, then send the status
   * notification; the call the transport records already sees the new value.
   * The handler resolves to nothing unless sending rejects.
   */
  method HandleOnlineOffline(d: Doorbell, kind: string, registries: map<string, Registry>, transport: Transport)
    returns (r: Result<Option<DeliveryReport>, Error>)
    requires transport.db == d
    modifies d`online, transport`sent
    ensures OnlineOffline(kind).Failure? ==>
      r == Failure(UnknownEventType) && d.online == old(d.online) && transport.sent == old(transport.sent)
    ensures OnlineOffline(kind).Success? ==>
      var (isOnline, note) := OnlineOffline(kind).value;
      var out := Notify(d.users, Some(isOnline), registries, note, transport.reply);
      && d.online == Some(isOnline)
      && transport.sent == old(transport.sent) + out.calls
      && r == Awaited(out.result)
    ensures forall c :: c in transport.sent[|old(transport.sent)|..] ==> c.onlineAtSend == d.online
  {
    var status := OnlineOffline(kind);
    if status.Failure? {
      return Failure(status.error);
    }
    var (isOnline, note) := status.value;
    d.SetOnline(isOnline);
    var sent := SendNotification(d, note, registries, transport);
    r := Awaited(sent);
  }

  /** The tag of a new event makes the function throw before the switch when it is an object. */
  predicate RejectsTag(e: Event) {
    NeedsDedup(e) && TagOf(e).value.JObj?
  }

  /**
   * eventListener for one write. `queryKeys` are the keys the tag query
   * returns, in its order; dedup runs before the switch.
   */
  method EventListener(d: Doorbell, after: Option<Event>, queryKeys: seq<int>,
                       registries: map<string, Registry>, transport: Transport)
    returns (r: Result<Option<DeliveryReport>, Error>)
    requires transport.db == d
    requires after.Some? && NeedsDedup(after.value) ==> IsTagQuery(d.events, TagOf(after.value).value, queryKeys)
    modifies d, transport`sent
    ensures d.users == old(d.users)
    ensures after.None? || RejectsTag(after.value) ==>
      && d.online == old(d.online) && d.gong == old(d.gong) && d.events == old(d.events)
      && transport.sent == old(transport.sent)
      && r == (if after.None? then Success(None) else Failure(InvalidTag))
    ensures after.Some? && !RejectsTag(after.value) ==>
      && (NeedsDedup(after.value) ==> AllIn(old(d.events), queryKeys) && d.events == Deduped(old(d.events), queryKeys))
      && (!NeedsDedup(after.value) ==> d.events == old(d.events))
      && var st := Transition(DoorbellState(old(d.online), old(d.gong)), after);
         && DoorbellState(d.online, d.gong) == st.state
         && (st.dispatch.None? ==> transport.sent == old(transport.sent))
         && (st.dispatch.None? && st.error.None? ==> r == Success(None))
         && (st.error.Some? ==> r == Failure(st.error.value))
         && (st.dispatch.Some? ==>
               var out := Notify(d.users, st.state.online, registries, st.dispatch.value, transport.reply);
               transport.sent == old(transport.sent) + out.calls && r == Awaited(out.result))
  {
    if after.None? {
      return Success(None);
    }
    var event := after.value;
    if NeedsDedup(event) {
      var tag := TagOf(event).value;
      if tag.JObj? {
        return Failure(InvalidTag);
      }
      TagQuerySnapshot(d.events, tag, queryKeys);
      DedupTag(d, TagQuery(d.events, tag), queryKeys);
    }
    var kind := TypeOf(event);
    if kind == Some("RING") {
      r := Success(None);  // handled on the doorbell itself
    } else if kind == Some("ONLINE") || kind == Some("OFFLINE") {
      r := HandleOnlineOffline(d, kind.value, registries, transport);
    } else if kind == Some("TOGGLE_GONG") {
      r := HandleGong(d, event);
    } else if kind == Some("SENSOR_TRIGGERED") {
      r := Success(None);  // handled on the doorbell itself
    } else {
      r := Success(None);  // no case matches: the switch falls through
    }
  }
}
