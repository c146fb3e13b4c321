/**
 * The part of the database that one invocation writes: the node
 * /doorbells/{did} of the doorbell whose event fired. Each method is one
 * targeted write of the database client (`set` or `remove` on one path).
 */
module Store {
  import opened Wrappers
  import opened Values

  class Doorbell {
    /** The keys of /doorbells/{did}/users in key order; None when the node is absent. */
    var users: Option<seq<string>>
    /** /doorbells/{did}/state/online */
    var online: Option<bool>
    /** /doorbells/{did}/state/gong */
    var gong: Option<Json>
    /** /doorbells/{did}/events, keyed by timestamp */
    var events: map<int, Event>

    constructor (users: Option<seq<string>>, events: map<int, Event>)
      ensures this.users == users && this.events == events
      ensures online.None? && gong.None?
    {
      this.users := users;
      this.events := events;
      online := None;
      gong := None;
    }

    /** `set` on state/online. */
    method SetOnline(isOnline: bool)
      modifies this`online
      ensures online == Some(isOnline)
    {
      online := Some(isOnline);
    }

    /** `set` on state/gong. */
    method SetGong(value: Json)
      modifies this`gong
      ensures gong == Some(value)
    {
      gong := Some(value);
    }

    /** `remove` on events/{ts}. */
    method RemoveEvent(ts: int)
      modifies this`events
      ensures events == old(events) - {ts}
    {
      events := events - {ts};
    }

    /** `set` on events/{ts}. */
    method SetEvent(ts: int, e: Event)
      modifies this`events
      ensures events == old(events)[ts := e]
    {
      events := events[ts := e];
    }
  }
}
