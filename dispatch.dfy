/**
 * Collecting the device tokens of a doorbell's subscribers (getDeviceTokens)
 * and handing them to the push transport (sendNotification).
 */
module Dispatch {
  import opened Wrappers
  import opened Values
  import opened Preferences
  import opened Store

  /** The `notification` part of a push payload; `kind` is its `type`. */
  datatype Notification = Notification(kind: string, clickAction: Option<string>)

  /** The transport's per-token outcome report, passed back unread. */
  datatype DeliveryReport = DeliveryReport(delivered: seq<bool>)

  /**
   * One call of the transport, with the doorbell's `state/online` as the
   * database held it when the call was made.
   */
  datatype Delivery = Delivery(tokens: seq<string>, notification: Notification, onlineAtSend: Option<bool>)

  /** What sendNotification does: the transport calls it makes and what it resolves to. */
  datatype Dispatched = Dispatched(calls: seq<Delivery>, result: Result<Option<DeliveryReport>, Error>)

  /** `lists.reduce((acc, x) => acc.concat(x), [])`: a left fold of concatenation. */
  function Flatten(lists: seq<seq<string>>): seq<string> {
    if lists == [] then [] else Flatten(lists[..|lists| - 1]) + lists[|lists| - 1]
  }

  /** The sum of the lengths of the lists. */
  function TotalLength(lists: seq<seq<string>>): nat {
    if lists == [] then 0 else |lists[0]| + TotalLength(lists[1..])
  }

  lemma {:induction false} FlattenAppend(a: seq<seq<string>>, b: seq<seq<string>>)
    ensures Flatten(a + b) == Flatten(a) + Flatten(b)
  {
    if b == [] {
      assert a + b == a;
    } else {
      assert (a + b)[..|a + b| - 1] == a + b[..|b| - 1];
      FlattenAppend(a, b[..|b| - 1]);
    }
  }

  /** The first user's tokens come first, followed by everyone else's. */
  lemma {:induction false} FlattenCons(x: seq<string>, lists: seq<seq<string>>)
    ensures Flatten([x] + lists) == x + Flatten(lists)
  {
    FlattenAppend([x], lists);
    assert [x][..0] == [];
  }

  /** The collected list is exactly as long as all per-user lists together. */
  lemma {:induction false} FlattenLength(lists: seq<seq<string>>)
    ensures |Flatten(lists)| == TotalLength(lists)
  {
    if lists != [] {
      assert lists == [lists[0]] + lists[1..];
      FlattenCons(lists[0], lists[1..]);
      FlattenLength(lists[1..]);
    }
  }

  lemma {:induction false} NoContributionsNoLength(lists: seq<seq<string>>)
    requires forall i :: 0 <= i < |lists| ==> lists[i] == []
    ensures TotalLength(lists) == 0
  {
    if lists != [] {
      NoContributionsNoLength(lists[1..]);
    }
  }

  /** A token is collected exactly when some user contributes it. */
  lemma {:induction false} FlattenMembership(lists: seq<seq<string>>, t: string)
    ensures t in Flatten(lists) <==> exists i :: 0 <= i < |lists| && t in lists[i]
  {
    if lists != [] {
      var init := lists[..|lists| - 1];
      FlattenMembership(init, t);
      if t in Flatten(lists) && t !in lists[|lists| - 1] {
        var i :| 0 <= i < |init| && t in init[i];
        assert t in lists[i];
      }
      if exists i :: 0 <= i < |lists| && t in lists[i] {
        var i :| 0 <= i < |lists| && t in lists[i];
        if i < |lists| - 1 {
          assert t in init[i];
        }
      }
    }
  }

  /** Concatenation, not union: a token contributed by two users is collected twice. */
  lemma FlattenKeepsDuplicates(lists: seq<seq<string>>, i: nat, j: nat, t: string)
    requires i < j < |lists|
    requires t in lists[i] && t in lists[j]
    ensures multiset(Flatten(lists))[t] >= 2
  {
    assert lists == lists[..j] + lists[j..];
    FlattenAppend(lists[..j], lists[j..]);
    FlattenMembership(lists[..j], t);
    assert t in lists[..j][i];
    FlattenMembership(lists[j..], t);
    assert t in lists[j..][0];
  }

  /** The per-user lists, in the order the users are listed. */
  function PerUser(uids: seq<string>, registries: map<string, Registry>, kind: string): (r: seq<seq<string>>)
    requires forall u :: u in uids ==> u in registries
    ensures |r| == |uids|
    ensures forall i :: 0 <= i < |uids| ==> r[i] == UserTokens(registries[uids[i]], kind)
  {
    seq(|uids|, i requires 0 <= i < |uids| => UserTokens(registries[uids[i]], kind))
  }

  /**
   * getDeviceTokens: the tokens of every subscriber for a notification of
   * type `kind`, or the TypeError that a missing node provokes.
   */
  function DeviceTokens(users: Option<seq<string>>, registries: map<string, Registry>, kind: string)
    : (r: Result<seq<string>, Error>)
    ensures users.None? ==> r == Failure(NoSubscribers)
    ensures users.Some? ==> (r.Success? <==> forall u :: u in users.value ==> u in registries)
    ensures users.Some? && r.Failure? ==> r.error == NoTokenRegistry
  {
    if users.None? then Failure(NoSubscribers)
    else if exists u :: u in users.value && u !in registries then Failure(NoTokenRegistry)
    else Success(Flatten(PerUser(users.value, registries, kind)))
  }

  /**
   * The collected list: no "settings" key, exactly the tokens some subscriber
   * contributes, as long as all contributions together.
   */
  lemma CollectedTokens(users: Option<seq<string>>, registries: map<string, Registry>, kind: string)
    requires DeviceTokens(users, registries, kind).Success?
    ensures var tokens := DeviceTokens(users, registries, kind).value;
      && SettingsKey !in tokens
      && |tokens| == TotalLength(PerUser(users.value, registries, kind))
      && forall t :: t in tokens <==>
           exists i :: 0 <= i < |users.value| && t in UserTokens(registries[users.value[i]], kind)
  {
    var lists := PerUser(users.value, registries, kind);
    FlattenLength(lists);
    forall t ensures t in Flatten(lists) <==>
      exists i :: 0 <= i < |users.value| && t in UserTokens(registries[users.value[i]], kind)
    {
      FlattenMembership(lists, t);
    }
  }

  /** When no subscriber allows the type, nothing is collected. */
  lemma NoneAllowedNoTokens(users: Option<seq<string>>, registries: map<string, Registry>, kind: string)
    requires DeviceTokens(users, registries, kind).Success?
    requires forall u :: u in users.value ==> kind !in GetSettings(registries[u].settings).allowedTypes
    ensures DeviceTokens(users, registries, kind).value == []
  {
    CollectedTokens(users, registries, kind);
    NoContributionsNoLength(PerUser(users.value, registries, kind));
  }

  /** Two subscribers contributing the same token get it sent twice. */
  lemma DuplicateTokensKept(users: seq<string>, registries: map<string, Registry>, kind: string,
                            i: nat, j: nat, t: string)
    requires forall u :: u in users ==> u in registries
    requires i < j < |users|
    requires t in UserTokens(registries[users[i]], kind) && t in UserTokens(registries[users[j]], kind)
    ensures DeviceTokens(Some(users), registries, kind).Success?
    ensures multiset(DeviceTokens(Some(users), registries, kind).value)[t] >= 2
  {
    FlattenKeepsDuplicates(PerUser(users, registries, kind), i, j, t);
  }

  /**
   * sendNotification: the transport is called once with the whole list and
   * the unchanged notification, unless the list is empty or collecting failed.
   */
  function Notify(users: Option<seq<string>>, online: Option<bool>, registries: map<string, Registry>,
                  note: Notification, reply: DeliveryReport): (out: Dispatched)
    ensures |out.calls| <= 1
    ensures |out.calls| == 1 <==>
      DeviceTokens(users, registries, note.kind).Success? && DeviceTokens(users, registries, note.kind).value != []
    ensures |out.calls| == 1 ==>
      out.calls[0] == Delivery(DeviceTokens(users, registries, note.kind).value, note, online)
      && out.result == Success(Some(reply))
    ensures DeviceTokens(users, registries, note.kind).Failure? ==>
      out.result == Failure(DeviceTokens(users, registries, note.kind).error)
    ensures DeviceTokens(users, registries, note.kind) == Success([]) ==> out.result == Success(None)
  {
    match DeviceTokens(users, registries, note.kind)
    case Failure(e) => Dispatched([], Failure(e))
    case Success(tokens) =>
      if tokens == [] then Dispatched([], Success(None))
      else Dispatched([Delivery(tokens, note, online)], Success(Some(reply)))
  }

  /**
   * The push transport: it records every call, together with what the
   * doorbell's `state/online` held at that moment, and answers with a fixed
   * report.
   */
  class Transport {
    var sent: seq<Delivery>
    const reply: DeliveryReport
    const db: Doorbell

    constructor (reply: DeliveryReport, db: Doorbell)
      ensures sent == [] && this.reply == reply && this.db == db
    {
      sent := [];
      this.reply := reply;
      this.db := db;
    }

    method SendToDevice(tokens: seq<string>, note: Notification) returns (report: DeliveryReport)
      modifies this`sent
      ensures sent == old(sent) + [Delivery(tokens, note, db.online)]
      ensures report == reply
    {
      sent := sent + [Delivery(tokens, note, db.online)];
      report := reply;
    }
  }

  method SendNotification(d: Doorbell, note: Notification, registries: map<string, Registry>,
                          transport: Transport)
    returns (r: Result<Option<DeliveryReport>, Error>)
    requires transport.db == d
    modifies transport`sent
    ensures transport.sent == old(transport.sent) + Notify(d.users, d.online, registries, note, transport.reply).calls
    ensures r == Notify(d.users, d.online, registries, note, transport.reply).result
  {
    var tokens := DeviceTokens(d.users, registries, note.kind);
    if tokens.Failure? {
      return Failure(tokens.error);
    }
    if |tokens.value| == 0 {
      return Success(None);
    }
    var report := transport.SendToDevice(tokens.value, note);
    r := Success(Some(report));
  }
}
