/**
 * Tag deduplication: the events of a doorbell that carry the same
 * `payload.tag` are collapsed onto the one with the smallest key, each later
 * record shallow-merged over it in key order, and the later keys removed.
 */
module Dedup {
  import opened Wrappers
  import opened Values
  import opened Store

  predicate HasTag(e: Event, tag: Json) {
    TagOf(e) == Some(tag)
  }

  /** `event.payload && event.payload.tag`: whether a new event starts a dedup. */
  predicate NeedsDedup(e: Event) {
    TagOf(e).Some? && Truthy(TagOf(e).value)
  }

  predicate Ascending(keys: seq<int>) {
    forall i, j :: 0 <= i < j < |keys| ==> keys[i] < keys[j]
  }

  /** What the tag query hands its callback: the snapshot of every event with the tag. */
  function TagQuery(events: map<int, Event>, tag: Json): map<int, Event> {
    map k | k in events && HasTag(events[k], tag) :: events[k]
  }

  /** Every key of `keys` is a key of the event table. */
  predicate AllIn(events: map<int, Event>, keys: seq<int>) {
    forall i :: 0 <= i < |keys| ==> keys[i] in events
  }

  /** `keys` lists exactly the events with the tag, in ascending key order. */
  predicate IsTagQuery(events: map<int, Event>, tag: Json, keys: seq<int>) {
    && Ascending(keys)
    && (forall i :: 0 <= i < |keys| ==> keys[i] in events && HasTag(events[keys[i]], tag))
    && (forall k :: k in events && HasTag(events[k], tag) ==> k in keys)
  }

  /**
   * `{...events[keys[0]], ...events[keys[1]], ...}`: the left-to-right shallow
   * overlay of the records under `keys`.
   */
  function MergeAll(events: map<int, Event>, keys: seq<int>): Event
    requires keys != [] && AllIn(events, keys)
  {
    if |keys| == 1 then events[keys[0]]
    else Spread(MergeAll(events, keys[..|keys| - 1]), events[keys[|keys| - 1]])
  }

  /** The event table with the keys `removed` taken out. */
  function Without(events: map<int, Event>, removed: seq<int>): map<int, Event> {
    map k | k in events && k !in removed :: events[k]
  }

  /** The event table after deduplicating the group `keys`. */
  function Deduped(events: map<int, Event>, keys: seq<int>): map<int, Event>
    requires AllIn(events, keys)
  {
    if keys == [] then events
    else Without(events, keys[1..])[keys[0] := MergeAll(events, keys)]
  }

  /** The merge has a top-level field exactly when one of the records has it. */
  lemma {:induction false} MergeAllFields(events: map<int, Event>, keys: seq<int>, f: string)
    requires keys != [] && AllIn(events, keys)
    ensures f in MergeAll(events, keys) <==> exists i :: 0 <= i < |keys| && f in events[keys[i]]
  {
    if |keys| > 1 {
      var init := keys[..|keys| - 1];
      MergeAllFields(events, init, f);
      if f in MergeAll(events, keys) && f !in events[keys[|keys| - 1]] {
        var i :| 0 <= i < |init| && f in events[init[i]];
        assert f in events[keys[i]];
      }
      if exists i :: 0 <= i < |keys| && f in events[keys[i]] {
        var i :| 0 <= i < |keys| && f in events[keys[i]];
        if i < |keys| - 1 {
          assert f in events[init[i]];
        }
      }
    }
  }

  /** Per top-level field, the merge holds the value of the last record that has the field. */
  lemma {:induction false} MergeAllLastWins(events: map<int, Event>, keys: seq<int>, f: string, j: nat)
    requires AllIn(events, keys)
    requires j < |keys| && f in events[keys[j]]
    requires forall i :: j < i < |keys| ==> f !in events[keys[i]]
    ensures f in MergeAll(events, keys) && MergeAll(events, keys)[f] == events[keys[j]][f]
  {
    if j < |keys| - 1 {
      var init := keys[..|keys| - 1];
      MergeAllLastWins(events, init, f, j);
    }
  }

  /** Every record of the group has the tag, so their merge has it too. */
  lemma MergeAllKeepsTag(events: map<int, Event>, tag: Json, keys: seq<int>)
    requires keys != [] && AllIn(events, keys)
    requires forall i :: 0 <= i < |keys| ==> HasTag(events[keys[i]], tag)
    ensures HasTag(MergeAll(events, keys), tag)
  {
    var last := keys[|keys| - 1];
    assert HasTag(events[last], tag);
    MergeAllLastWins(events, keys, "payload", |keys| - 1);
  }

  /** The first key of the group is the smallest key carrying the tag. */
  lemma CanonicalIsSmallest(events: map<int, Event>, tag: Json, keys: seq<int>, k: int)
    requires IsTagQuery(events, tag, keys)
    requires k in events && HasTag(events[k], tag)
    ensures keys != [] && keys[0] <= k
  {
    var i :| 0 <= i < |keys| && keys[i] == k;
    assert i == 0 || keys[0] < keys[i];
  }

  /**
   * Of the events with the tag only the smallest key survives, and it holds
   * the merge of the whole group.
   */
  lemma DedupSurvivor(events: map<int, Event>, tag: Json, keys: seq<int>)
    requires IsTagQuery(events, tag, keys)
    ensures keys != [] ==> keys[0] in Deduped(events, keys) && Deduped(events, keys)[keys[0]] == MergeAll(events, keys)
    ensures forall k :: k in events && HasTag(events[k], tag) ==> (k in Deduped(events, keys) <==> k == keys[0])
  {
    forall k | k in events && HasTag(events[k], tag)
      ensures k in Deduped(events, keys) <==> k == keys[0]
    {
      var i :| 0 <= i < |keys| && keys[i] == k;
      if i > 0 {
        assert keys[0] < keys[i];
        assert k in keys[1..];
      }
    }
  }

  /** Events with other tags keep their keys and records, and no key is added. */
  lemma DedupLeavesOthers(events: map<int, Event>, tag: Json, keys: seq<int>)
    requires IsTagQuery(events, tag, keys)
    ensures forall k :: k in events && !HasTag(events[k], tag) ==>
      k in Deduped(events, keys) && Deduped(events, keys)[k] == events[k]
    ensures forall k :: k in Deduped(events, keys) ==> k in events
    ensures keys == [] ==> Deduped(events, keys) == events
  {
    forall k | k in events && !HasTag(events[k], tag)
      ensures k in Deduped(events, keys) && Deduped(events, keys)[k] == events[k]
    {
      assert forall i :: 0 <= i < |keys| ==> keys[i] != k;
    }
  }

  /** A group of one is written back unchanged. */
  lemma DedupSingleUnchanged(events: map<int, Event>, tag: Json, keys: seq<int>)
    requires IsTagQuery(events, tag, keys) && |keys| == 1
    ensures Deduped(events, keys) == events
  {
    assert Without(events, keys[1..]) == events;
    assert events[keys[0] := events[keys[0]]] == events;
  }

  /** After a dedup the tag has one event left, so a second dedup changes nothing. */
  lemma DedupIdempotent(events: map<int, Event>, tag: Json, keys: seq<int>)
    requires IsTagQuery(events, tag, keys) && keys != []
    ensures IsTagQuery(Deduped(events, keys), tag, [keys[0]])
    ensures Deduped(Deduped(events, keys), [keys[0]]) == Deduped(events, keys)
  {
    DedupSurvivor(events, tag, keys);
    DedupLeavesOthers(events, tag, keys);
    MergeAllKeepsTag(events, tag, keys);
    var r := Deduped(events, keys);
    assert Without(r, []) == r;
  }

  /** Three reports of one occurrence, at keys 1, 2 and 3, tagged "t". */
  function ExampleEvents(): map<int, Event> {
    var payload := JObj(map["tag" := JStr("t")]);
    map[
      1 := map["payload" := payload, "a" := JNum(1)],
      2 := map["payload" := payload, "a" := JNum(2), "b" := JNum(3)],
      3 := map["payload" := payload, "b" := JNum(4)]]
  }

  /** Deduplicating the example keeps key 1, with `a` and `b` from the latest report that has them. */
  lemma MergeExample()
    ensures Deduped(ExampleEvents(), [1, 2, 3]) ==
      map[1 := map["payload" := JObj(map["tag" := JStr("t")]), "a" := JNum(2), "b" := JNum(4)]]
  {
    var events := ExampleEvents();
    var payload := JObj(map["tag" := JStr("t")]);
    assert [1, 2, 3][..2] == [1, 2] && [1, 2][..1] == [1];
    assert MergeAll(events, [1, 2]) == map["payload" := payload, "a" := JNum(2), "b" := JNum(3)];
    assert MergeAll(events, [1, 2, 3]) == map["payload" := payload, "a" := JNum(2), "b" := JNum(4)];
    assert Without(events, [2, 3]) == map[1 := events[1]];
  }

  /** `keys` is Object.keys of the snapshot `value`, in ascending order. */
  predicate IsSnapshotKeys(value: map<int, Event>, keys: seq<int>) {
    && Ascending(keys)
    && AllIn(value, keys)
    && (forall k :: k in value ==> k in keys)
  }

  /** The tag query's snapshot, listed by the keys the query orders, agrees with the table. */
  lemma TagQuerySnapshot(events: map<int, Event>, tag: Json, keys: seq<int>)
    requires IsTagQuery(events, tag, keys)
    ensures IsSnapshotKeys(TagQuery(events, tag), keys)
    ensures forall k :: k in TagQuery(events, tag) ==> k in events && TagQuery(events, tag)[k] == events[k]
  {
  }

  /** One turn of the callback's loop, on the merge and on the table. */
  lemma DedupStep(events: map<int, Event>, keys: seq<int>, i: nat)
    requires AllIn(events, keys) && 1 <= i < |keys|
    ensures MergeAll(events, keys[..i + 1]) == Spread(MergeAll(events, keys[..i]), events[keys[i]])
    ensures Without(events, keys[1..i + 1]) == Without(events, keys[1..i]) - {keys[i]}
  {
    assert keys[..i + 1][..i] == keys[..i];
    assert keys[1..i + 1] == keys[1..i] + [keys[i]];
  }

  /** What the callback's loop has done once the keys before `keys[i]` are handled. */
  predicate MergeLoopInvariant(events: map<int, Event>, snapshot: map<int, Event>, keys: seq<int>, i: nat,
                               value: map<int, Event>, table: map<int, Event>)
    requires AllIn(events, keys) && 1 <= i <= |keys|
  {
    && keys[0] in value && value[keys[0]] == MergeAll(events, keys[..i])
    && (forall k :: k in snapshot && k != keys[0] ==> k in value && value[k] == snapshot[k])
    && table == Without(events, keys[1..i])
  }

  /** One turn of the callback's loop keeps its invariant. */
  lemma MergeLoopStep(events: map<int, Event>, snapshot: map<int, Event>, keys: seq<int>, i: nat,
                      value: map<int, Event>, table: map<int, Event>)
    requires IsSnapshotKeys(snapshot, keys) && 1 <= i < |keys|
    requires forall k :: k in snapshot ==> k in events && events[k] == snapshot[k]
    requires MergeLoopInvariant(events, snapshot, keys, i, value, table)
    ensures keys[i] in value && keys[0] in value
    ensures MergeLoopInvariant(events, snapshot, keys, i + 1,
      value[keys[0] := Spread(value[keys[0]], value[keys[i]])], table - {keys[i]})
  {
    assert keys[0] < keys[i] && keys[i] in snapshot;
    DedupStep(events, keys, i);
  }

  /**
   * The `forEach` of the query callback: fold each later record of the
   * snapshot onto the first one, removing the later key from the store.
   * Returns the snapshot's first record as the loop leaves it.
   */
  method MergeLater(d: Doorbell, snapshot: map<int, Event>, keys: seq<int>) returns (merged: Event)
    requires IsSnapshotKeys(snapshot, keys) && keys != []
    requires forall k :: k in snapshot ==> k in d.events && d.events[k] == snapshot[k]
    modifies d`events
    ensures AllIn(old(d.events), keys)
    ensures merged == MergeAll(old(d.events), keys)
    ensures d.events == Without(old(d.events), keys[1..])
  {
    ghost var events0 := d.events;
    var value := snapshot;
    var original := keys[0];
    assert keys[..1] == [original] && keys[1..1] == [];
    assert Without(events0, []) == events0;
    var i := 1;
    while i < |keys|
      invariant 1 <= i <= |keys|
      invariant MergeLoopInvariant(events0, snapshot, keys, i, value, d.events)
    {
      MergeLoopStep(events0, snapshot, keys, i, value, d.events);
      value := value[original := Spread(value[original], value[keys[i]])];
      d.RemoveEvent(keys[i]);
      i := i + 1;
    }
    assert keys[..|keys|] == keys && keys[1..|keys|] == keys[1..];
    merged := value[original];
  }

  /**
   * The query callback, given the snapshot of the events with one tag and its
   * keys: merge and remove the later records, then write the merge back to the
   * first key. A null snapshot (no keys) changes nothing.
   */
  method DedupTag(d: Doorbell, snapshot: map<int, Event>, keys: seq<int>)
    requires IsSnapshotKeys(snapshot, keys)
    requires forall k :: k in snapshot ==> k in d.events && d.events[k] == snapshot[k]
    modifies d`events
    ensures AllIn(old(d.events), keys)
    ensures d.events == Deduped(old(d.events), keys)
  {
    if keys == [] {
      return;
    }
    var merged := MergeLater(d, snapshot, keys);
    d.SetEvent(keys[0], merged);
  }
}
