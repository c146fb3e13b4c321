# Doorbell event function — a Dafny model

The repository's server side is one Cloud Function, `eventListener`. It fires on every write under
`/doorbells/{did}/events/{timestamp}` and does four things:

- It collapses duplicate reports of one occurrence. These are events that share `payload.tag`.
  All of them are merged into the record with the smallest key.
- It routes the event by `type`. `ONLINE` and `OFFLINE` write `state/online` and then notify the
  doorbell's subscribers. `TOGGLE_GONG` writes `state/gong`. Every other type does nothing.
- It collects the push tokens of the doorbell's subscribers. Each subscriber's stored notification
  settings decide whether that subscriber takes part.
- It calls the push transport once when at least one token was collected.

The model has one module per part:

- `Values` (values.dfy): stored values. A value is a JSON-like tree, and an absent child stands for
  null. An event record is a map from its top-level field names to their values. This module also
  has JavaScript truthiness, `payload.tag`, `type` and the object spread `{...a, ...b}`.
- `Preferences` (preferences.dfy): `getSettings` and the per-user token filter. These are pure
  functions.
- `Dispatch` (dispatch.dfy): the concatenation of the per-user lists (`getDeviceTokens`) and
  `sendNotification`. `sendNotification` calls a `Transport` class that records every call, together
  with the doorbell's `state/online` at the moment of the call.
- `Store` (store.dfy): the `Doorbell` class. It holds the `/doorbells/{did}` node: subscribers,
  `state/online`, `state/gong` and the event table `map<int, Event>`. Each method is one `set` or
  `remove`.
- `Dedup` (dedup.dfy): the tag query's callback. It is a loop that changes the event table in place.
  `Deduped` specifies the loop's result, and lemmas state what that result means.
- `Router` (router.dfy): the type switch. `Transition` is a pure state machine over
  `(online, gong)`. It records the notification that is dispatched and the error the invocation
  ends in. `EventListener`, `HandleOnlineOffline` and `HandleGong` apply it to the store.

Errors are modelled as `Result` values. Each one is a rejected promise of the function:

- A missing `users` node makes `Object.keys(null)` throw (`NoSubscribers`).
- A missing `gcm-ids` node makes `null.settings` throw (`NoTokenRegistry`).
- `TOGGLE_GONG` without a payload throws when it reads `payload.isGongOn` (`NoPayload`).
- The database refuses to `set` an undefined `isGongOn` (`UndefinedGong`).
- `equalTo` refuses an object as the tag (`InvalidTag`).
- `UnknownEventType` is the `default` of `handleOnlineOffline`. `Transition` proves that the router
  never reaches it.

The model follows the code, including where it behaves differently from what a reader might expect:

- The collected token list is a concatenation, not a union. A token contributed by two subscribers
  appears twice in the list passed to the single `sendToDevice` call
  (`Dispatch.DuplicateTokensKept`). What the messaging service does with a repeated token is not
  modelled.
- An unrecognised event type is not an error. The switch has no `default`, so the event is ignored
  (`Router.Transition`).
- Only a null event is ignored. A missing payload is not guarded. `TOGGLE_GONG` without a payload
  fails, and every other type ignores the payload.
- The defaults apply when the `settings` key is absent. When the whole `gcm-ids` node is absent, the
  invocation fails for every subscriber.

## Model

| member | source | states |
|---|---|---|
| `Preferences.GetSettings` | functions/index.js:11-17 | Each settings field comes from the stored `settings` object when it is there. Otherwise `allowedTypes` is `[]` and `receiveNotifications` is true. With nothing stored, no type is allowed. |
| `Preferences.WithoutSettingsKey` | functions/index.js:31 | A key is kept exactly when it is a registry key other than `"settings"`. The result is no longer than the input. A registry without `"settings"` is returned whole. |
| `Preferences.WithoutSettingsKeyAppend` | functions/index.js:31 | The filter distributes over concatenation, so the kept keys stay in registry order. |
| `Preferences.WithoutSettingsKeyCount` | functions/index.js:31 | Every key other than `"settings"` occurs in the output as often as in the registry. `"settings"` never occurs. |
| `Preferences.UserTokens` | functions/index.js:20-35 | A type missing from the effective `allowedTypes` gives `[]`, whatever `receiveNotifications` says. An allowed type with notifications off gives `[]`. An allowed type with notifications on gives the registry keys minus `"settings"`, in order. A user without stored settings contributes nothing. `"settings"` is never a token. |
| `Dispatch.FlattenAppend` | functions/index.js:37 | The `reduce`/`concat` fold of the per-user lists distributes over splitting the user list. |
| `Dispatch.FlattenCons` | functions/index.js:37 | The first user's tokens come first, followed by the rest in order. |
| `Dispatch.FlattenLength` | functions/index.js:37 | The collected list is as long as all per-user lists together. |
| `Dispatch.NoContributionsNoLength` | functions/index.js:37 | When every per-user list is empty, their total length is zero. |
| `Dispatch.FlattenMembership` | functions/index.js:37 | A token is collected exactly when some user's list contains it. |
| `Dispatch.FlattenKeepsDuplicates` | functions/index.js:37 | A token in two users' lists occurs at least twice in the collected list. |
| `Dispatch.DeviceTokens` | functions/index.js:19-38 | A missing users node fails with `NoSubscribers`. Otherwise collection succeeds exactly when every subscriber has a token registry, and fails with `NoTokenRegistry` when one does not. |
| `Dispatch.CollectedTokens` | functions/index.js:19-38 | A successful collection never holds `"settings"`. A token is in it exactly when some subscriber contributes it. Its length is the sum of the per-user lengths. |
| `Dispatch.NoneAllowedNoTokens` | functions/index.js:26-29 | When no subscriber allows the notification's type, the collected list is empty. |
| `Dispatch.DuplicateTokensKept` | functions/index.js:36-37 | Collection is a concatenation. A token contributed by two subscribers appears at least twice. |
| `Dispatch.Notify` | functions/index.js:40-49 | At most one transport call is made. One call is made exactly when collection succeeds with a non-empty list. That call carries the full list, the unchanged notification and the `state/online` given, and the result is the transport's report. A failed collection propagates its error. An empty list resolves with nothing sent. |
| `Dispatch.SendNotification` | functions/index.js:40-49 | The transport's call record grows by exactly `Notify`'s calls. The recorded call carries the doorbell's current `state/online`. The method returns `Notify`'s result. |
| `Store.Doorbell.SetOnline` | functions/index.js:160 | `state/online` becomes the written value, and nothing else changes. |
| `Store.Doorbell.SetGong` | functions/index.js:110 | `state/gong` becomes the written value, and nothing else changes. |
| `Store.Doorbell.RemoveEvent` | functions/index.js:81 | The event key is removed, and every other event is unchanged. |
| `Store.Doorbell.SetEvent` | functions/index.js:84 | The event key holds the written record, and every other event is unchanged. |
| `Dedup.MergeAllFields` | functions/index.js:76-80 | The merged record has a top-level field exactly when one of the group's records has it. |
| `Dedup.MergeAllLastWins` | functions/index.js:76-80 | For each top-level field, the merge holds the value from the last record in key order that has the field. A later `payload` replaces the whole earlier one. |
| `Dedup.MergeAllKeepsTag` | functions/index.js:66-80 | The merge of a group that shares a tag carries that tag. |
| `Dedup.CanonicalIsSmallest` | functions/index.js:73-74 | The first key the query returns is the smallest key that carries the tag. |
| `Dedup.DedupSurvivor` | functions/index.js:73-84 | Of the events with the tag, only the smallest key remains, and it holds the merge of the whole group. |
| `Dedup.DedupLeavesOthers` | functions/index.js:66-84 | Events with other tags keep their keys and records. No key is added. An empty query result changes nothing. |
| `Dedup.DedupSingleUnchanged` | functions/index.js:73-84 | A group of one event is written back unchanged. |
| `Dedup.DedupIdempotent` | functions/index.js:66-84 | After a dedup the tag has one event left. A second dedup of that tag changes nothing. |
| `Dedup.MergeExample` | functions/index.js:76-84 | Three reports `{a:1}`, `{a:2,b:3}` and `{b:4}` at keys 1, 2 and 3 collapse to `{a:2,b:4}` at key 1. |
| `Dedup.TagQuerySnapshot` | functions/index.js:66-73 | The snapshot of the tag query, listed in the query's key order, agrees with the event table on every key. |
| `Dedup.DedupStep` | functions/index.js:76-81 | One loop turn extends the merge by the next record and removes that record's key. |
| `Dedup.MergeLoopStep` | functions/index.js:76-83 | One loop turn preserves the loop invariant. The snapshot's first record is the merge so far, the others are untouched, and the handled later keys are removed from the table. |
| `Dedup.MergeLater` | functions/index.js:76-83 | After the `forEach`, the first record of the snapshot is the merge of the whole group. Every later key is removed from the table. |
| `Dedup.DedupTag` | functions/index.js:66-85 | The event table becomes `Deduped` of the old table: later keys are removed and the merge is written to the first key. A null snapshot changes nothing. |
| `Router.OnlineOffline` | functions/index.js:132-158 | `ONLINE` and `OFFLINE` give `online = true` and `online = false`, each with a notification of its own type linking to the app URL. Any other type fails with `UnknownEventType`. |
| `Router.GongValue` | functions/index.js:108-111 | An event without a payload fails with `NoPayload`. A payload without `isGongOn` fails, because undefined cannot be written. Otherwise the value is `payload.isGongOn`. |
| `Router.Transition` | functions/index.js:89-104 | A null event changes nothing. `ONLINE` and `OFFLINE` set `online` and dispatch exactly one notification of their own type. `TOGGLE_GONG` sets `gong` to `payload.isGongOn` and dispatches nothing. `RING`, `SENSOR_TRIGGERED` and unknown types change nothing and dispatch nothing. `UnknownEventType` is never reached. |
| `Router.LastStatusWins` | functions/index.js:128-161 | After two status reports, `online` reflects the later one and the gong is untouched. |
| `Router.HandleGong` | functions/index.js:108-111 | `state/gong` is written only when `GongValue` succeeds. Otherwise the error is returned and the gong is unchanged. |
| `Router.HandleOnlineOffline` | functions/index.js:128-162 | `state/online` is written before the notification is sent. The transport record is `Notify`'s with the new status, so the recorded call already sees it. The handler resolves to nothing when sending succeeds and to the error when it rejects (`Awaited`). An unknown type fails before any write. |
| `Router.EventListener` | functions/index.js:52-105 | A null event changes nothing. An object tag fails before any write. A truthy tag deduplicates the tag's events, and no tag leaves the event table alone. The state and the transport calls follow `Transition` and `Notify`, with the new `state/online` seen by the call. Handlers resolve to nothing unless sending rejects. |

## Left out

- Start-up: `admin.initializeApp`, parsing `FIREBASE_CONFIG` and building the redirect URL (functions/index.js:1-8). `AppUrl` is a fixed placeholder string.
- The database and messaging clients are foreign calls. The database becomes the `Doorbell` object plus a `map` of users' token registries. `sendToDevice` becomes the recording `Transport`, and its outcome report is a fixed value that is passed through unread. The transport shares the `Doorbell` object so that each recorded call notes the `state/online` it saw.
- Store writes (`set`, `remove`) and `sendToDevice` always succeed. Their rejections (functions/index.js:48, :81, :84, :110, :160) are not modelled, nor that a rejected `set` of `state/online` would stop the notification from being sent. The only errors modelled are the ones the function itself raises.
- The `Promise.all` parallelism over users is left out. Per-user lookups are a sequential map in user key order, which gives the same result.
- The dedup query's callback is not awaited in the source, so it races the switch. The model runs dedup to completion before the switch. The two touch disjoint parts of the store, so the final state does not depend on the order. Re-triggering of the function by dedup's own writes is not modelled.
- The query's key ordering is taken as given. `IsTagQuery` requires the keys in ascending order, as the database returns them.
- `console.log` calls are left out.
- The notification `title` and `body` texts are left out. The unused `handleRing` and `handleSensorTriggered` (functions/index.js:113-126) are dead code and are not modelled.
- Stored values are assumed well-typed. `allowedTypes` is an array of strings and `receiveNotifications` is a boolean. Other shapes would make `includes` throw or change truthiness.
- Registry key order is given as a sequence, because Dafny maps are unordered. The model does not force "settings" to be among the keys exactly when settings are stored.
- Numbers are unbounded integers, not IEEE doubles.
- An event record is modelled as an object. A primitive value stored as an event is not modelled.
