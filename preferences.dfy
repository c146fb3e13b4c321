/**
 * The per-user part of token collection: the effective notification settings
 * of a user (getSettings) and the tokens that user contributes to one
 * notification (the per-uid body of getDeviceTokens).
 */
module Preferences {
  import opened Wrappers

  /** The reserved key of a token registry that holds settings, not a token. */
  const SettingsKey: string := "settings"

  /** The `settings` object a user may store; each field may be absent. */
  datatype StoredSettings = StoredSettings(allowedTypes: Option<seq<string>>, receiveNotifications: Option<bool>)

  /** Settings once the defaults are filled in. */
  datatype Settings = Settings(allowedTypes: seq<string>, receiveNotifications: bool)

  /**
   * A user's /users/{uid}/gcm-ids node: its keys in the order Object.keys
   * lists them (device tokens, plus "settings" when settings are stored) and
   * the object stored under "settings", if any.
   */
  datatype Registry = Registry(keys: seq<string>, settings: Option<StoredSettings>)

  const Defaults: StoredSettings := StoredSettings(Some([]), Some(true))

  /** `{...base, ...top}` on settings objects. */
  function Overlay(base: StoredSettings, top: StoredSettings): StoredSettings {
    StoredSettings(
      if top.allowedTypes.Some? then top.allowedTypes else base.allowedTypes,
      if top.receiveNotifications.Some? then top.receiveNotifications else base.receiveNotifications)
  }

  /** The defaults overlaid by whatever the user stored: stored fields win. */
  function GetSettings(stored: Option<StoredSettings>): (s: Settings)
    ensures stored.Some? && stored.value.allowedTypes.Some? ==> s.allowedTypes == stored.value.allowedTypes.value
    ensures stored.None? || stored.value.allowedTypes.None? ==> s.allowedTypes == []
    ensures stored.Some? && stored.value.receiveNotifications.Some? ==>
      s.receiveNotifications == stored.value.receiveNotifications.value
    ensures stored.None? || stored.value.receiveNotifications.None? ==> s.receiveNotifications
    ensures stored.None? ==> forall kind :: kind !in s.allowedTypes
  {
    var merged := if stored.Some? then Overlay(Defaults, stored.value) else Defaults;
    Settings(merged.allowedTypes.value, merged.receiveNotifications.value)
  }

  /** `keys.filter(item => item !== "settings")`. */
  function WithoutSettingsKey(keys: seq<string>): (r: seq<string>)
    ensures forall k :: k in r <==> k in keys && k != SettingsKey
    ensures |r| <= |keys|
    ensures SettingsKey !in keys ==> r == keys
  {
    if keys == [] then []
    else (if keys[0] == SettingsKey then [] else [keys[0]]) + WithoutSettingsKey(keys[1..])
  }

  /** Filtering distributes over concatenation, so the kept keys stay in order. */
  lemma {:induction false} WithoutSettingsKeyAppend(a: seq<string>, b: seq<string>)
    ensures WithoutSettingsKey(a + b) == WithoutSettingsKey(a) + WithoutSettingsKey(b)
  {
    if a == [] {
      assert a + b == b;
    } else {
      assert (a + b)[1..] == a[1..] + b;
      WithoutSettingsKeyAppend(a[1..], b);
    }
  }

  /** Every key other than "settings" is kept as often as it occurs; "settings" never. */
  lemma {:induction false} WithoutSettingsKeyCount(keys: seq<string>, k: string)
    ensures multiset(WithoutSettingsKey(keys))[k] == if k == SettingsKey then 0 else multiset(keys)[k]
  {
    if keys != [] {
      assert keys == [keys[0]] + keys[1..];
      WithoutSettingsKeyCount(keys[1..], k);
    }
  }

  /** The tokens one user contributes to a notification of type `kind`. */
  function UserTokens(reg: Registry, kind: string): (r: seq<string>)
    ensures kind !in GetSettings(reg.settings).allowedTypes ==> r == []
    ensures kind in GetSettings(reg.settings).allowedTypes && !GetSettings(reg.settings).receiveNotifications ==> r == []
    ensures kind in GetSettings(reg.settings).allowedTypes && GetSettings(reg.settings).receiveNotifications ==>
      r == WithoutSettingsKey(reg.keys)
    ensures reg.settings.None? ==> r == []
    ensures SettingsKey !in r
    ensures forall t :: t in r ==> t in reg.keys
  {
    var settings := GetSettings(reg.settings);
    if kind !in settings.allowedTypes then []
    else if settings.receiveNotifications then WithoutSettingsKey(reg.keys)
    else []
  }
}
