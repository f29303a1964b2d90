/**
 * The device preference file "FinTrackPrefs": boolean values under string keys. The
 * Profile screen writes the app-lock switch there and the splash screen reads it.
 */
module Prefs {
  const APP_PREFERENCES: string := "FinTrackPrefs"
  const IS_APP_LOCK_ENABLED: string := "isAppLockEnabled"

  /** `getBoolean`: the stored value, or the caller's default for a key never written. */
  function GetBoolean(values: map<string, bool>, key: string, default: bool): (b: bool)
    ensures key in values ==> b == values[key]
    ensures key !in values ==> b == default
  {
    if key in values then values[key] else default
  }

  /** Whether the app lock is on, read with the default both screens use: off. */
  function AppLockEnabled(values: map<string, bool>): bool {
    GetBoolean(values, IS_APP_LOCK_ENABLED, false)
  }

  /** On a fresh install, no key has been written, so the lock is off. */
  lemma AppLockDefaultsOff()
    ensures !AppLockEnabled(map[])
  {
  }

  class SharedPreferences {
    var values: map<string, bool>

    constructor ()
      ensures values == map[]
    {
      values := map[];
    }

    /** `edit().putBoolean(key, b).apply()`: that key now holds `b`, every other key is as it was. */
    method PutBoolean(key: string, b: bool)
      modifies this
      ensures values == old(values)[key := b]
    {
      values := values[key := b];
    }
  }

  /** A value written is the value read back, whatever default the reader passes. */
  lemma ReadAfterWrite(values: map<string, bool>, key: string, b: bool, default: bool)
    ensures GetBoolean(values[key := b], key, default) == b
  {
  }

  /** Writing one key leaves every other key's reading alone. */
  lemma WriteKeepsOtherKeys(values: map<string, bool>, key: string, b: bool, other: string, default: bool)
    requires other != key
    ensures GetBoolean(values[key := b], other, default) == GetBoolean(values, other, default)
  {
  }
}
