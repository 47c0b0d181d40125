/**
 * The tab-scoped session storage the token lives in, as a plain map from keys
 * to string values: `getItem`, `setItem` and `removeItem` and the laws they obey.
 */
module SessionStorage {
  import opened Wrappers

  type Storage = map<string, string>

  /** `getItem`: the stored value, or `None` (JavaScript `null`) when the key is absent. */
  function GetItem(s: Storage, key: string): (v: Option<string>)
    ensures v.Some? <==> key in s
    ensures v.Some? ==> v.value == s[key]
  {
    if key in s then Some(s[key]) else None
  }

  /** `setItem`: store `value` under `key`, replacing any previous value. */
  function SetItem(s: Storage, key: string, value: string): (s': Storage)
    ensures key in s' && s'[key] == value
    ensures s'.Keys == s.Keys + {key}
    ensures s' - {key} == s - {key}
  {
    s[key := value]
  }

  /** `removeItem`: drop `key`; removing an absent key is a no-op. */
  function RemoveItem(s: Storage, key: string): (s': Storage)
    ensures key !in s'
    ensures s'.Keys == s.Keys - {key}
    ensures s' - {key} == s - {key}
  {
    s - {key}
  }

  /** Reading a key right after writing it gives back the written value. */
  lemma GetAfterSet(s: Storage, key: string, value: string)
    ensures GetItem(SetItem(s, key, value), key) == Some(value)
  {
  }

  /** The last write to a key wins. */
  lemma SetTwice(s: Storage, key: string, v: string, w: string)
    ensures SetItem(SetItem(s, key, v), key, w) == SetItem(s, key, w)
  {
  }

  /** After a removal the key reads as absent, whatever it held before. */
  lemma GetAfterRemove(s: Storage, key: string)
    ensures GetItem(RemoveItem(s, key), key) == None
  {
  }

  /** Removing twice is the same as removing once. */
  lemma RemoveTwice(s: Storage, key: string)
    ensures RemoveItem(RemoveItem(s, key), key) == RemoveItem(s, key)
  {
  }

  /** Writing or removing one key leaves every other key as it was. */
  lemma OtherKeysUnchanged(s: Storage, key: string, value: string, other: string)
    requires other != key
    ensures GetItem(SetItem(s, key, value), other) == GetItem(s, other)
    ensures GetItem(RemoveItem(s, key), other) == GetItem(s, other)
  {
  }
}
