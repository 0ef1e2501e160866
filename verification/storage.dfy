/**
 * A browser key/value store (`localStorage` or `sessionStorage`): string keys
 * mapped to string values, changed in place by `setItem` and `removeItem`.
 */
module Storage {
  import opened Common

  /** The text stored under `key`, or `None` (JavaScript's `null`) when the key is absent. */
  function Lookup(entries: map<string, string>, key: string): (r: Option<string>)
    ensures r.Some? <==> key in entries
    ensures r.Some? ==> r.value == entries[key]
  {
    if key in entries then Some(entries[key]) else None
  }

  class KeyValueStore {
    var entries: map<string, string>

    constructor (initial: map<string, string>)
      ensures entries == initial
    {
      entries := initial;
    }

    /** `getItem(key)`. */
    function GetItem(key: string): (r: Option<string>)
      reads this
      ensures r == Lookup(entries, key)
    {
      Lookup(entries, key)
    }

    /** `setItem(key, value)`. */
    method SetItem(key: string, value: string)
      modifies this
      ensures entries == old(entries)[key := value]
    {
      entries := entries[key := value];
    }

    /** `removeItem(key)`; removing an absent key changes nothing. */
    method RemoveItem(key: string)
      modifies this
      ensures entries == old(entries) - {key}
    {
      entries := entries - {key};
    }
  }
}
