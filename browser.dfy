/**
 * The browser's `localStorage`, shared by the stores that keep a session or
 * a preference across reloads: a dictionary from key to string.
 */
module Browser {
  import opened Wrappers

  class LocalStorage {
    var entries: map<string, string>

    constructor ()
      ensures entries == map[]
    {
      entries := map[];
    }

    /** `getItem(key)`: null (None) for a key that was never set or was removed. */
    function GetItem(key: string): (r: Option<string>)
      reads this
      ensures r.Some? <==> key in entries
      ensures r.Some? ==> r.value == entries[key]
    {
      if key in entries then Some(entries[key]) else None
    }

    method SetItem(key: string, value: string)
      modifies this
      ensures entries == old(entries)[key := value]
      ensures GetItem(key) == Some(value)
    {
      entries := entries[key := value];
    }

    method RemoveItem(key: string)
      modifies this
      ensures entries == old(entries) - {key}
      ensures GetItem(key) == None
    {
      entries := entries - {key};
    }
  }
}
