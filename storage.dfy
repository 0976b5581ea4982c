/**
 * The Web Storage objects `localStorage` (durable) and `sessionStorage`
 * (session-scoped): string keys mapped to string values, changed in place.
 */
module Storage {
  import opened Wrappers

  /** `getItem`: the stored value, or null when the key is absent. */
  function Get(items: map<string, string>, key: string): (r: Option<string>)
    ensures r.Some? <==> key in items
    ensures r.Some? ==> r.value == items[key]
  {
    if key in items then Some(items[key]) else None
  }

  class WebStorage {
    var items: map<string, string>

    constructor (items: map<string, string>)
      ensures this.items == items
    {
      this.items := items;
    }

    /** `setItem(key, value)`: replaces or adds one entry. */
    method SetItem(key: string, value: string)
      modifies this
      ensures items == old(items)[key := value]
    {
      items := items[key := value];
    }

    /** `removeItem(key)`: drops one entry, if there is one. */
    method RemoveItem(key: string)
      modifies this
      ensures items == old(items) - {key}
    {
      items := items - {key};
    }
  }
}
