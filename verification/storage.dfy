/**
 * The browser's origin-scoped `localStorage`: a synchronous, persistent
 * string-to-string store shared by every component of the application.
 */
module Storage {
  import opened Js

  /** The one entry the application keeps: the session token. */
  const TokenKey: string := "token"

  class LocalStorage {
    var entries: map<string, string>

    constructor (initial: map<string, string>)
      ensures entries == initial
    {
      entries := initial;
    }

    /** `getItem(key)`: the stored string, or null when nothing is stored. */
    function GetItem(key: string): (r: Option<string>)
      reads this
      ensures r.Some? <==> key in entries
      ensures r.Some? ==> r.value == entries[key]
    {
      if key in entries then Some(entries[key]) else None
    }

    /** `setItem(key, value)`: the value is coerced to a string before it is stored. */
    method SetItem(key: string, value: Value)
      modifies this
      ensures entries == old(entries)[key := ToJsString(value)]
    {
      entries := entries[key := ToJsString(value)];
    }

    /** `removeItem(key)`: removing an absent key changes nothing. */
    method RemoveItem(key: string)
      modifies this
      ensures entries == old(entries) - {key}
    {
      entries := entries - {key};
    }
  }

  /** The JavaScript value `getItem` yields: a string, or null. */
  function ItemValue(item: Option<string>): Value {
    match item
    case Some(s) => Str(s)
    case None => Null
  }

  /** `if (token)` on a value read from the store: present and non-empty. */
  predicate TokenPresent(entries: map<string, string>) {
    Truthy(ItemValue(if TokenKey in entries then Some(entries[TokenKey]) else None))
  }
}
