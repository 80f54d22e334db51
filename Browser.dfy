/** The browser's `localStorage`: one string-to-string store shared by every view. */
module Browser {
  import opened Js

  /** The key under which the session token is kept. */
  const TokenKey: string := "token"

  class Storage {
    var items: map<string, string>

    constructor (items: map<string, string>)
      ensures this.items == items
    {
      this.items := items;
    }

    /** `localStorage.getItem(key)`: the stored string, or `null`. Every caller tests
        the result for truthiness, which holds exactly when a non-empty string is stored. */
    function GetItem(key: string): (v: Option<string>)
      reads this
      ensures Truthy(v) <==> key in items && items[key] != ""
    {
      if key in items then Some(items[key]) else None
    }

    /** `localStorage.setItem(key, value)`. */
    method SetItem(key: string, value: string)
      modifies this
      ensures items == old(items)[key := value]
    {
      items := items[key := value];
    }

    /** `localStorage.removeItem(key)`. */
    method RemoveItem(key: string)
      modifies this
      ensures items == old(items) - {key}
    {
      items := items - {key};
    }
  }
}
