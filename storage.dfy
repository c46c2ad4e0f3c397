/** Browser storage (`localStorage` and `sessionStorage`) as a mutable
    string-to-string map, and the token lookup that the cart, checkout,
    home page and dashboard share. */
module Storage {
  import opened Common

  /** `storage.getItem(key)`: null when the key is absent. */
  function Lookup(items: map<string, string>, key: string): (r: Option<string>)
    ensures r.Some? <==> key in items
    ensures r.Some? ==> r.value == items[key]
  {
    if key in items then Some(items[key]) else None
  }

  /** `getItem("authToken") || getItem("token")`, with an empty string read
      as no token (both values are falsy then). */
  function Token(items: map<string, string>): (r: Option<string>)
    ensures r.Some? ==> r.value != ""
    ensures Truthy(Lookup(items, "authToken")) ==> r == Lookup(items, "authToken")
    ensures !Truthy(Lookup(items, "authToken")) && Truthy(Lookup(items, "token")) ==> r == Lookup(items, "token")
    ensures r.None? <==> !Truthy(Lookup(items, "authToken")) && !Truthy(Lookup(items, "token"))
  {
    if Truthy(Lookup(items, "authToken")) then Lookup(items, "authToken")
    else if Truthy(Lookup(items, "token")) then Lookup(items, "token")
    else None
  }

  /** Removing a set of keys: they are gone and every other key keeps its
      value. */
  function RemoveKeys(items: map<string, string>, keys: set<string>): (r: map<string, string>)
    ensures forall k :: k in keys ==> k !in r
    ensures forall k :: k !in keys ==> (k in r <==> k in items) && (k in r ==> r[k] == items[k])
  {
    items - keys
  }

  /** Removing five keys one at a time removes the set of them. */
  lemma RemoveOneByOne(m: map<string, string>, a: string, b: string, c: string, d: string, e: string)
    ensures m - {a} - {b} - {c} - {d} - {e} == RemoveKeys(m, {a, b, c, d, e})
  {
    var l := m - {a} - {b} - {c} - {d} - {e};
    var r := m - {a, b, c, d, e};
    assert forall k :: k in l <==> k in r;
    assert forall k :: k in l ==> l[k] == r[k];
  }

  class KeyValueStore {
    var items: map<string, string>

    constructor (initial: map<string, string>)
      ensures items == initial
    {
      items := initial;
    }

    function GetItem(key: string): Option<string>
      reads this
    {
      Lookup(items, key)
    }

    method SetItem(key: string, value: string)
      modifies this
      ensures items == old(items)[key := value]
    {
      items := items[key := value];
    }

    method RemoveItem(key: string)
      modifies this
      ensures items == old(items) - {key}
    {
      items := items - {key};
    }
  }
}
