/**
 * The renderer's storage helpers: JSON values saved under their keys,
 * read back with every failure turned into `null`, cleared wholesale or
 * all but a list of keys, and a "secure" area under a key prefix.
 */
module Storage {
  import opened Wrappers
  import opened Strings
  import opened JsValues
  import opened WebStorage

  /** The store after saving the record's entries in order, skipping `null` and `undefined` values. */
  function SavedItems(items: map<string, string>, c: Codec, entries: seq<(string, Value)>): (r: map<string, string>)
    requires Faithful(c)
  {
    if entries == [] then items
    else SaveEntry(SavedItems(items, c, entries[..|entries| - 1]), c, entries[|entries| - 1])
  }

  /** One entry saved: stored as JSON unless its value is `null` or `undefined`. */
  function SaveEntry(items: map<string, string>, c: Codec, entry: (string, Value)): map<string, string>
    requires Faithful(c)
  {
    if entry.1 != Undefined && entry.1 != Null then items[entry.0 := StoredText(c, entry.1)] else items
  }

  /** Saving touches only keys of the record that carry a value. */
  lemma {:induction false} SavedItemsFrame(items: map<string, string>, c: Codec, entries: seq<(string, Value)>, key: string)
    requires Faithful(c)
    requires forall i :: 0 <= i < |entries| && entries[i].0 == key ==> entries[i].1 == Undefined || entries[i].1 == Null
    ensures key in SavedItems(items, c, entries) <==> key in items
    ensures key in items ==> SavedItems(items, c, entries)[key] == items[key]
    decreases |entries|
  {
    if entries != [] {
      SavedItemsFrame(items, c, entries[..|entries| - 1], key);
    }
  }

  /** The last entry of the record for a key with a value decides what is stored under it. */
  lemma {:induction false} SavedItemsLast(items: map<string, string>, c: Codec, entries: seq<(string, Value)>, i: nat)
    requires Faithful(c)
    requires i < |entries| && entries[i].1 != Undefined && entries[i].1 != Null
    requires forall j :: i < j < |entries| ==> entries[j].0 != entries[i].0
    ensures entries[i].0 in SavedItems(items, c, entries)
    ensures SavedItems(items, c, entries)[entries[i].0] == StoredText(c, entries[i].1)
    decreases |entries|
  {
    if i < |entries| - 1 {
      SavedItemsLast(items, c, entries[..|entries| - 1], i);
    }
  }

  /** `saveItem`: each entry of the record whose value is neither `null` nor `undefined` is stored as JSON. */
  method SaveItem(store: Store, c: Codec, entries: seq<(string, Value)>)
    requires Faithful(c)
    modifies store
    ensures store.items == SavedItems(old(store.items), c, entries)
  {
    var i := 0;
    while i < |entries|
      invariant 0 <= i <= |entries|
      invariant store.items == SavedItems(old(store.items), c, entries[..i])
    {
      assert entries[..i + 1][..i] == entries[..i];
      ghost var before := store.items;
      var (key, value) := entries[i];
      if value != Undefined && value != Null {
        store.SetItem(key, StoredText(c, value));
      }
      assert store.items == SaveEntry(before, c, entries[i]);
      i := i + 1;
    }
    assert entries[..|entries|] == entries;
  }

  /** `getItem`: the parsed value, or `null` when the entry is missing, empty or not JSON. */
  function GetItem(store: Store, c: Codec, key: string): (r: Value)
    reads store
    ensures key !in store.items || store.items[key] == "" ==> r == Null
    ensures key in store.items && store.items[key] != "" ==>
              r == (if c.parse(store.items[key]).Some? then c.parse(store.items[key]).value else Null)
  {
    match store.GetItem(key)
    case None => Null
    case Some(item) =>
      if item == "" then Null
      else
        match c.parse(item)
        case Some(v) => v
        case None => Null
  }

  /** Saving a JSON value other than `null` and reading it back gives the value. */
  method SaveThenGet(store: Store, c: Codec, key: string, value: Value) returns (r: Value)
    requires Faithful(c) && IsJson(value) && value != Null
    modifies store
    ensures r == value
    ensures key in store.items && store.items[key] == StoredText(c, value)
  {
    SaveItem(store, c, [(key, value)]);
    SavedItemsLast(old(store.items), c, [(key, value)], 0);
    r := GetItem(store, c, key);
  }

  /** `removeItem`. */
  method RemoveItem(store: Store, key: string)
    modifies store
    ensures store.items == old(store.items) - {key}
  {
    store.RemoveItem(key);
  }

  /** The entries of the store whose keys are listed. */
  function Kept(items: map<string, string>, keysToKeep: seq<string>): (r: map<string, string>)
    ensures r.Keys == items.Keys * set k | k in keysToKeep
    ensures forall k :: k in r ==> r[k] == items[k]
  {
    map k | k in items && k in keysToKeep :: items[k]
  }

  /** `clearLocalStorageExceptKeys`: every key not listed is removed, in whatever order the store lists them. */
  method ClearLocalStorageExceptKeys(store: Store, keysToKeep: seq<string>)
    modifies store
    ensures store.items == Kept(old(store.items), keysToKeep)
  {
    var keysToRemove := set k | k in store.items && k !in keysToKeep;
    while keysToRemove != {}
      invariant forall k :: k in keysToRemove ==> k !in keysToKeep
      invariant forall k :: k in store.items <==> k in old(store.items) && (k in keysToRemove || k in keysToKeep)
      invariant forall k :: k in store.items ==> store.items[k] == old(store.items)[k]
      decreases |keysToRemove|
    {
      var key :| key in keysToRemove;
      store.RemoveItem(key);
      keysToRemove := keysToRemove - {key};
    }
  }

  /** `clearLocalStorage`. */
  method ClearLocalStorage(store: Store)
    modifies store
    ensures store.items == map[]
  {
    store.Clear();
  }

  const SECURE_PREFIX := "secure_"

  /** The key the secure area stores `key` under. */
  function SecureKey(key: string): (r: string)
    ensures StartsWith(r, SECURE_PREFIX) && r[|SECURE_PREFIX|..] == key
  {
    SECURE_PREFIX + key
  }

  /** Secure keys name their item uniquely. */
  lemma SecureKeyInjective(a: string, b: string)
    requires SecureKey(a) == SecureKey(b)
    ensures a == b
  {
    assert a == SecureKey(a)[|SECURE_PREFIX|..];
  }

  /** `secureStorage.setItem`: the JSON text under the prefixed key, `undefined` included as its name. */
  method SecureSetItem(store: Store, c: Codec, key: string, value: Value)
    requires Faithful(c)
    modifies store
    ensures store.items == old(store.items)[SecureKey(key) := StoredText(c, value)]
  {
    store.SetItem(SecureKey(key), StoredText(c, value));
  }

  /** `secureStorage.getItem`: `null` for a missing or empty entry, else the parsed text; None when parsing throws. */
  function SecureGetItem(store: Store, c: Codec, key: string): (r: Option<Value>)
    reads store
    ensures SecureKey(key) !in store.items || store.items[SecureKey(key)] == "" ==> r == Some(Null)
    ensures SecureKey(key) in store.items && store.items[SecureKey(key)] != "" ==> r == c.parse(store.items[SecureKey(key)])
  {
    match store.GetItem(SecureKey(key))
    case None => Some(Null)
    case Some(text) => if text == "" then Some(Null) else c.parse(text)
  }

  /** `secureStorage.removeItem`. */
  method SecureRemoveItem(store: Store, key: string)
    modifies store
    ensures store.items == old(store.items) - {SecureKey(key)}
  {
    store.RemoveItem(SecureKey(key));
  }

  /**
   * The secure area reads back what was put there, and leaves keys without
   * the prefix alone.
   */
  method SecureRoundTrip(store: Store, c: Codec, key: string, value: Value) returns (r: Option<Value>)
    requires Faithful(c) && IsJson(value)
    modifies store
    ensures r == Some(value)
    ensures forall k :: !StartsWith(k, SECURE_PREFIX) ==> (k in store.items <==> k in old(store.items))
    ensures forall k :: !StartsWith(k, SECURE_PREFIX) && k in store.items ==> store.items[k] == old(store.items)[k]
  {
    SecureSetItem(store, c, key, value);
    r := SecureGetItem(store, c, key);
  }

  /** A secure item stored as `undefined` cannot be read back: parsing it throws. */
  method SecureUndefinedThrows(store: Store, c: Codec, key: string) returns (r: Option<Value>)
    requires Faithful(c)
    modifies store
    ensures r == None
  {
    SecureSetItem(store, c, key, Undefined);
    r := SecureGetItem(store, c, key);
  }
}
