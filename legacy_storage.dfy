/**
 * The older storage helpers: every entry saved as JSON (no filtering),
 * values read back with `JSON.parse` and no error handling, and the store
 * cleared key by key.
 */
module LegacyStorage {
  import opened Wrappers
  import opened JsValues
  import opened WebStorage
  import Storage

  /** The store after saving every entry of the record in order. */
  function SavedItems(items: map<string, string>, c: Codec, entries: seq<(string, Value)>): (r: map<string, string>)
    requires Faithful(c)
    ensures forall i :: 0 <= i < |entries| ==> entries[i].0 in r
  {
    if entries == [] then items
    else
      var prefix := entries[..|entries| - 1];
      var last := entries[|entries| - 1];
      assert forall i :: 0 <= i < |prefix| ==> prefix[i] == entries[i];
      SavedItems(items, c, prefix)[last.0 := StoredText(c, last.1)]
  }

  /** `saveItem`: every key of the record, `null` and `undefined` included. */
  method SaveItem(store: Store, c: Codec, entries: seq<(string, Value)>)
    requires Faithful(c)
    modifies store
    ensures store.items == SavedItems(old(store.items), c, entries)
  {
    var i := 0;
    while i < |entries|
      invariant 0 <= i <= |entries|
      invariant store.items == SavedItems(old(store.items), c, entries[..i])
    {
      assert entries[..i + 1][..i] == entries[..i];
      var text := StoredText(c, entries[i].1);
      assert SavedItems(old(store.items), c, entries[..i + 1]) == store.items[entries[i].0 := text];
      store.SetItem(entries[i].0, text);
      i := i + 1;
    }
    assert entries[..|entries|] == entries;
  }

  /**
   * `getItem`: `JSON.parse` of the stored text, where a missing entry is
   * the text "null"; None when parsing throws. The test for `undefined`
   * before it compares a string with `undefined` and never holds.
   */
  function GetItem(store: Store, c: Codec, key: string): (r: Option<Value>)
    requires Faithful(c)
    reads store
    ensures key !in store.items ==> r == Some(Null)
    ensures key in store.items ==> r == c.parse(store.items[key])
  {
    var text := match store.GetItem(key) case Some(t) => t case None => "null";
    assert c.stringify(Null) == Some("null") && IsJson(Null);
    c.parse(text)
  }

  /** Saving a JSON value, `null` included, and reading it back gives the value. */
  method SaveThenGet(store: Store, c: Codec, key: string, value: Value) returns (r: Option<Value>)
    requires Faithful(c) && IsJson(value)
    modifies store
    ensures r == Some(value)
  {
    SaveItem(store, c, [(key, value)]);
    r := GetItem(store, c, key);
  }

  /** Saving `undefined` stores its name, which `getItem` then fails to parse. */
  method SaveUndefinedThenGet(store: Store, c: Codec, key: string) returns (r: Option<Value>)
    requires Faithful(c)
    modifies store
    ensures r == None
  {
    SaveItem(store, c, [(key, Undefined)]);
    r := GetItem(store, c, key);
  }

  /** An empty stored text, which the newer helpers read as `null`, makes `getItem` throw here. */
  lemma EmptyTextThrows(store: Store, c: Codec, key: string)
    requires Faithful(c) && key in store.items && store.items[key] == ""
    ensures GetItem(store, c, key) == None
    ensures Storage.GetItem(store, c, key) == Null
  {
  }

  /** `removeItem`. */
  method RemoveItem(store: Store, key: string)
    modifies store
    ensures store.items == old(store.items) - {key}
  {
    store.RemoveItem(key);
  }

  /** `clearLocalStorageExceptKeys`: each key of the store in turn, removed unless listed. */
  method ClearLocalStorageExceptKeys(store: Store, keysToKeep: seq<string>)
    modifies store
    ensures store.items == Storage.Kept(old(store.items), keysToKeep)
  {
    var keys := store.items.Keys;
    while keys != {}
      invariant keys <= old(store.items).Keys
      invariant forall k :: k in store.items <==> k in old(store.items) && (k in keys || k in keysToKeep)
      invariant forall k :: k in store.items ==> store.items[k] == old(store.items)[k]
      decreases |keys|
    {
      var key :| key in keys;
      if key !in keysToKeep {
        store.RemoveItem(key);
      }
      keys := keys - {key};
    }
  }

  /** `clearLocalStorage`: each key of the store removed in turn. */
  method ClearLocalStorage(store: Store)
    modifies store
    ensures store.items == map[]
  {
    var keys := store.items.Keys;
    while keys != {}
      invariant store.items.Keys <= keys
      decreases |keys|
    {
      var key :| key in keys;
      store.RemoveItem(key);
      keys := keys - {key};
    }
  }
}
