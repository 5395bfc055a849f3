/**
 * The namespaced key/value store of app/scripts/lib/storage.js.
 *
 * Every caller key is stored under "__fxa_storage." + key in a backend
 * (window.localStorage, or the in-memory NullStorage when that is not
 * usable). Values are written as JSON text and read back with the parse
 * errors swallowed. The backend is a class whose entries the store's
 * methods update in place; Read, Written and Erased say, on the backend's
 * entries, what get returns and what set and remove leave behind, and the
 * lemmas below state the store's guarantees in those terms.
 */
module KeyValueStorage {
  import opened Wrappers
  import opened JsonText

  const Namespace: string := "__fxa_storage"

  /** The sentinel entry the availability probe writes and removes. */
  const ProbeKey: string := "local-storage-test"

  /** The backend key a caller key is stored under. */
  function FullKey(key: string): (fk: string)
    ensures |fk| == |Namespace| + 1 + |key|
    ensures fk[..|Namespace| + 1] == Namespace + "."
    ensures fk[|Namespace| + 1..] == key
  {
    Namespace + "." + key
  }

  /** Distinct caller keys never share a backend entry. */
  lemma FullKeyInjective(a: string, b: string)
    ensures FullKey(a) == FullKey(b) <==> a == b
  {
    if FullKey(a) == FullKey(b) {
      calc {
        a;
        FullKey(a)[|Namespace| + 1..];
        FullKey(b)[|Namespace| + 1..];
        b;
      }
    }
  }

  /** The probe's sentinel lies outside the namespace. */
  lemma ProbeKeyOutsideNamespace(key: string)
    ensures FullKey(key) != ProbeKey
  {
    assert FullKey(key)[0] == '_';
    assert ProbeKey[0] == 'l';
  }

  // ----- values as stored text -----

  /** What a caller stores: a JSON value, or undefined (None). */
  type Value = Option<Json>

  /** The text setItem receives for a value: JSON.stringify(undefined) is
      undefined, which the backend turns into the text "undefined". */
  function Serialise(v: Value): (text: string)
    ensures Decode(text) == v
  {
    match v
    case None => UndefinedTextDoesNotParse(); "undefined"
    case Some(j) => DecodeEncode(j); Encode(j)
  }

  /** What get returns for key when the backend holds items. A missing
      entry reads as null, because getItem gives null and JSON.parse(null)
      parses the text "null"; text that does not parse reads as undefined. */
  function Read(items: map<string, string>, key: string): Value
  {
    var text := if FullKey(key) in items then items[FullKey(key)] else "null";
    Decode(text)
  }

  /** The backend's entries after set(key, v). */
  function Written(items: map<string, string>, key: string, v: Value): map<string, string>
  {
    items[FullKey(key) := Serialise(v)]
  }

  /** The backend's entries after remove(key). */
  function Erased(items: map<string, string>, key: string): map<string, string>
  {
    items - {FullKey(key)}
  }

  lemma UndefinedTextDoesNotParse()
    ensures Decode("undefined") == None
  {
    assert SkipSpace("undefined") == "undefined";
    assert DigitRun("undefined") == 0;
    assert "undefined"[..4][0] != "null"[0];
    assert "undefined"[..4][0] != "true"[0];
    assert "undefined"[..5][0] != "false"[0];
  }

  lemma NullTextParses()
    ensures Decode("null") == Some(JNull)
  {
    assert SkipSpace("null") == "null";
    assert "null"[..4] == "null" && "null"[4..] == [];
  }

  /** set(key, v) then get(key) gives v back, for every value, undefined included. */
  lemma ReadAfterWrite(items: map<string, string>, key: string, v: Value)
    ensures Read(Written(items, key, v), key) == v
  {
    match v
    case None => UndefinedTextDoesNotParse();
    case Some(j) => DecodeEncode(j);
  }

  /** set(key, v) leaves what every other caller key reads unchanged. */
  lemma ReadOtherAfterWrite(items: map<string, string>, key: string, v: Value, other: string)
    requires other != key
    ensures Read(Written(items, key, v), other) == Read(items, other)
  {
    FullKeyInjective(key, other);
  }

  /** After remove(key), get(key) gives the backend's absence result, null. */
  lemma ReadAfterErase(items: map<string, string>, key: string)
    ensures Read(Erased(items, key), key) == Some(JNull)
  {
    NullTextParses();
  }

  /** Removing a key twice is the same as removing it once. */
  lemma EraseIdempotent(items: map<string, string>, key: string)
    ensures Erased(Erased(items, key), key) == Erased(items, key)
  {
  }

  /** An entry whose text does not parse reads as undefined; get does not fail. */
  lemma ReadOfUnparsableEntry(items: map<string, string>, key: string, text: string)
    requires Decode(text) == None
    ensures Read(items[FullKey(key) := text], key) == None
  {
  }

  /** Writing or removing the probe's sentinel changes what no caller key reads. */
  lemma ProbeInvisible(items: map<string, string>, key: string)
    ensures Read(items - {ProbeKey}, key) == Read(items, key)
    ensures Read(items[ProbeKey := ProbeKey], key) == Read(items, key)
  {
    ProbeKeyOutsideNamespace(key);
  }

  /** After clear, every caller key reads as null. */
  lemma ReadAfterClear(key: string)
    ensures Read(map[], key) == Some(JNull)
  {
    NullTextParses();
  }

  // ----- backends -----

  datatype BackendKind = LocalStorage | NullStorage

  /** A storage backend: window.localStorage or a NullStorage, seen through
      the getItem / setItem / removeItem / clear interface. */
  class Backend {
    const kind: BackendKind
    var items: map<string, string>

    constructor (kind: BackendKind, items: map<string, string>)
      ensures this.kind == kind && this.items == items
    {
      this.kind := kind;
      this.items := items;
    }

    method GetItem(key: string) returns (r: Option<string>)
      ensures r == if key in items then Some(items[key]) else None
    {
      r := if key in items then Some(items[key]) else None;
    }

    method SetItem(key: string, value: string)
      modifies this
      ensures items == old(items)[key := value]
    {
      items := items[key := value];
    }

    method RemoveItem(key: string)
      modifies this
      ensures items == old(items) - {key}
    {
      items := items - {key};
    }

    method Clear()
      modifies this
      ensures items == map[]
    {
      items := map[];
    }
  }

  // ----- the store -----

  class Storage {
    const backend: Backend

    /** `backend || new NullStorage()`. */
    constructor (backend: Option<Backend>)
      ensures backend.Some? ==> this.backend == backend.value
      ensures backend.None? ==> fresh(this.backend) && this.backend.kind == NullStorage && this.backend.items == map[]
    {
      if backend.Some? {
        this.backend := backend.value;
      } else {
        this.backend := new Backend(NullStorage, map[]);
      }
    }

    method Get(key: string) returns (v: Value)
      ensures v == Read(backend.items, key)
    {
      var raw := backend.GetItem(FullKey(key));
      var text := if raw.Some? then raw.value else "null";
      v := Decode(text);
    }

    method Set(key: string, v: Value)
      modifies backend
      ensures backend.items == Written(old(backend.items), key, v)
      ensures forall k | k != FullKey(key) :: (k in backend.items <==> k in old(backend.items))
      ensures forall k | k != FullKey(key) && k in backend.items :: backend.items[k] == old(backend.items)[k]
    {
      backend.SetItem(FullKey(key), Serialise(v));
    }

    method Remove(key: string)
      modifies backend
      ensures backend.items == Erased(old(backend.items), key)
      ensures FullKey(key) !in backend.items
      ensures forall k | k != FullKey(key) :: (k in backend.items <==> k in old(backend.items))
      ensures forall k | k != FullKey(key) && k in backend.items :: backend.items[k] == old(backend.items)[k]
    {
      backend.RemoveItem(FullKey(key));
    }

    /** Empties the whole backend, entries outside the namespace included. */
    method Clear()
      modifies backend
      ensures backend.items == map[]
    {
      backend.Clear();
    }

    method IsNull() returns (b: bool)
      ensures b <==> backend.kind == NullStorage
    {
      b := backend.kind == NullStorage;
    }
  }

  // ----- backend selection -----

  /** The part of the browser window the probe touches. storageWritable
      says whether using window.localStorage succeeds or throws (storage
      disabled, quota exhausted, private browsing). */
  class Window {
    const localStorage: Backend
    const storageWritable: bool

    constructor (items: map<string, string>, storageWritable: bool)
      ensures fresh(localStorage) && localStorage.kind == LocalStorage && localStorage.items == items
      ensures this.storageWritable == storageWritable
    {
      localStorage := new Backend(LocalStorage, items);
      this.storageWritable := storageWritable;
    }
  }

  /** Writes then removes the sentinel; an exception makes it report false. */
  method IsLocalStorageEnabled(win: Window) returns (enabled: bool)
    modifies win.localStorage
    ensures enabled == win.storageWritable
    ensures win.localStorage.items == if enabled then old(win.localStorage.items) - {ProbeKey} else old(win.localStorage.items)
  {
    if !win.storageWritable {
      return false;
    }
    win.localStorage.SetItem(ProbeKey, ProbeKey);
    win.localStorage.RemoveItem(ProbeKey);
    return true;
  }

  /** Picks localStorage only when asked for it and the probe succeeds. */
  method Factory(storageType: string, win: Window) returns (s: Storage)
    requires win.localStorage.kind == LocalStorage
    modifies win.localStorage
    ensures fresh(s)
    ensures storageType == "localStorage" && win.storageWritable ==> s.backend == win.localStorage
    ensures s.backend.kind == NullStorage <==> !(storageType == "localStorage" && win.storageWritable)
    ensures s.backend.kind == NullStorage ==> fresh(s.backend) && s.backend.items == map[]
    ensures win.localStorage.items ==
      if storageType == "localStorage" && win.storageWritable
      then old(win.localStorage.items) - {ProbeKey}
      else old(win.localStorage.items)
  {
    var enabled := false;
    if storageType == "localStorage" {
      enabled := IsLocalStorageEnabled(win);
    }
    if enabled {
      s := new Storage(Some(win.localStorage));
    } else {
      s := new Storage(None);
    }
  }
}
