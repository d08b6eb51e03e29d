/** media/editor/js/Config-MemStorage.js: the editor's settings store. A
    `MemStorage` object stands in for `localStorage` on `window.memStorage`;
    `Config(name)` keeps the settings table and persists it, as JSON text,
    under `name`. */
module MemStorageConfig {
  import opened Js

  /** The methods every MemStorage inherits from `MemStorage.prototype`. */
  const StorageMethods: set<string> := {"setItem", "getItem", "removeItem", "clear"}

  /** Names `this[name]` finds on the prototype chain of a MemStorage. */
  const InheritedNames: set<string> := StorageMethods + ObjectPrototypeMethods

  class MemStorage {
    /** The own properties. */
    var props: Table

    constructor ()
      ensures props == map[]
    {
      props := map[];
    }

    /** `this[name]`: an own property, else an inherited method, else the
        prototype for `__proto__`, else `undefined`. */
    function Get(name: string): (v: Value)
      reads this
      ensures v != VUndefined <==>
        (name in props && props[name] != VUndefined) || (name !in props && (name in InheritedNames || name == ProtoKey))
      ensures name in props ==> v == props[name]
      ensures name !in props ==> (IsFunction(v) <==> name in InheritedNames)
    {
      if name in props then props[name]
      else if name in InheritedNames then VFunc(name)
      else if name == ProtoKey then VPrototype
      else VUndefined
    }

    /** setItem: an own property `name` now holds `value`. */
    method SetItem(name: string, value: Value)
      modifies this
      ensures props == old(props)[name := value]
      ensures Get(name) == value
    {
      props := props[name := value];
    }

    /** getItem */
    method GetItem(name: string) returns (v: Value)
      ensures v == Get(name)
    {
      v := Get(name);
    }

    /** removeItem: the property is deleted only when `this[name]` is truthy
        and not a function; falsy values stay, and so do the methods. */
    method RemoveItem(name: string)
      modifies this
      ensures Truthy(old(Get(name))) && !IsFunction(old(Get(name))) ==> props == old(props) - {name}
      ensures !(Truthy(old(Get(name))) && !IsFunction(old(Get(name)))) ==> props == old(props)
    {
      var v := Get(name);
      if Truthy(v) && !IsFunction(v) {
        props := props - {name};
      }
    }

    /** clear: `for (name in this)` visits the own properties and the four
        enumerable prototype methods, and deletes each name for which
        `this.hasOwnProperty(name)` holds. An own `hasOwnProperty` that is not
        a function makes the first call raise TypeError (`ok` false) before
        anything is deleted. The inherited names are never own, so they are
        not shown to the loop here. */
    method Clear() returns (ok: bool)
      modifies this
      ensures ok <==> !("hasOwnProperty" in old(props) && !IsFunction(old(props)["hasOwnProperty"]))
      ensures ok ==> props == map[]
      ensures !ok ==> props == old(props)
    {
      if "hasOwnProperty" in props && !IsFunction(props["hasOwnProperty"]) {
        return false;
      }
      ghost var visited: set<string> := {};
      while props != map[]
        invariant props.Keys !! visited
        invariant props.Keys + visited == old(props).Keys
        invariant forall k :: k in props ==> props[k] == old(props)[k]
        decreases |props.Keys|
      {
        var name :| name in props;
        props := props - {name};
        visited := visited + {name};
      }
      ok := true;
    }
  }

  /** The browser window, as far as the store sees it. */
  class Window {
    var memStorage: MemStorage

    constructor (memStorage: MemStorage)
      ensures this.memStorage == memStorage
    {
      this.memStorage := memStorage;
    }
  }

  /** The settings table `Config` starts from. */
  const Defaults: Table := map[
    "autosave" := VBool(true),
    "theme" := VStr("editor/css/light.css"),
    "project/title" := VStr(""),
    "project/editable" := VBool(false),
    "project/renderer" := VStr("WebGLRenderer"),
    "project/renderer/antialias" := VBool(true),
    "project/renderer/gammaInput" := VBool(false),
    "project/renderer/gammaOutput" := VBool(false),
    "project/renderer/shadows" := VBool(true),
    "project/vr" := VBool(false),
    "settings/history" := VBool(false)
  ]

  /** The value of the pair whose key is at index `i` of `setKey`'s
      arguments: `arguments[i + 1]`, `undefined` past the end. */
  function PairValue(args: seq<Value>, i: nat): Value
    requires i < |args|
  {
    if i + 1 < |args| then args[i + 1] else VUndefined
  }

  /** The table after `storage[args[i]] = args[i + 1]` for i = 0, 2, 4, … */
  function AssignPairs(t: Table, args: seq<Value>): Table
    decreases |args|
  {
    if args == [] then t
    else if |args| == 1 then t[PropertyKey(args[0]) := VUndefined]
    else AssignPairs(t[PropertyKey(args[0]) := args[1]], args[2..])
  }

  /** A key that no pair names keeps its value. */
  lemma {:induction false} AssignPairsUntouched(t: Table, args: seq<Value>, k: string)
    requires forall i :: 0 <= i < |args| && i % 2 == 0 ==> PropertyKey(args[i]) != k
    ensures k in AssignPairs(t, args) <==> k in t
    ensures k in t ==> AssignPairs(t, args)[k] == t[k]
    decreases |args|
  {
    if |args| >= 2 {
      assert PropertyKey(args[0]) != k;
      forall i | 0 <= i < |args[2..]| && i % 2 == 0 ensures PropertyKey(args[2..][i]) != k {
        assert args[2..][i] == args[i + 2];
      }
      AssignPairsUntouched(t[PropertyKey(args[0]) := args[1]], args[2..], k);
    } else if |args| == 1 {
      assert PropertyKey(args[0]) != k;
    }
  }

  /** The last pair naming a key decides its value. */
  lemma {:induction false} AssignPairsLastWins(t: Table, args: seq<Value>, i: nat)
    requires i < |args| && i % 2 == 0
    requires forall j :: i < j < |args| && j % 2 == 0 ==> PropertyKey(args[j]) != PropertyKey(args[i])
    ensures PropertyKey(args[i]) in AssignPairs(t, args)
    ensures AssignPairs(t, args)[PropertyKey(args[i])] == PairValue(args, i)
    decreases |args|
  {
    var k := PropertyKey(args[i]);
    if i == 0 {
      if |args| >= 2 {
        forall j | 0 <= j < |args[2..]| && j % 2 == 0 ensures PropertyKey(args[2..][j]) != k {
          assert args[2..][j] == args[j + 2];
        }
        AssignPairsUntouched(t[k := args[1]], args[2..], k);
      }
    } else {
      assert |args| >= 2;
      assert args[2..][i - 2] == args[i];
      forall j | i - 2 < j < |args[2..]| && j % 2 == 0 ensures PropertyKey(args[2..][j]) != k {
        assert args[2..][j] == args[j + 2];
      }
      AssignPairsLastWins(t[PropertyKey(args[0]) := args[1]], args[2..], i - 2);
      assert PairValue(args[2..], i - 2) == PairValue(args, i);
    }
  }

  /** `for (key in data) storage[key] = data[key]`: every key of `data`
      overrides, every other key of `storage` keeps its value. */
  method MergeKeys(storage: Table, data: Table) returns (r: Table)
    ensures r.Keys == storage.Keys + data.Keys
    ensures forall k :: k in data ==> r[k] == data[k]
    ensures forall k :: k in storage && k !in data ==> r[k] == storage[k]
  {
    r := storage;
    var pending := data.Keys;
    ghost var done: set<string> := {};
    while pending != {}
      invariant pending !! done && pending + done == data.Keys
      invariant r.Keys == storage.Keys + done
      invariant forall k :: k in r ==> r[k] == if k in done then data[k] else storage[k]
      decreases pending
    {
      var key :| key in pending;
      r := r[key := data[key]];
      pending := pending - {key};
      done := done + {key};
    }
  }

  /** The object `Config(name)` returns, with the `storage` table its
      closures share. */
  class Config {
    const name: string
    const window: Window
    var storage: Table

    constructor (window: Window, name: string)
      ensures this.window == window && this.name == name && storage == Defaults
    {
      this.window := window;
      this.name := name;
      storage := Defaults;
    }

    /** The body of `Config` after the fresh `window.memStorage` and the
        default table are in place: store the defaults when nothing is
        under `name`, otherwise parse what is there and copy its keys over
        the defaults. `ok` is false when `JSON.parse` raises. */
    method Load() returns (ok: bool)
      modifies this, window.memStorage
      ensures window.memStorage == old(window.memStorage)
      ensures old(window.memStorage.Get(name)) == VUndefined ==>
        ok && storage == old(storage) && window.memStorage.props == old(window.memStorage.props)[name := VJson(old(storage))]
      ensures old(window.memStorage.Get(name)) != VUndefined ==>
        window.memStorage.props == old(window.memStorage.props) &&
        match ParseJson(old(window.memStorage.Get(name)))
        case None => !ok && storage == old(storage)
        case Some(data) =>
          (ok && storage.Keys == old(storage).Keys + data.Keys &&
           (forall k :: k in data ==> storage[k] == data[k]) &&
           (forall k :: k in old(storage) && k !in data ==> storage[k] == old(storage)[k]))
    {
      var stored := window.memStorage.Get(name);
      if stored == VUndefined {
        window.memStorage.props := window.memStorage.props[name := VJson(storage)];
        return true;
      }
      var parsed := ParseJson(stored);
      if parsed.None? {
        return false;
      }
      storage := MergeKeys(storage, parsed.value);
      ok := true;
    }

    /** getKey: `storage[key]` */
    function GetKey(key: string): (v: Value)
      reads this
      ensures v != VUndefined <==>
        (key in storage && storage[key] != VUndefined) ||
        (key !in storage && (key in ObjectPrototypeMethods || key == ProtoKey))
      ensures key in storage ==> v == storage[key]
      ensures key !in storage ==> (IsFunction(v) <==> key in ObjectPrototypeMethods)
      ensures key !in storage && key == ProtoKey ==> v == VPrototype
    {
      PlainGet(storage, key)
    }

    /** setKey(k1, v1, k2, v2, …): assign the pairs in order, then persist
        the whole table under `name`. */
    method SetKey(args: seq<Value>)
      modifies this, window.memStorage
      ensures window.memStorage == old(window.memStorage)
      ensures storage == AssignPairs(old(storage), args)
      ensures window.memStorage.props == old(window.memStorage.props)[name := VJson(storage)]
    {
      var i := 0;
      while i < |args|
        invariant 0 <= i
        invariant i <= |args| || i == |args| + 1
        invariant AssignPairs(storage, if i <= |args| then args[i..] else []) == AssignPairs(old(storage), args)
        invariant window.memStorage.props == old(window.memStorage.props)
        decreases |args| - i + 1
      {
        var rest := args[i..];
        assert rest[0] == args[i];
        if i + 1 < |args| {
          assert rest[1] == args[i + 1];
          assert rest[2..] == if i + 2 <= |args| then args[i + 2..] else [];
        }
        storage := storage[PropertyKey(args[i]) := PairValue(args, i)];
        i := i + 2;
      }
      window.memStorage.props := window.memStorage.props[name := VJson(storage)];
    }

    /** clear: delete what is persisted under `name`; the table the closures
        share is untouched. */
    method Clear()
      modifies window.memStorage
      ensures window.memStorage.props == old(window.memStorage.props) - {name}
    {
      window.memStorage.props := window.memStorage.props - {name};
    }
  }

  /** `Config(name)`: install a fresh MemStorage on the window, then load.
      A fresh MemStorage holds nothing, so the defaults are stored, except
      for the names it inherits: there `JSON.parse` gets a function, or the
      prototype object for `__proto__`, and raises, and the call returns no
      object (`ok` false). */
  method NewConfig(window: Window, name: string) returns (config: Config, ok: bool)
    modifies window
    ensures fresh(config) && fresh(window.memStorage)
    ensures config.window == window && config.name == name
    ensures ok <==> name !in InheritedNames && name != ProtoKey
    ensures ok ==> config.storage == Defaults && window.memStorage.props == map[name := VJson(Defaults)]
  {
    window.memStorage := new MemStorage();
    config := new Config(window, name);
    ok := config.Load();
  }

  /** After `setKey(k, v)`, `getKey(k)` is `v`. */
  lemma SetKeyThenGetKey(t: Table, k: string, v: Value)
    ensures PlainGet(AssignPairs(t, [VStr(k), v]), k) == v
  {
    assert [VStr(k), v][2..] == [];
  }
}
