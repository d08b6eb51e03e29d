/** src/util.ts: the nonce generator, the disposal helper, the collection of
    webviews per resource and the mesh document. The same WebviewCollection
    class is repeated in src/MeshViewerProvider.ts and
    src/MeshEditorProvider.ts; this module models it once. */
module Util {
  import opened Js
  import opened Host

  // ---------------------------------------------------------------------
  // getNonce

  /** `n` consecutive characters from `start` on. */
  function CharRange(start: char, n: nat): (r: string)
    requires start as int + n <= 0xD800
    ensures |r| == n
    ensures forall i :: 0 <= i < n ==> r[i] == (start as int + i) as char
  {
    seq(n, i requires 0 <= i < n => (start as int + i) as char)
  }

  /** The 62 characters a nonce is drawn from, in the source's order:
      `A`..`Z`, then `a`..`z`, then `0`..`9`. */
  const NonceAlphabet: string := CharRange('A', 26) + CharRange('a', 26) + CharRange('0', 10)

  const NonceLength: nat := 32

  predicate IsAlphanumeric(c: char)
  {
    'A' <= c <= 'Z' || 'a' <= c <= 'z' || '0' <= c <= '9'
  }

  /** The alphabet is exactly the ASCII letters and digits, each once. */
  lemma AlphabetIsAlphanumeric()
    ensures |NonceAlphabet| == 62
    ensures forall c :: c in NonceAlphabet <==> IsAlphanumeric(c)
  {
    forall c | IsAlphanumeric(c) ensures c in NonceAlphabet {
      if 'A' <= c <= 'Z' {
        assert NonceAlphabet[c as int - 'A' as int] == c;
      } else if 'a' <= c <= 'z' {
        assert NonceAlphabet[26 + (c as int - 'a' as int)] == c;
      } else {
        assert NonceAlphabet[52 + (c as int - '0' as int)] == c;
      }
    }
  }

  /** getNonce. `Math.floor(Math.random() * 62)` is replaced by `draws`, the
      32 indices the random source would have produced; each is below 62
      because `Math.random()` is below 1. */
  method GetNonce(draws: seq<nat>) returns (text: string)
    requires |draws| == NonceLength
    requires forall i :: 0 <= i < |draws| ==> draws[i] < |NonceAlphabet|
    ensures |text| == NonceLength
    ensures forall i :: 0 <= i < |text| ==> text[i] == NonceAlphabet[draws[i]]
    ensures forall i :: 0 <= i < |text| ==> IsAlphanumeric(text[i])
  {
    AlphabetIsAlphanumeric();
    text := "";
    for i := 0 to NonceLength
      invariant |text| == i
      invariant forall k :: 0 <= k < i ==> text[k] == NonceAlphabet[draws[k]]
      invariant forall k :: 0 <= k < i ==> IsAlphanumeric(text[k])
    {
      text := text + [NonceAlphabet[draws[i]]];
    }
  }

  // ---------------------------------------------------------------------
  // disposeAll

  /** A disposable object, known by its identity. */
  type Disposable = nat

  /** A JavaScript array of disposables; `None` stands for a falsy slot. */
  class DisposableArray {
    var items: seq<Option<Disposable>>

    constructor (items: seq<Option<Disposable>>)
      ensures this.items == items
    {
      this.items := items;
    }
  }

  /** The order in which `disposeAll` calls `dispose()`: last element first,
      falsy slots skipped. */
  function DisposalOrder(items: seq<Option<Disposable>>): seq<Disposable>
  {
    if items == [] then []
    else
      var last := items[|items| - 1];
      (if last.Some? then [last.value] else []) + DisposalOrder(items[..|items| - 1])
  }

  /** disposeAll: pop every element; dispose each truthy one. Returns the
      disposables in the order their `dispose()` was called. */
  method DisposeAll(a: DisposableArray) returns (disposed: seq<Disposable>)
    modifies a
    ensures a.items == []
    ensures disposed == DisposalOrder(old(a.items))
  {
    disposed := [];
    while |a.items| > 0
      invariant disposed + DisposalOrder(a.items) == DisposalOrder(old(a.items))
      decreases |a.items|
    {
      var rest := a.items[..|a.items| - 1];
      var item := a.items[|a.items| - 1];
      ghost var popped := if item.Some? then [item.value] else [];
      assert DisposalOrder(a.items) == popped + DisposalOrder(rest);
      ghost var before := disposed;
      a.items := rest;
      if item.Some? {
        disposed := disposed + [item.value];
      }
      assert disposed + DisposalOrder(rest) == before + popped + DisposalOrder(rest) by {
        assert disposed == before + popped;
      }
    }
  }

  /** Disposal reverses insertion order: what was pushed later is disposed
      earlier. */
  lemma {:induction false} DisposalOrderOfAppend(front: seq<Option<Disposable>>, back: seq<Option<Disposable>>)
    ensures DisposalOrder(front + back) == DisposalOrder(back) + DisposalOrder(front)
    decreases |back|
  {
    if back == [] {
      assert front + back == front;
    } else {
      var b' := back[..|back| - 1];
      assert (front + back)[..|front + back| - 1] == front + b';
      assert (front + back)[|front + back| - 1] == back[|back| - 1];
      DisposalOrderOfAppend(front, b');
    }
  }

  /** Exactly the truthy slots are disposed, each as often as it occurs. */
  lemma {:induction false} DisposalOrderContents(items: seq<Option<Disposable>>)
    ensures forall d :: multiset(DisposalOrder(items))[d] == multiset(items)[Some(d)]
    ensures |DisposalOrder(items)| + multiset(items)[None] == |items|
    decreases |items|
  {
    if items != [] {
      var init := items[..|items| - 1];
      assert items == init + [items[|items| - 1]];
      DisposalOrderContents(init);
    }
  }

  // ---------------------------------------------------------------------
  // WebviewCollection

  /** One `{ resource, webviewPanel }` entry object; `id` stands for the
      identity of the object literal, fresh on every `add`. */
  datatype Entry = Entry(resource: string, panel: Panel, id: nat)

  /** The panels of the entries whose resource is `key`, in insertion order. */
  function PanelsFor(entries: seq<Entry>, key: string): seq<Panel>
  {
    if entries == [] then []
    else (if entries[0].resource == key then [entries[0].panel] else []) + PanelsFor(entries[1..], key)
  }

  /** `Set.delete(entry)`: the entries other than `e`, in order. */
  function Without(entries: seq<Entry>, e: Entry): (r: seq<Entry>)
    ensures forall x :: x in r <==> x in entries && x != e
    ensures |r| <= |entries|
  {
    if entries == [] then []
    else (if entries[0] == e then [] else [entries[0]]) + Without(entries[1..], e)
  }

  /** The entries' identities strictly increase (a Set never holds the same
      object twice) and stay below the next fresh identity. */
  ghost predicate WellFormedEntries(entries: seq<Entry>, nextId: nat)
  {
    (forall i, j :: 0 <= i < j < |entries| ==> entries[i].id < entries[j].id) &&
    (forall i :: 0 <= i < |entries| ==> entries[i].id < nextId)
  }

  class WebviewCollection {
    var entries: seq<Entry>
    var nextId: nat

    ghost predicate Valid()
      reads this
    {
      WellFormedEntries(entries, nextId)
    }

    constructor ()
      ensures Valid() && entries == []
    {
      entries := [];
      nextId := 0;
    }

    /** add: append a fresh entry for `uri.toString()`. The returned entry is
        the one the panel's `onDidDispose` listener will delete. */
    method Add(uri: Uri, panel: Panel) returns (e: Entry)
      requires Valid()
      modifies this
      ensures Valid()
      ensures e == Entry(UriString(uri), panel, old(nextId))
      ensures e !in old(entries)
      ensures entries == old(entries) + [e]
    {
      e := Entry(UriString(uri), panel, nextId);
      entries := entries + [e];
      nextId := nextId + 1;
    }

    /** get: the panels registered for `uri.toString()`, in insertion order. */
    method Get(uri: Uri) returns (panels: seq<Panel>)
      ensures panels == PanelsFor(entries, UriString(uri))
    {
      var key := UriString(uri);
      panels := [];
      var i := 0;
      while i < |entries|
        invariant 0 <= i <= |entries|
        invariant panels + PanelsFor(entries[i..], key) == PanelsFor(entries, key)
      {
        assert entries[i..][1..] == entries[i + 1..];
        if entries[i].resource == key {
          panels := panels + [entries[i].panel];
        }
        i := i + 1;
      }
    }

    /** The listener `add` registers on the panel's `onDidDispose`: delete
        that one entry. */
    method EntryDisposed(e: Entry)
      requires Valid()
      modifies this
      ensures Valid()
      ensures entries == Without(old(entries), e)
      ensures nextId == old(nextId)
    {
      WithoutKeepsOrder(entries, e, nextId);
      entries := Without(entries, e);
    }
  }

  /** Deleting an entry keeps the identities ordered and bounded. */
  lemma {:induction false} WithoutKeepsOrder(entries: seq<Entry>, e: Entry, nextId: nat)
    requires WellFormedEntries(entries, nextId)
    ensures WellFormedEntries(Without(entries, e), nextId)
    decreases |entries|
  {
    if entries != [] {
      WithoutKeepsOrder(entries[1..], e, nextId);
      var rest := Without(entries[1..], e);
      forall x | x in rest ensures entries[0].id < x.id {
        var j :| 0 <= j < |entries[1..]| && entries[1..][j] == x;
        assert entries[j + 1] == x;
      }
    }
  }

  /** Registering at the end adds that panel to the end of its resource's
      list and leaves every other resource's list as it was. */
  lemma {:induction false} PanelsForAppend(entries: seq<Entry>, e: Entry, key: string)
    ensures PanelsFor(entries + [e], key) == PanelsFor(entries, key) + (if e.resource == key then [e.panel] else [])
    decreases |entries|
  {
    if entries == [] {
      assert [e][1..] == [];
    } else {
      assert (entries + [e])[1..] == entries[1..] + [e];
      PanelsForAppend(entries[1..], e, key);
    }
  }

  /** Adding the same panel twice for one resource registers it twice: two
      distinct entries, both reported by `get`. */
  lemma AddTwiceYieldsTwice(entries: seq<Entry>, key: string, p: Panel, id1: nat, id2: nat)
    requires id1 != id2
    ensures Entry(key, p, id1) != Entry(key, p, id2)
    ensures PanelsFor(entries + [Entry(key, p, id1)] + [Entry(key, p, id2)], key) == PanelsFor(entries, key) + [p, p]
  {
    PanelsForAppend(entries, Entry(key, p, id1), key);
    PanelsForAppend(entries + [Entry(key, p, id1)], Entry(key, p, id2), key);
  }

  /** Deleting an entry of another resource does not change what `get`
      reports for `key`. */
  lemma {:induction false} WithoutOtherResource(entries: seq<Entry>, e: Entry, key: string)
    requires e.resource != key
    ensures PanelsFor(Without(entries, e), key) == PanelsFor(entries, key)
    decreases |entries|
  {
    if entries != [] {
      WithoutOtherResource(entries[1..], e, key);
      var rest := Without(entries[1..], e);
      if entries[0] == e {
        assert Without(entries, e) == rest;
        assert PanelsFor(entries, key) == PanelsFor(entries[1..], key);
      } else {
        assert Without(entries, e) == [entries[0]] + rest;
        assert ([entries[0]] + rest)[1..] == rest;
      }
    }
  }

  /** Deleting an entry that is not in the collection changes nothing. */
  lemma {:induction false} WithoutAbsent(entries: seq<Entry>, e: Entry)
    requires e !in entries
    ensures Without(entries, e) == entries
    decreases |entries|
  {
    if entries != [] {
      WithoutAbsent(entries[1..], e);
    }
  }

  /** Deleting an entry of the collection removes exactly that one: the
      entries before and after it stay, in order. */
  lemma {:induction false} WithoutPresent(entries: seq<Entry>, i: nat, nextId: nat)
    requires WellFormedEntries(entries, nextId)
    requires i < |entries|
    ensures Without(entries, entries[i]) == entries[..i] + entries[i + 1..]
    decreases i
  {
    if i == 0 {
      assert entries[0] !in entries[1..] by {
        forall j | 0 <= j < |entries[1..]| ensures entries[1..][j] != entries[0] {
          assert entries[1..][j].id == entries[j + 1].id;
        }
      }
      WithoutAbsent(entries[1..], entries[0]);
    } else {
      assert entries[0] != entries[i] by { assert entries[0].id < entries[i].id; }
      WithoutPresent(entries[1..], i - 1, nextId);
      assert entries[1..][..i - 1] == entries[1..i];
      assert entries[1..][i..] == entries[i + 1..];
      assert entries[..i] == [entries[0]] + entries[1..i];
    }
  }

  // ---------------------------------------------------------------------
  // MeshDocument

  class MeshDocument {
    const uri: Uri
    /** The event emitters standing for `_onDidDispose` and `_onDidChangeDocument`. */
    const onDidDispose: Disposable
    const onDidChangeDocument: Disposable
    var isDisposed: bool
    var disposables: DisposableArray
    /** Every `dispose()` this document has called, in order. */
    var disposed: seq<Disposable>
    /** How many times `_onDidDispose.fire()` has been called. */
    var disposeEventsFired: nat

    /** Once disposed, the document holds no disposables. */
    ghost predicate Valid()
      reads this, disposables
    {
      isDisposed ==> disposables.items == []
    }

    /** The constructor: the field initialisers register the two emitters. */
    constructor (uri: Uri, onDidDispose: Disposable, onDidChangeDocument: Disposable)
      ensures Valid() && fresh(disposables)
      ensures this.uri == uri && this.onDidDispose == onDidDispose && this.onDidChangeDocument == onDidChangeDocument
      ensures !isDisposed && disposed == [] && disposeEventsFired == 0
      ensures disposables.items == [Some(onDidDispose), Some(onDidChangeDocument)]
    {
      this.uri := uri;
      this.onDidDispose := onDidDispose;
      this.onDidChangeDocument := onDidChangeDocument;
      isDisposed := false;
      disposed := [];
      disposeEventsFired := 0;
      disposables := new DisposableArray([Some(onDidDispose), Some(onDidChangeDocument)]);
    }

    /** dispose: fire `onDidDispose` on every call; dispose the registered
        values only on the first. */
    method Dispose()
      requires Valid()
      modifies this, disposables
      ensures Valid() && disposables == old(disposables)
      ensures disposeEventsFired == old(disposeEventsFired) + 1
      ensures isDisposed
      ensures old(isDisposed) ==> disposed == old(disposed) && disposables.items == old(disposables.items)
      ensures !old(isDisposed) ==> disposed == old(disposed) + DisposalOrder(old(disposables.items))
      ensures disposables.items == []
    {
      disposeEventsFired := disposeEventsFired + 1;
      if isDisposed {
        return;
      }
      isDisposed := true;
      var order := DisposeAll(disposables);
      disposed := disposed + order;
    }

    /** _register: keep `value` while the document is live, dispose it on the
        spot once it is disposed; either way hand it back. */
    method Register(value: Disposable) returns (r: Disposable)
      requires Valid()
      modifies this, disposables
      ensures Valid() && disposables == old(disposables)
      ensures r == value
      ensures isDisposed == old(isDisposed) && disposeEventsFired == old(disposeEventsFired)
      ensures old(isDisposed) ==> disposed == old(disposed) + [value] && disposables.items == old(disposables.items)
      ensures !old(isDisposed) ==> disposed == old(disposed) && disposables.items == old(disposables.items) + [Some(value)]
    {
      if isDisposed {
        disposed := disposed + [value];
      } else {
        disposables.items := disposables.items + [Some(value)];
      }
      r := value;
    }
  }
}
