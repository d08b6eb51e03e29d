/** src/contentProvider.ts: the `3dviewer.openInViewer` preview panels. A
    single `ViewerProvider` instance (the static `s_instance`, held here by a
    `Registry`) keeps the list of open `ViewerPanel`s, revealing the panel
    of a URI that is already open instead of opening a second one. */
module ContentProvider {
  import opened Js
  import opened Host
  import opened Html

  /** A `ViewerPanel`: `id` is the identity of the panel object, `fileUri`
      the file it shows. */
  datatype Viewer = Viewer(id: nat, fileUri: Uri)

  /** What the open command did. */
  datatype OpenOutcome = Ignored | Revealed(viewer: Viewer) | Opened(viewer: Viewer)

  /** No two viewers show the same URI string. */
  ghost predicate DistinctUris(vs: seq<Viewer>)
  {
    forall i, j :: 0 <= i < j < |vs| ==> UriString(vs[i].fileUri) != UriString(vs[j].fileUri)
  }

  /** The panel identities, in list order. */
  function Ids(vs: seq<Viewer>): (r: seq<nat>)
    ensures |r| == |vs| && forall i :: 0 <= i < |vs| ==> r[i] == vs[i].id
  {
    seq(|vs|, i requires 0 <= i < |vs| => vs[i].id)
  }

  /** `indexOf` then `splice(index, 1)` when found: the first occurrence of
      `v` removed. */
  function RemoveFirst(vs: seq<Viewer>, v: Viewer): (r: seq<Viewer>)
    decreases |vs|
  {
    if vs == [] then []
    else if vs[0] == v then vs[1..]
    else [vs[0]] + RemoveFirst(vs[1..], v)
  }

  /** The result of removing each of `gone`, in order. */
  function RemoveEach(vs: seq<Viewer>, gone: seq<Viewer>): seq<Viewer>
    decreases |gone|
  {
    if gone == [] then vs
    else RemoveFirst(RemoveEach(vs, gone[..|gone| - 1]), gone[|gone| - 1])
  }

  /** Splicing out the first occurrence found by `indexOf` is `RemoveFirst`. */
  lemma {:induction false} SpliceIsRemoveFirst(vs: seq<Viewer>, v: Viewer, i: nat)
    requires i < |vs| && vs[i] == v && v !in vs[..i]
    ensures RemoveFirst(vs, v) == vs[..i] + vs[i + 1..]
    decreases i
  {
    if i > 0 {
      assert vs[0] in vs[..i];
      assert vs[1..][..i - 1] == vs[1..i];
      assert v !in vs[1..][..i - 1];
      SpliceIsRemoveFirst(vs[1..], v, i - 1);
      assert vs[..i] == [vs[0]] + vs[1..i];
      assert vs[1..][i..] == vs[i + 1..];
    }
  }

  /** Removing a viewer that is not there changes nothing. */
  lemma {:induction false} RemoveFirstAbsent(vs: seq<Viewer>, v: Viewer)
    requires v !in vs
    ensures RemoveFirst(vs, v) == vs
    decreases |vs|
  {
    if vs != [] {
      assert vs[0] != v;
      RemoveFirstAbsent(vs[1..], v);
    }
  }

  /** Removal drops exactly one occurrence when there is one and adds
      nothing. */
  lemma {:induction false} RemoveFirstContents(vs: seq<Viewer>, v: Viewer)
    ensures multiset(RemoveFirst(vs, v)) == multiset(vs) - multiset{v}
    decreases |vs|
  {
    if vs != [] {
      RemoveFirstContents(vs[1..], v);
      assert vs == [vs[0]] + vs[1..];
    }
  }

  /** Splicing one viewer out keeps the others distinct by URI. */
  lemma DistinctSplice(vs: seq<Viewer>, i: nat)
    requires i < |vs| && DistinctUris(vs)
    ensures DistinctUris(vs[..i] + vs[i + 1..])
  {
    var r := vs[..i] + vs[i + 1..];
    forall a, b | 0 <= a < b < |r| ensures UriString(r[a].fileUri) != UriString(r[b].fileUri) {
      var a' := if a < i then a else a + 1;
      var b' := if b < i then b else b + 1;
      assert r[a] == vs[a'] && r[b] == vs[b'];
    }
  }

  /** The static side of the class: `s_instance`, plus the identity source
      for new panels and a log of the panel calls the model cares about. */
  class Registry {
    var instance: ViewerProvider?
    var nextViewerId: nat
    /** The panels disposed so far, in order. */
    var closed: seq<nat>
    /** The panels `reveal()` was called on, in order. */
    var revealed: seq<nat>

    constructor ()
      ensures instance == null && nextViewerId == 0 && closed == [] && revealed == []
    {
      instance := null;
      nextViewerId := 0;
      closed := [];
      revealed := [];
    }
  }

  /** `for (const v of viewers) if (v.fileUri.toString() === key) …`: the
      index of the first viewer showing `key`, or -1. */
  method FindViewer(vs: seq<Viewer>, key: string) returns (idx: int)
    ensures -1 <= idx < |vs|
    ensures idx >= 0 ==> UriString(vs[idx].fileUri) == key
    ensures idx >= 0 ==> forall j :: 0 <= j < idx ==> UriString(vs[j].fileUri) != key
    ensures idx == -1 ==> forall j :: 0 <= j < |vs| ==> UriString(vs[j].fileUri) != key
  {
    var i := 0;
    while i < |vs|
      invariant 0 <= i <= |vs|
      invariant forall j :: 0 <= j < i ==> UriString(vs[j].fileUri) != key
    {
      if UriString(vs[i].fileUri) == key {
        return i;
      }
      i := i + 1;
    }
    idx := -1;
  }

  /** `Array.prototype.indexOf` by identity. */
  method IndexOf(vs: seq<Viewer>, v: Viewer) returns (idx: int)
    ensures -1 <= idx < |vs|
    ensures idx >= 0 ==> vs[idx] == v && v !in vs[..idx]
    ensures idx == -1 ==> v !in vs
  {
    var i := 0;
    while i < |vs|
      invariant 0 <= i <= |vs|
      invariant v !in vs[..i]
    {
      if vs[i] == v {
        return i;
      }
      assert vs[..i + 1] == vs[..i] + [vs[i]];
      i := i + 1;
    }
    assert vs[..i] == vs;
    idx := -1;
  }

  /** removeViewer (static): splice the viewer out of the current
      instance's list; nothing happens without an instance or when the
      viewer is not listed. */
  method RemoveViewer(registry: Registry, v: Viewer)
    modifies registry.instance
    ensures registry.instance == old(registry.instance)
    ensures registry.instance != null ==> registry.instance.viewers == RemoveFirst(old(registry.instance.viewers), v)
    ensures registry.instance != null ==> registry.instance.commandsRegistered == old(registry.instance.commandsRegistered)
    ensures registry.instance != null && old(registry.instance.Valid()) ==> registry.instance.Valid()
  {
    if registry.instance != null {
      var p := registry.instance;
      var idx := IndexOf(p.viewers, v);
      if idx > -1 {
        SpliceIsRemoveFirst(p.viewers, v, idx);
        if p.Valid() {
          DistinctSplice(p.viewers, idx);
        }
        p.viewers := p.viewers[..idx] + p.viewers[idx + 1..];
      } else {
        RemoveFirstAbsent(p.viewers, v);
      }
    }
  }

  /** `panel.dispose()` on a viewer's panel: VS Code fires the panel's
      `onDidDispose` at once, and the listener the `ViewerPanel` constructor
      registered removes the viewer from the current instance. */
  method DisposePanel(registry: Registry, v: Viewer)
    modifies registry, registry.instance
    ensures registry.instance == old(registry.instance)
    ensures registry.closed == old(registry.closed) + [v.id]
    ensures registry.nextViewerId == old(registry.nextViewerId) && registry.revealed == old(registry.revealed)
    ensures registry.instance != null ==> registry.instance.viewers == RemoveFirst(old(registry.instance.viewers), v)
    ensures registry.instance != null ==> registry.instance.commandsRegistered == old(registry.instance.commandsRegistered)
    ensures registry.instance != null && old(registry.instance.Valid()) && registry.instance.registry == registry ==>
      registry.instance.Valid()
  {
    registry.closed := registry.closed + [v.id];
    RemoveViewer(registry, v);
  }

  class ViewerProvider {
    const registry: Registry
    var viewers: seq<Viewer>
    /** The two registered commands are still live. */
    var commandsRegistered: bool

    /** Viewers are distinct by URI string and were all created through the
        registry. */
    ghost predicate Valid()
      reads this, registry
    {
      DistinctUris(viewers) &&
      forall i :: 0 <= i < |viewers| ==> viewers[i].id < registry.nextViewerId
    }

    /** The field initialisers and the command registrations; the singleton
        hand-over is `NewProvider`. */
    constructor (registry: Registry)
      ensures this.registry == registry && viewers == [] && commandsRegistered
      ensures Valid()
    {
      this.registry := registry;
      viewers := [];
      commandsRegistered := true;
    }

    /** The `3dviewer.openInViewer` command: nothing for a falsy URI; reveal
        the viewer already showing the same URI string; otherwise open and
        append a new one. */
    method OpenInViewer(fileUri: Option<Uri>) returns (outcome: OpenOutcome)
      requires Valid()
      modifies this, registry
      ensures Valid()
      ensures registry.instance == old(registry.instance) && registry.closed == old(registry.closed)
      ensures commandsRegistered == old(commandsRegistered)
      ensures fileUri.None? ==>
        outcome == Ignored && viewers == old(viewers) &&
        registry.revealed == old(registry.revealed) && registry.nextViewerId == old(registry.nextViewerId)
      ensures fileUri.Some? && (exists i :: 0 <= i < |old(viewers)| && UriString(old(viewers)[i].fileUri) == UriString(fileUri.value)) ==>
        outcome.Revealed? && outcome.viewer in old(viewers) &&
        UriString(outcome.viewer.fileUri) == UriString(fileUri.value) &&
        viewers == old(viewers) && registry.revealed == old(registry.revealed) + [outcome.viewer.id] &&
        registry.nextViewerId == old(registry.nextViewerId)
      ensures fileUri.Some? && (forall i :: 0 <= i < |old(viewers)| ==> UriString(old(viewers)[i].fileUri) != UriString(fileUri.value)) ==>
        outcome == Opened(Viewer(old(registry.nextViewerId), fileUri.value)) &&
        viewers == old(viewers) + [outcome.viewer] && registry.revealed == old(registry.revealed) &&
        registry.nextViewerId == old(registry.nextViewerId) + 1
    {
      if fileUri.None? {
        return Ignored;
      }
      var key := UriString(fileUri.value);
      var idx := FindViewer(viewers, key);
      if idx >= 0 {
        registry.revealed := registry.revealed + [viewers[idx].id];
        return Revealed(viewers[idx]);
      }
      var v := Viewer(registry.nextViewerId, fileUri.value);
      viewers := viewers + [v];
      registry.nextViewerId := registry.nextViewerId + 1;
      outcome := Opened(v);
    }

    /** The `3dviewer.openUrlInViewer` command, after the input box: the
        entered text goes through `Uri.parse`, whose result is always an
        object, so the falsy test never stops it. */
    method OpenUrlInViewer(parsed: Uri) returns (outcome: OpenOutcome)
      requires Valid()
      modifies this, registry
      ensures Valid()
      ensures outcome.Revealed? || outcome.Opened?
      ensures UriString(outcome.viewer.fileUri) == UriString(parsed)
      ensures registry.instance == old(registry.instance) && registry.closed == old(registry.closed)
      ensures commandsRegistered == old(commandsRegistered)
      ensures outcome.Opened? ==>
        outcome.viewer == Viewer(old(registry.nextViewerId), parsed) &&
        viewers == old(viewers) + [outcome.viewer] && registry.revealed == old(registry.revealed) &&
        registry.nextViewerId == old(registry.nextViewerId) + 1
      ensures outcome.Revealed? ==>
        outcome.viewer in old(viewers) && viewers == old(viewers) &&
        registry.revealed == old(registry.revealed) + [outcome.viewer.id] &&
        registry.nextViewerId == old(registry.nextViewerId)
    {
      outcome := OpenInViewer(Some(parsed));
    }

    /** dispose: unregister the commands, dispose every viewer's panel and
        clear `s_instance` if it is still this provider. Disposing a panel
        fires its `onDidDispose`, whose listener calls `removeViewer`; the
        viewers are visited over a copy of the list taken first, so that
        removal cannot skip any (see `ForEachDispose` for what iterating the
        live list does). */
    method Dispose()
      requires Valid()
      modifies this, registry, registry.instance
      ensures Valid()
      ensures !commandsRegistered
      ensures registry.closed == old(registry.closed) + Ids(old(viewers))
      ensures registry.nextViewerId == old(registry.nextViewerId) && registry.revealed == old(registry.revealed)
      ensures old(registry.instance) == this ==> registry.instance == null && viewers == []
      ensures old(registry.instance) != this ==> registry.instance == old(registry.instance) && viewers == old(viewers)
      ensures old(registry.instance) != null && old(registry.instance) != this ==>
        old(registry.instance).viewers == RemoveEach(old(registry.instance.viewers), old(viewers))
    {
      commandsRegistered := false;
      var snapshot := viewers;
      var other := registry.instance;
      for i := 0 to |snapshot|
        invariant registry.instance == other
        invariant registry.nextViewerId == old(registry.nextViewerId) && registry.revealed == old(registry.revealed)
        invariant registry.closed == old(registry.closed) + Ids(snapshot[..i])
        invariant other == this ==> viewers == snapshot[i..]
        invariant other != this ==> viewers == snapshot
        invariant other != null && other != this ==> other.viewers == RemoveEach(old(other.viewers), snapshot[..i])
        invariant !commandsRegistered
      {
        assert Ids(snapshot[..i + 1]) == Ids(snapshot[..i]) + [snapshot[i].id];
        DisposePanel(registry, snapshot[i]);
        assert snapshot[..i + 1][..i] == snapshot[..i];
        if other == this {
          assert snapshot[i..][1..] == snapshot[i + 1..];
        }
      }
      assert snapshot[..|snapshot|] == snapshot;
      if registry.instance == this {
        registry.instance := null;
      }
    }

    /** The live `forEach` of `dispose` while this provider is the
        instance: each disposed panel splices its own viewer out of the list
        being walked. */
    method WalkOwnList()
      requires Valid() && registry.instance == this && !commandsRegistered
      modifies this, registry
      ensures Valid() && registry.instance == this && !commandsRegistered
      ensures registry.nextViewerId == old(registry.nextViewerId) && registry.revealed == old(registry.revealed)
      ensures registry.closed == old(registry.closed) + Ids(ForEachDispose(old(viewers), 0, |old(viewers)|).0)
      ensures viewers == ForEachDispose(old(viewers), 0, |old(viewers)|).1
    {
      ghost var arr := viewers;
      ghost var done: seq<Viewer> := [];
      var len := |viewers|;
      var k := 0;
      while k < len && k < |viewers|
        invariant registry.instance == this
        invariant Valid() && !commandsRegistered
        invariant registry.nextViewerId == old(registry.nextViewerId) && registry.revealed == old(registry.revealed)
        invariant registry.closed == old(registry.closed) + Ids(done)
        invariant done + ForEachDispose(viewers, k, len).0 == ForEachDispose(arr, 0, len).0
        invariant ForEachDispose(viewers, k, len).1 == ForEachDispose(arr, 0, len).1
        decreases len - k
      {
        var v := viewers[k];
        VisitStep(viewers, k, len);
        SpliceIsRemoveFirst(viewers, v, k);
        assert Ids(done + [v]) == Ids(done) + [v.id];
        DisposePanel(registry, v);
        done := done + [v];
        k := k + 1;
      }
      assert ForEachDispose(viewers, k, len) == ([], viewers);
    }

    /** dispose as written: the viewers are visited by
        `this._viewers.forEach` over the live list, the walk `ForEachDispose`
        describes. While this provider is the instance, each panel's
        `onDidDispose` splices its viewer out of the list being walked, so
        the viewer that slides into the freed slot is skipped and stays
        open; otherwise the list stays put and every viewer is disposed. */
    method DisposeAsWritten()
      requires Valid()
      modifies this, registry, registry.instance
      ensures Valid()
      ensures !commandsRegistered
      ensures registry.nextViewerId == old(registry.nextViewerId) && registry.revealed == old(registry.revealed)
      ensures old(registry.instance) == this ==>
        registry.instance == null &&
        registry.closed == old(registry.closed) + Ids(ForEachDispose(old(viewers), 0, |old(viewers)|).0) &&
        viewers == ForEachDispose(old(viewers), 0, |old(viewers)|).1
      ensures old(registry.instance) != this ==>
        registry.instance == old(registry.instance) && viewers == old(viewers) &&
        registry.closed == old(registry.closed) + Ids(old(viewers))
      ensures old(registry.instance) != null && old(registry.instance) != this ==>
        old(registry.instance).viewers == RemoveEach(old(registry.instance.viewers), old(viewers))
    {
      commandsRegistered := false;
      var other := registry.instance;
      if other == this {
        WalkOwnList();
      } else {
        for k := 0 to |viewers|
          invariant registry.instance == other && viewers == old(viewers)
          invariant Valid() && !commandsRegistered
          invariant registry.nextViewerId == old(registry.nextViewerId) && registry.revealed == old(registry.revealed)
          invariant registry.closed == old(registry.closed) + Ids(viewers[..k])
          invariant other != null ==> other.viewers == RemoveEach(old(other.viewers), viewers[..k])
        {
          assert Ids(viewers[..k + 1]) == Ids(viewers[..k]) + [viewers[k].id];
          DisposePanel(registry, viewers[k]);
          assert viewers[..k + 1][..k] == viewers[..k];
        }
        assert viewers[..|viewers|] == viewers;
      }
      if registry.instance == this {
        registry.instance := null;
      }
    }
  }

  /** The constructor's singleton hand-over as written: the current
      instance's `dispose()` walks its live viewer list, so with two or
      more viewers some of its panels stay open (`ForEachDisposeSkipsSecond`). */
  method NewProviderAsWritten(registry: Registry) returns (p: ViewerProvider)
    requires registry.instance != null ==> registry.instance.registry == registry && registry.instance.Valid()
    modifies registry, registry.instance
    ensures fresh(p) && p.registry == registry && p.viewers == [] && p.Valid()
    ensures registry.instance == p
    ensures old(registry.instance) == null ==> registry.closed == old(registry.closed)
    ensures old(registry.instance) != null ==>
      !old(registry.instance).commandsRegistered &&
      old(registry.instance).viewers == ForEachDispose(old(registry.instance.viewers), 0, |old(registry.instance.viewers)|).1 &&
      registry.closed == old(registry.closed) + Ids(ForEachDispose(old(registry.instance.viewers), 0, |old(registry.instance.viewers)|).0)
  {
    if registry.instance != null {
      registry.instance.DisposeAsWritten();
    }
    p := new ViewerProvider(registry);
    registry.instance := p;
  }

  /** The constructor's singleton hand-over, corrected: dispose the current
      instance with the snapshot loop of `Dispose`, then become the
      instance. */
  method NewProvider(registry: Registry) returns (p: ViewerProvider)
    requires registry.instance != null ==> registry.instance.registry == registry && registry.instance.Valid()
    modifies registry, registry.instance
    ensures fresh(p) && p.registry == registry && p.viewers == [] && p.Valid()
    ensures registry.instance == p
    ensures old(registry.instance) == null ==> registry.closed == old(registry.closed)
    ensures old(registry.instance) != null ==>
      !old(registry.instance).commandsRegistered && old(registry.instance).viewers == [] &&
      registry.closed == old(registry.closed) + Ids(old(registry.instance.viewers))
  {
    if registry.instance != null {
      registry.instance.Dispose();
    }
    p := new ViewerProvider(registry);
    registry.instance := p;
  }

  /** Opening never lets two viewers share a URI, whatever the sequence of
      opens: each open adds at most one viewer, and only for a new URI. */
  lemma OpenKeepsDistinct(vs: seq<Viewer>, v: Viewer)
    requires DistinctUris(vs)
    requires forall i :: 0 <= i < |vs| ==> UriString(vs[i].fileUri) != UriString(v.fileUri)
    ensures DistinctUris(vs + [v])
  {
  }

  // ---------------------------------------------------------------------
  // The loop as written

  /** `this._viewers.forEach(d => d.dispose())` over the live list: forEach
      fixes the length `len` first and visits index `k` only while it is
      still inside the array; each visit's `removeViewer` splices the
      visited viewer out, so the next one slides into the slot just
      visited. Returns the viewers disposed, in order, and the list left. */
  function ForEachDispose(arr: seq<Viewer>, k: nat, len: nat): (r: (seq<Viewer>, seq<Viewer>))
    decreases len - k
  {
    if k >= len || k >= |arr| then ([], arr)
    else
      var rest := ForEachDispose(arr[..k] + arr[k + 1..], k + 1, len);
      ([arr[k]] + rest.0, rest.1)
  }

  /** One visit of the live walk over distinct viewers: the visited viewer
      is the first occurrence, so `removeViewer`'s splice takes out exactly
      the slot just visited. */
  lemma VisitStep(arr: seq<Viewer>, k: nat, len: nat)
    requires k < len && k < |arr| && DistinctUris(arr)
    ensures arr[k] !in arr[..k]
    ensures ForEachDispose(arr, k, len) ==
      ([arr[k]] + ForEachDispose(arr[..k] + arr[k + 1..], k + 1, len).0, ForEachDispose(arr[..k] + arr[k + 1..], k + 1, len).1)
  {
    forall j | 0 <= j < k ensures arr[j] != arr[k] {
      assert UriString(arr[j].fileUri) != UriString(arr[k].fileUri);
    }
  }

  /** Indices the loop has passed are never touched again. */
  lemma {:induction false} ForEachKeepsPrefix(arr: seq<Viewer>, k: nat, len: nat)
    requires k <= |arr|
    ensures |ForEachDispose(arr, k, len).1| >= k
    ensures ForEachDispose(arr, k, len).1[..k] == arr[..k]
    decreases len - k
  {
    if !(k >= len || k >= |arr|) {
      var arr' := arr[..k] + arr[k + 1..];
      if k + 1 <= |arr'| {
        ForEachKeepsPrefix(arr', k + 1, len);
        assert ForEachDispose(arr, k, len).1 == ForEachDispose(arr', k + 1, len).1;
        assert ForEachDispose(arr', k + 1, len).1[..k] == ForEachDispose(arr', k + 1, len).1[..k + 1][..k];
        assert arr'[..k + 1][..k] == arr[..k];
      } else {
        assert ForEachDispose(arr', k + 1, len) == ([], arr');
        assert arr'[..k] == arr[..k];
      }
    }
  }

  /** As written, disposing a provider with two or more viewers leaves the
      second one open: its panel is never disposed. */
  lemma ForEachDisposeSkipsSecond(arr: seq<Viewer>)
    requires |arr| >= 2
    ensures arr[1] in ForEachDispose(arr, 0, |arr|).1
  {
    var arr' := arr[..0] + arr[1..];
    ForEachKeepsPrefix(arr', 1, |arr|);
    assert ForEachDispose(arr', 1, |arr|).1[..1] == [arr[1]];
  }

  /** Three open viewers: the loop disposes the first and the third, and
      the second stays. */
  lemma ForEachDisposeThree(a: Viewer, b: Viewer, c: Viewer)
    ensures ForEachDispose([a, b, c], 0, 3) == ([a, c], [b])
  {
    var abc := [a, b, c];
    var bc := [b, c];
    assert abc[..0] + abc[1..] == bc;
    assert bc[..1] + bc[2..] == [b];
    assert ForEachDispose([b], 2, 3) == ([], [b]);
    assert ForEachDispose(bc, 1, 3) == ([bc[1]] + ForEachDispose([b], 2, 3).0, ForEachDispose([b], 2, 3).1);
    assert ForEachDispose(abc, 0, 3) == ([abc[0]] + ForEachDispose(bc, 1, 3).0, ForEachDispose(bc, 1, 3).1);
    var r1 := ForEachDispose([b], 2, 3);
    assert [bc[1]] + r1.0 == [c];
    assert ForEachDispose(bc, 1, 3) == ([c], [b]);
    assert [a] + [c] == [a, c];
  }

  // ---------------------------------------------------------------------
  // The panel's HTML inputs

  /** getHtmlForWebview: a `file` URI is loaded through the
      `vscode-resource` scheme; any other URI is loaded as it is. */
  function ResourceUri(u: Uri): Uri
  {
    if u.scheme == "file" then WithScheme(u, "vscode-resource") else u
  }

  /** The rewrite only ever changes the scheme, never leaves `file`, and
      leaves every other scheme alone; applying it twice is applying it
      once. */
  lemma ResourceUriProperties(u: Uri)
    ensures ResourceUri(u).authority == u.authority && ResourceUri(u).path == u.path
    ensures ResourceUri(u).scheme != "file"
    ensures u.scheme == "file" ==> ResourceUri(u).scheme == "vscode-resource"
    ensures u.scheme != "file" ==> ResourceUri(u) == u
    ensures ResourceUri(ResourceUri(u)) == ResourceUri(u)
  {
  }

  /** The `3dviewer` settings getSettings reads, with their defaults. */
  const PanelDefaults: map<string, Value> := map[
    "wireframe" := VBool(false),
    "background" := VStr("#8f8f8f"),
    "boundingBox" := VBool(false),
    "grid" := VBool(true),
    "gridSize" := VNum(32.0),
    "near" := VNum(0.01),
    "far" := VNum(1000000.0)
  ]

  /** getSettings' `initialData`: the file to load and each setting, the
      configured value or its default. */
  function InitialData(uri: Uri, config: map<string, Value>): (t: Table)
  {
    (map k | k in PanelDefaults :: ConfigGet(config, k, PanelDefaults[k]))["fileToLoad" := VStr(UriString(uri))]
  }

  /** With nothing configured, the data is the file and the defaults. */
  lemma InitialDataDefaults(uri: Uri)
    ensures InitialData(uri, map[]) == PanelDefaults["fileToLoad" := VStr(UriString(uri))]
  {
    assert (map k | k in PanelDefaults :: ConfigGet(map[], k, PanelDefaults[k])) == PanelDefaults;
  }

  /** getSettings: the `<meta>` element; `stringify` stands for
      `JSON.stringify`. */
  function PanelSettings(fileUri: Uri, config: map<string, Value>, stringify: Table -> string): string
  {
    SettingsMeta(stringify(InitialData(ResourceUri(fileUri), config)))
  }

  /** The webview reads the JSON text back intact from the attribute. */
  lemma PanelSettingsRoundTrip(fileUri: Uri, config: map<string, Value>, stringify: Table -> string)
    requires '&' !in stringify(InitialData(ResourceUri(fileUri), config))
    ensures ReadSettings(PanelSettings(fileUri, config, stringify)) == Some(stringify(InitialData(ResourceUri(fileUri), config)))
  {
    SettingsRoundTrip(stringify(InitialData(ResourceUri(fileUri), config)));
  }
}
