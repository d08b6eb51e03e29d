/** src/MeshViewerProvider.ts: the read-only custom editor `3dviewer.viewer`.
    Its request table and update fan-out are `Messaging`'s; its webview
    collection is `Util.WebviewCollection`. What is particular to it: the
    settings element, the script list with a nonce, the hot-reload file
    watcher and the `ready` → `init` handshake. */
module MeshViewerProvider {
  import opened Js
  import opened Host
  import opened Html
  import opened Util
  import opened Messaging
  import opened MediaScripts

  /** getScripts' media files, in order. */
  const ViewerScriptFiles: seq<string> := [
    "build/three.js",
    "examples/js/libs/inflate.min.js",
    "examples/js/libs/dat.gui.min.js",
    "examples/js/controls/OrbitControls.js",
    "examples/js/loaders/LoaderSupport.js",
    "examples/js/loaders/ColladaLoader.js",
    "examples/js/loaders/FBXLoader.js",
    "examples/js/loaders/TDSLoader.js",
    "examples/js/loaders/OBJLoader.js",
    "examples/js/loaders/STLLoader.js",
    "examples/js/loaders/PLYLoader.js",
    "viewer.js"
  ]

  /** getScripts('vscode-resource', nonce): every tag carries the nonce. */
  function ViewerScripts(extensionPath: string, nonce: string): string
  {
    MediaScriptText(extensionPath, "vscode-resource", ViewerScriptFiles, Some(nonce))
  }

  /** No file name of the list holds a `\n`: the first four, ... */
  lemma ViewerScriptFilesOneLineFront(i: int)
    requires 0 <= i < 4
    ensures '\n' !in ViewerScriptFiles[i]
  {
    match i
    case 0 =>
    case 1 =>
    case 2 =>
    case _ =>
  }

  /** ... the next four, ... */
  lemma ViewerScriptFilesOneLineMiddle(i: int)
    requires 4 <= i < 8
    ensures '\n' !in ViewerScriptFiles[i]
  {
    match i
    case 4 =>
    case 5 =>
    case 6 =>
    case _ =>
  }

  /** ... the last four, ... */
  lemma ViewerScriptFilesOneLineBack(i: int)
    requires 8 <= i < 12
    ensures '\n' !in ViewerScriptFiles[i]
  {
    match i
    case 8 =>
    case 9 =>
    case 10 =>
    case _ =>
  }

  /** ... and so all of them. */
  lemma ViewerScriptFilesOneLine()
    ensures forall i :: 0 <= i < |ViewerScriptFiles| ==> '\n' !in ViewerScriptFiles[i]
  {
    forall i | 0 <= i < |ViewerScriptFiles| ensures '\n' !in ViewerScriptFiles[i] {
      if i < 4 {
        ViewerScriptFilesOneLineFront(i);
      } else if i < 8 {
        ViewerScriptFilesOneLineMiddle(i);
      } else {
        ViewerScriptFilesOneLineBack(i);
      }
    }
  }

  /** Twelve files, `viewer.js` last. */
  lemma ViewerScriptFilesShape()
    ensures |ViewerScriptFiles| == 12 && ViewerScriptFiles[11] == "viewer.js"
  {
  }

  /** The emitted text splits back into the tag list: one tag per media
      file, in list order, each with `nonce="…"` (`MediaScriptTagList`). */
  lemma ViewerScriptsLines(extensionPath: string, nonce: string)
    requires '\n' !in extensionPath && '\n' !in nonce
    ensures Lines(ViewerScripts(extensionPath, nonce)) == MediaScriptTagList(extensionPath, "vscode-resource", ViewerScriptFiles, Some(nonce))
  {
    ViewerScriptFilesOneLine();
    MediaScriptLines(extensionPath, "vscode-resource", ViewerScriptFiles, Some(nonce));
  }

  /** The `3dviewer` settings this viewer reads, with their defaults. */
  const ViewerDefaults: map<string, Value> := map[
    "wireframe" := VBool(false),
    "background" := VStr("#8f8f8f"),
    "useEnvCube" := VBool(true),
    "boundingBox" := VBool(false),
    "grid" := VBool(true),
    "gridSize" := VNum(32.0),
    "near" := VNum(0.01),
    "far" := VNum(1000000.0),
    "limitFps" := VNum(0.0),
    "hotReloadAutomatically" := VBool(false)
  ]

  /** getSettings' `initialData`. */
  function InitialData(uri: Uri, config: map<string, Value>): Table
  {
    (map k | k in ViewerDefaults :: ConfigGet(config, k, ViewerDefaults[k]))["fileToLoad" := VStr(UriString(uri))]
  }

  /** With nothing configured, the data is the file and the defaults; a
      configured setting replaces its default. */
  lemma InitialDataValues(uri: Uri, config: map<string, Value>, k: string)
    ensures InitialData(uri, map[]) == ViewerDefaults["fileToLoad" := VStr(UriString(uri))]
    ensures k in ViewerDefaults && k in config && config[k] != VUndefined ==> InitialData(uri, config)[k] == config[k]
  {
    assert (map k | k in ViewerDefaults :: ConfigGet(map[], k, ViewerDefaults[k])) == ViewerDefaults;
  }

  /** getSettings, with `stringify` standing for `JSON.stringify`, for the
      document's load URI. */
  function ViewerSettings(document: Uri, asWebviewUri: Uri -> Uri, config: map<string, Value>, stringify: Table -> string): string
  {
    SettingsMeta(stringify(InitialData(LoadUri(document, asWebviewUri), config)))
  }

  /** The webview reads the JSON text back intact from the attribute. */
  lemma ViewerSettingsRoundTrip(document: Uri, asWebviewUri: Uri -> Uri, config: map<string, Value>, stringify: Table -> string)
    requires '&' !in stringify(InitialData(LoadUri(document, asWebviewUri), config))
    ensures ReadSettings(ViewerSettings(document, asWebviewUri, config, stringify)) ==
      Some(stringify(InitialData(LoadUri(document, asWebviewUri), config)))
  {
    SettingsRoundTrip(stringify(InitialData(LoadUri(document, asWebviewUri), config)));
  }

  /** The hot-reload guard: watch only `file` documents, and only while the
      `hotReload` setting, true by default, is truthy. */
  predicate WatchesFile(document: Uri, config: map<string, Value>)
  {
    document.scheme == "file" && Truthy(ConfigGet(config, "hotReload", VBool(true)))
  }

  lemma WatchesFileCases(document: Uri, config: map<string, Value>)
    ensures document.scheme != "file" ==> !WatchesFile(document, config)
    ensures document.scheme == "file" && "hotReload" !in config ==> WatchesFile(document, config)
    ensures "hotReload" in config && config["hotReload"] == VBool(false) ==> !WatchesFile(document, config)
  {
  }

  /** A file system watcher on `path` owned by `panel`. */
  datatype Watcher = Watcher(panel: Panel, path: string)

  class Provider {
    const webviews: WebviewCollection
    const channel: Channel
    /** The live watchers. */
    var watchers: seq<Watcher>

    ghost predicate Valid()
      reads this, webviews, channel
    {
      webviews.Valid() && channel.Valid()
    }

    constructor ()
      ensures Valid() && fresh(webviews) && fresh(channel)
      ensures webviews.entries == [] && channel.outbox == [] && watchers == []
      ensures channel.nextRequestId == 1 && channel.callbacks == map[] && channel.invoked == [] && channel.issued == []
    {
      webviews := new WebviewCollection();
      channel := new Channel();
      watchers := [];
    }

    /** resolveCustomEditor: register the panel under the document's URI and
        create a watcher when the guard allows. Returns the entry the
        panel's `onDidDispose` will delete. */
    method ResolveCustomEditor(document: Uri, panel: Panel, config: map<string, Value>) returns (entry: Entry)
      requires Valid()
      modifies this, webviews
      ensures Valid()
      ensures entry == Entry(UriString(document), panel, old(webviews.nextId))
      ensures webviews.entries == old(webviews.entries) + [entry]
      ensures WatchesFile(document, config) ==> watchers == old(watchers) + [Watcher(panel, FsPath(document))]
      ensures !WatchesFile(document, config) ==> watchers == old(watchers)
    {
      entry := webviews.Add(document, panel);
      if WatchesFile(document, config) {
        watchers := watchers + [Watcher(panel, FsPath(document))];
      }
    }

    /** `watcher.onDidChange`: post the bare string `'modelRefresh'` to the
        watcher's panel. */
    method WatchedFileChanged(w: Watcher)
      requires Valid()
      requires w in watchers
      modifies channel
      ensures Valid()
      ensures channel.outbox == old(channel.outbox) + [Delivery(w.panel, Text("modelRefresh"))]
      ensures channel.callbacks == old(channel.callbacks) && channel.invoked == old(channel.invoked)
      ensures channel.nextRequestId == old(channel.nextRequestId) && channel.issued == old(channel.issued)
    {
      channel.PostText(w.panel, "modelRefresh");
    }

    /** A message from a panel reaches both listeners: `onMessage` (the
        request table) and the `ready` listener, which answers with exactly
        one `init` to that panel. */
    method Receive(panel: Panel, message: Incoming)
      requires Valid()
      modifies channel
      ensures Valid()
      ensures message.msgType == "ready" ==>
        channel.outbox == old(channel.outbox) + [Delivery(panel, Typed("init", None, Payload("{}")))]
      ensures message.msgType != "ready" ==> channel.outbox == old(channel.outbox)
      ensures channel.callbacks == old(channel.callbacks) && channel.nextRequestId == old(channel.nextRequestId)
      ensures channel.issued == old(channel.issued)
      ensures message.msgType == "response" && message.requestId.Some? && message.requestId.value in channel.callbacks ==>
        channel.invoked == old(channel.invoked) + [Invocation(channel.callbacks[message.requestId.value], message.body)]
      ensures !(message.msgType == "response" && message.requestId.Some? && message.requestId.value in channel.callbacks) ==>
        channel.invoked == old(channel.invoked)
    {
      channel.OnMessage(message);
      if message.msgType == "ready" {
        channel.PostMessage(panel, "init", Payload("{}"));
      }
    }

    /** The panel's `onDidDispose`: its entry leaves the collection and its
        watcher, if any, is disposed. */
    method PanelDisposed(entry: Entry)
      requires Valid()
      modifies this, webviews
      ensures Valid()
      ensures webviews.entries == Without(old(webviews.entries), entry)
      ensures forall w :: w in watchers <==> w in old(watchers) && w.panel != entry.panel
    {
      webviews.EntryDisposed(entry);
      watchers := WatchersWithout(watchers, entry.panel);
    }

    /** A document change: one `update` to each panel of the document. */
    method DocumentChanged(document: Uri)
      requires Valid()
      modifies channel
      ensures Valid()
      ensures channel.outbox == old(channel.outbox) + UpdatesTo(PanelsFor(webviews.entries, UriString(document)))
      ensures channel.nextRequestId == old(channel.nextRequestId) && channel.callbacks == old(channel.callbacks)
      ensures channel.invoked == old(channel.invoked) && channel.issued == old(channel.issued)
    {
      NotifyUpdate(webviews, channel, document);
    }
  }

  /** The watchers left once `panel`'s is disposed. */
  function WatchersWithout(ws: seq<Watcher>, panel: Panel): (r: seq<Watcher>)
    ensures forall w :: w in r <==> w in ws && w.panel != panel
    decreases |ws|
  {
    if ws == [] then []
    else (if ws[0].panel == panel then [] else [ws[0]]) + WatchersWithout(ws[1..], panel)
  }
}
