/** src/MeshEditorProvider.ts: the `3dviewer.editor` custom editor, which
    hosts the three.js editor in a webview. Its request table and update
    fan-out are `Messaging`'s and its webview collection is
    `Util.WebviewCollection`. What is particular to it: the script list with
    an optional nonce and the `ready` → `loadFile` handshake. */
module MeshEditorProvider {
  import opened Js
  import opened Host
  import opened Html
  import opened Util
  import opened Messaging
  import opened NodePath
  import opened MediaScripts

  /** getScripts' media files before `editor.js`, in order. */
  const EditorLibraryFiles: seq<string> := [
    "build/three.js",
    "examples/js/libs/system.min.js",
    "examples/js/controls/EditorControls.js",
    "examples/js/controls/TransformControls.js",
    "examples/js/libs/jszip.min.js",
    "examples/js/libs/inflate.min.js",
    "examples/js/loaders/AMFLoader.js",
    "examples/js/loaders/AWDLoader.js",
    "examples/js/loaders/BabylonLoader.js",
    "examples/js/loaders/ColladaLoader.js",
    "examples/js/loaders/FBXLoader.js",
    "examples/js/loaders/GLTFLoader.js",
    "examples/js/loaders/KMZLoader.js",
    "examples/js/loaders/MD2Loader.js",
    "examples/js/loaders/OBJLoader.js",
    "examples/js/loaders/MTLLoader.js",
    "examples/js/loaders/PlayCanvasLoader.js",
    "examples/js/loaders/PLYLoader.js",
    "examples/js/loaders/STLLoader.js",
    "examples/js/loaders/TGALoader.js",
    "examples/js/loaders/TDSLoader.js",
    "examples/js/loaders/UTF8Loader.js",
    "examples/js/loaders/VRMLLoader.js",
    "examples/js/loaders/VTKLoader.js",
    "examples/js/loaders/ctm/lzma.js",
    "examples/js/loaders/ctm/ctm.js",
    "examples/js/loaders/ctm/CTMLoader.js",
    "examples/js/exporters/OBJExporter.js",
    "examples/js/exporters/GLTFExporter.js",
    "examples/js/exporters/STLExporter.js",
    "examples/js/renderers/Projector.js",
    "examples/js/renderers/CanvasRenderer.js",
    "examples/js/renderers/RaytracingRenderer.js",
    "examples/js/renderers/SoftwareRenderer.js",
    "examples/js/renderers/SVGRenderer.js",
    "editor/js/libs/codemirror/codemirror.js",
    "editor/js/libs/codemirror/mode/javascript.js",
    "editor/js/libs/codemirror/mode/glsl.js",
    "editor/js/libs/esprima.js",
    "editor/js/libs/jsonlint.js",
    "editor/js/libs/glslprep.min.js",
    "editor/js/libs/codemirror/addon/dialog.js",
    "editor/js/libs/codemirror/addon/show-hint.js",
    "editor/js/libs/codemirror/addon/tern.js",
    "editor/js/libs/acorn/acorn.js",
    "editor/js/libs/acorn/acorn_loose.js",
    "editor/js/libs/acorn/walk.js",
    "editor/js/libs/ternjs/polyfill.js",
    "editor/js/libs/ternjs/signal.js",
    "editor/js/libs/ternjs/tern.js",
    "editor/js/libs/ternjs/def.js",
    "editor/js/libs/ternjs/comment.js",
    "editor/js/libs/ternjs/infer.js",
    "editor/js/libs/ternjs/doc_comment.js",
    "editor/js/libs/tern-threejs/threejs.js",
    "editor/js/libs/signals.min.js",
    "editor/js/libs/ui.js",
    "editor/js/libs/ui.three.js",
    "editor/js/libs/app.js",
    "editor/js/Player.js",
    "editor/js/Script.js",
    "examples/js/vr/WebVR.js",
    "editor/js/Storage.js",
    "editor/js/Editor.js",
    "editor/js/Config.js",
    "editor/js/Config-MemStorage.js",
    "editor/js/History.js",
    "editor/js/Loader.js",
    "editor/js/Menubar.js",
    "editor/js/Menubar.File.js",
    "editor/js/Menubar.Edit.js",
    "editor/js/Menubar.Add.js",
    "editor/js/Menubar.Play.js",
    "editor/js/Menubar.Examples.js",
    "editor/js/Menubar.Help.js",
    "editor/js/Menubar.Status.js",
    "editor/js/Sidebar.js",
    "editor/js/Sidebar.Scene.js",
    "editor/js/Sidebar.Project.js",
    "editor/js/Sidebar.Settings.js",
    "editor/js/Sidebar.Properties.js",
    "editor/js/Sidebar.Object.js",
    "editor/js/Sidebar.Geometry.js",
    "editor/js/Sidebar.Geometry.Geometry.js",
    "editor/js/Sidebar.Geometry.BufferGeometry.js",
    "editor/js/Sidebar.Geometry.Modifiers.js",
    "editor/js/Sidebar.Geometry.BoxGeometry.js",
    "editor/js/Sidebar.Geometry.CircleGeometry.js",
    "editor/js/Sidebar.Geometry.CylinderGeometry.js",
    "editor/js/Sidebar.Geometry.IcosahedronGeometry.js",
    "editor/js/Sidebar.Geometry.PlaneGeometry.js",
    "editor/js/Sidebar.Geometry.SphereGeometry.js",
    "editor/js/Sidebar.Geometry.TorusGeometry.js",
    "editor/js/Sidebar.Geometry.TorusKnotGeometry.js",
    "examples/js/geometries/TeapotBufferGeometry.js",
    "editor/js/Sidebar.Geometry.TeapotBufferGeometry.js",
    "editor/js/Sidebar.Geometry.LatheGeometry.js",
    "editor/js/Sidebar.Material.js",
    "editor/js/Sidebar.Animation.js",
    "editor/js/Sidebar.Script.js",
    "editor/js/Sidebar.History.js",
    "editor/js/Toolbar.js",
    "editor/js/Viewport.js",
    "editor/js/Viewport.Info.js",
    "editor/js/Command.js",
    "editor/js/commands/AddObjectCommand.js",
    "editor/js/commands/RemoveObjectCommand.js",
    "editor/js/commands/MoveObjectCommand.js",
    "editor/js/commands/SetPositionCommand.js",
    "editor/js/commands/SetRotationCommand.js",
    "editor/js/commands/SetScaleCommand.js",
    "editor/js/commands/SetValueCommand.js",
    "editor/js/commands/SetUuidCommand.js",
    "editor/js/commands/SetColorCommand.js",
    "editor/js/commands/SetGeometryCommand.js",
    "editor/js/commands/SetGeometryValueCommand.js",
    "editor/js/commands/MultiCmdsCommand.js",
    "editor/js/commands/AddScriptCommand.js",
    "editor/js/commands/RemoveScriptCommand.js",
    "editor/js/commands/SetScriptValueCommand.js",
    "editor/js/commands/SetMaterialCommand.js",
    "editor/js/commands/SetMaterialValueCommand.js",
    "editor/js/commands/SetMaterialColorCommand.js",
    "editor/js/commands/SetMaterialMapCommand.js",
    "editor/js/commands/SetSceneCommand.js",
    "editor/js/libs/html2canvas.js",
    "editor/js/libs/three.html.js"
  ]

  /** getScripts' media files, in order: the page script comes last. */
  const EditorScriptFiles: seq<string> := EditorLibraryFiles + ["editor.js"]

  /** getScripts(scheme, nonce): with a nonce every tag carries
      `nonce="…"`, without one no tag does (`MediaScriptTagList`). The page
      always passes the `vscode-resource` scheme and a nonce. */
  function EditorScripts(extensionPath: string, nonce: Option<string>): string
  {
    MediaScriptText(extensionPath, "vscode-resource", EditorScriptFiles, nonce)
  }

  /** 128 files. */
  lemma EditorScriptFilesCount()
    ensures |EditorScriptFiles| == 128
  {
  }

  /** The `loadFile` body for the URI the webview loads: the URI string, the
      last segment of its file system path, and the URI string's dirname. */
  function LoadFileFor(fileToLoad: Uri): Body
  {
    LoadFileBody(UriString(fileToLoad), Basename(FsPath(fileToLoad)), Dirname(UriString(fileToLoad)))
  }

  /** For a URI whose path is `dir/name`: `path` is the URI string,
      `basename` is `name`, and `dirname` is the URI string of the same URI
      with path `dir`, that is, the URI string without its last segment. */
  lemma LoadFileParts(fileToLoad: Uri, dir: string, name: string)
    requires fileToLoad.path == dir + "/" + name
    requires dir != [] && dir[|dir| - 1] != '/'
    requires name != [] && '/' !in name
    ensures LoadFileFor(fileToLoad).path == UriString(fileToLoad)
    ensures LoadFileFor(fileToLoad).basename == name
    ensures LoadFileFor(fileToLoad).dirname == UriString(fileToLoad.(path := dir))
    ensures UriString(fileToLoad) == UriString(fileToLoad.(path := dir)) + "/" + name
  {
    BasenameOfJoin(dir, name);
    var prefix := UriString(fileToLoad.(path := dir));
    assert UriString(fileToLoad) == prefix + "/" + name;
    assert prefix[|prefix| - 1] == dir[|dir| - 1];
    DirnameOfJoin(prefix, name);
  }

  /** A document outside the `file` scheme is loaded from its own URI. */
  lemma LoadUriOfNonFile(document: Uri, asWebviewUri: Uri -> Uri)
    requires document.scheme != "file"
    ensures LoadFileFor(LoadUri(document, asWebviewUri)).path == UriString(document)
  {
  }

  class Provider {
    const webviews: WebviewCollection
    const channel: Channel

    ghost predicate Valid()
      reads this, webviews, channel
    {
      webviews.Valid() && channel.Valid()
    }

    constructor ()
      ensures Valid() && fresh(webviews) && fresh(channel)
      ensures webviews.entries == [] && channel.outbox == []
      ensures channel.nextRequestId == 1 && channel.callbacks == map[] && channel.invoked == [] && channel.issued == []
    {
      webviews := new WebviewCollection();
      channel := new Channel();
    }

    /** resolveCustomEditor: register the panel under the document's URI.
        Returns the entry the panel's `onDidDispose` will delete. */
    method ResolveCustomEditor(document: Uri, panel: Panel) returns (entry: Entry)
      requires Valid()
      modifies webviews
      ensures Valid()
      ensures entry == Entry(UriString(document), panel, old(webviews.nextId))
      ensures webviews.entries == old(webviews.entries) + [entry]
    {
      entry := webviews.Add(document, panel);
    }

    /** A message from the panel of `document` reaches both listeners:
        `onMessage` (the request table) and the `ready` listener, which
        answers with exactly one `loadFile` to that panel. */
    method Receive(document: Uri, panel: Panel, asWebviewUri: Uri -> Uri, message: Incoming)
      requires Valid()
      modifies channel
      ensures Valid()
      ensures message.msgType == "ready" ==>
        channel.outbox == old(channel.outbox) + [Delivery(panel, Typed("loadFile", None, LoadFileFor(LoadUri(document, asWebviewUri))))]
      ensures message.msgType != "ready" ==> channel.outbox == old(channel.outbox)
      ensures channel.callbacks == old(channel.callbacks) && channel.nextRequestId == old(channel.nextRequestId)
      ensures channel.issued == old(channel.issued)
      ensures message.msgType == "response" && message.requestId.Some? && message.requestId.value in channel.callbacks ==>
        channel.invoked == old(channel.invoked) + [Invocation(channel.callbacks[message.requestId.value], message.body)]
      ensures !(message.msgType == "response" && message.requestId.Some? && message.requestId.value in channel.callbacks) ==>
        channel.invoked == old(channel.invoked)
    {
      channel.OnMessage(message);
      if message.msgType == "ready" {
        var fileToLoad := LoadUri(document, asWebviewUri);
        channel.PostMessage(panel, "loadFile", LoadFileFor(fileToLoad));
      }
    }

    /** The panel's `onDidDispose`: its entry leaves the collection. */
    method PanelDisposed(entry: Entry)
      requires Valid()
      modifies webviews
      ensures Valid()
      ensures webviews.entries == Without(old(webviews.entries), entry)
    {
      webviews.EntryDisposed(entry);
    }

    /** A document change: one `update` to each panel of the document. */
    method DocumentChanged(document: Uri)
      requires Valid()
      modifies channel
      ensures Valid()
      ensures channel.outbox == old(channel.outbox) + UpdatesTo(PanelsFor(webviews.entries, UriString(document)))
      ensures channel.nextRequestId == old(channel.nextRequestId) && channel.callbacks == old(channel.callbacks)
      ensures channel.invoked == old(channel.invoked) && channel.issued == old(channel.issued)
    {
      NotifyUpdate(webviews, channel, document);
    }
  }
}
