# vscode-3dviewer, modelled in Dafny

vscode-3dviewer is a Visual Studio Code extension for viewing and editing 3D
meshes. Each file opens in a webview, and three.js renders it there. This
project models the extension's core and proves properties of the model.

Extension side:

- `Util` (src/util.ts):
  - the nonce generator;
  - `disposeAll`;
  - the webview collection;
  - the disposable document.
- `ContentProvider` (src/contentProvider.ts): the legacy viewer provider.
  - The singleton registry and the viewer list.
  - Opening a viewer: reveal an existing viewer or open a new one.
  - Splicing a viewer out of the list.
  - Disposing the provider.
  - The panel's settings blob.
- `MeshViewerProvider` (src/MeshViewerProvider.ts): the read-only custom editor.
  - The settings element and the nonce-tagged script list.
  - The hot-reload file watcher.
  - The `ready` → `init` handshake.
- `MeshEditorProvider` (src/MeshEditorProvider.ts): the editor variant.
  - Its 128-script list.
  - The `loadFile` body with path, basename and dirname.
- `Messaging`: the request table and the `update` fan-out, which both
  providers share.
- `Html`, `MediaScripts` and `Host`: the HTML and URI helpers the providers
  use.
- `NodePath`: Node's POSIX `basename` and `dirname`.

Webview side:

- `Viewer` (src/media/viewer.js, the lil-gui viewer page):
  - the loader switch;
  - the environment cube;
  - the material presets;
  - wireframe, edges and the model folder;
  - `loadModel`, `reloadModel` and the hot-reload dialog.
- `LegacyViewer` (media/viewer.js): the earlier dat.GUI page.
- `EditorPage` (media/editor.js):
  - thousands grouping in `Number.prototype.format`;
  - the keyboard shortcuts;
  - the `#file=` hash loader;
  - the `loadFile` listener.
- `MemStorageConfig` (media/editor/js/Config-MemStorage.js): the in-memory
  `localStorage` replacement and the editor's `Config` on top of it.
- `Scene` and `Presets`: code that both viewer pages share.
- `Js`: the small part of JavaScript's value semantics the model needs.
  - Truthiness.
  - Property keys.
  - JSON round trips.
  - Inherited `Object.prototype` members.
  - ASCII case conversion.
  - `split('.').pop()`.
  - `String.prototype.replace` with a string pattern.

How each kind of code is modelled:

- Objects whose fields the source updates are classes with `modifies`
  clauses. This covers the collections, the providers, the registry, the
  storage, the config, the channel and the three webview pages.
- Loops are methods with invariants: `getNonce`, `disposeAll`, the
  collection's `get`, `findViewer`, `indexOf`, `dispose` and the config
  merge.
- Pure computations are functions, with lemmas that relate them to
  independent definitions.

Code that appears several times is modelled once:

- the webview collection (src/util.ts and both providers);
- the request table;
- the recursive folder builder;
- `setWireframe`;
- the presets.

## Model

| member | source | states |
|---|---|---|
| Js.ParseJson | media/editor/js/Config-MemStorage.js:53 | parsing fails on undefined, on functions, on a plain string that is not JSON text and on a prototype object (which becomes `[object Object]`); the JSON text of an object parses back to its JSON-representable properties |
| Js.JsonRoundTripKeepsJson | media/editor/js/Config-MemStorage.js:49-53 | an object whose every value is JSON-representable survives `JSON.parse(JSON.stringify(o))` whole |
| Js.JsonRoundTripIdempotent | media/editor/js/Config-MemStorage.js:49-53 | a second round trip through JSON loses nothing more |
| Js.LowerChar | src/media/viewer.js:156 | an ASCII upper-case letter maps to the lower-case letter 32 code points above it; every other character is unchanged |
| Js.ToLower | src/media/viewer.js:156 | same length as the input, and every character is lowered one by one |
| Js.UpperChar | media/editor.js:8 | an ASCII lower-case letter maps to the upper-case letter 32 code points below it; every other character is unchanged |
| Js.ToUpper | media/editor.js:8 | same length as the input, and every character is raised one by one |
| Js.AfterLastDot | src/media/viewer.js:156 | `split('.').pop()` is never longer than the name |
| Js.AfterLastDotSuffix | src/media/viewer.js:156 | the result is a dot-free suffix of the name; it is the whole name when the name has no dot, and otherwise follows a `.` |
| Js.AfterLastDotOfExt | src/media/viewer.js:156 | for `p.e` with a dot-free `e` the result is `e`, whatever `p` contains |
| Js.ReplaceFirstAbsent | src/media/viewer.js:242 | when the pattern does not occur, the string is unchanged |
| Js.ReplaceFirstAt | src/media/viewer.js:242 | the first occurrence, and only it, is replaced; the text around it is kept |
| Js.ReplaceFirstLength | src/media/viewer.js:242 | a replacement as long as the pattern keeps the string's length |
| Host.MediaUri | src/MeshViewerProvider.ts:141-144 | the media URI has the scheme asked for and the path `extensionPath/media/file` |
| Util.AlphabetIsAlphanumeric | src/util.ts:5 | the nonce alphabet has 62 characters and is exactly the ASCII letters and digits |
| Util.GetNonce | src/util.ts:3-10 | 32 characters; character `i` is the alphabet entry at draw `i`, so every character is alphanumeric |
| Util.DisposableArray.constructor | src/util.ts:12 | holds the given slots |
| Util.DisposeAll | src/util.ts:12-19 | the array is emptied, and the disposed items are the truthy slots in pop order |
| Util.DisposalOrderOfAppend | src/util.ts:12-19 | items added later are disposed first |
| Util.DisposalOrderContents | src/util.ts:13-17 | each truthy slot is disposed exactly once, and only the empty slots are skipped |
| Util.Without | src/util.ts:50-52 | `Set.delete` leaves every entry except the deleted one |
| Util.WebviewCollection.constructor | src/util.ts:26-29 | starts with no entries |
| Util.WebviewCollection.Add | src/util.ts:46-53 | appends a fresh entry (new identity) for the URI string and panel |
| Util.WebviewCollection.Get | src/util.ts:34-41 | yields the panels whose entry resource equals the URI string, in insertion order |
| Util.WebviewCollection.EntryDisposed | src/util.ts:50-52 | the panel's own entry, and no other, leaves the collection |
| Util.WithoutKeepsOrder | src/util.ts:50-52 | deleting an entry keeps the entries' identities distinct and ordered |
| Util.PanelsForAppend | src/util.ts:34-48 | adding an entry adds its panel to that URI's panels, at the end, and to no other URI's |
| Util.AddTwiceYieldsTwice | src/util.ts:46-48 | the same panel added twice yields two entries, because each entry is a fresh object |
| Util.WithoutOtherResource | src/util.ts:50-52 | disposing a panel of another document leaves a URI's panels unchanged |
| Util.WithoutAbsent | src/util.ts:50-52 | deleting an entry that is not there changes nothing |
| Util.WithoutPresent | src/util.ts:50-52 | deleting entry `i` removes exactly that position |
| Util.MeshDocument.constructor | src/util.ts:61-72 | not disposed; the two emitters are registered |
| Util.MeshDocument.Dispose | src/util.ts:83-90 | the dispose event fires on every call; the registered disposables are disposed only the first time |
| Util.MeshDocument.Register | src/util.ts:92-99 | after disposal a value is disposed at once; before disposal it is kept for later |
| Html.EscapeQuotes | src/MeshViewerProvider.ts:161 | the escaped text holds no raw `"` |
| Html.EscapeQuotesLength | src/MeshViewerProvider.ts:161 | each `"` adds five characters |
| Html.DecodeEscape | src/MeshViewerProvider.ts:161 | decoding character references undoes the quote escaping of any text without `&` |
| Html.UpToQuote | src/MeshViewerProvider.ts:161 | the attribute value ends at the first raw `"` |
| Html.UpToQuoteOfUnquoted | src/MeshViewerProvider.ts:161 | quote-free text followed by `"` reads back whole |
| Html.EscapeQuotesUnquoted | src/MeshViewerProvider.ts:161 | a text without `"` is not changed by the escaping |
| Html.ReadSettings | src/MeshViewerProvider.ts:161 | the attribute is found exactly when the element's opening text is present |
| Html.SettingsRoundTrip | src/MeshViewerProvider.ts:161 | (as written) for JSON text without `&`, the `data-settings` attribute reads back the text that was written, unchanged |
| Html.AmpersandSettingsExample | src/MeshViewerProvider.ts:161 | (as written) JSON text holding `&amp;` reads back with `&` in its place |
| Html.EscapeAttr | src/MeshViewerProvider.ts:161 | (corrected) escaping `&` as well leaves no raw `"` |
| Html.DecodeEscapeAttr | src/MeshViewerProvider.ts:161 | (corrected) decoding undoes that escaping for every text |
| Html.EscapedSettingsRoundTrip | src/MeshViewerProvider.ts:161 | (corrected) with `&` escaped, every JSON text reads back unchanged |
| Html.Lines | src/MeshViewerProvider.ts:181 | splitting on `\n` gives at least one line |
| Html.LinesOfLine | src/MeshViewerProvider.ts:181 | a text without `\n` is one line |
| Html.LinesJoinLines | src/MeshViewerProvider.ts:179-181 | splitting `join('\n')` gives back the newline-free lines |
| Html.ScriptTag | src/MeshEditorProvider.ts:279-287 | the tag starts with `nonce="…"` exactly when there is a nonce, and has no newline when its parts have none |
| Html.ScriptTagsLines | src/MeshEditorProvider.ts:279-287 | the joined tags split back into the tag list |
| NodePath.DirEnd | src/MeshEditorProvider.ts:134 | the dirname scan stops at a position inside the scanned range, or reports none |
| NodePath.BaseScan | src/MeshEditorProvider.ts:133 | the basename scan returns bounds within the path |
| NodePath.DirEndSegment | src/MeshEditorProvider.ts:134 | after a final segment the dirname scan stops at the slash before it |
| NodePath.BaseScanSegment | src/MeshEditorProvider.ts:133 | the basename scan picks out the final segment |
| NodePath.DirnameOfJoin | src/MeshEditorProvider.ts:134 | `dirname(dir + "/" + name)` is `dir` |
| NodePath.BasenameOfJoin | src/MeshEditorProvider.ts:133 | `basename(dir + "/" + name)` is `name` |
| NodePath.BasenameOfSegment | src/MeshEditorProvider.ts:133 | a slash-free name is its own basename |
| MediaScripts.MediaUriString | src/MeshEditorProvider.ts:143-146 | a media URI prints as `scheme:extensionPath/media/file` |
| MediaScripts.MediaScriptTagList | src/MeshEditorProvider.ts:279-287 | one tag per media file, in order; each carries a nonce exactly when there is one |
| MediaScripts.MediaScriptTagListLast | src/MeshEditorProvider.ts:277 | the last file's tag comes last |
| MediaScripts.MediaScriptLines | src/MeshEditorProvider.ts:279-287 | the emitted script text splits back into the tag list |
| Messaging.UpdatesToContents | src/MeshViewerProvider.ts:96-101 | one `update` message per panel, in order |
| Messaging.Channel.constructor | src/MeshViewerProvider.ts:234-235 | request ids start at 1; no id has been issued and no callback is pending |
| Messaging.Channel.PostMessageWithResponse | src/MeshViewerProvider.ts:237-242 | takes the next id, which was never issued before, records it as issued, registers the callback under it and posts the typed message with it; the issued ids stay strictly increasing from 1 |
| Messaging.Channel.PostMessage | src/MeshViewerProvider.ts:244-246 | posts `{type, body}` and changes nothing else |
| Messaging.Channel.PostText | src/MeshViewerProvider.ts:127 | posts the bare string and changes nothing else |
| Messaging.Channel.OnMessage | src/MeshViewerProvider.ts:248-255 | a `response` with a known request id calls that callback with the body; anything else does nothing |
| Messaging.UpdatesToAppend | src/MeshViewerProvider.ts:98-100 | the fan-out for one more panel adds one message at the end |
| Messaging.NotifyUpdate | src/MeshViewerProvider.ts:96-101 | every panel of the document gets one `update`, in collection order, and the request table is unchanged |
| Messaging.UpdateReachesOnlyKey | src/MeshViewerProvider.ts:96-101 | panels of other documents get no update |
| Messaging.IssuedIdsDistinct | src/MeshViewerProvider.ts:234-238 | no request id is issued twice, and the next id has not been issued yet |
| MeshViewerProvider.ViewerScriptFilesOneLine | src/MeshViewerProvider.ts:165-178 | no media file name has a newline |
| MeshViewerProvider.ViewerScriptFilesShape | src/MeshViewerProvider.ts:165-178 | twelve scripts, with `viewer.js` last |
| MeshViewerProvider.ViewerScriptsLines | src/MeshViewerProvider.ts:164-182 | the script text is one nonce-carrying `vscode-resource` tag per file, in order |
| MeshViewerProvider.InitialDataValues | src/MeshViewerProvider.ts:146-160 | with nothing configured, the data is the file plus the ten defaults; a configured setting replaces its default |
| MeshViewerProvider.ViewerSettingsRoundTrip | src/MeshViewerProvider.ts:146-162 | for stringified initial data without `&`, the webview reads it back from the settings element |
| MeshViewerProvider.WatchesFileCases | src/MeshViewerProvider.ts:124 | only `file` documents are watched; `hotReload` defaults to on; setting it false turns watching off |
| MeshViewerProvider.Provider.constructor | src/MeshViewerProvider.ts:79-83 | no webviews, no messages, no watchers; the channel starts at request id 1 with no callback, nothing invoked and nothing issued |
| MeshViewerProvider.Provider.ResolveCustomEditor | src/MeshViewerProvider.ts:108-129 | registers the panel under the document's URI and adds a watcher on the file path exactly when the guard allows |
| MeshViewerProvider.Provider.WatchedFileChanged | src/MeshViewerProvider.ts:127 | posts `modelRefresh` to the watcher's panel; the request table, the next id, the issued ids and the invocations are kept |
| MeshViewerProvider.Provider.Receive | src/MeshViewerProvider.ts:132-136 | a `ready` message is answered with exactly one `init` to its panel, other messages get no reply; a `response` with a known request id calls that callback with the body, and the request table and issued ids are kept |
| MeshViewerProvider.Provider.PanelDisposed | src/MeshViewerProvider.ts:128 | the panel's entry leaves the collection, and its watchers are disposed |
| MeshViewerProvider.Provider.DocumentChanged | src/MeshViewerProvider.ts:96-101 | one `update` to each of the document's panels; the request table, the next id, the issued ids and the invocations are kept |
| MeshViewerProvider.WatchersWithout | src/MeshViewerProvider.ts:128 | the remaining watchers are exactly those of other panels |
| MeshEditorProvider.EditorScriptFilesCount | src/MeshEditorProvider.ts:149-278 | the editor loads 128 scripts |
| MeshEditorProvider.LoadFileParts | src/MeshEditorProvider.ts:131-135 | for path `dir/name`, `basename` is `name` and `dirname` is the URI string without its last segment |
| MeshEditorProvider.LoadUriOfNonFile | src/MeshEditorProvider.ts:127-129 | a non-`file` document is loaded from its own URI |
| MeshEditorProvider.Provider.constructor | src/MeshEditorProvider.ts:345-346 | no webviews and no messages; the channel starts at request id 1 with no callback, nothing invoked and nothing issued |
| MeshEditorProvider.Provider.ResolveCustomEditor | src/MeshEditorProvider.ts:108-114 | registers the panel under the document's URI |
| MeshEditorProvider.Provider.Receive | src/MeshEditorProvider.ts:125-138 | a `ready` message is answered with exactly one `loadFile` carrying that body, other messages get no reply; a `response` with a known request id calls that callback with the body, and the request table and issued ids are kept |
| MeshEditorProvider.Provider.PanelDisposed | src/MeshEditorProvider.ts:399-401 | the panel's entry leaves the collection |
| MeshEditorProvider.Provider.DocumentChanged | src/MeshEditorProvider.ts:96-101 | one `update` to each of the document's panels; the request table, the next id, the issued ids and the invocations are kept |
| ContentProvider.SpliceIsRemoveFirst | src/contentProvider.ts:77-79 | splicing at `indexOf` removes the first occurrence |
| ContentProvider.RemoveFirstAbsent | src/contentProvider.ts:75-82 | removing a viewer that is not in the list changes nothing |
| ContentProvider.RemoveFirstContents | src/contentProvider.ts:75-82 | removal takes exactly one copy of the viewer out of the multiset |
| ContentProvider.DistinctSplice | src/contentProvider.ts:75-82 | after a splice, no two viewers share a URI |
| ContentProvider.Registry.constructor | src/contentProvider.ts:18 | no instance at first |
| ContentProvider.FindViewer | src/contentProvider.ts:34-39 | the first viewer whose URI string matches, or -1 when there is none |
| ContentProvider.IndexOf | src/contentProvider.ts:77 | the first position of the viewer, or -1 when it is absent |
| ContentProvider.RemoveViewer | src/contentProvider.ts:75-82 | when there is an instance, its list loses the viewer's first occurrence |
| ContentProvider.DisposePanel | src/contentProvider.ts:108-111 | the panel is closed and its `onDidDispose` removes the viewer |
| ContentProvider.ViewerProvider.constructor | src/contentProvider.ts:21-45 | no viewers; commands are registered |
| ContentProvider.ViewerProvider.OpenInViewer | src/contentProvider.ts:32-43 | with no URI, nothing happens; a matching viewer is revealed; otherwise a new viewer is appended |
| ContentProvider.ViewerProvider.OpenUrlInViewer | src/contentProvider.ts:45-59 | the viewer for the parsed URI is revealed (one from the old list, logged as revealed) or opened (a new viewer appended with the next id); the instance, the closed panels and the commands are kept |
| ContentProvider.ViewerProvider.Dispose | src/contentProvider.ts:67-73 | (corrected) every viewer open at the call is closed, in order, and the registry lets go of the instance |
| ContentProvider.ViewerProvider.WalkOwnList | src/contentProvider.ts:69 | (as written) while the provider is the instance, the live `forEach` closes exactly the viewers `ForEachDispose` visits and leaves its remainder in the list |
| ContentProvider.ViewerProvider.DisposeAsWritten | src/contentProvider.ts:67-73 | (as written) the commands are released; as the instance, the panels `ForEachDispose` visits are closed, the skipped viewers stay listed and the registry lets go; otherwise every viewer is closed and removed from the current instance |
| ContentProvider.NewProviderAsWritten | src/contentProvider.ts:24-28 | (as written) the old instance's live-list dispose runs first, so its skipped viewers stay open and listed, then the new provider becomes the instance |
| ContentProvider.NewProvider | src/contentProvider.ts:24-28 | (corrected) the new provider replaces any previous instance, whose viewers are all closed first by the snapshot loop of `Dispose` |
| ContentProvider.OpenKeepsDistinct | src/contentProvider.ts:32-43 | opening only for unseen URIs keeps the URIs distinct |
| ContentProvider.ForEachKeepsPrefix | src/contentProvider.ts:69 | while iterating the live array, the viewers already visited stay in front |
| ContentProvider.ForEachDisposeSkipsSecond | src/contentProvider.ts:69 | (as written) with two or more viewers, the second one is never disposed |
| ContentProvider.ForEachDisposeThree | src/contentProvider.ts:69 | (as written) for `[a, b, c]`, `a` and `c` are disposed and `b` stays |
| ContentProvider.ResourceUriProperties | src/contentProvider.ts:177-179 | `file` becomes `vscode-resource`; other schemes are kept; authority and path are kept; applying it twice changes nothing more |
| ContentProvider.InitialDataDefaults | src/contentProvider.ts:144-153 | with nothing configured, the data is the resource URI plus the defaults |
| ContentProvider.PanelSettingsRoundTrip | src/contentProvider.ts:142-155 | for stringified data without `&`, the panel reads it back from its settings element |
| MemStorageConfig.MemStorage.constructor | media/editor/js/Config-MemStorage.js:7 | no own properties |
| MemStorageConfig.MemStorage.SetItem | media/editor/js/Config-MemStorage.js:9-11 | stores the value, which then reads back |
| MemStorageConfig.MemStorage.GetItem | media/editor/js/Config-MemStorage.js:12-14 | `this[name]` is defined exactly for an own defined value, an inherited method or `__proto__`; it is an own value as stored, and a function off the own properties exactly for the inherited methods |
| MemStorageConfig.MemStorage.RemoveItem | media/editor/js/Config-MemStorage.js:15-19 | deletes the key exactly when its value is truthy and not a function |
| MemStorageConfig.MemStorage.Clear | media/editor/js/Config-MemStorage.js:20-25 | succeeds, emptying the storage, unless an own `hasOwnProperty` shadows the method; otherwise nothing changes |
| MemStorageConfig.Window.constructor | media/editor/js/Config-MemStorage.js:27 | holds the given storage |
| MemStorageConfig.AssignPairsUntouched | media/editor/js/Config-MemStorage.js:71-77 | keys not named in the arguments keep their values |
| MemStorageConfig.AssignPairsLastWins | media/editor/js/Config-MemStorage.js:73-77 | a named key takes the value paired with it, and a later pair wins |
| MemStorageConfig.MergeKeys | media/editor/js/Config-MemStorage.js:55-59 | every key of either table is present; persisted values override the defaults |
| MemStorageConfig.Config.constructor | media/editor/js/Config-MemStorage.js:29-45 | starts from the defaults |
| MemStorageConfig.Config.Load | media/editor/js/Config-MemStorage.js:47-61 | nothing persisted: the defaults are stored; otherwise the persisted keys are merged over the defaults |
| MemStorageConfig.Config.GetKey | media/editor/js/Config-MemStorage.js:65-69 | `storage[key]` is defined exactly for a stored defined value, an `Object.prototype` method or `__proto__` (the prototype object); an own value is returned as stored |
| MemStorageConfig.Config.SetKey | media/editor/js/Config-MemStorage.js:71-79 | assigns the key/value pairs and persists the whole table under the config's name |
| MemStorageConfig.Config.Clear | media/editor/js/Config-MemStorage.js:85-89 | deletes the persisted copy only |
| MemStorageConfig.NewConfig | media/editor/js/Config-MemStorage.js:5-61 | `new Config(name)` succeeds exactly when `name` is neither an inherited member nor `__proto__`, and then stores the defaults |
| MemStorageConfig.SetKeyThenGetKey | media/editor/js/Config-MemStorage.js:65-79 | `getKey` after `setKey(k, v)` answers `v` |
| Presets.InitialPresetsMaterials | src/media/viewer.js:420-466 | nine presets, `default` among them, with one wireframe flag per material |
| Presets.PresetMaterialId | src/media/viewer.js:420-466 | every preset but `default` has one of the eight materials; `default` has none |
| Presets.Switch | src/media/viewer.js:90-106 | the sliders are saved into the preset being left, if any, and then loaded from the chosen preset; no preset appears or disappears |
| Presets.SwitchKeepsMaterialsKept | src/media/viewer.js:90-106 | switching keeps every preset's original material |
| Presets.SwitchKeepsMaterials | src/media/viewer.js:90-106 | materials never change, and presets that are neither left nor chosen are untouched |
| Presets.SwitchAwayAndBack | src/media/viewer.js:90-106 | leaving a preset and coming back restores its slider values |
| Presets.SwitchToCurrentIdempotent | src/media/viewer.js:90-106 | choosing the current preset again changes nothing |
| Scene.WireframeEverywhere | src/media/viewer.js:113-128 | every material in the tree gets the flag, and the tree keeps its shape |
| Scene.WireframeNoChange | src/media/viewer.js:113-128 | a tree already at the flag is unchanged |
| Scene.WireframeLastWins | src/media/viewer.js:108-129 | only the last toggle counts |
| Scene.SetEdgesVisibility | src/media/viewer.js:351-370 | a TypeError is raised exactly when the root is an edges overlay or an overlay hangs under a node without material; otherwise every overlay takes the visibility, every single-material parent of an overlay takes the matching polygon offset, and the root keeps its name and number of children |
| Scene.EdgesEverywhere | src/media/viewer.js:351-370 | every overlay takes the visibility, the single-material parent of each overlay takes the matching polygon offset, and names and shape are kept |
| Scene.NoEdgesNoChange | src/media/viewer.js:351-370 | a tree with no edges overlays is unchanged |
| Scene.EdgesLastWins | src/media/viewer.js:351-370 | only the last edges setting counts |
| Scene.WireframeEdgesCommute | src/media/viewer.js:108-129 | the wireframe and edges updates commute |
| Scene.Indices | src/media/viewer.js:377-378 | indices point at children of the requested kind |
| Scene.IndicesSorted | src/media/viewer.js:377-378 | in increasing order |
| Scene.IndicesComplete | src/media/viewer.js:377-378 | and every child of that kind is listed |
| Scene.VisitIndices | src/media/viewer.js:377-378 | the visiting order stays within the children |
| Scene.CountAtAppend | src/media/viewer.js:377-378 | the node count over a concatenation of index lists is the sum of the counts |
| Scene.IndicesStep | src/media/viewer.js:377-378 | each child goes to its own list |
| Scene.GroupsSize | src/media/viewer.js:377-378 | the two lists together have one entry per child |
| Scene.GroupsCount | src/media/viewer.js:377-378 | and together count every node below |
| Scene.GroupsCover | src/media/viewer.js:377-378 | both of the above at once |
| Scene.VisitIndicesPermutation | src/media/viewer.js:377-378 | children with children are visited first, then leaves, each child once and in source order within its group |
| Scene.FolderCountOfMap | src/media/viewer.js:371-383 | building folders in the visiting order gives one folder per node |
| Scene.OneFolderPerNode | src/media/viewer.js:371-383 | the folder tree has exactly one folder per scene node |
| Scene.ModelFolderControls | src/media/viewer.js:371-383 | each folder has one control, bound to the property, and one subfolder per child; unnamed nodes get `{noname}` |
| Viewer.LoaderIgnoresCase | src/media/viewer.js:153-168 | extensions that differ only in case pick the same loader |
| Viewer.LoaderStl | src/media/viewer.js:153-168 | `.stl` and `.STL` pick STL |
| Viewer.LoaderGltf | src/media/viewer.js:153-168 | `.gltf` and `.GLB` pick glTF |
| Viewer.LoaderObj | src/media/viewer.js:153-168 | `.obj` and `.OBJ` pick OBJ |
| Viewer.LoaderWithoutDot | src/media/viewer.js:153-168 | a name that is not a known extension falls to OBJ |
| Viewer.CubeTextureUrls | src/media/viewer.js:144-151 | six URLs |
| Viewer.CubeTextureUrlsFaces | src/media/viewer.js:144-151 | face `i` in the order px, nx, py, ny, pz, nz, under the cube's directory; PNG exactly for `Pisa`, JPEG otherwise |
| Viewer.UpperCaseObjSkipsMtl | src/media/viewer.js:242 | (as written) a `.OBJ` model is loaded with OBJ, but its material path is the model file itself |
| Viewer.UpperCaseObjExample | src/media/viewer.js:242 | (as written) `Cube.OBJ` maps to `Cube.OBJ` |
| Viewer.ObjDirectoryExample | src/media/viewer.js:242 | (as written) `a.obj/b.obj` maps to `a.mtl/b.obj` |
| Viewer.MtlPathAsWritten | src/media/viewer.js:242 | (as written) the material path has the model path's length, and is the model path itself when that holds no lower-case `.obj` |
| Viewer.MtlPathFor | src/media/viewer.js:242 | (corrected) the material path ends in `.mtl` |
| Viewer.MtlPathForExt | src/media/viewer.js:242 | (corrected) `p.e` maps to `p.mtl` |
| Viewer.DefaultPresetKept | src/media/viewer.js:91-96 | the `default` preset's values never change |
| Viewer.LoadRequests | src/media/viewer.js:240-254 | the model is requested last; OBJ alone requests a `.mtl` first |
| Viewer.RemoveFolderAsWritten | src/media/viewer.js:208-217 | (as written) on a lil-gui GUI the lookup throws a TypeError and no folder is removed |
| Viewer.RemoveFolderMembers | src/media/viewer.js:208-217 | (corrected) removes exactly the named folder |
| Viewer.RemoveModelFolders | src/media/viewer.js:185-187 | (corrected) removes exactly the Animation, Transform and Model folders |
| Viewer.ModelWithWireframe | src/media/viewer.js:113-128 | the model, if any, gets the flag throughout |
| Viewer.MainObjectFolder | src/media/viewer.js:295-296 | the model folder is named `MainObject`, has one `visible` control and one folder per node |
| Viewer.Page.constructor | src/media/viewer.js:19-76 | the sidebar folders, the `default` preset, the initial material wireframe flags, no override material, the loader for the file and the initial load requests |
| Viewer.Page.LoadModel | src/media/viewer.js:240-254 | issues this file's load requests and changes nothing else |
| Viewer.Page.OnWireframeToggle | src/media/viewer.js:108-129 | the override material and the whole model take the flag; the settings are not written |
| Viewer.Page.WireframeChanged | src/media/viewer.js:25 | the checkbox stores the flag in the settings, then the override material and the whole model take it |
| Viewer.Page.OnMainObjectMaterialChange | src/media/viewer.js:90-106 | the preset switch, the new override material, and the current wireframe setting reapplied |
| Viewer.Page.SetEdgesVisibility | src/media/viewer.js:351-370 | with no model, nothing happens; otherwise the update for the current edges setting is applied, or a TypeError is reported |
| Viewer.Page.EdgesChanged | src/media/viewer.js:29 | the checkbox stores the edges flag in the settings, then the model takes it, or a TypeError is reported |
| Viewer.Page.ModelLoaded | src/media/viewer.js:256-333 | the mixer and folders are appended, the model is shown with the current wireframe and edges settings, the override material's flag takes the wireframe setting, and the model folder is built; presets and sliders are kept |
| Viewer.Page.ShowModel | src/media/viewer.js:329-332 | the loaded tree becomes `MainObject`, with the current wireframe and edges settings, and the override material's flag takes the wireframe setting; folders, presets and sliders are kept |
| Viewer.Page.ReloadModelAsWritten | src/media/viewer.js:182-189 | (as written) mixers and model are cleared, then a TypeError: no folder is removed, nothing is reloaded, and everything else, materials included, is kept |
| Viewer.Page.ReloadModel | src/media/viewer.js:182-189 | (corrected) mixers, model and model folders are cleared, and the file is requested again; presets, sliders and materials are kept |
| Viewer.Page.ShowModelReloadChangeDialog | src/media/viewer.js:191-206 | at most one reload notification is shown at a time, and nothing else changes |
| Viewer.Page.ReloadConfirmed | src/media/viewer.js:203 | (corrected) the notification closes and the model reloads, clearing the model folder; presets, sliders and materials are kept |
| Viewer.Page.ReloadConfirmedAsWritten | src/media/viewer.js:203 | (as written) the reload raises before the notification is removed, so it stays; mixers and model are cleared, nothing is reloaded, and presets, sliders, materials and folders are kept |
| Viewer.Page.ReloadDeclined | src/media/viewer.js:204 | the notification closes; the presets, sliders, materials, model, folders, requests and load state are kept |
| Viewer.Page.OnMessageReceived | src/media/viewer.js:170-180 | (corrected) `modelRefresh` reloads at once (folders and model folder removed) or asks first (only the notification changes), depending on the setting; other messages are ignored; presets, sliders and materials are always kept |
| Viewer.Page.OnMessageReceivedAsWritten | src/media/viewer.js:170-180 | (as written) a `modelRefresh` with automatic reload raises a TypeError, clearing mixers and model and reloading nothing; without it, only the dialog is shown; other messages are ignored; presets, sliders and materials are always kept |
| LegacyViewer.LoaderForExtension | media/viewer.js:105-126 | the four lower-case extensions pick their loaders; `obj` and every other extension pick OBJ |
| LegacyViewer.UpperCaseStlIsObj | media/viewer.js:105-126 | the switch is case-sensitive: `.STL` gets OBJ here, and STL in the newer page |
| LegacyViewer.EnvironmentUrlsFaces | media/viewer.js:301-307 | six PNG faces under `textures/cube/pisa/`, in px, nx, py, ny, pz, nz order |
| LegacyViewer.DefaultOverwrittenAfterFirstSwitch | media/viewer.js:243-259 | the first switch saves nothing, but later `default` is overwritten, which the newer page never does |
| LegacyViewer.Page.constructor | media/viewer.js:216-261 | three folders, the initial presets, the initial material wireframe flags, no override material and no model |
| LegacyViewer.Page.SetWireframe | media/viewer.js:35-55 | the override material and the whole `MainObject` tree take the flag |
| LegacyViewer.Page.WireframeChanged | media/viewer.js:61 | the checkbox stores the flag in the settings, then the override material and the whole `MainObject` tree take it |
| LegacyViewer.Page.SelectMaterial | media/viewer.js:243-259 | the preset switch, the override material and the current wireframe setting reapplied |
| LegacyViewer.Page.ModelLoadedAsWritten | media/viewer.js:128-168 | (as written) the mixer, the optional Animation folder, `MainObject` and the Transform folder are added, then dat.GUI throws: no Model folder is built |
| LegacyViewer.Page.ModelLoaded | media/viewer.js:128-201 | (corrected) the mixer, the optional Animation folder, `MainObject`, the Transform and Model folders; the wireframe is not reapplied |
| EditorPage.DigitRun | media/editor.js:11 | the run of digits from a position fits in the string |
| EditorPage.FormatFromStep | media/editor.js:11 | a comma follows a character exactly when the regular expression's lookahead holds there |
| EditorPage.RemoveCommasConcat | media/editor.js:10-12 | removing commas distributes over concatenation |
| EditorPage.RemoveCommasFormatFrom | media/editor.js:10-12 | formatting only inserts commas |
| EditorPage.RemoveCommasFormat | media/editor.js:10-12 | deleting the commas from `format()` gives back the input |
| EditorPage.ShortRunNoComma | media/editor.js:11 | no comma goes into a run of at most three digits |
| EditorPage.FormatFromShortRuns | media/editor.js:11 | text with only short digit runs formats unchanged, from any position |
| EditorPage.ShortRunsUnchanged | media/editor.js:11 | numbers below 1000 format unchanged |
| EditorPage.DigitRunOfDigits | media/editor.js:11 | within a digit string, the run reaches the end |
| EditorPage.CommaAfterInDigits | media/editor.js:11 | in a digit string a comma follows a digit exactly when a positive multiple of three digits comes after it |
| EditorPage.FormatFromLastThree | media/editor.js:11 | the last three digits get no comma |
| EditorPage.DigitsPrefix | media/editor.js:11 | a prefix of digits is digits |
| EditorPage.FormatFromSplitBase | media/editor.js:11 | formatting splits off the last group of three |
| EditorPage.FormatFromSplit | media/editor.js:11 | from any position before the last group |
| EditorPage.FormatIsGrouping | media/editor.js:11 | for a string of digits, `format()` is grouping into threes from the right |
| EditorPage.MacPlatform | media/editor.js:8 | platforms containing `Mac` in any case count as Mac |
| EditorPage.BackspaceFallsThrough | media/editor.js:70-83 | backspace deletes just as delete does, and also prevents the default action |
| EditorPage.UndoRedoModifier | media/editor.js:85-103 | Z undoes, or redoes with Shift, only with Cmd on a Mac and Ctrl elsewhere |
| EditorPage.TransformKeys | media/editor.js:105-121 | W, E and R select translate, rotate and scale |
| EditorPage.OtherKeysIgnored | media/editor.js:66-125 | other keys do nothing |
| EditorPage.HashFileRoundTrip | media/editor.js:146-148 | `#file=` followed by a name gives back that name, and a hash gives a name exactly when its second to sixth characters are `file=` |
| EditorPage.Page.constructor | media/editor.js:138-165 | `ready` is posted; a `#file=` hash asks first and fetches only when confirmed |
| EditorPage.Page.HashFileFetched | media/editor.js:154-159 | the editor is cleared, then loaded from the fetched JSON; selection, prompts, posts, fetches and the hash flag are kept |
| EditorPage.Page.OnKeyDown | media/editor.js:66-125 | performs the dispatched action, and prevents the default action exactly when the dispatch says so; selection, fetches, loader, posts and the hash state are kept |
| EditorPage.Page.OnMessage | media/editor.js:167-186 | `loadFile` clears the editor, creates the file loader once, and fetches the body's path; other messages do nothing; selection, prompts, posts and the hash state are kept |
| EditorPage.Page.FileFetched | media/editor.js:179-183 | the fetched data is loaded as a file named after the basename, and nothing else changes |

## Left out

- Three.js, lil-gui and dat.GUI internals (rendering, loaders' parsing, the
  camera, lights, grid and bounding box) are not modelled; the scene is a
  tree of values holding only names, visibility, material slots and edges
  overlays.
- The page's own `addEdgesToMeshes` (src/media/viewer.js:336-350), which
  hangs a new `edges` overlay under every mesh of the loaded model, is not
  modelled: the loaded tree is taken as the loader delivers it, so
  Viewer.Page.ShowModel, Viewer.Page.ModelLoaded and Viewer.Page.EdgesChanged
  only affect the `edges` overlays already present in that tree.
- Aliasing: a material shared by several meshes is one value per slot in
  the model, so updates through one mesh are not seen through another.
- Scene.SetEdgesVisibility: when the source raises its TypeError part-way,
  the overlays it already visited have changed; the model reports the error
  and keeps the tree as it was.
- `webview.asWebviewUri`, `JSON.stringify` and `Math.random` are
  parameters (`asWebviewUri`, `stringify`, the nonce draws); URI encoding,
  queries and fragments of `Uri.toString` are not modelled.
- `path.join` is modelled as joining with `/`, without normalising `..`
  or doubled separators.
- Case conversion covers ASCII letters only.
- The HTML templates, the Content Security Policy text and the style URIs
  of the `getHtmlForWebview` methods are not modelled; only the settings
  element and the script list are.
- ContentProvider's `getScripts` (src/contentProvider.ts:157-173) is not
  modelled on its own; it has the same shape as the providers' script list
  without a nonce, which `Html.ScriptTag` covers.
- MeshEditorProvider.EditorScriptFilesCount: the 128-entry list is proved
  only for its length; its last entry is `editor.js` by
  `MediaScripts.MediaScriptTagListLast`.
- EditorPage.FormatIsGrouping: proved for strings of digits; on decimals
  the model follows the regular expression as written (commas also go into
  the fraction), with no separate lemma.
- MemStorageConfig.Config.SetKey: keys that are not strings, null,
  undefined or booleans become stand-in property keys rather than
  JavaScript's exact `ToString` of numbers and objects.
- The `console.log` timestamp of `setKey`, the 500 ms notification fade,
  the FPS limiter and the loading progress percentage are timing or
  logging only and are left out.
- The order of asynchronous events (promises, the webview message queue,
  file watcher events) is not modelled: every listener is a method the
  environment calls.
- The listeners of `openCustomDocument` are disposed when the document is;
  that disposal is `Util.DisposeAll`, which is not wired to the providers.
- `backupId` of `openCustomDocument`, `reveal` logging, and the
  `onMainObjectMaterialColorChange` colour slider handlers are left out.
- The editor page's drag-and-drop, resize and the editor's commands are
  not modelled.
- The webview's initial requests are issued by `Viewer.Page.LoadModel`,
  called right after construction, as the page's `loadModel()` call does.
- `Viewer.LoadRequests` asks for the corrected `Viewer.MtlPathFor`; the
  path as written is `Viewer.MtlPathAsWritten`, used only by the findings'
  lemmas.
- LegacyViewer.SaveTarget: `current_material` is `Option<string>`, with
  `None` for the number 0; JavaScript's loose `!=` conversion of other
  values is not modelled.
- MemStorageConfig.MemStorage.SetItem: in the source, assigning to
  `__proto__` replaces the prototype when the value is an object and is
  ignored otherwise; the model stores an own property named `__proto__`.
- MemStorageConfig.Config.SetKey: a pair whose key is `__proto__` is
  stored as an own property, for the same reason.
- MemStorageConfig.MergeKeys: a persisted key `__proto__` is copied as an
  own property, for the same reason.
- Html.SettingsRoundTrip: holds only for JSON text without `&`. The source
  escapes only `"`, and a browser decodes every character reference in
  the attribute, so `&amp;` in a setting reads back as `&` (see Findings).
- MeshViewerProvider.ViewerSettingsRoundTrip: only for stringified data
  without `&`, for the same reason.
- ContentProvider.PanelSettingsRoundTrip: only for stringified data
  without `&`, for the same reason.
- Html.DecodeCharRefs knows the five references XML predefines; numeric
  references and the other HTML named references are not decoded. The
  round-trip lemmas do not depend on this: in the text they decode, every
  `&` starts `&quot;` or `&amp;`.
- The providers build the settings element as the source does
  (`Html.SettingsMeta`); the corrected `Html.SettingsMetaEscaped` is used
  only by the finding's lemmas.
- LegacyViewer.Page.ModelLoadedAsWritten: the `Error` dat.GUI throws is
  `Completion.Error`; its message is not modelled.
- Js.ParseJson: JSON text is an abstraction; a stored string is either the
  `JSON.stringify` of a table (`VJson`) or a plain string that does not
  parse, so a string holding JSON text written by other means is not
  modelled.
- LegacyViewer.Page.ModelLoaded: the corrected tree is built with
  `Scene.ModelFolder`, which never fails; dat.GUI's `addFolder` throws on a
  second sibling folder of the same name (two unnamed children both become
  `{noname}`), and that throw is not modelled. As written the page throws
  earlier, at media/viewer.js:168.
- EditorPage.Page.OnMessage: a `loadFile` body other than a `{path,
  basename}` record (`Payload`) is read as having neither property, so the
  fetch is `Fetch(VUndefined, VUndefined)`; a payload that carries a
  `path` some other way is not modelled.
- ContentProvider.NewProvider: the corrected hand-over; the constructor as
  written is `ContentProvider.NewProviderAsWritten` (see Findings).
- MeshEditorProvider.LoadFileParts: stated for files below a non-empty
  directory; a file directly under `/` is not covered.
- src/editorProvider.ts, media/editorPatch.js, the command registrations
  and extension activation are not part of this model.

## Findings

| source | as written | input that shows it | evidently intended | confidence | as-written member | corrected member |
|---|---|---|---|---|---|---|
| src/contentProvider.ts:69 | `dispose` walks the live `_viewers` with `forEach` while each disposed panel's `onDidDispose` splices itself out, so the walk skips the viewer that slides into the freed slot | three open viewers `[a, b, c]`: `a` and `c` are disposed, `b` stays open | every open viewer is disposed | not executed | ContentProvider.ForEachDisposeSkipsSecond | ContentProvider.ViewerProvider.Dispose |
| src/contentProvider.ts:26 | the constructor disposes the previous instance with its `dispose`, whose live-list `forEach` (the row for line 69) skips viewers | a previous instance with viewers `[a, b, c]`: `b`'s panel stays open and listed | the previous instance's viewers are all closed | not executed | ContentProvider.NewProviderAsWritten | ContentProvider.NewProvider |
| src/media/viewer.js:209 | `removeFolder` reads `userMenu.__folders[name]`, a dat.GUI field; the page builds its menu with lil-gui, whose GUI has no `__folders`, so the lookup throws a TypeError after the mixers and the model are already cleared | any `modelRefresh` with `hotReloadAutomatically` on | the Animation, Transform and Model folders are removed and the file is loaded again | not executed | Viewer.Page.ReloadModelAsWritten | Viewer.Page.ReloadModel |
| src/media/viewer.js:242 | the material file is found with `.replace('.obj', '.mtl')`, which replaces the first occurrence and is case-sensitive | `a.obj/b.obj` gives `a.mtl/b.obj`; `Cube.OBJ` gives `Cube.OBJ` (OBJ is still picked) | the model's extension is swapped for `.mtl` | not executed | Viewer.ObjDirectoryExample | Viewer.MtlPathForExt |
| src/media/viewer.js:203 | the Yes button runs `reloadModel()` and then `removeNotification()`; `reloadModel` raises (the row for line 209), so the notification is never removed | clicking Yes on the reload notification | the model reloads and the notification fades out | not executed | Viewer.Page.ReloadConfirmedAsWritten | Viewer.Page.ReloadConfirmed |
| src/media/viewer.js:174-175 | with `hotReloadAutomatically` set, `modelRefresh` calls `reloadModel()`, which raises (the row for line 209) | a `modelRefresh` message with automatic reload on | the model folders are removed and the file is loaded again | not executed | Viewer.Page.OnMessageReceivedAsWritten | Viewer.Page.OnMessageReceived |
| media/viewer.js:168 | the Transform folder binds `object.position` to a property named `pos x` (and so on up to `rot z`); a vector has no such property, so dat.GUI's `add` throws | any model that finishes loading | bind `x`, `y` and `z` and label the controls, as src/media/viewer.js:283-293 does | not executed | LegacyViewer.Page.ModelLoadedAsWritten | LegacyViewer.Page.ModelLoaded |
| src/MeshViewerProvider.ts:161 | the settings JSON is escaped with `.replace(/"/g, '&quot;')` alone (src/contentProvider.ts:154 too), while the browser decodes every character reference in the attribute | a setting holding the text `&amp;` reads back as `&` | `&` is escaped as `&amp;` as well, so the webview reads back exactly the JSON text | not executed | Html.AmpersandSettingsExample | Html.EscapedSettingsRoundTrip |
