/** The parts of the VS Code host that the modelled code touches, as plain
    values: URIs, webview panels, messages and workspace settings. */
module Host {
  import opened Js

  /** A `vscode.Uri`, without percent-encoding, query or fragment. */
  datatype Uri = Uri(scheme: string, authority: string, path: string)

  /** `uri.toString()`: `scheme:` then `//authority` when there is an
      authority or the scheme is `file`, then the path. */
  function UriString(u: Uri): string
  {
    u.scheme + ":" + (if u.authority != "" || u.scheme == "file" then "//" + u.authority else "") + u.path
  }

  /** `uri.fsPath` on a POSIX host. */
  function FsPath(u: Uri): string
  {
    u.path
  }

  /** `uri.with({ scheme: s })` */
  function WithScheme(u: Uri, s: string): (r: Uri)
    ensures r.scheme == s && r.authority == u.authority && r.path == u.path
  {
    u.(scheme := s)
  }

  /** `Uri.file(path)` on a POSIX host. */
  function FileUri(path: string): (r: Uri)
    ensures r.scheme == "file" && FsPath(r) == path
  {
    Uri("file", "", path)
  }

  /** `getMediaPath(scheme, file)`: `Uri.file(path.join(extensionPath,
      'media', file)).with({ scheme })`, for an extension path that is
      already normalised. */
  function MediaUri(extensionPath: string, scheme: string, file: string): (r: Uri)
    ensures r.scheme == scheme && r.path == extensionPath + "/media/" + file
  {
    WithScheme(FileUri(extensionPath + "/media/" + file), scheme)
  }

  /** The URI strings of the media files, in order. */
  function MediaSources(extensionPath: string, scheme: string, files: seq<string>): (r: seq<string>)
    ensures |r| == |files|
    ensures forall i :: 0 <= i < |files| ==> r[i] == UriString(MediaUri(extensionPath, scheme, files[i]))
  {
    seq(|files|, i requires 0 <= i < |files| => UriString(MediaUri(extensionPath, scheme, files[i])))
  }

  /** The URI a custom editor's webview loads its document from: a `file`
      document goes through `webview.asWebviewUri(Uri.file(fsPath))`, any
      other document URI is used as it is. */
  function LoadUri(document: Uri, asWebviewUri: Uri -> Uri): Uri
  {
    if document.scheme == "file" then asWebviewUri(FileUri(FsPath(document))) else document
  }

  /** A webview panel, known by its identity. */
  type Panel = nat

  /** The body of a message; JSON payloads other than `loadFile` are opaque. */
  datatype Body =
    | EmptyBody
    | LoadFileBody(path: string, basename: string, dirname: string)
    | Payload(json: string)

  /** A message a webview sends to the host: `{ type, requestId, body }`. */
  datatype Incoming = Incoming(msgType: string, requestId: Option<int>, body: Body)

  /** A message the host posts to a webview: `{ type, requestId?, body }`
      objects, or a bare string such as `'modelRefresh'`. */
  datatype Outgoing =
    | Typed(msgType: string, requestId: Option<nat>, body: Body)
    | Text(text: string)

  /** One `panel.webview.postMessage(msg)` call. */
  datatype Delivery = Delivery(panel: Panel, msg: Outgoing)

  /** `config.get(key, default)`: the configured value, or the default when
      the key is unset. */
  function ConfigGet(config: map<string, Value>, key: string, default: Value): (v: Value)
    ensures key in config && config[key] != VUndefined ==> v == config[key]
    ensures (key !in config || config[key] == VUndefined) ==> v == default
  {
    if key in config && config[key] != VUndefined then config[key] else default
  }
}
