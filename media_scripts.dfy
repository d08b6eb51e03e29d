/** The getScripts shape both custom editors share: one `<script>` tag per
    media file, its `src` the file's webview URI, the tags joined by `\n`. */
module MediaScripts {
  import opened Js
  import opened Host
  import opened Html

  /** The URI string of a media file under a non-`file` scheme, with no
      authority: `scheme:extensionPath/media/file`. */
  lemma MediaUriString(extensionPath: string, scheme: string, file: string)
    requires scheme != "file"
    ensures UriString(MediaUri(extensionPath, scheme, file)) == scheme + ":" + extensionPath + "/media/" + file
  {
    var u := MediaUri(extensionPath, scheme, file);
    assert u.authority == "";
  }

  /** The tags, list form: one per file, in order. */
  function MediaScriptTagList(extensionPath: string, scheme: string, files: seq<string>, nonce: Option<string>): (r: seq<string>)
    requires scheme != "file"
    ensures |r| == |files|
    ensures forall i :: 0 <= i < |files| ==> r[i] == ScriptTag(scheme + ":" + extensionPath + "/media/" + files[i], nonce)
    ensures forall i :: 0 <= i < |files| ==> (StartsWith(r[i], "<script nonce=\"") <==> nonce.Some?)
  {
    var sources := MediaSources(extensionPath, scheme, files);
    forall i | 0 <= i < |files|
      ensures sources[i] == scheme + ":" + extensionPath + "/media/" + files[i]
    {
      MediaUriString(extensionPath, scheme, files[i]);
    }
    ScriptTagList(sources, nonce)
  }

  /** The last tag loads the last file. */
  lemma MediaScriptTagListLast(extensionPath: string, scheme: string, files: seq<string>, nonce: Option<string>, last: string)
    requires scheme != "file"
    ensures MediaScriptTagList(extensionPath, scheme, files + [last], nonce)[|files|] ==
      ScriptTag(scheme + ":" + extensionPath + "/media/" + last, nonce)
  {
    assert (files + [last])[|files|] == last;
  }

  /** getScripts(scheme, nonce) over the given media files. */
  function MediaScriptText(extensionPath: string, scheme: string, files: seq<string>, nonce: Option<string>): string
    requires scheme != "file"
  {
    JoinLines(MediaScriptTagList(extensionPath, scheme, files, nonce))
  }

  /** When no part of the inputs holds a `\n`, the text splits back into
      exactly the tags, one per file, in file order. */
  lemma MediaScriptLines(extensionPath: string, scheme: string, files: seq<string>, nonce: Option<string>)
    requires scheme != "file" && files != []
    requires '\n' !in extensionPath && '\n' !in scheme
    requires forall i :: 0 <= i < |files| ==> '\n' !in files[i]
    requires nonce.Some? ==> '\n' !in nonce.value
    ensures Lines(MediaScriptText(extensionPath, scheme, files, nonce)) == MediaScriptTagList(extensionPath, scheme, files, nonce)
  {
    var ts := MediaScriptTagList(extensionPath, scheme, files, nonce);
    forall i | 0 <= i < |ts| ensures '\n' !in ts[i] {
      var src := scheme + ":" + extensionPath + "/media/" + files[i];
      assert '\n' !in src;
    }
    LinesJoinLines(ts);
  }
}
