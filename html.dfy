/** The text the providers put into webview HTML: the settings `<meta>`
    element with its `&quot;`-escaped attribute, and the `\n`-joined list of
    `<script>` tags. */
module Html {
  import opened Js

  // ---------------------------------------------------------------------
  // `.replace(/"/g, '&quot;')`

  const QuotRef: string := "&quot;"

  /** Every `"` of `s` replaced by `&quot;`. */
  function EscapeQuotes(s: string): (r: string)
    ensures '"' !in r
    decreases |s|
  {
    if s == [] then []
    else (if s[0] == '"' then QuotRef else [s[0]]) + EscapeQuotes(s[1..])
  }

  /** Each `"` grows the text by five characters. */
  lemma {:induction false} EscapeQuotesLength(s: string)
    ensures |EscapeQuotes(s)| == |s| + 5 * multiset(s)['"']
    decreases |s|
  {
    if s != [] {
      assert s == [s[0]] + s[1..];
      EscapeQuotesLength(s[1..]);
    }
  }

  /** A text without `"` is left as it is. */
  lemma {:induction false} EscapeQuotesUnquoted(s: string)
    requires '"' !in s
    ensures EscapeQuotes(s) == s
    decreases |s|
  {
    if s != [] {
      EscapeQuotesUnquoted(s[1..]);
    }
  }

  /** What an HTML parser makes of character references in an attribute
      value, scanned left to right: each of the five references XML
      predefines becomes its character; other text is kept. */
  function DecodeCharRefs(s: string): (r: string)
    decreases |s|
  {
    if s == [] then []
    else if StartsWith(s, QuotRef) then "\"" + DecodeCharRefs(s[6..])
    else if StartsWith(s, AmpRef) then "&" + DecodeCharRefs(s[5..])
    else if StartsWith(s, "&lt;") then "<" + DecodeCharRefs(s[4..])
    else if StartsWith(s, "&gt;") then ">" + DecodeCharRefs(s[4..])
    else if StartsWith(s, "&apos;") then "'" + DecodeCharRefs(s[6..])
    else [s[0]] + DecodeCharRefs(s[1..])
  }

  /** Every reference starts with `&`, so any other character is kept. */
  lemma DecodeOther(c: char, t: string)
    requires c != '&'
    ensures DecodeCharRefs([c] + t) == [c] + DecodeCharRefs(t)
  {
    var s := [c] + t;
    assert s[0] == c;
    assert s[1..] == t;
  }

  lemma DecodeQuotRef(t: string)
    ensures DecodeCharRefs(QuotRef + t) == "\"" + DecodeCharRefs(t)
  {
    assert (QuotRef + t)[..6] == QuotRef;
    assert (QuotRef + t)[6..] == t;
  }

  lemma DecodeAmpRef(t: string)
    ensures DecodeCharRefs(AmpRef + t) == "&" + DecodeCharRefs(t)
  {
    var e := AmpRef + t;
    assert !StartsWith(e, QuotRef) by { assert e[1] == 'a'; }
    assert e[..5] == AmpRef;
    assert e[5..] == t;
  }

  /** Decoding undoes the quote escaping of any text without `&`. */
  lemma {:induction false} DecodeEscape(s: string)
    requires '&' !in s
    ensures DecodeCharRefs(EscapeQuotes(s)) == s
    decreases |s|
  {
    if s != [] {
      var rest := EscapeQuotes(s[1..]);
      DecodeEscape(s[1..]);
      if s[0] == '"' {
        assert EscapeQuotes(s) == QuotRef + rest;
        DecodeQuotRef(rest);
      } else {
        assert EscapeQuotes(s) == [s[0]] + rest;
        DecodeOther(s[0], rest);
      }
      assert s == [s[0]] + s[1..];
    }
  }

  const AmpRef: string := "&amp;"

  /** Escaping that also writes every `&` as `&amp;`. */
  function EscapeAttr(s: string): (r: string)
    ensures '"' !in r
    decreases |s|
  {
    if s == [] then []
    else (if s[0] == '"' then QuotRef else if s[0] == '&' then AmpRef else [s[0]]) + EscapeAttr(s[1..])
  }

  /** Decoding undoes this escaping for every text. */
  lemma {:induction false} DecodeEscapeAttr(s: string)
    ensures DecodeCharRefs(EscapeAttr(s)) == s
    decreases |s|
  {
    if s != [] {
      var rest := EscapeAttr(s[1..]);
      DecodeEscapeAttr(s[1..]);
      if s[0] == '"' {
        assert EscapeAttr(s) == QuotRef + rest;
        DecodeQuotRef(rest);
      } else if s[0] == '&' {
        assert EscapeAttr(s) == AmpRef + rest;
        DecodeAmpRef(rest);
      } else {
        assert EscapeAttr(s) == [s[0]] + rest;
        DecodeOther(s[0], rest);
      }
      assert s == [s[0]] + s[1..];
    }
  }

  // ---------------------------------------------------------------------
  // The settings element

  const MetaPrefix: string := "<meta id=\"vscode-3dviewer-data\" data-settings=\""
  const MetaSuffix: string := "\">"

  /** getSettings' template around the JSON text of the initial data. */
  function SettingsMeta(json: string): string
  {
    MetaPrefix + EscapeQuotes(json) + MetaSuffix
  }

  /** The text before the first `"` (all of `s` when it has none). */
  function UpToQuote(s: string): (r: string)
    ensures |r| <= |s| && r == s[..|r|] && '"' !in r
    ensures |r| < |s| ==> s[|r|] == '"'
    decreases |s|
  {
    if s == [] || s[0] == '"' then []
    else [s[0]] + UpToQuote(s[1..])
  }

  lemma {:induction false} UpToQuoteOfUnquoted(v: string, tail: string)
    requires '"' !in v
    requires tail != [] && tail[0] == '"'
    ensures UpToQuote(v + tail) == v
    decreases |v|
  {
    if v != [] {
      assert (v + tail)[1..] == v[1..] + tail;
      UpToQuoteOfUnquoted(v[1..], tail);
    }
  }

  /** How the webview reads the element back: `dataset.settings`, the
      attribute text up to the closing quote with its character references
      decoded. */
  function ReadSettings(html: string): (r: Option<string>)
    ensures r.Some? <==> StartsWith(html, MetaPrefix)
  {
    if StartsWith(html, MetaPrefix) then Some(DecodeCharRefs(UpToQuote(html[|MetaPrefix|..])))
    else None
  }

  /** The attribute value holds no raw `"`, so the element ends where the
      template ends it, and for a JSON text without `&` the webview reads
      back exactly that text. */
  lemma SettingsRoundTrip(json: string)
    requires '&' !in json
    ensures ReadSettings(SettingsMeta(json)) == Some(json)
  {
    var m := SettingsMeta(json);
    var v := EscapeQuotes(json) + MetaSuffix;
    assert m == MetaPrefix + v;
    assert m[..|MetaPrefix|] == MetaPrefix && m[|MetaPrefix|..] == v;
    UpToQuoteOfUnquoted(EscapeQuotes(json), MetaSuffix);
    DecodeEscape(json);
  }

  /** As written, a JSON text that holds `&amp;` reads back with `&`. */
  lemma AmpersandSettingsExample()
    ensures ReadSettings(SettingsMeta(AmpRef)) == Some("&")
  {
    var m := SettingsMeta(AmpRef);
    EscapeQuotesUnquoted(AmpRef);
    assert m == MetaPrefix + (AmpRef + MetaSuffix);
    assert m[..|MetaPrefix|] == MetaPrefix && m[|MetaPrefix|..] == AmpRef + MetaSuffix;
    UpToQuoteOfUnquoted(AmpRef, MetaSuffix);
    DecodeAmpRef([]);
    assert AmpRef + [] == AmpRef;
    assert DecodeCharRefs(AmpRef) == "&";
    assert StartsWith(m, MetaPrefix);
  }

  /** The settings element with `&` escaped as well. */
  function SettingsMetaEscaped(json: string): string
  {
    MetaPrefix + EscapeAttr(json) + MetaSuffix
  }

  /** With `&` escaped, every JSON text reads back unchanged. */
  lemma EscapedSettingsRoundTrip(json: string)
    ensures ReadSettings(SettingsMetaEscaped(json)) == Some(json)
  {
    var m := SettingsMetaEscaped(json);
    var v := EscapeAttr(json) + MetaSuffix;
    assert m == MetaPrefix + v;
    assert m[..|MetaPrefix|] == MetaPrefix && m[|MetaPrefix|..] == v;
    UpToQuoteOfUnquoted(EscapeAttr(json), MetaSuffix);
    DecodeEscapeAttr(json);
  }

  // ---------------------------------------------------------------------
  // Script tags joined by '\n'

  /** `array.join('\n')` */
  function JoinLines(ts: seq<string>): (r: string)
    decreases |ts|
  {
    if ts == [] then ""
    else if |ts| == 1 then ts[0]
    else ts[0] + "\n" + JoinLines(ts[1..])
  }

  /** `s.split('\n')` */
  function Lines(s: string): (r: seq<string>)
    ensures |r| >= 1
    decreases |s|
  {
    if s == [] then [""]
    else if s[0] == '\n' then [""] + Lines(s[1..])
    else
      var rest := Lines(s[1..]);
      [[s[0]] + rest[0]] + rest[1..]
  }

  lemma {:induction false} LinesOfLine(t: string, u: string)
    requires '\n' !in t
    ensures Lines(t + u) == [t + Lines(u)[0]] + Lines(u)[1..]
    decreases |t|
  {
    if t == [] {
      assert t + u == u;
      assert t + Lines(u)[0] == Lines(u)[0];
      assert Lines(u) == [Lines(u)[0]] + Lines(u)[1..];
    } else {
      assert (t + u)[1..] == t[1..] + u;
      LinesOfLine(t[1..], u);
      assert [t[0]] + (t[1..] + Lines(u)[0]) == t + Lines(u)[0];
    }
  }

  /** Splitting the joined lines gives the lines back when none of them
      holds a `\n` (a join of nothing splits into one empty line). */
  lemma {:induction false} LinesJoinLines(ts: seq<string>)
    requires ts != []
    requires forall i :: 0 <= i < |ts| ==> '\n' !in ts[i]
    ensures Lines(JoinLines(ts)) == ts
    decreases |ts|
  {
    if |ts| == 1 {
      LinesOfLine(ts[0], "");
      assert ts[0] + "" == ts[0];
    } else {
      LinesJoinLines(ts[1..]);
      var j := JoinLines(ts[1..]);
      assert ts[0] + "\n" + j == ts[0] + ("\n" + j);
      LinesOfLine(ts[0], "\n" + j);
      assert ("\n" + j)[1..] == j;
      assert Lines("\n" + j) == [""] + Lines(j);
      assert JoinLines(ts) == ts[0] + ("\n" + j);
      assert ts[0] + "" == ts[0];
      assert ts == [ts[0]] + ts[1..];
    }
  }

  /** `<script src="…"></script>`, with `nonce="…"` first when there is a
      nonce. */
  function ScriptTag(src: string, nonce: Option<string>): (r: string)
    ensures StartsWith(r, "<script nonce=\"") <==> nonce.Some?
    ensures '\n' !in src && (nonce.Some? ==> '\n' !in nonce.value) ==> '\n' !in r
  {
    var r := match nonce
      case Some(n) => "<script nonce=\"" + n + "\" src=\"" + src + "\"></script>"
      case None => "<script src=\"" + src + "\"></script>";
    assert r[..8] == "<script ";
    assert nonce.None? ==> r[8] == 's';
    r
  }

  /** The tags for `sources`, in order. */
  function ScriptTagList(sources: seq<string>, nonce: Option<string>): (r: seq<string>)
    ensures |r| == |sources|
    ensures forall i :: 0 <= i < |r| ==> r[i] == ScriptTag(sources[i], nonce)
  {
    seq(|sources|, i requires 0 <= i < |sources| => ScriptTag(sources[i], nonce))
  }

  /** getScripts' body: the tags joined by `\n`. */
  function ScriptTags(sources: seq<string>, nonce: Option<string>): string
  {
    JoinLines(ScriptTagList(sources, nonce))
  }

  /** The emitted text splits into one tag per source, in source order, and
      every tag carries the nonce attribute exactly when there is a nonce. */
  lemma ScriptTagsLines(sources: seq<string>, nonce: Option<string>)
    requires sources != []
    requires forall i :: 0 <= i < |sources| ==> '\n' !in sources[i]
    requires nonce.Some? ==> '\n' !in nonce.value
    ensures |Lines(ScriptTags(sources, nonce))| == |sources|
    ensures forall i :: 0 <= i < |sources| ==> Lines(ScriptTags(sources, nonce))[i] == ScriptTag(sources[i], nonce)
    ensures forall i :: 0 <= i < |sources| ==>
      (StartsWith(Lines(ScriptTags(sources, nonce))[i], "<script nonce=\"") <==> nonce.Some?)
  {
    LinesJoinLines(ScriptTagList(sources, nonce));
  }
}
