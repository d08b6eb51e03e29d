/** media/editor.js: the page wrapped around the three.js editor in the
    `3dviewer.editor` webview. Modelled: `Number.prototype.format`, the
    keydown dispatch, the `#file=` hash rule at start-up and the `loadFile`
    message with its lazily created file loader. The editor itself is
    known only through the calls the page makes on it. */
module EditorPage {
  import opened Js
  import opened Host

  // ---------------------------------------------------------------------
  // Number.prototype.format

  predicate IsDigit(c: char)
  {
    '0' <= c <= '9'
  }

  predicate AllDigits(s: string)
  {
    forall i :: 0 <= i < |s| ==> IsDigit(s[i])
  }

  /** The length of the run of digits that starts at position `j`. */
  function DigitRun(s: string, j: nat): (r: nat)
    requires j <= |s|
    ensures r <= |s| - j
    decreases |s| - j
  {
    if j < |s| && IsDigit(s[j]) then 1 + DigitRun(s, j + 1) else 0
  }

  /** The regular expression `(\d)(?=(\d{3})+(?!\d))` matches the digit at
      `i` exactly when it is followed by a positive multiple of three
      digits and then a non-digit or the end. */
  predicate CommaAfter(s: string, i: nat)
    requires i < |s|
  {
    var k := DigitRun(s, i + 1);
    IsDigit(s[i]) && k > 0 && k % 3 == 0
  }

  /** The global replace by `"$1,"` from position `i` on: every matched
      digit is followed by a `,`. Each match consumes only its digit, so
      every position is tested. */
  function FormatFrom(s: string, i: nat): string
    requires i <= |s|
    decreases |s| - i
  {
    if i == |s| then []
    else [s[i]] + (if CommaAfter(s, i) then [','] else []) + FormatFrom(s, i + 1)
  }

  /** One step of the replace: the character at `i`, its comma if it gets
      one, and the rest. */
  lemma FormatFromStep(s: string, i: nat, comma: bool)
    requires i < |s| && comma == CommaAfter(s, i)
    ensures FormatFrom(s, i) == [s[i]] + (if comma then [','] else []) + FormatFrom(s, i + 1)
  {
  }

  /** `format()` applied to the text `s` of `toString()`. */
  function Format(s: string): string
  {
    FormatFrom(s, 0)
  }

  /** The text with its commas deleted. */
  function RemoveCommas(t: string): string
  {
    if t == [] then [] else (if t[0] == ',' then [] else [t[0]]) + RemoveCommas(t[1..])
  }

  lemma {:induction false} RemoveCommasConcat(a: string, b: string)
    ensures RemoveCommas(a + b) == RemoveCommas(a) + RemoveCommas(b)
    decreases |a|
  {
    if a == [] {
      assert a + b == b;
    } else {
      assert (a + b)[0] == a[0];
      assert (a + b)[1..] == a[1..] + b;
      RemoveCommasConcat(a[1..], b);
    }
  }

  lemma {:induction false} RemoveCommasFormatFrom(s: string, i: nat)
    requires i <= |s| && ',' !in s
    ensures RemoveCommas(FormatFrom(s, i)) == s[i..]
    decreases |s| - i
  {
    if i < |s| {
      var comma := CommaAfter(s, i);
      var c: string := if comma then [','] else [];
      var rest := FormatFrom(s, i + 1);
      FormatFromStep(s, i, comma);
      assert RemoveCommas(([s[i]] + c) + rest) == RemoveCommas([s[i]] + c) + RemoveCommas(rest) by {
        RemoveCommasConcat([s[i]] + c, rest);
      }
      assert RemoveCommas([s[i]] + c) == [s[i]] by {
        RemoveCommasConcat([s[i]], c);
        assert RemoveCommas([s[i]]) == [s[i]] by {
          assert s[i] != ',';
          assert [s[i]][1..] == [];
        }
        assert RemoveCommas(c) == [] by {
          if c != [] {
            assert c[1..] == [];
          }
        }
      }
      assert RemoveCommas(rest) == s[i + 1..] by {
        RemoveCommasFormatFrom(s, i + 1);
      }
      assert s[i..] == [s[i]] + s[i + 1..];
    }
  }

  /** Deleting the separators gives back `toString()`: the number's text
      never holds a comma. */
  lemma RemoveCommasFormat(s: string)
    requires ',' !in s
    ensures RemoveCommas(Format(s)) == s
  {
    RemoveCommasFormatFrom(s, 0);
  }

  /** A digit that starts a run of at most three digits gets no comma. */
  lemma ShortRunNoComma(s: string, i: nat)
    requires i < |s| && DigitRun(s, i) <= 3
    ensures !CommaAfter(s, i)
  {
    if IsDigit(s[i]) {
      assert DigitRun(s, i + 1) <= 2;
    }
  }

  lemma {:induction false} FormatFromShortRuns(s: string, i: nat)
    requires i <= |s|
    requires forall j :: 0 <= j < |s| ==> DigitRun(s, j) <= 3
    ensures FormatFrom(s, i) == s[i..]
    decreases |s| - i
  {
    if i < |s| {
      ShortRunNoComma(s, i);
      FormatFromShortRuns(s, i + 1);
      assert FormatFrom(s, i) == [s[i]] + FormatFrom(s, i + 1);
      assert s[i..] == [s[i]] + s[i + 1..];
    }
  }

  /** A text whose digit runs have at most three digits is left as it is. */
  lemma ShortRunsUnchanged(s: string)
    requires forall j :: 0 <= j < |s| ==> DigitRun(s, j) <= 3
    ensures Format(s) == s
  {
    FormatFromShortRuns(s, 0);
  }

  /** Thousands grouping of a digit string, from the right: the reference
      `format()` is meant to compute. */
  function GroupThousands(d: string): string
    decreases |d|
  {
    if |d| <= 3 then d else GroupThousands(d[..|d| - 3]) + "," + d[|d| - 3..]
  }

  lemma {:induction false} DigitRunOfDigits(d: string, j: nat)
    requires AllDigits(d) && j <= |d|
    ensures DigitRun(d, j) == |d| - j
    decreases |d| - j
  {
    if j < |d| {
      DigitRunOfDigits(d, j + 1);
    }
  }

  /** In a digit string the digit at `i` gets a comma exactly when the
      number of digits after it is a positive multiple of three. */
  lemma CommaAfterInDigits(d: string, i: nat)
    requires AllDigits(d) && i < |d|
    ensures CommaAfter(d, i) <==> |d| - 1 - i > 0 && (|d| - 1 - i) % 3 == 0
  {
    DigitRunOfDigits(d, i + 1);
  }

  lemma {:induction false} FormatFromLastThree(d: string, j: nat)
    requires AllDigits(d) && |d| - 3 <= j <= |d|
    ensures FormatFrom(d, j) == d[j..]
    decreases |d| - j
  {
    if j < |d| {
      CommaAfterInDigits(d, j);
      FormatFromLastThree(d, j + 1);
      assert d[j..] == [d[j]] + d[j + 1..];
    }
  }

  lemma DigitsPrefix(d: string, n: nat)
    requires AllDigits(d) && n <= |d|
    ensures AllDigits(d[..n])
  {
    var p := d[..n];
    forall k | 0 <= k < |p| ensures IsDigit(p[k]) { assert p[k] == d[k]; }
  }

  /** The last four digits: the first of them gets the comma in `d` and
      is the last digit of `d` without its last three. */
  lemma FormatFromSplitBase(d: string)
    requires AllDigits(d) && |d| >= 4
    ensures FormatFrom(d, |d| - 4) == FormatFrom(d[..|d| - 3], |d| - 4) + "," + d[|d| - 3..]
  {
    var j := |d| - 4;
    var p := d[..|d| - 3];
    var tail := d[|d| - 3..];
    assert CommaAfter(d, j) by {
      DigitRunOfDigits(d, j + 1);
    }
    assert !CommaAfter(p, j) by {
      assert DigitRun(p, j + 1) == 0;
    }
    assert FormatFrom(d, j + 1) == tail by {
      FormatFromLastThree(d, j + 1);
    }
    FormatFromStep(d, j, true);
    FormatFromStep(p, j, false);
    assert FormatFrom(p, j + 1) == [];
    assert FormatFrom(p, j) == [d[j]];
  }

  /** Formatting a digit string of four or more digits from `j` is the
      formatting of all but its last three digits, a comma, and those
      three. */
  lemma {:induction false} FormatFromSplit(d: string, j: nat)
    requires AllDigits(d) && |d| >= 4 && j <= |d| - 4
    ensures FormatFrom(d, j) == FormatFrom(d[..|d| - 3], j) + "," + d[|d| - 3..]
    decreases |d| - j
  {
    if j == |d| - 4 {
      FormatFromSplitBase(d);
    } else {
      var p := d[..|d| - 3];
      var tail := d[|d| - 3..];
      var comma := CommaAfter(d, j);
      assert CommaAfter(p, j) == comma by {
        DigitsPrefix(d, |d| - 3);
        CommaAfterInDigits(d, j);
        CommaAfterInDigits(p, j);
        var n := |p| - 1 - j;
        assert |d| - 1 - j == n + 3 && n > 0;
        assert (n + 3) % 3 == n % 3;
      }
      assert FormatFrom(d, j + 1) == FormatFrom(p, j + 1) + "," + tail by {
        FormatFromSplit(d, j + 1);
      }
      FormatFromStep(d, j, comma);
      FormatFromStep(p, j, comma);
      assert d[j] == p[j];
    }
  }

  /** On the text of a non-negative integer `format()` is thousands
      grouping. */
  lemma {:induction false} FormatIsGrouping(d: string)
    requires AllDigits(d)
    ensures Format(d) == GroupThousands(d)
    decreases |d|
  {
    if |d| <= 3 {
      FormatFromLastThree(d, 0);
      assert d[0..] == d;
    } else {
      FormatFromSplit(d, 0);
      DigitsPrefix(d, |d| - 3);
      FormatIsGrouping(d[..|d| - 3]);
    }
  }

  // ---------------------------------------------------------------------
  // IS_MAC and the keydown dispatch

  /** `navigator.platform.toUpperCase().indexOf('MAC') >= 0` */
  predicate IsMac(platform: string)
  {
    Contains(ToUpper(platform), "MAC")
  }

  /** A platform name starting with `Mac` in any case counts as a Mac. */
  lemma MacPlatform(rest: string)
    ensures IsMac("Mac" + rest) && IsMac("mac" + rest)
  {
    var a := ToUpper("Mac" + rest);
    var b := ToUpper("mac" + rest);
    assert a[..3] == "MAC";
    assert b[..3] == "MAC";
  }

  /** What a keydown asks for. */
  datatype KeyAction = NoAction | DeleteSelected | UndoAction | RedoAction | TransformMode(mode: string)

  /** The switch on `event.keyCode`: whether the browser default is
      prevented and what follows. Backspace (8) prevents the default and
      falls through to delete (46); Z (90) undoes, or redoes with Shift,
      when the platform's modifier is held; W, E, R (87, 69, 82) pick the
      transform mode. */
  function KeyDispatch(keyCode: int, isMac: bool, metaKey: bool, ctrlKey: bool, shiftKey: bool): (r: (bool, KeyAction))
  {
    var modifier := if isMac then metaKey else ctrlKey;
    if keyCode == 8 then (true, DeleteSelected)
    else if keyCode == 46 then (false, DeleteSelected)
    else if keyCode == 90 then
      (if modifier then (true, if shiftKey then RedoAction else UndoAction) else (false, NoAction))
    else if keyCode == 87 then (false, TransformMode("translate"))
    else if keyCode == 69 then (false, TransformMode("rotate"))
    else if keyCode == 82 then (false, TransformMode("scale"))
    else (false, NoAction)
  }

  /** Backspace does what delete does and also prevents the browser's
      back navigation. */
  lemma BackspaceFallsThrough(isMac: bool, metaKey: bool, ctrlKey: bool, shiftKey: bool)
    ensures KeyDispatch(8, isMac, metaKey, ctrlKey, shiftKey).1 == KeyDispatch(46, isMac, metaKey, ctrlKey, shiftKey).1
    ensures KeyDispatch(8, isMac, metaKey, ctrlKey, shiftKey).0 && !KeyDispatch(46, isMac, metaKey, ctrlKey, shiftKey).0
  {
  }

  /** Z undoes or redoes only with Cmd on a Mac and Ctrl elsewhere; the
      other modifier does nothing. */
  lemma UndoRedoModifier(shiftKey: bool)
    ensures KeyDispatch(90, true, true, false, shiftKey) == (true, if shiftKey then RedoAction else UndoAction)
    ensures KeyDispatch(90, false, false, true, shiftKey) == (true, if shiftKey then RedoAction else UndoAction)
    ensures KeyDispatch(90, true, false, true, shiftKey) == (false, NoAction)
    ensures KeyDispatch(90, false, true, false, shiftKey) == (false, NoAction)
  {
  }

  /** W, E and R pick the translate, rotate and scale modes, whatever the
      modifiers. */
  lemma TransformKeys(isMac: bool, metaKey: bool, ctrlKey: bool, shiftKey: bool)
    ensures KeyDispatch(87, isMac, metaKey, ctrlKey, shiftKey) == (false, TransformMode("translate"))
    ensures KeyDispatch(69, isMac, metaKey, ctrlKey, shiftKey) == (false, TransformMode("rotate"))
    ensures KeyDispatch(82, isMac, metaKey, ctrlKey, shiftKey) == (false, TransformMode("scale"))
  {
  }

  /** Only the six key codes do anything. */
  lemma OtherKeysIgnored(keyCode: int, isMac: bool, metaKey: bool, ctrlKey: bool, shiftKey: bool)
    requires keyCode !in {8, 46, 90, 87, 69, 82}
    ensures KeyDispatch(keyCode, isMac, metaKey, ctrlKey, shiftKey) == (false, NoAction)
  {
  }

  // ---------------------------------------------------------------------
  // The #file= hash rule

  /** `hash.substr(1, 5) === 'file='` selects the file `hash.substr(6)`. */
  function HashFile(hash: string): (r: Option<string>)
  {
    if |hash| >= 6 && hash[1..6] == "file=" then Some(hash[6..]) else None
  }

  /** A hash selects a file exactly when it is one character, `file=` and
      the file. */
  lemma HashFileRoundTrip(hash: string, file: string)
    ensures HashFile("#file=" + file) == Some(file)
    ensures HashFile(hash) == Some(file) <==> |hash| >= 1 && hash == [hash[0]] + "file=" + file
  {
    var h := "#file=" + file;
    assert h[1..6] == "file=" && h[6..] == file;
    if |hash| >= 1 && hash == [hash[0]] + "file=" + file {
      assert hash[1..6] == "file=" && hash[6..] == file;
    }
    if HashFile(hash) == Some(file) {
      assert hash == [hash[0]] + hash[1..6] + hash[6..];
    }
  }

  // ---------------------------------------------------------------------
  // The page

  /** `editor.selected`: its name, its identity, and whether its `parent`
      is not null. */
  datatype Selection = Selection(name: string, id: nat, hasParent: bool)

  /** Calls the page makes on the editor. */
  datatype EditorCall =
    | Clear
    | ExecuteRemoveObject(id: nat)
    | Undo
    | Redo
    | TransformModeChanged(mode: string)
    | FromJsonOf(url: string)
    | LoadBlob(name: Value)

  /** A `FileLoader.load` the page started: the URL and, for `loadFile`,
      the basename to give the fetched blob. */
  datatype Fetch = Fetch(url: Value, basename: Value)

  const UnsavedDataQuestion: string := "Any unsaved data will be lost. Are you sure?"

  class Page {
    const isMac: bool
    var selected: Option<Selection>
    var calls: seq<EditorCall>
    /** The questions asked with `confirm`. */
    var prompts: seq<string>
    /** Message types posted to the host. */
    var posted: seq<string>
    var isLoadingFromHash: bool
    /** Files fetched for the hash rule. */
    var hashFetches: seq<string>
    /** `window.fileLoader`, by identity, and how many were created. */
    var fileLoader: Option<nat>
    var loadersCreated: nat
    var fetches: seq<Fetch>

    /** The file loader is created at most once and then kept. */
    ghost predicate Valid()
      reads this
    {
      loadersCreated <= 1 && (fileLoader.Some? <==> loadersCreated == 1)
    }

    /** The page's start: `ready` is posted; a `#file=` hash asks for
        confirmation (answered `confirmed`) and, when confirmed, fetches
        the file. */
    constructor (platform: string, hash: string, confirmed: bool)
      ensures Valid()
      ensures isMac == IsMac(platform)
      ensures posted == ["ready"] && selected == None && calls == [] && fetches == []
      ensures fileLoader == None && loadersCreated == 0
      ensures HashFile(hash).None? ==> prompts == [] && hashFetches == [] && !isLoadingFromHash
      ensures HashFile(hash).Some? ==> prompts == [UnsavedDataQuestion]
      ensures HashFile(hash).Some? && confirmed ==> hashFetches == [HashFile(hash).value] && isLoadingFromHash
      ensures HashFile(hash).Some? && !confirmed ==> hashFetches == [] && !isLoadingFromHash
    {
      isMac := IsMac(platform);
      selected := None;
      calls := [];
      posted := ["ready"];
      fileLoader := None;
      loadersCreated := 0;
      fetches := [];
      prompts := [];
      hashFetches := [];
      isLoadingFromHash := false;
      var file := HashFile(hash);
      if file.Some? {
        prompts := [UnsavedDataQuestion];
        if confirmed {
          hashFetches := [file.value];
          isLoadingFromHash := true;
        }
      }
    }

    /** The hash file has arrived: the editor is cleared and filled from its
        JSON. */
    method HashFileFetched(k: nat)
      requires k < |hashFetches|
      modifies this
      ensures calls == old(calls) + [Clear, FromJsonOf(old(hashFetches)[k])]
      ensures hashFetches == old(hashFetches) && fetches == old(fetches) && fileLoader == old(fileLoader)
      ensures loadersCreated == old(loadersCreated)
      ensures selected == old(selected) && prompts == old(prompts) && posted == old(posted)
      ensures isLoadingFromHash == old(isLoadingFromHash)
    {
      calls := calls + [Clear, FromJsonOf(hashFetches[k])];
    }

    /** The keydown listener; `confirmed` answers the delete question.
        Deleting with nothing selected reads `name` of null and raises. */
    method OnKeyDown(keyCode: int, metaKey: bool, ctrlKey: bool, shiftKey: bool, confirmed: bool)
      returns (defaultPrevented: bool, c: Completion)
      modifies this
      ensures defaultPrevented == KeyDispatch(keyCode, isMac, metaKey, ctrlKey, shiftKey).0
      ensures var action := KeyDispatch(keyCode, isMac, metaKey, ctrlKey, shiftKey).1;
        match action
        case NoAction => calls == old(calls) && prompts == old(prompts) && c == Normal
        case DeleteSelected =>
          (selected.None? ==> c == TypeError && calls == old(calls) && prompts == old(prompts)) &&
          (selected.Some? ==>
            c == Normal && prompts == old(prompts) + ["Delete " + selected.value.name + "?"] &&
            calls == old(calls) + (if confirmed && selected.value.hasParent then [ExecuteRemoveObject(selected.value.id)] else []))
        case UndoAction => calls == old(calls) + [Undo] && prompts == old(prompts) && c == Normal
        case RedoAction => calls == old(calls) + [Redo] && prompts == old(prompts) && c == Normal
        case TransformMode(mode) => calls == old(calls) + [TransformModeChanged(mode)] && prompts == old(prompts) && c == Normal
      ensures selected == old(selected) && fetches == old(fetches) && fileLoader == old(fileLoader)
      ensures loadersCreated == old(loadersCreated) && posted == old(posted) && hashFetches == old(hashFetches)
      ensures isLoadingFromHash == old(isLoadingFromHash)
    {
      var plan := KeyDispatch(keyCode, isMac, metaKey, ctrlKey, shiftKey);
      defaultPrevented := plan.0;
      c := Normal;
      match plan.1
      case NoAction =>
      case DeleteSelected =>
        if selected.None? {
          c := TypeError;
        } else {
          prompts := prompts + ["Delete " + selected.value.name + "?"];
          if confirmed && selected.value.hasParent {
            calls := calls + [ExecuteRemoveObject(selected.value.id)];
          }
        }
      case UndoAction =>
        calls := calls + [Undo];
      case RedoAction =>
        calls := calls + [Redo];
      case TransformMode(mode) =>
        calls := calls + [TransformModeChanged(mode)];
    }

    /** The `message` listener: `loadFile` clears the editor, creates the
        file loader on first use only, and fetches `body.path`. A message
        without a body raises after the loader exists. `newLoader` is the
        identity a new loader would get. */
    method OnMessage(msgType: string, body: Body, newLoader: nat) returns (c: Completion)
      requires Valid()
      modifies this
      ensures Valid()
      ensures msgType != "loadFile" ==>
        calls == old(calls) && fetches == old(fetches) &&
        fileLoader == old(fileLoader) && loadersCreated == old(loadersCreated) && c == Normal
      ensures msgType == "loadFile" ==>
        calls == old(calls) + [Clear] &&
        fileLoader == (if old(fileLoader).Some? then old(fileLoader) else Some(newLoader)) &&
        loadersCreated == 1
      ensures msgType == "loadFile" && body.LoadFileBody? ==>
        fetches == old(fetches) + [Fetch(VStr(body.path), VStr(body.basename))] && c == Normal
      ensures msgType == "loadFile" && body.Payload? ==>
        fetches == old(fetches) + [Fetch(VUndefined, VUndefined)] && c == Normal
      ensures msgType == "loadFile" && body.EmptyBody? ==> fetches == old(fetches) && c == TypeError
      ensures selected == old(selected) && prompts == old(prompts) && posted == old(posted)
      ensures hashFetches == old(hashFetches) && isLoadingFromHash == old(isLoadingFromHash)
    {
      c := Normal;
      if msgType == "loadFile" {
        calls := calls + [Clear];
        if fileLoader.None? {
          fileLoader := Some(newLoader);
          loadersCreated := loadersCreated + 1;
        }
        match body
        case LoadFileBody(path, basename, _) =>
          fetches := fetches + [Fetch(VStr(path), VStr(basename))];
        case Payload(_) =>
          // a body that is not a {path, basename} record has neither property
          fetches := fetches + [Fetch(VUndefined, VUndefined)];
        case EmptyBody =>
          c := TypeError;
      }
    }

    /** A fetch started by `loadFile` has arrived: the data goes to the
        editor's loader as a blob named after the basename. */
    method FileFetched(k: nat)
      requires k < |fetches|
      modifies this
      ensures calls == old(calls) + [LoadBlob(old(fetches)[k].basename)]
      ensures fetches == old(fetches) && fileLoader == old(fileLoader) && loadersCreated == old(loadersCreated)
      ensures selected == old(selected) && prompts == old(prompts) && posted == old(posted)
      ensures hashFetches == old(hashFetches) && isLoadingFromHash == old(isLoadingFromHash)
    {
      calls := calls + [LoadBlob(fetches[k].basename)];
    }
  }
}
