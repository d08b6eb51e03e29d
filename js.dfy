/** JavaScript values as the webview scripts and the extension host see them,
    reduced to the kinds the modelled code distinguishes. */
module Js {

  datatype Option<+T> = None | Some(value: T)

  /** How an event handler ends: normally, with an uncaught TypeError, or
      with a plain `Error` that library code throws. */
  datatype Completion = Normal | TypeError | Error

  /** A property table of a plain JavaScript object. */
  type Table = map<string, Value>

  /** A JavaScript value. Numbers are reals (NaN and -0 are not modelled);
      a function is known by its name; `VJson(t)` is the string that
      `JSON.stringify` produced for the object whose properties are `t`;
      `VPrototype` is the prototype object `obj.__proto__` reads, an object
      that is not a function and whose string form is `[object Object]`. */
  datatype Value =
    | VUndefined
    | VNull
    | VBool(b: bool)
    | VNum(n: real)
    | VStr(s: string)
    | VFunc(name: string)
    | VJson(table: Table)
    | VPrototype

  /** JavaScript truthiness: what `if (v)` and `v && ...` test. */
  predicate Truthy(v: Value)
  {
    match v
    case VUndefined => false
    case VNull => false
    case VBool(b) => b
    case VNum(n) => n != 0.0
    case VStr(s) => s != ""
    case VFunc(_) => true
    case VJson(_) => true   // JSON text of an object is never empty
    case VPrototype => true
  }

  /** `typeof v === 'function'` */
  predicate IsFunction(v: Value)
  {
    v.VFunc?
  }

  /** The string a value becomes when it is used as a property key
      (`obj[v]`). Strings, `undefined`, `null` and booleans are converted as
      JavaScript does; numbers, functions and JSON texts get a stand-in. */
  function PropertyKey(v: Value): string
  {
    match v
    case VUndefined => "undefined"
    case VNull => "null"
    case VBool(b) => if b then "true" else "false"
    case VNum(_) => "<number>"
    case VStr(s) => s
    case VFunc(name) => "<function " + name + ">"
    case VJson(_) => "<JSON text>"
    case VPrototype => "[object Object]"
  }

  /** What `JSON.parse(JSON.stringify(o))` keeps of an object: every
      property whose value is neither `undefined` nor a function. */
  function JsonRoundTrip(t: Table): (r: Table)
    ensures forall k :: k in r <==> k in t && t[k] != VUndefined && !IsFunction(t[k])
    ensures forall k :: k in r ==> r[k] == t[k]
  {
    map k | k in t && t[k] != VUndefined && !IsFunction(t[k]) :: t[k]
  }

  /** A table whose values are all JSON-representable comes back whole. */
  lemma JsonRoundTripKeepsJson(t: Table)
    requires forall k :: k in t ==> t[k] != VUndefined && !IsFunction(t[k])
    ensures JsonRoundTrip(t) == t
  {
    assert JsonRoundTrip(t).Keys == t.Keys;
  }

  /** Going through JSON a second time loses nothing more. */
  lemma JsonRoundTripIdempotent(t: Table)
    ensures JsonRoundTrip(JsonRoundTrip(t)) == JsonRoundTrip(t)
  {
    JsonRoundTripKeepsJson(JsonRoundTrip(t));
  }

  /** The enumerable properties of `JSON.parse(v)`, or None when it raises
      SyntaxError. The JSON text of an object parses back to that object;
      `null`, booleans and numbers parse to primitives, which have no
      properties; `undefined` and functions are not JSON text, and an
      object that is not JSON text becomes `[object Object]`, which is not
      either. A string is taken to be JSON text only when it is a `VJson`. */
  function ParseJson(v: Value): (r: Option<Table>)
    ensures r.None? <==> v.VUndefined? || v.VFunc? || v.VStr? || v.VPrototype?
    ensures v.VJson? ==> r == Some(JsonRoundTrip(v.table))
  {
    match v
    case VJson(t) => Some(JsonRoundTrip(t))
    case VNull => Some(map[])
    case VBool(_) => Some(map[])
    case VNum(_) => Some(map[])
    case _ => None
  }

  /** Names of the functions every plain object inherits from
      `Object.prototype`. */
  const ObjectPrototypeMethods: set<string> :=
    {"constructor", "hasOwnProperty", "isPrototypeOf", "propertyIsEnumerable",
     "toLocaleString", "toString", "valueOf", "__defineGetter__",
     "__defineSetter__", "__lookupGetter__", "__lookupSetter__"}

  /** The accessor on `Object.prototype` that reads an object's prototype. */
  const ProtoKey := "__proto__"

  /** `obj[key]` on a plain object with own properties `t`: an own property
      wins, an inherited method is found on the prototype, `__proto__`
      reads the prototype, anything else is `undefined`. */
  function PlainGet(t: Table, key: string): (v: Value)
    ensures v != VUndefined <==>
      (key in t && t[key] != VUndefined) || (key !in t && (key in ObjectPrototypeMethods || key == ProtoKey))
    ensures key in t ==> v == t[key]
    ensures key !in t ==> (IsFunction(v) <==> key in ObjectPrototypeMethods)
    ensures key !in t && key == ProtoKey ==> v == VPrototype
  {
    if key in t then t[key]
    else if key in ObjectPrototypeMethods then VFunc(key)
    else if key == ProtoKey then VPrototype
    else VUndefined
  }

  // ---------------------------------------------------------------------
  // Small string helpers used by several modules

  /** `s.endsWith(suffix)` */
  predicate EndsWith(s: string, suffix: string)
  {
    |suffix| <= |s| && s[|s| - |suffix|..] == suffix
  }

  /** `s.startsWith(prefix)` */
  predicate StartsWith(s: string, prefix: string)
  {
    |prefix| <= |s| && s[..|prefix|] == prefix
  }

  /** ASCII `toLowerCase` of one character. */
  function LowerChar(c: char): (r: char)
    ensures 'A' <= c <= 'Z' ==> 'a' <= r <= 'z' && r as int == c as int + 32
    ensures !('A' <= c <= 'Z') ==> r == c
  {
    if 'A' <= c <= 'Z' then (c as int - 'A' as int + 'a' as int) as char else c
  }

  /** ASCII `toLowerCase` / `toUpperCase` of a string. */
  function ToLower(s: string): (r: string)
    ensures |r| == |s|
    ensures forall i :: 0 <= i < |s| ==> r[i] == LowerChar(s[i])
  {
    if s == [] then [] else [LowerChar(s[0])] + ToLower(s[1..])
  }

  function UpperChar(c: char): (r: char)
    ensures 'a' <= c <= 'z' ==> 'A' <= r <= 'Z' && r as int == c as int - 32
    ensures !('a' <= c <= 'z') ==> r == c
  {
    if 'a' <= c <= 'z' then (c as int - 'a' as int + 'A' as int) as char else c
  }

  function ToUpper(s: string): (r: string)
    ensures |r| == |s|
    ensures forall i :: 0 <= i < |s| ==> r[i] == UpperChar(s[i])
  {
    if s == [] then [] else [UpperChar(s[0])] + ToUpper(s[1..])
  }

  /** `s.indexOf(sub) >= 0` */
  predicate Contains(s: string, sub: string)
    decreases |s|
  {
    StartsWith(s, sub) || (|s| > 0 && Contains(s[1..], sub))
  }

  /** `s.split('.').pop()`: the text after the last `.`, or all of `s` when
      it has none. */
  function AfterLastDot(s: string): (r: string)
    ensures |r| <= |s|
    decreases |s|
  {
    if s == [] then []
    else if s[|s| - 1] == '.' then []
    else AfterLastDot(s[..|s| - 1]) + [s[|s| - 1]]
  }

  /** The part after the last dot is a dot-free suffix: all of `s` when it
      has no dot, and the text right after a dot otherwise. */
  lemma {:induction false} AfterLastDotSuffix(s: string)
    ensures '.' !in AfterLastDot(s)
    ensures s[|s| - |AfterLastDot(s)|..] == AfterLastDot(s)
    ensures '.' !in s ==> AfterLastDot(s) == s
    ensures '.' in s ==> s[|s| - |AfterLastDot(s)| - 1] == '.'
    decreases |s|
  {
    if s != [] && s[|s| - 1] != '.' {
      var s' := s[..|s| - 1];
      var last := s[|s| - 1];
      AfterLastDotSuffix(s');
      var r' := AfterLastDot(s');
      assert AfterLastDot(s) == r' + [last];
      assert s == s' + [last];
      assert s[|s| - |r'| - 1..] == s'[|s'| - |r'|..] + [last];
      if '.' in s {
        assert '.' in s' by {
          var k :| 0 <= k < |s| && s[k] == '.';
          assert k < |s'| && s'[k] == '.';
        }
        assert s[|s'| - |r'| - 1] == s'[|s'| - |r'| - 1];
      } else {
        assert '.' !in s' by {
          forall k | 0 <= k < |s'| ensures s'[k] != '.' { assert s'[k] == s[k]; }
        }
      }
    }
  }

  /** The part after the last dot of `p.e` is `e`. */
  lemma {:induction false} AfterLastDotOfExt(p: string, e: string)
    requires '.' !in e
    ensures AfterLastDot(p + "." + e) == e
    decreases |e|
  {
    var s := p + "." + e;
    if e == [] {
      assert s[|s| - 1] == '.';
    } else {
      var e' := e[..|e| - 1];
      assert s[..|s| - 1] == p + "." + e';
      assert '.' !in e' by {
        forall i | 0 <= i < |e'| ensures e'[i] != '.' { assert e'[i] == e[i]; }
      }
      AfterLastDotOfExt(p, e');
      assert e' + [e[|e| - 1]] == e;
    }
  }

  /** `s.replace(pat, rep)` with a string pattern: the first occurrence
      only, and `s` unchanged when there is none. */
  function ReplaceFirst(s: string, pat: string, rep: string): (r: string)
    decreases |s|
  {
    if StartsWith(s, pat) then rep + s[|pat|..]
    else if s == [] then s
    else [s[0]] + ReplaceFirst(s[1..], pat, rep)
  }

  lemma {:induction false} ReplaceFirstAbsent(s: string, pat: string, rep: string)
    requires !Contains(s, pat)
    ensures ReplaceFirst(s, pat, rep) == s
    decreases |s|
  {
    if s != [] {
      ReplaceFirstAbsent(s[1..], pat, rep);
    }
  }

  /** A replacement as long as the pattern keeps the length. */
  lemma {:induction false} ReplaceFirstLength(s: string, pat: string, rep: string)
    requires |rep| == |pat|
    ensures |ReplaceFirst(s, pat, rep)| == |s|
    decreases |s|
  {
    if !StartsWith(s, pat) && s != [] {
      ReplaceFirstLength(s[1..], pat, rep);
    }
  }

  /** When the first occurrence starts right after `p`, the replacement
      lands there. */
  lemma {:induction false} ReplaceFirstAt(p: string, pat: string, q: string, rep: string)
    requires forall i :: 0 <= i < |p| ==> !StartsWith((p + pat + q)[i..], pat)
    ensures ReplaceFirst(p + pat + q, pat, rep) == p + rep + q
    decreases |p|
  {
    var s := p + pat + q;
    if p == [] {
      assert s == pat + q;
      assert StartsWith(s, pat);
      assert s[|pat|..] == q;
    } else {
      assert !StartsWith(s[0..], pat);
      assert s[0..] == s;
      assert s[1..] == p[1..] + pat + q;
      forall i | 0 <= i < |p[1..]| ensures !StartsWith((p[1..] + pat + q)[i..], pat) {
        assert (p[1..] + pat + q)[i..] == s[i + 1..];
      }
      ReplaceFirstAt(p[1..], pat, q, rep);
      assert [s[0]] + (p[1..] + rep + q) == p + rep + q;
    }
  }
}
