/** `path.basename` and `path.dirname` of Node's `path` module (POSIX
    flavour), which MeshEditorProvider uses to split the file to load. Both
    are Node's backward scans, written as recursive functions over the scan
    position. */
module NodePath {

  /** The scan of `dirname` from index `i` down to 1: the index of the first
      `/` met after a non-`/` character, or -1. `matched` holds while only
      `/` characters have been seen. */
  function DirEnd(p: string, i: int, matched: bool): (end: int)
    requires i < |p|
    ensures end == -1 || 1 <= end <= i
    decreases i
  {
    if i < 1 then -1
    else if p[i] == '/' then (if !matched then i else DirEnd(p, i - 1, matched))
    else DirEnd(p, i - 1, false)
  }

  /** `path.dirname(p)` */
  function Dirname(p: string): (r: string)
  {
    if p == [] then "."
    else
      var hasRoot := p[0] == '/';
      var end := DirEnd(p, |p| - 1, true);
      if end == -1 then (if hasRoot then "/" else ".")
      else if hasRoot && end == 1 then "//"
      else p[..end]
  }

  /** The scan of `basename` from index `i` down to 0: the start and end of
      the last segment, with `end == -1` while no non-`/` character has been
      seen. */
  function BaseScan(p: string, i: int, matched: bool, end: int): (r: (int, int))
    requires -1 <= i < |p|
    requires end == -1 || i + 1 < end <= |p|
    requires matched ==> end == -1
    ensures 0 <= r.0
    ensures r.1 == -1 || r.0 < r.1 <= |p|
    decreases i + 1
  {
    if i < 0 then (0, end)
    else if p[i] == '/' then (if !matched then (i + 1, end) else BaseScan(p, i - 1, matched, end))
    else if end == -1 then BaseScan(p, i - 1, false, i + 1)
    else BaseScan(p, i - 1, matched, end)
  }

  /** `path.basename(p)` */
  function Basename(p: string): (r: string)
  {
    var (start, end) := BaseScan(p, |p| - 1, true, -1);
    if end == -1 then "" else p[start..end]
  }

  /** Over a run of non-`/` characters right after a `/` at `k`, the
      dirname scan stops at `k`. */
  lemma {:induction false} DirEndSegment(p: string, k: int, i: int, matched: bool)
    requires 1 <= k <= i < |p|
    requires p[k] == '/'
    requires forall j :: k < j <= i ==> p[j] != '/'
    requires i > k || !matched
    ensures DirEnd(p, i, matched) == k
    decreases i
  {
    if i > k {
      DirEndSegment(p, k, i - 1, false);
    }
  }

  /** Over a run of non-`/` characters right after a `/` at `k` (or from the
      start when `k == -1`), the basename scan finds the segment. */
  lemma {:induction false} BaseScanSegment(p: string, k: int, i: int, matched: bool, end: int)
    requires -1 <= k <= i < |p|
    requires k >= 0 ==> p[k] == '/'
    requires forall j :: k < j <= i ==> p[j] != '/'
    requires end == -1 || i + 1 < end <= |p|
    requires matched ==> end == -1
    requires i > k || !matched
    requires i == |p| - 1 ==> matched && end == -1
    requires i < |p| - 1 ==> !matched && end == |p|
    ensures BaseScan(p, i, matched, end) == (k + 1, |p|)
    decreases i + 1
  {
    if i > k {
      if end == -1 {
        BaseScanSegment(p, k, i - 1, false, i + 1);
      } else {
        BaseScanSegment(p, k, i - 1, matched, end);
      }
    }
  }

  /** The directory part of `dir/name` is `dir`, when `dir` does not end in
      `/` and `name` is one non-empty segment. */
  lemma DirnameOfJoin(dir: string, name: string)
    requires dir != [] && dir[|dir| - 1] != '/'
    requires name != [] && '/' !in name
    ensures Dirname(dir + "/" + name) == dir
  {
    var p := dir + "/" + name;
    forall j | |dir| < j <= |p| - 1 ensures p[j] != '/' {
      assert p[j] == name[j - |dir| - 1];
    }
    DirEndSegment(p, |dir|, |p| - 1, true);
    assert p[..|dir|] == dir;
    assert p[0] == dir[0];
  }

  /** The last segment of `dir/name` is `name`. */
  lemma BasenameOfJoin(dir: string, name: string)
    requires name != [] && '/' !in name
    ensures Basename(dir + "/" + name) == name
  {
    var p := dir + "/" + name;
    forall j | |dir| < j <= |p| - 1 ensures p[j] != '/' {
      assert p[j] == name[j - |dir| - 1];
    }
    BaseScanSegment(p, |dir|, |p| - 1, true, -1);
    assert p[|dir| + 1..] == name;
  }

  /** A single segment is its own basename. */
  lemma BasenameOfSegment(name: string)
    requires name != [] && '/' !in name
    ensures Basename(name) == name
  {
    forall j | -1 < j <= |name| - 1 ensures name[j] != '/' {
    }
    BaseScanSegment(name, -1, |name| - 1, true, -1);
    assert name[0..] == name;
  }
}
