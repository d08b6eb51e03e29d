/** The part of a three.js object tree the two viewer scripts touch, as a
    value: names, visibility, materials and children. The `traverse`
    callbacks of src/media/viewer.js and media/viewer.js that set material
    and visibility flags become functions from tree to tree, and the
    recursive GUI folder builder becomes a function from tree to folder
    tree. */
module Scene {
  import opened Js

  /** The material fields the scripts set. */
  datatype Material = Material(wireframe: bool, polygonOffset: bool, polygonOffsetFactor: int, polygonOffsetUnits: int)

  /** `node.material`: missing, one material, or an array of them. */
  datatype MaterialSlot = NoMaterial | One(m: Material) | Many(ms: seq<Material>)

  datatype Node = Node(name: string, material: MaterialSlot, visible: bool, children: seq<Node>)

  // ---------------------------------------------------------------------
  // onWireframeToggle / setWireframe over the subtree

  /** The callback's effect on one node's material: every material, one or
      each of an array, gets `wireframe = w`. */
  function SlotWithWireframe(slot: MaterialSlot, w: bool): (r: MaterialSlot)
  {
    match slot
    case NoMaterial => NoMaterial
    case One(m) => One(m.(wireframe := w))
    case Many(ms) => Many(seq(|ms|, i requires 0 <= i < |ms| => ms[i].(wireframe := w)))
  }

  /** `object.traverse(child => …)` setting the wireframe flag. */
  function WithWireframe(n: Node, w: bool): (r: Node)
    decreases n
  {
    Node(n.name, SlotWithWireframe(n.material, w), n.visible,
      seq(|n.children|, i requires 0 <= i < |n.children| => WithWireframe(n.children[i], w)))
  }

  predicate SlotIsWireframe(slot: MaterialSlot, w: bool)
  {
    match slot
    case NoMaterial => true
    case One(m) => m.wireframe == w
    case Many(ms) => forall i :: 0 <= i < |ms| ==> ms[i].wireframe == w
  }

  /** Every material of the subtree has `wireframe == w`. */
  predicate AllWireframe(n: Node, w: bool)
    decreases n
  {
    SlotIsWireframe(n.material, w) && forall i :: 0 <= i < |n.children| ==> AllWireframe(n.children[i], w)
  }

  /** Names, visibility, material kinds and the tree shape agree. */
  predicate SameShape(a: Node, b: Node)
    decreases a
  {
    a.name == b.name && a.visible == b.visible &&
    a.material.NoMaterial? == b.material.NoMaterial? && a.material.One? == b.material.One? &&
    (a.material.Many? && b.material.Many? ==> |a.material.ms| == |b.material.ms|) &&
    |a.children| == |b.children| &&
    forall i :: 0 <= i < |a.children| ==> SameShape(a.children[i], b.children[i])
  }

  /** After the toggle every material of the tree has the new flag, and the
      tree is otherwise the same shape. */
  lemma {:induction false} WireframeEverywhere(n: Node, w: bool)
    ensures AllWireframe(WithWireframe(n, w), w)
    ensures SameShape(n, WithWireframe(n, w))
    decreases n
  {
    var r := WithWireframe(n, w);
    forall i | 0 <= i < |n.children|
      ensures AllWireframe(r.children[i], w) && SameShape(n.children[i], r.children[i])
    {
      WireframeEverywhere(n.children[i], w);
    }
  }

  /** A tree already in the requested state is left as it is: the toggle
      changes nothing but the wireframe flags. */
  lemma {:induction false} WireframeNoChange(n: Node, w: bool)
    requires AllWireframe(n, w)
    ensures WithWireframe(n, w) == n
    decreases n
  {
    forall i | 0 <= i < |n.children| ensures WithWireframe(n.children[i], w) == n.children[i] {
      WireframeNoChange(n.children[i], w);
    }
    assert SlotWithWireframe(n.material, w) == n.material by {
      match n.material
      case NoMaterial =>
      case One(m) =>
      case Many(ms) =>
        assert seq(|ms|, i requires 0 <= i < |ms| => ms[i].(wireframe := w)) == ms;
    }
    assert seq(|n.children|, i requires 0 <= i < |n.children| => WithWireframe(n.children[i], w)) == n.children;
  }

  /** Toggling twice is toggling once with the last value. */
  lemma {:induction false} WireframeLastWins(n: Node, a: bool, b: bool)
    ensures WithWireframe(WithWireframe(n, a), b) == WithWireframe(n, b)
    decreases n
  {
    var once := WithWireframe(n, a);
    forall i | 0 <= i < |n.children|
      ensures WithWireframe(once.children[i], b) == WithWireframe(n.children[i], b)
    {
      WireframeLastWins(n.children[i], a, b);
    }
    assert SlotWithWireframe(once.material, b) == SlotWithWireframe(n.material, b);
  }

  // ---------------------------------------------------------------------
  // setEdgesVisibility

  /** A node is an edge overlay when it is named `edges`. */
  predicate IsEdges(n: Node)
  {
    n.name == "edges"
  }

  predicate HasEdgesChild(n: Node)
  {
    exists i :: 0 <= i < |n.children| && IsEdges(n.children[i])
  }

  /** The polygon offset fields the callback writes on an overlay's parent:
      true, 1, 1 when edges are shown, false, 0, 0 when hidden. An array of
      materials only gets the properties on the array object itself. */
  function SlotWithOffset(slot: MaterialSlot, show: bool): MaterialSlot
  {
    match slot
    case One(m) => One(m.(polygonOffset := show, polygonOffsetFactor := if show then 1 else 0,
                            polygonOffsetUnits := if show then 1 else 0))
    case _ => slot
  }

  /** Writing `node.parent.material.polygonOffset` raises TypeError when the
      overlay's parent has no material: somewhere in the subtree (or at its
      root, whose parent is the scene) an overlay hangs under a node with
      none. */
  predicate EdgesFault(n: Node)
    decreases n
  {
    (HasEdgesChild(n) && n.material.NoMaterial?) ||
    exists i :: 0 <= i < |n.children| && EdgesFault(n.children[i])
  }

  /** The traversal's effect when it does not raise: each overlay gets
      `visible = show`, each overlay's parent gets the offset fields. */
  function WithEdges(n: Node, show: bool): (r: Node)
    decreases n
  {
    Node(n.name,
      if HasEdgesChild(n) then SlotWithOffset(n.material, show) else n.material,
      if IsEdges(n) then show else n.visible,
      seq(|n.children|, i requires 0 <= i < |n.children| => WithEdges(n.children[i], show)))
  }

  /** setEdgesVisibility on the `MainObject` tree: None for the TypeError,
      which happens when the root itself is an overlay or an overlay hangs
      under a node without material; otherwise a tree with the same name
      and shape in which every overlay shows or hides with `show` and every
      single-material parent of one carries the matching offsets. */
  function SetEdgesVisibility(root: Node, show: bool): (r: Option<Node>)
    ensures r.None? <==> IsEdges(root) || EdgesFault(root)
    ensures r.Some? ==> EdgesShown(r.value, show) && OffsetsSet(r.value, show)
    ensures r.Some? ==> r.value.name == root.name && |r.value.children| == |root.children|
  {
    if IsEdges(root) || EdgesFault(root) then None
    else EdgesEverywhere(root, show); Some(WithEdges(root, show))
  }

  /** Every overlay of the tree has `visible == show`. */
  predicate EdgesShown(n: Node, show: bool)
    decreases n
  {
    (IsEdges(n) ==> n.visible == show) && forall i :: 0 <= i < |n.children| ==> EdgesShown(n.children[i], show)
  }

  /** Every single-material parent of an overlay has the offsets that go
      with `show`. */
  predicate OffsetsSet(n: Node, show: bool)
    decreases n
  {
    (HasEdgesChild(n) && n.material.One? ==>
      n.material.m.polygonOffset == show &&
      n.material.m.polygonOffsetFactor == (if show then 1 else 0) &&
      n.material.m.polygonOffsetUnits == (if show then 1 else 0)) &&
    forall i :: 0 <= i < |n.children| ==> OffsetsSet(n.children[i], show)
  }

  /** The overlays and only the overlays flip; names and children stay. */
  lemma {:induction false} EdgesEverywhere(n: Node, show: bool)
    ensures EdgesShown(WithEdges(n, show), show)
    ensures OffsetsSet(WithEdges(n, show), show)
    ensures !IsEdges(n) ==> WithEdges(n, show).visible == n.visible
    ensures WithEdges(n, show).name == n.name && |WithEdges(n, show).children| == |n.children|
    decreases n
  {
    var r := WithEdges(n, show);
    forall i | 0 <= i < |n.children|
      ensures EdgesShown(r.children[i], show) && OffsetsSet(r.children[i], show)
    {
      EdgesEverywhere(n.children[i], show);
    }
    assert HasEdgesChild(r) <==> HasEdgesChild(n) by {
      forall i | 0 <= i < |n.children| ensures IsEdges(r.children[i]) <==> IsEdges(n.children[i]) {
        EdgesEverywhere(n.children[i], show);
      }
    }
  }

  /** A tree with no overlay comes out unchanged. */
  predicate NoEdges(n: Node)
    decreases n
  {
    !IsEdges(n) && forall i :: 0 <= i < |n.children| ==> NoEdges(n.children[i])
  }

  lemma {:induction false} NoEdgesNoChange(n: Node, show: bool)
    requires NoEdges(n)
    ensures WithEdges(n, show) == n
    decreases n
  {
    forall i | 0 <= i < |n.children| ensures WithEdges(n.children[i], show) == n.children[i] {
      NoEdgesNoChange(n.children[i], show);
    }
    assert !HasEdgesChild(n);
    assert seq(|n.children|, i requires 0 <= i < |n.children| => WithEdges(n.children[i], show)) == n.children;
  }

  /** Setting the edges flag twice is setting it once with the last value. */
  lemma {:induction false} EdgesLastWins(n: Node, a: bool, b: bool)
    ensures WithEdges(WithEdges(n, a), b) == WithEdges(n, b)
    decreases n
  {
    var once := WithEdges(n, a);
    forall i | 0 <= i < |n.children|
      ensures WithEdges(once.children[i], b) == WithEdges(n.children[i], b)
    {
      EdgesLastWins(n.children[i], a, b);
    }
    assert HasEdgesChild(once) <==> HasEdgesChild(n) by {
      EdgesEverywhere(n, a);
      forall i | 0 <= i < |n.children| ensures IsEdges(once.children[i]) <==> IsEdges(n.children[i]) {
        EdgesEverywhere(n.children[i], a);
      }
    }
  }

  /** Wireframe and edges settings touch different fields: applying them
      in either order gives the same tree. */
  lemma {:induction false} WireframeEdgesCommute(n: Node, w: bool, show: bool)
    ensures WithWireframe(WithEdges(n, show), w) == WithEdges(WithWireframe(n, w), show)
    decreases n
  {
    var e := WithEdges(n, show);
    var f := WithWireframe(n, w);
    forall i | 0 <= i < |n.children|
      ensures WithWireframe(e.children[i], w) == WithEdges(f.children[i], show)
    {
      WireframeEdgesCommute(n.children[i], w, show);
    }
    assert HasEdgesChild(f) <==> HasEdgesChild(n) by {
      forall i | 0 <= i < |n.children| ensures f.children[i].name == n.children[i].name {
        WireframeEverywhere(n.children[i], w);
      }
    }
    assert SlotWithWireframe(e.material, w) == (if HasEdgesChild(f) then SlotWithOffset(f.material, show) else f.material);
  }

  // ---------------------------------------------------------------------
  // populateModelFolder / recursive

  /** A GUI folder: its name, the properties it has controls for, and its
      sub-folders in the order they were added. */
  datatype Folder = Folder(name: string, controls: seq<string>, subfolders: seq<Folder>)

  predicate IsLeaf(n: Node)
  {
    |n.children| == 0
  }

  /** The indices from `from` on whose child is a leaf (`leaf`) or has
      children (`!leaf`), in increasing order: the `filter` calls. */
  function Indices(cs: seq<Node>, from: nat, leaf: bool): (r: seq<nat>)
    requires from <= |cs|
    ensures forall k :: 0 <= k < |r| ==> from <= r[k] < |cs| && IsLeaf(cs[r[k]]) == leaf
    decreases |cs| - from
  {
    if from == |cs| then []
    else (if IsLeaf(cs[from]) == leaf then [from] else []) + Indices(cs, from + 1, leaf)
  }

  /** Each group is in increasing order, ... */
  lemma {:induction false} IndicesSorted(cs: seq<Node>, from: nat, leaf: bool)
    requires from <= |cs|
    ensures forall k, l :: 0 <= k < l < |Indices(cs, from, leaf)| ==> Indices(cs, from, leaf)[k] < Indices(cs, from, leaf)[l]
    decreases |cs| - from
  {
    if from < |cs| {
      var rest := Indices(cs, from + 1, leaf);
      assert forall k, l :: 0 <= k < l < |rest| ==> rest[k] < rest[l] by {
        IndicesSorted(cs, from + 1, leaf);
      }
      if IsLeaf(cs[from]) == leaf {
        var r := [from] + rest;
        assert Indices(cs, from, leaf) == r;
        forall k, l | 0 <= k < l < |r| ensures r[k] < r[l] {
          assert r[l] == rest[l - 1];
          if k > 0 {
            assert r[k] == rest[k - 1];
          }
        }
      }
    }
  }

  /** ... and holds every index of its kind from `from` on. */
  lemma {:induction false} IndicesComplete(cs: seq<Node>, from: nat, leaf: bool)
    requires from <= |cs|
    ensures forall j :: from <= j < |cs| && IsLeaf(cs[j]) == leaf ==> j in Indices(cs, from, leaf)
    decreases |cs| - from
  {
    if from < |cs| {
      var rest := Indices(cs, from + 1, leaf);
      assert forall j :: from + 1 <= j < |cs| && IsLeaf(cs[j]) == leaf ==> j in rest by {
        IndicesComplete(cs, from + 1, leaf);
      }
      var head: seq<nat> := if IsLeaf(cs[from]) == leaf then [from] else [];
      var r := head + rest;
      assert Indices(cs, from, leaf) == r;
      forall j | from <= j < |cs| && IsLeaf(cs[j]) == leaf ensures j in r {
        if j == from {
          assert r[0] == from;
        } else {
          assert j in rest;
          var i :| 0 <= i < |rest| && rest[i] == j;
          assert r[i + |head|] == j;
        }
      }
    }
  }

  /** The order the children are visited in: the ones with children first,
      then the leaves, each group in the children's order. */
  function VisitIndices(cs: seq<Node>): (r: seq<nat>)
    ensures forall k :: 0 <= k < |r| ==> r[k] < |cs|
  {
    Indices(cs, 0, false) + Indices(cs, 0, true)
  }

  /** The folder `populateModelFolder(node, parent, property)` adds to
      `parent`: named after the node, or `{noname}` when the name is empty,
      with one control for `property` and one sub-folder per child, in the
      visit order. */
  function ModelFolder(n: Node, property: string): Folder
    decreases n
  {
    var order := VisitIndices(n.children);
    Folder(if n.name != "" then n.name else "{noname}", [property],
      seq(|order|, k requires 0 <= k < |order| => ModelFolder(n.children[order[k]], property)))
  }

  function NodeCount(n: Node): nat
    decreases n
  {
    1 + NodeCountAll(n.children)
  }

  function NodeCountAll(cs: seq<Node>): nat
    decreases cs
  {
    if cs == [] then 0 else NodeCount(cs[0]) + NodeCountAll(cs[1..])
  }

  function FolderCount(f: Folder): nat
    decreases f
  {
    1 + FolderCountAll(f.subfolders)
  }

  function FolderCountAll(fs: seq<Folder>): nat
    decreases fs
  {
    if fs == [] then 0 else FolderCount(fs[0]) + FolderCountAll(fs[1..])
  }

  /** The node count of the children picked by `idx`. */
  function CountAt(cs: seq<Node>, idx: seq<nat>): nat
    requires forall k :: 0 <= k < |idx| ==> idx[k] < |cs|
    decreases |idx|
  {
    if idx == [] then 0 else NodeCount(cs[idx[0]]) + CountAt(cs, idx[1..])
  }

  lemma {:induction false} CountAtAppend(cs: seq<Node>, a: seq<nat>, b: seq<nat>)
    requires forall k :: 0 <= k < |a| ==> a[k] < |cs|
    requires forall k :: 0 <= k < |b| ==> b[k] < |cs|
    ensures CountAt(cs, a + b) == CountAt(cs, a) + CountAt(cs, b)
    decreases |a|
  {
    if a == [] {
      assert a + b == b;
    } else {
      assert (a + b)[1..] == a[1..] + b;
      CountAtAppend(cs, a[1..], b);
    }
  }

  /** One step of the filters: the child at `from` joins its group. */
  lemma IndicesStep(cs: seq<Node>, from: nat)
    requires from < |cs|
    ensures Indices(cs, from, IsLeaf(cs[from])) == [from] + Indices(cs, from + 1, IsLeaf(cs[from]))
    ensures Indices(cs, from, !IsLeaf(cs[from])) == Indices(cs, from + 1, !IsLeaf(cs[from]))
  {
  }

  /** The two groups together hold as many indices as there are children
      from `from` on. */
  lemma {:induction false} GroupsSize(cs: seq<Node>, from: nat)
    requires from <= |cs|
    ensures |Indices(cs, from, false)| + |Indices(cs, from, true)| == |cs| - from
    decreases |cs| - from
  {
    if from < |cs| {
      var leaf := IsLeaf(cs[from]);
      assert |Indices(cs, from + 1, false)| + |Indices(cs, from + 1, true)| == |cs| - from - 1 by {
        GroupsSize(cs, from + 1);
      }
      assert |Indices(cs, from, leaf)| == 1 + |Indices(cs, from + 1, leaf)| by {
        IndicesStep(cs, from);
      }
      assert |Indices(cs, from, !leaf)| == |Indices(cs, from + 1, !leaf)| by {
        IndicesStep(cs, from);
      }
    }
  }

  /** The children picked by the two groups hold as many nodes as the
      children from `from` on. */
  lemma {:induction false} GroupsCount(cs: seq<Node>, from: nat)
    requires from <= |cs|
    ensures CountAt(cs, Indices(cs, from, false)) + CountAt(cs, Indices(cs, from, true)) == NodeCountAll(cs[from..])
    decreases |cs| - from
  {
    if from < |cs| {
      var leaf := IsLeaf(cs[from]);
      var same := Indices(cs, from + 1, leaf);
      var other := Indices(cs, from + 1, !leaf);
      assert CountAt(cs, same) + CountAt(cs, other) == NodeCountAll(cs[from + 1..]) by {
        GroupsCount(cs, from + 1);
      }
      assert NodeCountAll(cs[from..]) == NodeCount(cs[from]) + NodeCountAll(cs[from + 1..]) by {
        assert cs[from..][1..] == cs[from + 1..];
      }
      IndicesStep(cs, from);
      var head: seq<nat> := [from];
      assert (head + same)[1..] == same;
      assert CountAt(cs, head + same) == NodeCount(cs[from]) + CountAt(cs, same);
    }
  }

  /** The two groups together hold every child from `from` on exactly once:
      their sizes and node counts add up to those of the remaining
      children. */
  lemma GroupsCover(cs: seq<Node>, from: nat)
    requires from <= |cs|
    ensures |Indices(cs, from, false)| + |Indices(cs, from, true)| == |cs| - from
    ensures CountAt(cs, Indices(cs, from, false)) + CountAt(cs, Indices(cs, from, true)) == NodeCountAll(cs[from..])
  {
    GroupsSize(cs, from);
    GroupsCount(cs, from);
  }

  /** The visit order is a permutation of the children: each index once,
      the ones with children first, each group in increasing order. */
  lemma VisitIndicesPermutation(cs: seq<Node>)
    ensures |VisitIndices(cs)| == |cs|
    ensures forall j :: 0 <= j < |cs| ==> j in VisitIndices(cs)
    ensures forall k :: 0 <= k < |VisitIndices(cs)| ==>
      (k < |Indices(cs, 0, false)| <==> !IsLeaf(cs[VisitIndices(cs)[k]]))
    ensures forall k, l :: 0 <= k < l < |VisitIndices(cs)| && IsLeaf(cs[VisitIndices(cs)[k]]) == IsLeaf(cs[VisitIndices(cs)[l]]) ==>
      VisitIndices(cs)[k] < VisitIndices(cs)[l]
  {
    GroupsSize(cs, 0);
    IndicesSorted(cs, 0, false);
    IndicesSorted(cs, 0, true);
    IndicesComplete(cs, 0, false);
    IndicesComplete(cs, 0, true);
    var a := Indices(cs, 0, false);
    var b := Indices(cs, 0, true);
    forall j | 0 <= j < |cs| ensures j in a + b {
      if IsLeaf(cs[j]) { assert j in b; } else { assert j in a; }
    }
  }

  /** The folder count of the per-child folders is the node count of the
      children they were built from. */
  lemma {:induction false} FolderCountOfMap(cs: seq<Node>, idx: seq<nat>, fs: seq<Folder>)
    requires forall k :: 0 <= k < |idx| ==> idx[k] < |cs|
    requires |fs| == |idx|
    requires forall k :: 0 <= k < |idx| ==> FolderCount(fs[k]) == NodeCount(cs[idx[k]])
    ensures FolderCountAll(fs) == CountAt(cs, idx)
    decreases |idx|
  {
    if idx != [] {
      FolderCountOfMap(cs, idx[1..], fs[1..]);
    }
  }

  /** The model folder tree has one folder per node of the object tree. */
  lemma {:induction false} OneFolderPerNode(n: Node, property: string)
    ensures FolderCount(ModelFolder(n, property)) == NodeCount(n)
    decreases n
  {
    var cs := n.children;
    var order := VisitIndices(cs);
    var f := ModelFolder(n, property);
    forall k | 0 <= k < |order| ensures FolderCount(f.subfolders[k]) == NodeCount(cs[order[k]]) {
      OneFolderPerNode(cs[order[k]], property);
    }
    FolderCountOfMap(cs, order, f.subfolders);
    CountAtAppend(cs, Indices(cs, 0, false), Indices(cs, 0, true));
    GroupsCover(cs, 0);
    assert cs[0..] == cs;
  }

  /** Every folder of the tree has exactly one control, for `property`. */
  predicate OneControlEach(f: Folder, property: string)
    decreases f
  {
    f.controls == [property] && forall i :: 0 <= i < |f.subfolders| ==> OneControlEach(f.subfolders[i], property)
  }

  /** One control per folder, one sub-folder per child, and the folder named
      after the node or `{noname}`. */
  lemma {:induction false} ModelFolderControls(n: Node, property: string)
    ensures OneControlEach(ModelFolder(n, property), property)
    ensures |ModelFolder(n, property).subfolders| == |n.children|
    ensures ModelFolder(n, property).name == (if n.name == "" then "{noname}" else n.name)
    decreases n
  {
    var order := VisitIndices(n.children);
    forall k | 0 <= k < |order| ensures OneControlEach(ModelFolder(n.children[order[k]], property), property) {
      ModelFolderControls(n.children[order[k]], property);
    }
    GroupsSize(n.children, 0);
  }
}
