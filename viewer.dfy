/** src/media/viewer.js: the webview page of the `3dviewer.viewer` editor.
    Pure choices (loader, cube texture URLs, MTL path) are functions; the
    page's mutable state (current preset, sliders, override material, the
    `MainObject` tree, mixers, GUI folders, notification, requests issued)
    is a class. three.js objects are known by identity or, for the model
    tree, as `Scene.Node` values. */
module Viewer {
  import opened Js
  import opened Scene
  import opened Presets

  // ---------------------------------------------------------------------
  // createModelLoader

  datatype ModelLoader = StlLoader | GltfLoader | ObjLoader

  /** The loader for `fileToLoad`, chosen once when the page starts: the
      text after the last `.`, lowercased, picks STL or glTF; everything
      else, a name without a dot included, gets OBJ. */
  function CreateModelLoader(fileToLoad: string): ModelLoader
  {
    var ext := ToLower(AfterLastDot(fileToLoad));
    if ext == "stl" then StlLoader
    else if ext == "gltf" || ext == "glb" then GltfLoader
    else ObjLoader
  }

  /** The choice depends on the extension only, and not on its case. */
  lemma LoaderIgnoresCase(p: string, q: string, e: string, e': string)
    requires '.' !in e && '.' !in e'
    requires ToLower(e) == ToLower(e')
    ensures CreateModelLoader(p + "." + e) == CreateModelLoader(q + "." + e')
  {
    AfterLastDotOfExt(p, e);
    AfterLastDotOfExt(q, e');
  }

  /** `.stl` in any case is STL. */
  lemma LoaderStl(p: string)
    ensures CreateModelLoader(p + ".stl") == StlLoader && CreateModelLoader(p + ".STL") == StlLoader
  {
    AfterLastDotOfExt(p, "stl");
    assert p + "." + "stl" == p + ".stl";
    AfterLastDotOfExt(p, "STL");
    assert p + "." + "STL" == p + ".STL";
    assert ToLower("stl") == "stl";
    assert ToLower("STL") == "stl";
  }

  /** `.gltf` and `.glb`, in any case, are glTF. */
  lemma LoaderGltf(p: string)
    ensures CreateModelLoader(p + ".gltf") == GltfLoader && CreateModelLoader(p + ".GLB") == GltfLoader
  {
    AfterLastDotOfExt(p, "gltf");
    assert p + "." + "gltf" == p + ".gltf";
    AfterLastDotOfExt(p, "GLB");
    assert p + "." + "GLB" == p + ".GLB";
    assert ToLower("gltf") == "gltf";
    assert ToLower("GLB") == "glb";
  }

  /** `.obj`, in any case, is OBJ. */
  lemma LoaderObj(p: string)
    ensures CreateModelLoader(p + ".obj") == ObjLoader && CreateModelLoader(p + ".OBJ") == ObjLoader
  {
    AfterLastDotOfExt(p, "obj");
    assert p + "." + "obj" == p + ".obj";
    AfterLastDotOfExt(p, "OBJ");
    assert p + "." + "OBJ" == p + ".OBJ";
    assert ToLower("OBJ") == "obj";
  }

  /** A name without a dot is taken whole as its extension; unless it is
      one of the three names, it gets OBJ. */
  lemma LoaderWithoutDot(f: string)
    requires '.' !in f
    requires ToLower(f) != "stl" && ToLower(f) != "gltf" && ToLower(f) != "glb"
    ensures CreateModelLoader(f) == ObjLoader
  {
    AfterLastDotSuffix(f);
  }

  // ---------------------------------------------------------------------
  // loadCubeTexture

  /** The cube faces, in the order `CubeTextureLoader.load` expects. */
  const CubeFaces: seq<string> := ["px", "nx", "py", "ny", "pz", "nz"]

  /** The six face URLs, relative to the loader's `textures/cube/` path:
      `.png` for `Pisa`, `.jpg` for every other set. */
  function CubeTextureUrls(name: string): (r: seq<string>)
    ensures |r| == 6
  {
    var extension := if name == "Pisa" then ".png" else ".jpg";
    [name + "/px" + extension, name + "/nx" + extension,
     name + "/py" + extension, name + "/ny" + extension,
     name + "/pz" + extension, name + "/nz" + extension]
  }

  /** Face `i` of set `name` is `name/<face i>.<png or jpg>`, and it is a
      PNG exactly when the set is `Pisa`. */
  lemma {:induction false} CubeTextureUrlsFaces(name: string, i: int)
    requires 0 <= i < 6
    ensures CubeTextureUrls(name)[i] == name + "/" + CubeFaces[i] + (if name == "Pisa" then ".png" else ".jpg")
    ensures StartsWith(CubeTextureUrls(name)[i], name + "/")
    ensures EndsWith(CubeTextureUrls(name)[i], ".png") <==> name == "Pisa"
  {
    var extension := if name == "Pisa" then ".png" else ".jpg";
    var url := CubeTextureUrls(name)[i];
    assert url == name + "/" + CubeFaces[i] + extension by {
      match i
      case 0 => assert name + "/px" + extension == name + "/" + "px" + extension;
      case 1 => assert name + "/nx" + extension == name + "/" + "nx" + extension;
      case 2 => assert name + "/py" + extension == name + "/" + "py" + extension;
      case 3 => assert name + "/ny" + extension == name + "/" + "ny" + extension;
      case 4 => assert name + "/pz" + extension == name + "/" + "pz" + extension;
      case _ => assert name + "/nz" + extension == name + "/" + "nz" + extension;
    }
    assert url[..|name + "/"|] == name + "/";
    assert url[|url| - 4..] == extension;
  }

  // ---------------------------------------------------------------------
  // The MTL file loadModel asks for

  /** As written: `fileToLoad.replace('.obj', '.mtl')`, which replaces the
      first `.obj` anywhere in the URI, case-sensitively. */
  function MtlPathAsWritten(fileToLoad: string): (r: string)
    ensures |r| == |fileToLoad|
    ensures !Contains(fileToLoad, ".obj") ==> r == fileToLoad
  {
    ReplaceFirstLength(fileToLoad, ".obj", ".mtl");
    if Contains(fileToLoad, ".obj") then ReplaceFirst(fileToLoad, ".obj", ".mtl")
    else ReplaceFirstAbsent(fileToLoad, ".obj", ".mtl"); ReplaceFirst(fileToLoad, ".obj", ".mtl")
  }

  /** Every character of a contained string occurs in the string. */
  lemma {:induction false} ContainsHasChars(s: string, sub: string, c: char)
    requires Contains(s, sub) && c in sub
    ensures c in s
    decreases |s|
  {
    if StartsWith(s, sub) {
      var k :| 0 <= k < |sub| && sub[k] == c;
      assert s[k] == c;
    } else {
      ContainsHasChars(s[1..], sub, c);
      var k :| 0 <= k < |s[1..]| && s[1..][k] == c;
      assert s[k + 1] == c;
    }
  }

  /** An upper-case `.OBJ` model gets the OBJ loader, and the MTL request
      goes to the model file itself: the text has no `.obj` to replace. */
  lemma UpperCaseObjSkipsMtl(p: string)
    requires 'j' !in p
    ensures CreateModelLoader(p + ".OBJ") == ObjLoader
    ensures MtlPathAsWritten(p + ".OBJ") == p + ".OBJ"
  {
    LoaderObj(p);
    if Contains(p + ".OBJ", ".obj") {
      ContainsHasChars(p + ".OBJ", ".obj", 'j');
      assert false;
    }
    ReplaceFirstAbsent(p + ".OBJ", ".obj", ".mtl");
  }

  /** An upper-case `Cube.OBJ` is requested again as its own MTL. */
  lemma UpperCaseObjExample()
    ensures MtlPathAsWritten("Cube.OBJ") == "Cube.OBJ"
  {
    UpperCaseObjSkipsMtl("Cube");
    assert "Cube" + ".OBJ" == "Cube.OBJ";
  }

  /** A directory whose name holds `.obj` takes the replacement instead of
      the extension. */
  lemma ObjDirectoryExample()
    ensures MtlPathAsWritten("a.obj/b.obj") == "a.mtl/b.obj"
  {
    var s := "a.obj/b.obj";
    var t := s[1..];
    assert !StartsWith(s, ".obj") by {
      assert s[..4][0] == 'a';
    }
    assert t == ".obj/b.obj";
    assert StartsWith(t, ".obj") by {
      assert t[..4] == ".obj";
    }
    assert ReplaceFirst(t, ".obj", ".mtl") == ".mtl" + t[4..];
    assert t[4..] == "/b.obj";
    assert ReplaceFirst(s, ".obj", ".mtl") == [s[0]] + ReplaceFirst(t, ".obj", ".mtl");
  }

  /** Corrected: the MTL file beside the model, with the model's extension,
      whatever its case, swapped for `mtl`; a name without a dot gets
      `.mtl` appended. */
  function MtlPathFor(fileToLoad: string): (r: string)
    ensures EndsWith(r, ".mtl")
  {
    var ext := AfterLastDot(fileToLoad);
    AfterLastDotSuffix(fileToLoad);
    if '.' in fileToLoad then fileToLoad[..|fileToLoad| - |ext|] + "mtl"
    else fileToLoad + ".mtl"
  }

  /** The corrected path keeps everything before the extension. */
  lemma MtlPathForExt(p: string, e: string)
    requires '.' !in e
    ensures MtlPathFor(p + "." + e) == p + ".mtl"
  {
    AfterLastDotOfExt(p, e);
    var f := p + "." + e;
    assert f[|p|] == '.';
    assert f[..|f| - |e|] == p + ".";
  }

  // ---------------------------------------------------------------------
  // Material presets

  /** The preset the sliders are saved into when switching away from
      `current`: every preset but `default`, which therefore never
      changes. */
  function SaveTarget(current: string): Option<string>
  {
    if current != "default" then Some(current) else None
  }

  lemma DefaultPresetKept(presets: map<string, Preset>, current: string, sliders: Hsl, id: string)
    requires id in presets && current in presets && "default" in presets
    ensures Switch(presets, SaveTarget(current), sliders, id).0["default"] == presets["default"]
  {
  }


  /** What the page asks the network for, in order. */
  datatype Request = MtlRequest(url: string) | ModelRequest(url: string)

  /** The requests `loadModel` issues: for the OBJ loader, the MTL file
      first and the model once that settles, loaded or not; otherwise the
      model alone. */
  function LoadRequests(loader: ModelLoader, fileToLoad: string): (r: seq<Request>)
    ensures |r| >= 1 && r[|r| - 1] == ModelRequest(fileToLoad)
    ensures |r| == 2 <==> loader == ObjLoader
    ensures loader == ObjLoader ==> r[0] == MtlRequest(MtlPathFor(fileToLoad)) && EndsWith(r[0].url, ".mtl")
  {
    if loader == ObjLoader then [MtlRequest(MtlPathFor(fileToLoad)), ModelRequest(fileToLoad)]
    else [ModelRequest(fileToLoad)]
  }

  /** `removeFolder` as written reads `userMenu.__folders[name]`; the
      lil-gui `GUI` the page creates has no `__folders`, so reading a
      property of `undefined` raises TypeError whatever `name` is. */
  function RemoveFolderAsWritten(folders: seq<string>, name: string): (r: (seq<string>, Completion))
    ensures r.1 == TypeError && r.0 == folders
  {
    (folders, TypeError)
  }

  /** Corrected: the folders titled `name` are destroyed, the others kept
      in order; nothing happens when there is none. */
  function RemoveFolder(folders: seq<string>, name: string): seq<string>
    decreases |folders|
  {
    if folders == [] then []
    else (if folders[0] == name then [] else [folders[0]]) + RemoveFolder(folders[1..], name)
  }

  /** Removing a folder keeps every other folder and drops every folder of
      that name; when there is none, nothing changes. */
  lemma {:induction false} RemoveFolderMembers(folders: seq<string>, name: string)
    ensures forall f :: f in RemoveFolder(folders, name) <==> f in folders && f != name
    ensures name !in folders ==> RemoveFolder(folders, name) == folders
    decreases |folders|
  {
    if folders != [] {
      RemoveFolderMembers(folders[1..], name);
      assert folders == [folders[0]] + folders[1..];
    }
  }

  /** The per-model folders, removed before a reload and added again when
      the model has loaded. */
  const ModelFolders: seq<string> := ["Animation", "Transform", "Model"]

  function RemoveModelFolders(folders: seq<string>): (r: seq<string>)
    ensures forall f :: f in r <==> f in folders && f !in ModelFolders
  {
    var a := RemoveFolder(folders, "Animation");
    var t := RemoveFolder(a, "Transform");
    RemoveFolderMembers(folders, "Animation");
    RemoveFolderMembers(a, "Transform");
    RemoveFolderMembers(t, "Model");
    RemoveFolder(t, "Model")
  }

  /** `mainScene.getObjectByName('MainObject')` after the wireframe toggle. */
  function ModelWithWireframe(model: Option<Node>, w: bool): (r: Option<Node>)
    ensures r.Some? <==> model.Some?
    ensures r.Some? ==> AllWireframe(r.value, w)
  {
    if model.Some? then WireframeEverywhere(model.value, w); Some(WithWireframe(model.value, w)) else None
  }

  /** The Model folder's tree for a loaded model, once it is named
      `MainObject`: `populateModelFolder(object, modelFolder, 'visible')`. */
  function MainObjectFolder(loaded: Node): (r: Folder)
    ensures r.name == "MainObject" && OneControlEach(r, "visible")
    ensures |r.subfolders| == |loaded.children| && FolderCount(r) == NodeCount(loaded)
  {
    OneFolderPerNode(loaded.(name := "MainObject"), "visible");
    ModelFolderControls(loaded.(name := "MainObject"), "visible");
    ModelFolder(loaded.(name := "MainObject"), "visible")
  }

  class Page {
    /** `userSettings` as the page uses them; the Rendering folder's
        checkboxes write `wireframe` and `edges`. */
    const fileToLoad: string
    var wireframe: bool
    var edges: bool
    const hotReloadAutomatically: bool
    /** `modelLoader`, created once. */
    const loader: ModelLoader

    var presets: map<string, Preset>
    var current: string
    var sliders: Hsl
    /** `mainScene.overrideMaterial`, by preset material id. */
    var overrideMaterial: Option<nat>
    /** The `wireframe` flag of each preset material. */
    var materialWireframe: map<nat, bool>
    /** The scene's `MainObject`, if one is loaded. */
    var model: Option<Node>
    var mixers: seq<nat>
    /** Titles of the top-level GUI folders, in order. */
    var folders: seq<string>
    /** Elements with id `reloadNotification`. */
    var notifications: nat
    var requests: seq<Request>
    var isModelLoaded: bool
    /** The folder tree populateModelFolder built under the Model folder. */
    var modelFolder: Option<Folder>

    /** The presets keep their names and materials, `default` keeps its
        values, the current preset is one of them, and there is at most one
        notification. */
    ghost predicate Valid()
      reads this
    {
      MaterialsKept(presets) &&
      presets["default"] == InitialPresets["default"] &&
      current in presets &&
      materialWireframe.Keys == MaterialIds &&
      notifications <= 1
    }

    /** The top level of the script: the Rendering folder, the first
        `loadModel`, then the Material color and Materials folders, with
        the `default` preset current and the sliders at 0, 0.8, 0.1. */
    constructor (fileToLoad: string, wireframe: bool, edges: bool, hotReloadAutomatically: bool)
      ensures Valid()
      ensures this.fileToLoad == fileToLoad && this.wireframe == wireframe && this.edges == edges
      ensures this.hotReloadAutomatically == hotReloadAutomatically
      ensures loader == CreateModelLoader(fileToLoad)
      ensures presets == InitialPresets && current == "default" && sliders == InitialSliders
      ensures overrideMaterial == None && materialWireframe == InitialWireframes
      ensures model == None && mixers == [] && notifications == 0
      ensures folders == ["Rendering", "Material color", "Materials"]
      ensures requests == LoadRequests(CreateModelLoader(fileToLoad), fileToLoad)
      ensures !isModelLoaded && modelFolder == None
    {
      InitialPresetsMaterials();
      this.fileToLoad := fileToLoad;
      this.wireframe := wireframe;
      this.edges := edges;
      this.hotReloadAutomatically := hotReloadAutomatically;
      loader := CreateModelLoader(fileToLoad);
      presets := InitialPresets;
      current := "default";
      sliders := InitialSliders;
      overrideMaterial := None;
      materialWireframe := InitialWireframes;
      model := None;
      mixers := [];
      folders := ["Rendering", "Material color", "Materials"];
      notifications := 0;
      requests := [];
      isModelLoaded := false;
      modelFolder := None;
      new;
      LoadModel();
    }

    /** loadModel: for the OBJ loader the MTL file first, then the model
        file itself. */
    method LoadModel()
      requires Valid()
      modifies this
      ensures Valid()
      ensures wireframe == old(wireframe) && edges == old(edges)
      ensures requests == old(requests) + LoadRequests(loader, fileToLoad)
      ensures presets == old(presets) && current == old(current) && sliders == old(sliders)
      ensures overrideMaterial == old(overrideMaterial) && materialWireframe == old(materialWireframe)
      ensures model == old(model) && mixers == old(mixers) && folders == old(folders)
      ensures notifications == old(notifications) && isModelLoaded == old(isModelLoaded) && modelFolder == old(modelFolder)
    {
      requests := requests + LoadRequests(loader, fileToLoad);
    }

    /** onWireframeToggle: the override material, when there is one, and
        every material of the `MainObject` tree get the flag. */
    method OnWireframeToggle(w: bool)
      requires Valid()
      modifies this
      ensures Valid()
      ensures wireframe == old(wireframe) && edges == old(edges)
      ensures overrideMaterial.Some? && overrideMaterial.value in materialWireframe ==>
        materialWireframe == old(materialWireframe)[overrideMaterial.value := w]
      ensures !(overrideMaterial.Some? && overrideMaterial.value in materialWireframe) ==>
        materialWireframe == old(materialWireframe)
      ensures model == ModelWithWireframe(old(model), w)
      ensures presets == old(presets) && current == old(current) && sliders == old(sliders)
      ensures overrideMaterial == old(overrideMaterial) && mixers == old(mixers) && folders == old(folders)
      ensures notifications == old(notifications) && requests == old(requests) && isModelLoaded == old(isModelLoaded)
      ensures modelFolder == old(modelFolder)
    {
      if overrideMaterial.Some? && overrideMaterial.value in materialWireframe {
        materialWireframe := materialWireframe[overrideMaterial.value := w];
      }
      model := ModelWithWireframe(model, w);
    }

    /** onMainObjectMaterialChange(id): save the sliders into the preset
        being left unless it is `default`, make `id` current, override the
        scene's material with its material, reapply the wireframe setting
        and load its slider values. */
    method OnMainObjectMaterialChange(id: string)
      requires Valid() && id in presets
      modifies this
      ensures Valid()
      ensures wireframe == old(wireframe) && edges == old(edges)
      ensures (presets, sliders) == Switch(old(presets), SaveTarget(old(current)), old(sliders), id)
      ensures current == id && overrideMaterial == InitialPresets[id].material
      ensures overrideMaterial.Some? ==> materialWireframe == old(materialWireframe)[overrideMaterial.value := wireframe]
      ensures overrideMaterial.None? ==> materialWireframe == old(materialWireframe)
      ensures model == ModelWithWireframe(old(model), wireframe)
      ensures mixers == old(mixers) && folders == old(folders) && notifications == old(notifications)
      ensures requests == old(requests) && isModelLoaded == old(isModelLoaded) && modelFolder == old(modelFolder)
    {
      SwitchKeepsMaterials(presets, SaveTarget(current), sliders, id, id);
      DefaultPresetKept(presets, current, sliders, id);
      SwitchKeepsMaterialsKept(presets, SaveTarget(current), sliders, id);
      PresetMaterialId(id);
      var r := Switch(presets, SaveTarget(current), sliders, id);
      presets := r.0;
      current := id;
      overrideMaterial := presets[id].material;
      OnWireframeToggle(wireframe);
      sliders := r.1;
    }

    /** setEdgesVisibility with `userSettings.edges`: a TypeError when an
        overlay hangs under a node without material, leaving the tree as it
        was. */
    method SetEdgesVisibility() returns (c: Completion)
      requires Valid()
      modifies this
      ensures Valid()
      ensures wireframe == old(wireframe) && edges == old(edges)
      ensures old(model).None? ==> c == Normal && model == old(model)
      ensures old(model).Some? ==>
        (c == TypeError <==> Scene.SetEdgesVisibility(old(model).value, edges).None?) &&
        model == (if c == TypeError then old(model) else Scene.SetEdgesVisibility(old(model).value, edges))
      ensures presets == old(presets) && current == old(current) && sliders == old(sliders)
      ensures overrideMaterial == old(overrideMaterial) && materialWireframe == old(materialWireframe)
      ensures mixers == old(mixers) && folders == old(folders) && notifications == old(notifications)
      ensures requests == old(requests) && isModelLoaded == old(isModelLoaded) && modelFolder == old(modelFolder)
    {
      c := Normal;
      if model.Some? {
        var r := Scene.SetEdgesVisibility(model.value, edges);
        if r.None? {
          c := TypeError;
        } else {
          model := r;
        }
      }
    }

    /** The Rendering folder's `wireframe` checkbox: lil-gui writes the new
        value into `userSettings.wireframe`, then calls onWireframeToggle
        with it, so later material changes and loads reapply it. */
    method WireframeChanged(w: bool)
      requires Valid()
      modifies this
      ensures Valid()
      ensures wireframe == w && edges == old(edges)
      ensures overrideMaterial.Some? && overrideMaterial.value in materialWireframe ==>
        materialWireframe == old(materialWireframe)[overrideMaterial.value := w]
      ensures !(overrideMaterial.Some? && overrideMaterial.value in materialWireframe) ==>
        materialWireframe == old(materialWireframe)
      ensures model == ModelWithWireframe(old(model), w)
      ensures presets == old(presets) && current == old(current) && sliders == old(sliders)
      ensures overrideMaterial == old(overrideMaterial) && mixers == old(mixers) && folders == old(folders)
      ensures notifications == old(notifications) && requests == old(requests) && isModelLoaded == old(isModelLoaded)
      ensures modelFolder == old(modelFolder)
    {
      wireframe := w;
      OnWireframeToggle(w);
    }

    /** The Rendering folder's `show edges` checkbox: lil-gui writes
        `userSettings.edges`, then calls setEdgesVisibility, which reads
        the new value. */
    method EdgesChanged(show: bool) returns (c: Completion)
      requires Valid()
      modifies this
      ensures Valid()
      ensures edges == show && wireframe == old(wireframe)
      ensures old(model).None? ==> c == Normal && model == old(model)
      ensures old(model).Some? ==>
        (c == TypeError <==> Scene.SetEdgesVisibility(old(model).value, show).None?) &&
        model == (if c == TypeError then old(model) else Scene.SetEdgesVisibility(old(model).value, show))
      ensures presets == old(presets) && current == old(current) && sliders == old(sliders)
      ensures overrideMaterial == old(overrideMaterial) && materialWireframe == old(materialWireframe)
      ensures mixers == old(mixers) && folders == old(folders) && notifications == old(notifications)
      ensures requests == old(requests) && isModelLoaded == old(isModelLoaded) && modelFolder == old(modelFolder)
    {
      edges := show;
      c := SetEdgesVisibility();
    }

    /** The load callback of loadModelFile for a model `loaded` with
        `animations` clips and mixer `mixer`: the mixer is kept, an
        Animation folder is added when there are clips, then the model
        becomes `MainObject` with Transform and Model folders, the
        wireframe and edge settings are applied, and the page starts
        rendering unless setting the edges raised. */
    method ModelLoaded(loaded: Node, animations: nat, mixer: nat) returns (c: Completion)
      requires Valid()
      modifies this
      ensures Valid()
      ensures wireframe == old(wireframe) && edges == old(edges)
      ensures mixers == old(mixers) + [mixer]
      ensures folders == old(folders) + (if animations > 0 then ["Animation"] else []) + ["Transform", "Model"]
      ensures var t := WithWireframe(loaded.(name := "MainObject"), wireframe);
        (c == TypeError <==> Scene.SetEdgesVisibility(t, edges).None?) &&
        model == (if c == TypeError then Some(t) else Scene.SetEdgesVisibility(t, edges))
      ensures modelFolder == Some(MainObjectFolder(loaded))
      ensures isModelLoaded == (old(isModelLoaded) || c == Normal)
      ensures presets == old(presets) && current == old(current) && sliders == old(sliders)
      ensures overrideMaterial == old(overrideMaterial)
      ensures overrideMaterial.Some? && overrideMaterial.value in materialWireframe ==>
        materialWireframe == old(materialWireframe)[overrideMaterial.value := wireframe]
      ensures !(overrideMaterial.Some? && overrideMaterial.value in materialWireframe) ==>
        materialWireframe == old(materialWireframe)
      ensures notifications == old(notifications) && requests == old(requests)
    {
      mixers := mixers + [mixer];
      folders := folders + (if animations > 0 then ["Animation"] else []) + ["Transform", "Model"];
      modelFolder := Some(MainObjectFolder(loaded));
      c := ShowModel(loaded);
    }

    /** The part of the load callback that touches the scene: the model
        becomes `MainObject`, the wireframe and edge settings are applied
        to it, and `isModelLoaded` is set unless setting the edges raised. */
    method ShowModel(loaded: Node) returns (c: Completion)
      requires Valid()
      modifies this
      ensures Valid()
      ensures wireframe == old(wireframe) && edges == old(edges)
      ensures var t := WithWireframe(loaded.(name := "MainObject"), wireframe);
        (c == TypeError <==> Scene.SetEdgesVisibility(t, edges).None?) &&
        model == (if c == TypeError then Some(t) else Scene.SetEdgesVisibility(t, edges))
      ensures isModelLoaded == (old(isModelLoaded) || c == Normal)
      ensures presets == old(presets) && current == old(current) && sliders == old(sliders)
      ensures overrideMaterial == old(overrideMaterial)
      ensures overrideMaterial.Some? && overrideMaterial.value in materialWireframe ==>
        materialWireframe == old(materialWireframe)[overrideMaterial.value := wireframe]
      ensures !(overrideMaterial.Some? && overrideMaterial.value in materialWireframe) ==>
        materialWireframe == old(materialWireframe)
      ensures mixers == old(mixers) && folders == old(folders) && modelFolder == old(modelFolder)
      ensures notifications == old(notifications) && requests == old(requests)
    {
      model := Some(loaded.(name := "MainObject"));
      OnWireframeToggle(wireframe);
      c := SetEdgesVisibility();
      isModelLoaded := isModelLoaded || c == Normal;
    }

    /** reloadModel as written: the mixers are emptied and `MainObject`
        removed, then the first removeFolder raises, so the folders stay
        and no new load is requested. */
    method ReloadModelAsWritten() returns (c: Completion)
      requires Valid()
      modifies this
      ensures Valid()
      ensures wireframe == old(wireframe) && edges == old(edges)
      ensures c == TypeError
      ensures mixers == [] && model == None
      ensures folders == old(folders) && requests == old(requests) && modelFolder == old(modelFolder)
      ensures presets == old(presets) && current == old(current) && sliders == old(sliders)
      ensures overrideMaterial == old(overrideMaterial) && materialWireframe == old(materialWireframe)
      ensures notifications == old(notifications) && isModelLoaded == old(isModelLoaded)
    {
      mixers := [];
      model := None;
      var r := RemoveFolderAsWritten(folders, "Animation");
      folders := r.0;
      c := r.1;
    }

    /** reloadModel, corrected: the mixers are emptied, `MainObject`
        removed, the Animation, Transform and Model folders destroyed and
        the model requested again. */
    method ReloadModel()
      requires Valid()
      modifies this
      ensures Valid()
      ensures wireframe == old(wireframe) && edges == old(edges)
      ensures mixers == [] && model == None && modelFolder == None
      ensures folders == RemoveModelFolders(old(folders))
      ensures requests == old(requests) + LoadRequests(loader, fileToLoad)
      ensures presets == old(presets) && current == old(current) && sliders == old(sliders)
      ensures overrideMaterial == old(overrideMaterial) && materialWireframe == old(materialWireframe)
      ensures notifications == old(notifications) && isModelLoaded == old(isModelLoaded)
    {
      mixers := [];
      model := None;
      folders := RemoveModelFolders(folders);
      modelFolder := None;
      LoadModel();
    }

    /** showModelReloadChangeDialog: a notification is added only when
        none is shown. */
    method ShowModelReloadChangeDialog()
      requires Valid()
      modifies this
      ensures Valid()
      ensures wireframe == old(wireframe) && edges == old(edges)
      ensures notifications == 1
      ensures old(notifications) == 1 ==> notifications == old(notifications)
      ensures mixers == old(mixers) && model == old(model) && folders == old(folders) && requests == old(requests)
      ensures presets == old(presets) && current == old(current) && sliders == old(sliders)
      ensures overrideMaterial == old(overrideMaterial) && materialWireframe == old(materialWireframe)
      ensures isModelLoaded == old(isModelLoaded) && modelFolder == old(modelFolder)
    {
      if notifications == 0 {
        notifications := 1;
      }
    }

    /** The notification's Yes button: reload, then the notification goes. */
    method ReloadConfirmed()
      requires Valid()
      modifies this
      ensures Valid()
      ensures wireframe == old(wireframe) && edges == old(edges)
      ensures mixers == [] && model == None && notifications == 0
      ensures folders == RemoveModelFolders(old(folders))
      ensures requests == old(requests) + LoadRequests(loader, fileToLoad)
      ensures presets == old(presets) && current == old(current) && sliders == old(sliders)
      ensures overrideMaterial == old(overrideMaterial) && materialWireframe == old(materialWireframe)
      ensures isModelLoaded == old(isModelLoaded) && modelFolder == None
    {
      ReloadModel();
      notifications := 0;
    }

    /** The notification's Yes button as written: reloadModel raises, so
        removeNotification never runs and the notification stays. */
    method ReloadConfirmedAsWritten() returns (c: Completion)
      requires Valid()
      modifies this
      ensures Valid()
      ensures wireframe == old(wireframe) && edges == old(edges)
      ensures c == TypeError
      ensures mixers == [] && model == None && notifications == old(notifications)
      ensures folders == old(folders) && requests == old(requests)
      ensures presets == old(presets) && current == old(current) && sliders == old(sliders)
      ensures overrideMaterial == old(overrideMaterial) && materialWireframe == old(materialWireframe)
      ensures isModelLoaded == old(isModelLoaded) && modelFolder == old(modelFolder)
    {
      c := ReloadModelAsWritten();
    }

    /** The notification's No button. */
    method ReloadDeclined()
      requires Valid()
      modifies this
      ensures Valid()
      ensures wireframe == old(wireframe) && edges == old(edges)
      ensures notifications == 0
      ensures mixers == old(mixers) && model == old(model) && folders == old(folders) && requests == old(requests)
      ensures presets == old(presets) && current == old(current) && sliders == old(sliders)
      ensures overrideMaterial == old(overrideMaterial) && materialWireframe == old(materialWireframe)
      ensures isModelLoaded == old(isModelLoaded) && modelFolder == old(modelFolder)
    {
      notifications := 0;
    }

    /** onMessageReceived: only the string `'modelRefresh'` does anything;
        it reloads at once when `hotReloadAutomatically` is set and asks
        first otherwise. */
    method OnMessageReceived(message: Value)
      requires Valid()
      modifies this
      ensures Valid()
      ensures wireframe == old(wireframe) && edges == old(edges)
      ensures presets == old(presets) && current == old(current) && sliders == old(sliders)
      ensures overrideMaterial == old(overrideMaterial) && materialWireframe == old(materialWireframe)
      ensures isModelLoaded == old(isModelLoaded)
      ensures message != VStr("modelRefresh") ==>
        mixers == old(mixers) && model == old(model) && folders == old(folders) &&
        requests == old(requests) && notifications == old(notifications) && modelFolder == old(modelFolder)
      ensures message == VStr("modelRefresh") && hotReloadAutomatically ==>
        mixers == [] && model == None && folders == RemoveModelFolders(old(folders)) && modelFolder == None &&
        requests == old(requests) + LoadRequests(loader, fileToLoad) && notifications == old(notifications)
      ensures message == VStr("modelRefresh") && !hotReloadAutomatically ==>
        notifications == 1 && requests == old(requests) && model == old(model) &&
        mixers == old(mixers) && folders == old(folders) && modelFolder == old(modelFolder)
    {
      if message == VStr("modelRefresh") {
        if hotReloadAutomatically {
          ReloadModel();
        } else {
          ShowModelReloadChangeDialog();
        }
      }
    }

    /** onMessageReceived as written: with `hotReloadAutomatically` set,
        `'modelRefresh'` reaches reloadModel, which raises after emptying
        the mixers and removing `MainObject`; the folders stay and nothing
        is requested. */
    method OnMessageReceivedAsWritten(message: Value) returns (c: Completion)
      requires Valid()
      modifies this
      ensures Valid()
      ensures wireframe == old(wireframe) && edges == old(edges)
      ensures c == TypeError <==> message == VStr("modelRefresh") && hotReloadAutomatically
      ensures presets == old(presets) && current == old(current) && sliders == old(sliders)
      ensures overrideMaterial == old(overrideMaterial) && materialWireframe == old(materialWireframe)
      ensures isModelLoaded == old(isModelLoaded)
      ensures message != VStr("modelRefresh") ==>
        mixers == old(mixers) && model == old(model) && folders == old(folders) &&
        requests == old(requests) && notifications == old(notifications) && modelFolder == old(modelFolder)
      ensures message == VStr("modelRefresh") && hotReloadAutomatically ==>
        mixers == [] && model == None && folders == old(folders) && modelFolder == old(modelFolder) &&
        requests == old(requests) && notifications == old(notifications)
      ensures message == VStr("modelRefresh") && !hotReloadAutomatically ==>
        notifications == 1 && requests == old(requests) && model == old(model) &&
        mixers == old(mixers) && folders == old(folders) && modelFolder == old(modelFolder)
    {
      c := Normal;
      if message == VStr("modelRefresh") {
        if hotReloadAutomatically {
          c := ReloadModelAsWritten();
        } else {
          ShowModelReloadChangeDialog();
        }
      }
    }
  }
}
