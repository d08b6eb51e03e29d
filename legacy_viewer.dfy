/** media/viewer.js: the earlier viewer page, built on dat.GUI and the
    global three.js build. It shares the wireframe traversal and the folder
    builder with src/media/viewer.js (`Scene`) and the presets (`Presets`);
    it differs in a case-sensitive loader switch, a fixed environment cube,
    and a `current_material` that starts as the number 0. */
module LegacyViewer {
  import opened Js
  import opened Scene
  import opened Presets
  import Viewer

  // ---------------------------------------------------------------------
  // The loader switch

  datatype LegacyLoader = TdsLoader | ColladaLoader | FbxLoader | StlLoader | ObjLoader

  /** `switch (ext)`: `obj` and every unknown extension fall to OBJ. */
  function ExtensionLoader(ext: string): LegacyLoader
  {
    if ext == "3ds" then TdsLoader
    else if ext == "dae" then ColladaLoader
    else if ext == "fbx" then FbxLoader
    else if ext == "stl" then StlLoader
    else ObjLoader
  }

  /** The loader for `fileToLoad`: the switch on
      `fileToLoad.split('.').pop()`, without lowercasing. */
  function LoaderFor(fileToLoad: string): LegacyLoader
  {
    ExtensionLoader(AfterLastDot(fileToLoad))
  }

  /** The loader of `p.e` is the one for `e`, whatever `p` holds: the four
      lower-case extensions pick their loaders, `obj` and the rest OBJ. */
  lemma LoaderForExtension(p: string, e: string)
    requires '.' !in e
    ensures LoaderFor(p + "." + e) == ExtensionLoader(e)
    ensures e == "3ds" ==> LoaderFor(p + "." + e) == TdsLoader
    ensures e == "dae" ==> LoaderFor(p + "." + e) == ColladaLoader
    ensures e == "fbx" ==> LoaderFor(p + "." + e) == FbxLoader
    ensures e == "stl" ==> LoaderFor(p + "." + e) == StlLoader
    ensures e == "obj" ==> LoaderFor(p + "." + e) == ObjLoader
  {
    AfterLastDotOfExt(p, e);
  }

  /** The switch is case-sensitive: an upper-case `.STL` gets OBJ here,
      where src/media/viewer.js picks STL. */
  lemma UpperCaseStlIsObj(p: string)
    ensures LoaderFor(p + ".STL") == ObjLoader
    ensures Viewer.CreateModelLoader(p + ".STL") == Viewer.StlLoader
  {
    LoaderForExtension(p, "STL");
    assert p + "." + "STL" == p + ".STL";
    Viewer.LoaderStl(p);
  }

  // ---------------------------------------------------------------------
  // The environment cube of generateMaterials

  /** `urls`: the six faces under `textures/cube/pisa/`, all PNG. */
  const EnvironmentUrls: seq<string> := [
    "textures/cube/pisa/" + "px" + ".png", "textures/cube/pisa/" + "nx" + ".png",
    "textures/cube/pisa/" + "py" + ".png", "textures/cube/pisa/" + "ny" + ".png",
    "textures/cube/pisa/" + "pz" + ".png", "textures/cube/pisa/" + "nz" + ".png"
  ]

  /** Face `i` in the order px, nx, py, ny, pz, nz; every URL is a PNG under
      the pisa directory. */
  lemma {:induction false} EnvironmentUrlsFaces(i: int)
    requires 0 <= i < 6
    ensures |EnvironmentUrls| == 6
    ensures EnvironmentUrls[i] == "textures/cube/pisa/" + Viewer.CubeFaces[i] + ".png"
    ensures StartsWith(EnvironmentUrls[i], "textures/cube/pisa/") && EndsWith(EnvironmentUrls[i], ".png")
  {
    var url := EnvironmentUrls[i];
    assert url == "textures/cube/pisa/" + Viewer.CubeFaces[i] + ".png" by {
      match i
      case 0 =>
      case 1 =>
      case 2 =>
      case 3 =>
      case 4 =>
      case _ =>
    }
    assert url[..|"textures/cube/pisa/"|] == "textures/cube/pisa/";
    assert url[|url| - 4..] == ".png";
  }

  // ---------------------------------------------------------------------
  // createHandler

  /** `current_material` holds the number 0 until the first switch (None)
      and a preset name afterwards. The guard `current_material != 0` is
      false only for the number: none of the nine names converts to 0. */
  function SaveTarget(current: Option<string>): Option<string>
  {
    current
  }

  /** The first switch saves nothing. After it `current_material` is a
      name, so leaving `default` later saves the sliders into `default`,
      which src/media/viewer.js never does. */
  lemma {:induction false} DefaultOverwrittenAfterFirstSwitch(presets: map<string, Preset>, sliders: Hsl, later: Hsl, id: string)
    requires "default" in presets && id in presets && id != "default"
    ensures Switch(presets, SaveTarget(None), sliders, "default").0 == presets
    ensures var (p1, s1) := Switch(presets, SaveTarget(None), sliders, "default");
      Switch(p1, SaveTarget(Some("default")), later, id).0["default"].hsl == later
    ensures Switch(presets, Viewer.SaveTarget("default"), later, id).0["default"] == presets["default"]
  {
    var (p1, s1) := Switch(presets, SaveTarget(None), sliders, "default");
    assert p1 == presets;
    var (p2, s2) := Switch(p1, SaveTarget(Some("default")), later, id);
    assert p2 == p1["default" := p1["default"].(hsl := later)];
  }

  class Page {
    /** `settings.wireframe`, which the Rendering folder's checkbox writes. */
    var wireframe: bool

    var presets: map<string, Preset>
    var current: Option<string>
    var sliders: Hsl
    var overrideMaterial: Option<nat>
    var materialWireframe: map<nat, bool>
    var model: Option<Node>
    var mixers: seq<nat>
    var folders: seq<string>
    var modelFolder: Option<Folder>

    /** The presets keep their names and materials, and the current preset,
        once there is one, is one of them. */
    ghost predicate Valid()
      reads this
    {
      MaterialsKept(presets) &&
      (current.Some? ==> current.value in presets) &&
      materialWireframe.Keys == MaterialIds
    }

    /** init(): the Rendering, Material color and Materials folders, no
        model yet, `current_material` 0. The start-up `setWireframe` finds
        neither an override material nor a model, so it changes nothing. */
    constructor (wireframe: bool)
      ensures Valid()
      ensures this.wireframe == wireframe
      ensures presets == InitialPresets && current == None && sliders == InitialSliders
      ensures overrideMaterial == None && materialWireframe == InitialWireframes
      ensures model == None && mixers == [] && modelFolder == None
      ensures folders == ["Rendering", "Material color", "Materials"]
    {
      InitialPresetsMaterials();
      this.wireframe := wireframe;
      presets := InitialPresets;
      current := None;
      sliders := InitialSliders;
      overrideMaterial := None;
      materialWireframe := InitialWireframes;
      model := None;
      mixers := [];
      folders := ["Rendering", "Material color", "Materials"];
      modelFolder := None;
    }

    /** setWireframe: the override material, when there is one, and every
        material of the `MainObject` tree get the flag. */
    method SetWireframe(w: bool)
      requires Valid()
      modifies this
      ensures Valid()
      ensures wireframe == old(wireframe)
      ensures overrideMaterial.Some? && overrideMaterial.value in materialWireframe ==>
        materialWireframe == old(materialWireframe)[overrideMaterial.value := w]
      ensures !(overrideMaterial.Some? && overrideMaterial.value in materialWireframe) ==>
        materialWireframe == old(materialWireframe)
      ensures model == Viewer.ModelWithWireframe(old(model), w)
      ensures presets == old(presets) && current == old(current) && sliders == old(sliders)
      ensures overrideMaterial == old(overrideMaterial) && mixers == old(mixers) && folders == old(folders)
      ensures modelFolder == old(modelFolder)
    {
      if overrideMaterial.Some? && overrideMaterial.value in materialWireframe {
        materialWireframe := materialWireframe[overrideMaterial.value := w];
      }
      model := Viewer.ModelWithWireframe(model, w);
    }

    /** The Rendering folder's `wireframe` checkbox: dat.GUI writes
        `settings.wireframe`, then calls setWireframe with the new value. */
    method WireframeChanged(w: bool)
      requires Valid()
      modifies this
      ensures Valid()
      ensures wireframe == w
      ensures overrideMaterial.Some? && overrideMaterial.value in materialWireframe ==>
        materialWireframe == old(materialWireframe)[overrideMaterial.value := w]
      ensures !(overrideMaterial.Some? && overrideMaterial.value in materialWireframe) ==>
        materialWireframe == old(materialWireframe)
      ensures model == Viewer.ModelWithWireframe(old(model), w)
      ensures presets == old(presets) && current == old(current) && sliders == old(sliders)
      ensures overrideMaterial == old(overrideMaterial) && mixers == old(mixers) && folders == old(folders)
      ensures modelFolder == old(modelFolder)
    {
      wireframe := w;
      SetWireframe(w);
    }

    /** The handler `createHandler(id)` returns: save the sliders into the
        current preset unless `current_material` is still 0, make `id`
        current, set the override material, reapply the wireframe setting,
        load the preset's slider values. */
    method SelectMaterial(id: string)
      requires Valid() && id in presets
      modifies this
      ensures Valid()
      ensures wireframe == old(wireframe)
      ensures (presets, sliders) == Switch(old(presets), SaveTarget(old(current)), old(sliders), id)
      ensures current == Some(id) && overrideMaterial == InitialPresets[id].material
      ensures overrideMaterial.Some? ==> materialWireframe == old(materialWireframe)[overrideMaterial.value := wireframe]
      ensures overrideMaterial.None? ==> materialWireframe == old(materialWireframe)
      ensures model == Viewer.ModelWithWireframe(old(model), wireframe)
      ensures mixers == old(mixers) && folders == old(folders) && modelFolder == old(modelFolder)
    {
      SwitchKeepsMaterialsKept(presets, SaveTarget(current), sliders, id);
      PresetMaterialId(id);
      var r := Switch(presets, SaveTarget(current), sliders, id);
      presets := r.0;
      current := Some(id);
      overrideMaterial := presets[id].material;
      SetWireframe(wireframe);
      sliders := r.1;
    }

    /** The load callback as written: the mixer is kept, an Animation
        folder is added when there are clips, the model becomes
        `MainObject` and the Transform folder is added; then
        `transformFolder.add(object.position, 'pos x')` names a property a
        vector does not have, and dat.GUI throws, so no Model folder is
        built. */
    method ModelLoadedAsWritten(loaded: Node, animations: nat, mixer: nat) returns (c: Completion)
      requires Valid()
      modifies this
      ensures Valid()
      ensures wireframe == old(wireframe)
      ensures c == Error
      ensures mixers == old(mixers) + [mixer]
      ensures folders == old(folders) + (if animations > 0 then ["Animation"] else []) + ["Transform"]
      ensures model == Some(loaded.(name := "MainObject")) && modelFolder == old(modelFolder)
      ensures presets == old(presets) && current == old(current) && sliders == old(sliders)
      ensures overrideMaterial == old(overrideMaterial) && materialWireframe == old(materialWireframe)
    {
      mixers := mixers + [mixer];
      folders := folders + (if animations > 0 then ["Animation"] else []) + ["Transform"];
      model := Some(loaded.(name := "MainObject"));
      c := Error;
    }

    /** The load callback, corrected to bind the Transform folder to the
        vectors' `x`, `y` and `z` and label them `pos x` and so on: the
        mixer is kept, an Animation folder is added when there are clips,
        the model becomes `MainObject`, and the Transform and Model folders
        follow, the latter filled by `recursive`. The wireframe setting is
        not reapplied to the new model. */
    method ModelLoaded(loaded: Node, animations: nat, mixer: nat)
      requires Valid()
      modifies this
      ensures Valid()
      ensures wireframe == old(wireframe)
      ensures mixers == old(mixers) + [mixer]
      ensures folders == old(folders) + (if animations > 0 then ["Animation"] else []) + ["Transform", "Model"]
      ensures model == Some(loaded.(name := "MainObject"))
      ensures modelFolder == Some(ModelFolder(loaded.(name := "MainObject"), "visible"))
      ensures presets == old(presets) && current == old(current) && sliders == old(sliders)
      ensures overrideMaterial == old(overrideMaterial) && materialWireframe == old(materialWireframe)
    {
      mixers := mixers + [mixer];
      folders := folders + (if animations > 0 then ["Animation"] else []) + ["Transform", "Model"];
      model := Some(loaded.(name := "MainObject"));
      modelFolder := Some(ModelFolder(loaded.(name := "MainObject"), "visible"));
    }
  }
}
