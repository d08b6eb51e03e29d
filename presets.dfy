/** The material presets both viewer scripts build in `generateMaterials`
    and the switch between them that the `Materials` folder's buttons run:
    the hue, saturation and lightness sliders are saved into the preset
    being left (when the script's guard allows) and loaded from the preset
    chosen. src/media/viewer.js and media/viewer.js differ only in that
    guard. */
module Presets {
  import opened Js

  /** Slider values. */
  datatype Hsl = Hsl(h: real, s: real, l: real)

  /** A preset: its three.js material (by identity; `null` for `default`)
      and its slider values. */
  datatype Preset = Preset(material: Option<nat>, hsl: Hsl)

  /** The preset names, in the order the folder's buttons are added. */
  const PresetNames: seq<string> :=
    ["default", "chrome", "liquid", "shiny", "matte", "flat", "textured", "colors", "plastic"]

  const InitialPresets: map<string, Preset> := map[
    "default" := Preset(None, Hsl(0.0, 0.0, 1.0)),
    "chrome" := Preset(Some(1), Hsl(0.0, 0.0, 1.0)),
    "liquid" := Preset(Some(2), Hsl(0.0, 0.0, 1.0)),
    "shiny" := Preset(Some(3), Hsl(0.0, 0.8, 0.2)),
    "matte" := Preset(Some(4), Hsl(0.0, 0.0, 1.0)),
    "flat" := Preset(Some(5), Hsl(0.0, 0.0, 1.0)),
    "textured" := Preset(Some(6), Hsl(0.0, 0.0, 1.0)),
    "colors" := Preset(Some(7), Hsl(0.0, 0.0, 1.0)),
    "plastic" := Preset(Some(8), Hsl(0.6, 0.8, 0.1))
  ]

  /** The material ids of the eight presets that have one. */
  const MaterialIds: set<nat> := set i: nat | 1 <= i <= 8

  /** Every preset material starts without wireframe. */
  const InitialWireframes: map<nat, bool> := map i | i in MaterialIds :: false

  /** `presets` holds the nine presets with their original materials. */
  ghost predicate MaterialsKept(presets: map<string, Preset>)
  {
    presets.Keys == InitialPresets.Keys &&
    forall k :: k in presets ==> presets[k].material == InitialPresets[k].material
  }

  /** `default` is a preset, the initial presets keep their materials, and
      there is one wireframe flag per material id. */
  lemma InitialPresetsMaterials()
    ensures "default" in InitialPresets && MaterialsKept(InitialPresets)
    ensures InitialWireframes.Keys == MaterialIds
  {
  }

  /** A preset's material, when it has one, is one of the eight. */
  lemma PresetMaterialId(id: string)
    requires id in InitialPresets
    ensures InitialPresets[id].material.Some? ==> InitialPresets[id].material.value in MaterialIds
    ensures InitialPresets[id].material.None? <==> id == "default"
  {
  }

  /** `effectController`'s initial hue, saturation and lightness. */
  const InitialSliders: Hsl := Hsl(0.0, 0.8, 0.1)

  /** One button press: the sliders are saved into `saveInto` when there
      is one, then the presets' values for `id` are loaded into the
      sliders. */
  function Switch(presets: map<string, Preset>, saveInto: Option<string>, sliders: Hsl, id: string): (r: (map<string, Preset>, Hsl))
    requires id in presets
    requires saveInto.Some? ==> saveInto.value in presets
    ensures r.0.Keys == presets.Keys
    ensures saveInto.Some? ==> r.0 == presets[saveInto.value := presets[saveInto.value].(hsl := sliders)]
    ensures saveInto.None? ==> r.0 == presets
    ensures r.1 == r.0[id].hsl
  {
    var saved := if saveInto.Some? then presets[saveInto.value := presets[saveInto.value].(hsl := sliders)] else presets;
    (saved, saved[id].hsl)
  }

  /** No switch changes a material. */
  lemma SwitchKeepsMaterialsKept(presets: map<string, Preset>, saveInto: Option<string>, sliders: Hsl, id: string)
    requires id in presets && (saveInto.Some? ==> saveInto.value in presets)
    requires MaterialsKept(presets)
    ensures MaterialsKept(Switch(presets, saveInto, sliders, id).0)
  {
    forall k | k in presets
      ensures Switch(presets, saveInto, sliders, id).0[k].material == presets[k].material
    {
      SwitchKeepsMaterials(presets, saveInto, sliders, id, k);
    }
  }

  /** The materials never change, only the slider values stored with them. */
  lemma SwitchKeepsMaterials(presets: map<string, Preset>, saveInto: Option<string>, sliders: Hsl, id: string, k: string)
    requires id in presets && (saveInto.Some? ==> saveInto.value in presets)
    requires k in presets
    ensures Switch(presets, saveInto, sliders, id).0[k].material == presets[k].material
    ensures k != id && (saveInto.None? || saveInto.value != k) ==> Switch(presets, saveInto, sliders, id).0[k] == presets[k]
  {
  }

  /** Leaving a preset and coming back restores the slider values it was
      left with: the round trip through another preset loses nothing. */
  lemma {:induction false} SwitchAwayAndBack(presets: map<string, Preset>, a: string, b: string, sliders: Hsl)
    requires a in presets && b in presets && a != b
    ensures var (p1, s1) := Switch(presets, Some(a), sliders, b);
      Switch(p1, Some(b), s1, a).1 == sliders
  {
    var (p1, s1) := Switch(presets, Some(a), sliders, b);
    assert p1[a].hsl == sliders;
    var (p2, s2) := Switch(p1, Some(b), s1, a);
    assert p2[a] == p1[a];
  }

  /** Pressing the button of the current preset twice changes nothing the
      second time. */
  lemma SwitchToCurrentIdempotent(presets: map<string, Preset>, a: string, sliders: Hsl)
    requires a in presets
    ensures var (p1, s1) := Switch(presets, Some(a), sliders, a);
      Switch(p1, Some(a), s1, a) == (p1, s1) && s1 == sliders
  {
    var (p1, s1) := Switch(presets, Some(a), sliders, a);
    assert p1[a := p1[a].(hsl := s1)] == p1;
  }
}
