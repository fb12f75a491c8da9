/** The stand-alone fragment-stage view: every mesh of a clone of the scene
    wears the shading material of the lighting mode, or the quadrant shader
    while the split view is on; the split view flips on every interval tick. */
module FragmentVisualization {
  import opened Graphics
  import opened Lighting

  /** The quadrant shader that shows base colour, normals, roughness/metalness and lighting side by side. */
  const SplitView: MaterialKind := SplitQuadrants(DoubleSide)

  /** The split-view flag after `ticks` interval ticks from `initial`. */
  function SplitAfterTicks(initial: bool, ticks: nat): bool
    decreases ticks
  {
    if ticks == 0 then initial else !SplitAfterTicks(initial, ticks - 1)
  }

  /** The flag only depends on the parity of the tick count: two ticks bring it back. */
  lemma {:induction false} SplitViewPeriod(initial: bool, ticks: nat)
    ensures SplitAfterTicks(initial, ticks) == (if ticks % 2 == 0 then initial else !initial)
    ensures SplitAfterTicks(initial, ticks + 2) == SplitAfterTicks(initial, ticks)
  {
    if ticks > 0 {
      SplitViewPeriod(initial, ticks - 1);
    }
  }

  class FragmentView {
    const clone: seq<Mesh>
    const phong: Material
    const pbr: Material
    const normal: Material
    const split: Material
    var splitView: bool
    var ticks: nat

    /** The clone's meshes are distinct, the four materials have their kinds,
        and the flag is the one the ticks so far have left. */
    ghost predicate Valid()
      reads this
    {
      Distinct(clone) &&
      phong.kind == PhongShading && pbr.kind == PbrShading &&
      normal.kind == NormalShading && split.kind == SplitView &&
      splitView == SplitAfterTicks(false, ticks)
    }

    /** The view over a clone of `scene`: the materials are created once, the
        split view starts off and the shader's time at 0. */
    constructor (scene: seq<Mesh>)
      ensures Valid() && !splitView && ticks == 0 && |clone| == |scene|
      ensures forall k :: 0 <= k < |clone| ==>
                fresh(clone[k]) && clone[k].geometry == scene[k].geometry && clone[k].material == scene[k].material
      ensures fresh(phong) && fresh(pbr) && fresh(normal) && fresh(split) && split.time == 0.0
    {
      var copies := CloneScene(scene);
      clone := copies;
      phong := new Material(PhongShading, 0.0);
      pbr := new Material(PbrShading, 0.0);
      normal := new Material(NormalShading, 0.0);
      split := new Material(SplitView, 0.0);
      splitView := false;
      ticks := 0;
    }

    /** The material every mesh wears: the split shader while the split view is
        on, whatever the mode; otherwise Phong for "directional" and for any
        unknown mode, physically based for "point", normals for "spot". */
    function Chosen(lightingMode: string): (m: Material)
      requires Valid()
      reads this
      ensures splitView ==> m == split && m.kind == SplitView
      ensures !splitView ==> m.kind == ShadingFor(ParseLightingMode(lightingMode))
      ensures !splitView && lightingMode != "point" && lightingMode != "spot" ==> m == phong
    {
      if splitView then split
      else
        match ParseLightingMode(lightingMode)
        case DirectionalMode => phong
        case PointMode => pbr
        case SpotMode => normal
    }

    /** The material effect: every mesh shares the chosen material, which is
        marked for re-upload. */
    method ApplyMaterials(lightingMode: string)
      requires Valid()
      modifies clone, Chosen(lightingMode)`needsUpdate
      ensures Valid()
      ensures forall m :: m in clone ==>
                m.material == Chosen(lightingMode) && m.geometry == old(m.geometry)
      ensures Chosen(lightingMode).needsUpdate == (clone != [] || old(Chosen(lightingMode).needsUpdate))
      ensures forall x :: x in [phong, pbr, normal, split] && x != Chosen(lightingMode) ==>
                x.needsUpdate == old(x.needsUpdate)
    {
      var material := Chosen(lightingMode);
      for k := 0 to |clone|
        invariant forall j :: 0 <= j < k ==> clone[j].material == material
        invariant forall j :: 0 <= j < |clone| ==> clone[j].geometry == old(clone[j].geometry)
        invariant material.needsUpdate == (k > 0 || old(material.needsUpdate))
      {
        var mesh := clone[k];
        mesh.material := material;
        if mesh.material != null {
          mesh.material.needsUpdate := true;
        }
      }
    }

    /** An interval tick flips the split view. */
    method Tick()
      requires Valid()
      modifies this`splitView, this`ticks
      ensures Valid() && splitView == !old(splitView) && ticks == old(ticks) + 1
    {
      splitView := !splitView;
      ticks := ticks + 1;
    }

    /** The frame callback: the split shader's time follows the clock only
        while the split view is on. */
    method Frame(elapsed: real)
      modifies split`time
      ensures split.time == if splitView then elapsed else old(split.time)
    {
      if splitView {
        split.time := elapsed;
      }
    }
  }
}
