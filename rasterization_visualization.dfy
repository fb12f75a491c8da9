/** The stand-alone rasterization-stage view: every mesh of a clone of the
    scene wears one shared depth material or one shared pixel-grid shader; the
    renderer clears to opaque black for the depth view and to transparent
    black otherwise, and transparent black is restored whenever the effect is
    cleaned up. */
module RasterizationVisualization {
  import opened Graphics

  /** The pixel-grid shader of this view, with cells of 0.02 in texture space. */
  const PixelView: MaterialKind := PixelGrid(0.02, DoubleSide)

  class RasterizationView {
    const clone: seq<Mesh>
    const gl: Renderer
    const depthMaterial: Material
    const pixelMaterial: Material

    ghost predicate Valid()
    {
      Distinct(clone) && depthMaterial != pixelMaterial &&
      depthMaterial.kind == DepthView && pixelMaterial.kind == PixelView
    }

    /** The view over a clone of `scene`, with its two materials created once;
        the shader's time starts at 0. */
    constructor (scene: seq<Mesh>, gl: Renderer)
      ensures Valid() && this.gl == gl && |clone| == |scene|
      ensures forall k :: 0 <= k < |clone| ==>
                fresh(clone[k]) && clone[k].geometry == scene[k].geometry && clone[k].material == scene[k].material
      ensures fresh(depthMaterial) && fresh(pixelMaterial) && pixelMaterial.time == 0.0
    {
      var copies := CloneScene(scene);
      clone := copies;
      this.gl := gl;
      depthMaterial := new Material(DepthView, 0.0);
      pixelMaterial := new Material(PixelView, 0.0);
    }

    /** The material every mesh wears for a setting of the depth toggle. */
    function Chosen(showDepthBuffer: bool): (m: Material)
      requires Valid()
      ensures m.kind == (if showDepthBuffer then DepthView else PixelView)
      ensures m.kind.HasTimeUniform() <==> !showDepthBuffer
    {
      if showDepthBuffer then depthMaterial else pixelMaterial
    }

    /** The material effect: every mesh, with or without a material before,
        now shares the chosen material, and the clear colour follows the toggle. */
    method ApplyMaterials(showDepthBuffer: bool)
      requires Valid()
      modifies clone, gl
      ensures Valid()
      ensures forall m :: m in clone ==> m.material == Chosen(showDepthBuffer) && m.geometry == old(m.geometry)
      ensures gl.clearColour == if showDepthBuffer then OpaqueBlack else TransparentBlack
    {
      var material := if showDepthBuffer then depthMaterial else pixelMaterial;
      for k := 0 to |clone|
        invariant forall j :: 0 <= j < k ==> clone[j].material == material
        invariant forall j :: 0 <= j < |clone| ==> clone[j].geometry == old(clone[j].geometry)
      {
        clone[k].material := material;
      }
      if showDepthBuffer {
        gl.SetClearColor(0x000000);
      } else {
        gl.SetClearColor(0x000000, 0.0);
      }
    }

    /** The effect's cleanup: transparent black, whatever the toggle was. */
    method Cleanup()
      modifies gl
      ensures gl.clearColour == TransparentBlack
    {
      gl.SetClearColor(0x000000, 0.0);
    }

    /** A change of the toggle: the previous run is cleaned up and the effect
        runs again, so the clear colour depends on the new setting alone. */
    method ChangeSetting(showDepthBuffer: bool)
      requires Valid()
      modifies clone, gl
      ensures Valid()
      ensures forall m :: m in clone ==> m.material == Chosen(showDepthBuffer)
      ensures gl.clearColour == if showDepthBuffer then OpaqueBlack else TransparentBlack
    {
      Cleanup();
      ApplyMaterials(showDepthBuffer);
    }

    /** The frame callback: the shader's time follows the clock only while the
        pixel view is shown. */
    method Frame(elapsed: real, showDepthBuffer: bool)
      modifies pixelMaterial`time
      ensures pixelMaterial.time == if showDepthBuffer then old(pixelMaterial.time) else elapsed
    {
      if !showDepthBuffer {
        pixelMaterial.time := elapsed;
      }
    }
  }
}
