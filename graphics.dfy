/** Scene-graph entities shared by every stage of the rendering pipeline demo:
    hex colours, the fixed set of material kinds the stages assign, geometries,
    meshes, the renderer's clear colour, and opaque world-space points.

    Floating-point vector maths (world matrices, normal transforms) is not
    modelled: a world-space point is kept as the expression that produced it. */
module Graphics {

  /** A 24-bit hexadecimal RGB colour such as 0x888888. */
  type Hex = c: int | 0 <= c < 0x1000000

  datatype Option<T> = None | Some(value: T)

  datatype Side = FrontSide | DoubleSide

  datatype DepthPacking = BasicDepthPacking | RGBADepthPacking

  /** The material kinds the stages assign, each with the parameters it is built with. */
  datatype MaterialKind =
    | Standard(colour: Hex, metalness: real, roughness: real, side: Side)
    | Basic(colour: Hex, wireframe: bool, side: Side, vertexColors: bool, transparent: bool, opacity: real)
    | Depth(packing: DepthPacking, side: Side, near: real, far: real)
    | PixelGrid(cellSize: real, side: Side)
    | Phong(colour: Hex, shininess: real, specular: Hex, side: Side)
    | Pbr(colour: Hex, metalness: real, roughness: real, side: Side, emissive: Hex, emissiveIntensity: real)
    | NormalEncoding(side: Side)
    | SplitQuadrants(side: Side)
  {
    /** Shader materials carry a `time` uniform; the built-in kinds do not. */
    predicate HasTimeUniform() { PixelGrid? || SplitQuadrants? }
  }

  /** The translucent grey wireframe every mesh wears in the vertex stage. */
  const VertexWireframe: MaterialKind := Basic(0x888888, true, FrontSide, false, true, 0.3)

  /** The depth-encoding material of the rasterization stage (near and far kept as user data). */
  const DepthView: MaterialKind := Depth(RGBADepthPacking, DoubleSide, 1.0, 20.0)

  /** The three shading materials of the fragment stage. */
  const PhongShading: MaterialKind := Phong(0xffffff, 100.0, 0x111111, DoubleSide)
  const PbrShading: MaterialKind := Pbr(0xffffff, 0.5, 0.5, DoubleSide, 0x222222, 0.2)
  const NormalShading: MaterialKind := NormalEncoding(DoubleSide)

  /** The material of the primitive stage once all its fields are set: a green
      wireframe, or per-vertex colours, single-sided exactly when back faces are culled. */
  function PrimitiveMaterial(wireframe: bool, backfaceCulling: bool): (k: MaterialKind)
    ensures k.Basic? && k.transparent && k.wireframe == wireframe
    ensures k.side == FrontSide <==> backfaceCulling
    ensures wireframe ==> k.colour == 0x00ff00 && k.opacity == 0.8 && !k.vertexColors
    ensures !wireframe ==> k.vertexColors && k.opacity == 0.9
  {
    var side := if backfaceCulling then FrontSide else DoubleSide;
    if wireframe then Basic(0x00ff00, true, side, false, true, 0.8)
    else Basic(0xffffff, false, side, true, true, 0.9)
  }

  /** A material instance. Its kind is fixed at creation; the stages change only
      its `needsUpdate` flag and its `time` uniform. */
  class Material {
    const kind: MaterialKind
    var needsUpdate: bool
    var time: real

    constructor (kind: MaterialKind, time: real)
      ensures this.kind == kind && this.time == time && !needsUpdate
    {
      this.kind := kind;
      this.time := time;
      needsUpdate := false;
    }
  }

  /** A buffer geometry: the number of entries of its position attribute, whether
      it has a normal attribute, and its colour attribute (absent or a float buffer). */
  class Geometry {
    const count: nat
    const hasNormal: bool
    var colours: Option<seq<real>>
    var disposed: bool

    constructor (count: nat, hasNormal: bool)
      ensures this.count == count && this.hasNormal == hasNormal
      ensures colours == None && !disposed
    {
      this.count := count;
      this.hasNormal := hasNormal;
      colours := None;
      disposed := false;
    }

    /** A copy with the same attributes that is not disposed. */
    constructor Clone(g: Geometry)
      ensures count == g.count && hasNormal == g.hasNormal && colours == g.colours && !disposed
    {
      count := g.count;
      hasNormal := g.hasNormal;
      colours := g.colours;
      disposed := false;
    }

    /** Releases the GPU buffers; disposing twice is harmless. */
    method Dispose()
      modifies this`disposed
      ensures disposed
    {
      disposed := true;
    }
  }

  /** A mesh: a geometry and at most one material, both replaceable in place. */
  class Mesh {
    var geometry: Geometry
    var material: Material?

    constructor (geometry: Geometry, material: Material?)
      ensures this.geometry == geometry && this.material == material
    {
      this.geometry := geometry;
      this.material := material;
    }
  }

  /** A world-space point, kept as the expression that produced it. */
  datatype Vec =
    | WorldVertex(mesh: Mesh, index: nat)            // position `index` of the mesh, in world space
    | WorldNormal(mesh: Mesh, index: nat)            // normal `index` of the mesh, as a world direction
    | Along(origin: Vec, dir: Vec, scale: real)      // origin + dir * scale

  /** A child of a group: a group of meshes, a point cloud or a set of line segments. */
  datatype Node =
    | GroupNode(meshes: seq<Mesh>)
    | PointCloud(points: seq<Vec>, colour: Hex, size: real)
    | LineSet(points: seq<Vec>, colour: Hex)

  datatype ClearColour = ClearColour(colour: Hex, alpha: real)

  const OpaqueBlack: ClearColour := ClearColour(0x000000, 1.0)
  const TransparentBlack: ClearColour := ClearColour(0x000000, 0.0)

  /** The WebGL renderer, as far as the stages touch it: its clear colour. */
  class Renderer {
    var clearColour: ClearColour

    constructor ()
      ensures clearColour == TransparentBlack
    {
      clearColour := TransparentBlack;
    }

    /** The alpha defaults to 1 when the caller gives only a colour. */
    method SetClearColor(colour: Hex, alpha: real := 1.0)
      modifies this
      ensures clearColour == ClearColour(colour, alpha)
    {
      clearColour := ClearColour(colour, alpha);
    }
  }

  predicate Distinct<T(==)>(s: seq<T>) {
    forall i, j :: 0 <= i < j < |s| ==> s[i] != s[j]
  }

  /** Every mesh has a material of kind k. */
  ghost predicate AllHaveKind(meshes: seq<Mesh>, k: MaterialKind)
    reads meshes
  {
    forall m :: m in meshes ==> m.material != null && m.material.kind == k
  }

  /** No two meshes share a material: each wears one of its own. */
  ghost predicate OwnMaterials(meshes: seq<Mesh>)
    reads meshes
  {
    forall i, j :: 0 <= i < j < |meshes| ==> meshes[i].material != meshes[j].material
  }

  /** Marks the material of every mesh that has one for re-upload. */
  method MarkNeedsUpdate(meshes: seq<Mesh>)
    modifies (set m | m in meshes && m.material != null :: m.material)`needsUpdate
    ensures forall m :: m in meshes && m.material != null ==> m.material.needsUpdate
    ensures forall m :: m in meshes ==> m.material == old(m.material)
    ensures forall m :: m in meshes && m.material != null ==> m.material.time == old(m.material.time)
  {
    for k := 0 to |meshes|
      invariant forall j :: 0 <= j < k && meshes[j].material != null ==> meshes[j].material.needsUpdate
    {
      var material := meshes[k].material;
      if material != null {
        material.needsUpdate := true;
      }
    }
  }

  // ----- The per-triangle colour buffer of the primitive stage -----

  const TriangleRed: Hex := 0xff5555
  const TriangleGreen: Hex := 0x55ff55

  /** The colour of the triangle whose first vertex index is i. */
  function TriangleColour(i: nat): Hex {
    if i % 6 == 0 then TriangleRed else TriangleGreen
  }

  /** The red, green and blue channels of a hex colour, each in [0, 1]. */
  function Channels(c: Hex): (r: seq<real>)
    ensures |r| == 3
    ensures forall k :: 0 <= k < 3 ==> 0.0 <= r[k] <= 1.0
  {
    [(c / 0x10000) as real / 255.0, ((c / 0x100) % 0x100) as real / 255.0, (c % 0x100) as real / 255.0]
  }

  /** The nine buffer entries pushed for one triangle: its colour once per corner. */
  function Corners(c: Hex): seq<real> {
    Channels(c) + Channels(c) + Channels(c)
  }

  /** The colour buffer holding the given triangle colours in order. */
  function Expand(colours: seq<Hex>): seq<real> {
    if colours == [] then [] else Corners(colours[0]) + Expand(colours[1..])
  }

  lemma {:induction false} ExpandLength(colours: seq<Hex>)
    ensures |Expand(colours)| == 9 * |colours|
  {
    if colours != [] {
      ExpandLength(colours[1..]);
    }
  }

  lemma {:induction false} ExpandAppend(colours: seq<Hex>, c: Hex)
    ensures Expand(colours + [c]) == Expand(colours) + Corners(c)
  {
    if colours == [] {
      assert colours + [c] == [c];
    } else {
      assert (colours + [c])[1..] == colours[1..] + [c];
      ExpandAppend(colours[1..], c);
    }
  }

  /** Triangle t (counting from 0) of the colour buffer occupies entries 9t .. 9t+8. */
  lemma {:induction false} ExpandAt(colours: seq<Hex>, t: nat)
    requires t < |colours|
    ensures |Expand(colours)| == 9 * |colours|
    ensures Expand(colours)[9 * t .. 9 * t + 9] == Corners(colours[t])
  {
    ExpandLength(colours);
    if t > 0 {
      ExpandAt(colours[1..], t - 1);
      assert Expand(colours) == Corners(colours[0]) + Expand(colours[1..]);
      assert |Corners(colours[0])| == 9;
    }
  }

  /** The triangle starting at vertex index 3t is red, its index being a
      multiple of 6, exactly when t is even. Kept apart so that the nonlinear
      step stays out of `TriangleColours`' own proof. */
  lemma TriangleParity(t: nat)
    ensures (3 * t) % 6 == 0 <==> t % 2 == 0
  {
    var q := t / 2;
    if t % 2 == 0 {
      assert 3 * t == 6 * q;
    } else {
      assert 3 * t == 6 * q + 3;
    }
  }

  /** The colours of the triangles started by a walk over n vertex indices in
      steps of three: one per started triangle, red and green alternating. */
  function TriangleColours(n: nat): (r: seq<Hex>)
    ensures |r| == (n + 2) / 3
    ensures forall t :: 0 <= t < |r| ==> (r[t] == TriangleRed <==> t % 2 == 0)
    ensures forall t :: 0 <= t < |r| ==> (r[t] == TriangleGreen <==> t % 2 == 1)
  {
    var r := seq((n + 2) / 3, (t: int) requires 0 <= t => TriangleColour(3 * t));
    assert forall t :: 0 <= t < |r| ==> r[t] == TriangleColour(3 * t);
    forall t | 0 <= t < |r|
      ensures (r[t] == TriangleRed <==> t % 2 == 0)
    {
      TriangleParity(t);
    }
    r
  }

  /** The colour attribute the primitive stage gives a geometry with n positions. */
  function ColourBuffer(n: nat): seq<real> {
    Expand(TriangleColours(n))
  }

  /** The buffer holds nine entries for every started triangle, so more than
      three per vertex whenever n is not a multiple of three; triangle t carries
      red on even t and green on odd t. */
  lemma ColourBufferShape(n: nat, t: nat)
    requires t < (n + 2) / 3
    ensures |ColourBuffer(n)| == 9 * ((n + 2) / 3)
    ensures n % 3 != 0 ==> |ColourBuffer(n)| > 3 * n
    ensures ColourBuffer(n)[9 * t .. 9 * t + 9] == Corners(if t % 2 == 0 then TriangleRed else TriangleGreen)
  {
    ExpandAt(TriangleColours(n), t);
  }

  /** Walking three more vertex indices appends the started triangle's nine entries. */
  lemma ColourBufferStep(t: nat)
    ensures ColourBuffer(3 * t + 3) == ColourBuffer(3 * t) + Corners(TriangleColour(3 * t))
  {
    var before := TriangleColours(3 * t);
    var after := TriangleColours(3 * t + 3);
    assert |after| == |before| + 1;
    assert after == before + [TriangleColour(3 * t)];
    ExpandAppend(before, TriangleColour(3 * t));
  }

  /** The loop that pushes the nine channel values of each started triangle. */
  method BuildTriangleColours(count: nat) returns (colours: seq<real>)
    ensures colours == ColourBuffer(count)
  {
    colours := [];
    var i := 0;
    ghost var t := 0;
    while i < count
      invariant i == 3 * t && i <= count + 2
      invariant colours == ColourBuffer(i)
    {
      var c := if i % 6 == 0 then TriangleRed else TriangleGreen;
      assert c == TriangleColour(i);
      ghost var pushed := colours;
      colours := colours + Channels(c);
      colours := colours + Channels(c);
      colours := colours + Channels(c);
      assert colours == pushed + Corners(c);
      ColourBufferStep(t);
      i := i + 3;
      t := t + 1;
    }
    WalkEnd(t, count);
  }

  /** A walk in steps of three that stops at or just past n started the same triangles. */
  lemma WalkEnd(t: nat, n: nat)
    requires n <= 3 * t <= n + 2
    ensures ColourBuffer(3 * t) == ColourBuffer(n)
  {
    assert (3 * t + 2) / 3 == (n + 2) / 3;
    assert TriangleColours(3 * t) == TriangleColours(n);
  }

  /** The geometry carries the per-triangle colour buffer for its vertex count. */
  ghost predicate HasTriangleColours(g: Geometry)
    reads g
  {
    g.colours == Some(ColourBuffer(g.count))
  }

  /** A clone of a group of meshes: new meshes sharing the originals' geometries and materials. */
  method CloneScene(scene: seq<Mesh>) returns (clone: seq<Mesh>)
    ensures |clone| == |scene| && Distinct(clone)
    ensures forall k :: 0 <= k < |clone| ==>
              fresh(clone[k]) && clone[k].geometry == scene[k].geometry && clone[k].material == scene[k].material
  {
    clone := [];
    for k := 0 to |scene|
      invariant |clone| == k && Distinct(clone)
      invariant forall j :: 0 <= j < k ==>
                  fresh(clone[j]) && clone[j].geometry == scene[j].geometry && clone[j].material == scene[j].material
    {
      var mesh := new Mesh(scene[k].geometry, scene[k].material);
      clone := clone + [mesh];
    }
  }
}
