/** The stage visualizer of the scene: a root group whose first child is a clone
    of the fixed geometry template and whose further children are the overlays
    of the active pipeline stage. On every stage or toggle change the overlays
    are pruned and the selected stage re-materialises the meshes in place. */
module SceneStage {
  import opened Graphics
  import opened Lighting

  datatype Stage = Vertex | Primitive | Rasterization | Fragment | PostProcessing | Complete

  function StageName(s: Stage): string {
    match s
    case Vertex => "vertex"
    case Primitive => "primitive"
    case Rasterization => "rasterization"
    case Fragment => "fragment"
    case PostProcessing => "postprocessing"
    case Complete => "complete"
  }

  /** The stage a selector value selects: each stage by its own name, and the
      complete visualization for "complete" and for every unrecognised value. */
  function ParseStage(name: string): (s: Stage)
    ensures s != Complete ==> name == StageName(s)
    ensures forall t :: name == StageName(t) ==> s == t
  {
    if name == "vertex" then Vertex
    else if name == "primitive" then Primitive
    else if name == "rasterization" then Rasterization
    else if name == "fragment" then Fragment
    else if name == "postprocessing" then PostProcessing
    else Complete
  }

  /** The per-stage toggles the dispatch reads. */
  datatype Toggles = Toggles(
    showVertices: bool, showNormals: bool,
    wireframe: bool, backfaceCulling: bool,
    showDepthBuffer: bool, lightingMode: string)

  /** The values the demo starts with. */
  const InitialStage: string := "complete"
  const InitialEnvironment: string := "daytime"
  const InitialToggles: Toggles := Toggles(false, false, false, true, false, "directional")
  const InitialShowShadows: bool := true
  const InitialAnimationEnabled: bool := true

  /** What the demo shows before any input: the complete stage under the
      daytime table (not the starting defaults), a shadow-casting directional
      light, and, should the primitive stage be chosen, front-sided colour fill;
      no vertex overlay and no depth view. */
  lemma DemoStartingState()
    ensures ParseStage(InitialStage) == Complete
    ensures ParseEnvironment(InitialEnvironment) == Some(Daytime)
    ensures EnvironmentLightParams(InitialEnvironment) != DefaultLightParams
    ensures RenderLighting(InitialToggles.lightingMode, InitialShowShadows) ==
              PrimaryLight(DirectionalMode, true, Position(5, 5, 5))
    ensures PrimitiveMaterial(InitialToggles.wireframe, InitialToggles.backfaceCulling).vertexColors
    ensures PrimitiveMaterial(InitialToggles.wireframe, InitialToggles.backfaceCulling).side == FrontSide
    ensures forall meshes :: VertexOverlays(meshes, InitialToggles.showVertices, InitialToggles.showNormals) == []
    ensures RasterMaterial(InitialToggles.showDepthBuffer).PixelGrid?
  {
  }

  // ----- The vertex-stage overlays, as functions of the meshes -----

  /** Every position of a mesh in world space, in index order. */
  function MeshVertices(m: Mesh): seq<Vec>
    reads m
  {
    seq(m.geometry.count, (i: int) requires 0 <= i => WorldVertex(m, i))
  }

  /** The points overlay: every position of every mesh, mesh after mesh. */
  function AllVertices(meshes: seq<Mesh>): seq<Vec>
    reads meshes
    decreases |meshes|
  {
    if meshes == [] then [] else AllVertices(meshes[..|meshes| - 1]) + MeshVertices(meshes[|meshes| - 1])
  }

  /** The number of position entries over all meshes. */
  function TotalVertexCount(meshes: seq<Mesh>): nat
    reads meshes
    decreases |meshes|
  {
    if meshes == [] then 0 else TotalVertexCount(meshes[..|meshes| - 1]) + meshes[|meshes| - 1].geometry.count
  }

  /** One line of the normals overlay: from vertex i to that vertex moved by `length` along its normal. */
  function NormalSegment(m: Mesh, i: nat, length: real): seq<Vec> {
    [WorldVertex(m, i), Along(WorldVertex(m, i), WorldNormal(m, i), length)]
  }

  /** The normal lines of the first n vertices of a mesh. */
  function Segments(m: Mesh, n: nat, length: real): seq<Vec>
    decreases n
  {
    if n == 0 then [] else Segments(m, n - 1, length) + NormalSegment(m, n - 1, length)
  }

  /** A mesh contributes normal lines only when its geometry has a normal attribute. */
  function MeshNormalLines(m: Mesh): seq<Vec>
    reads m
  {
    if m.geometry.hasNormal then Segments(m, m.geometry.count, 0.2) else []
  }

  function AllNormalLines(meshes: seq<Mesh>): seq<Vec>
    reads meshes
    decreases |meshes|
  {
    if meshes == [] then [] else AllNormalLines(meshes[..|meshes| - 1]) + MeshNormalLines(meshes[|meshes| - 1])
  }

  /** The number of vertices of the meshes that have normals. */
  function NormalVertexCount(meshes: seq<Mesh>): nat
    reads meshes
    decreases |meshes|
  {
    if meshes == [] then 0
    else
      var last := meshes[|meshes| - 1];
      NormalVertexCount(meshes[..|meshes| - 1]) + (if last.geometry.hasNormal then last.geometry.count else 0)
  }

  /** The overlays the vertex stage adds after the model: the points overlay when
      vertices are shown, then the normals overlay when normals are shown. */
  function VertexOverlays(meshes: seq<Mesh>, showVertices: bool, showNormals: bool): (r: seq<Node>)
    reads meshes
    ensures |r| == (if showVertices then 1 else 0) + (if showNormals then 1 else 0)
    ensures showVertices ==> r[0] == PointCloud(AllVertices(meshes), 0x00ffff, 0.1)
    ensures showNormals ==> r[|r| - 1] == LineSet(AllNormalLines(meshes), 0xff00ff)
  {
    (if showVertices then [PointCloud(AllVertices(meshes), 0x00ffff, 0.1)] else [])
    + (if showNormals then [LineSet(AllNormalLines(meshes), 0xff00ff)] else [])
  }

  /** The points overlay holds one point per position entry of every mesh, and
      nothing else. */
  lemma {:induction false} VertexPointsCoverEveryPosition(meshes: seq<Mesh>)
    ensures |AllVertices(meshes)| == TotalVertexCount(meshes)
    ensures forall p :: p in AllVertices(meshes) ==>
              p.WorldVertex? && p.mesh in meshes && p.index < p.mesh.geometry.count
    ensures forall k, i :: 0 <= k < |meshes| && 0 <= i < meshes[k].geometry.count ==>
              WorldVertex(meshes[k], i) in AllVertices(meshes)
  {
    if meshes != [] {
      var init, last := meshes[..|meshes| - 1], meshes[|meshes| - 1];
      VertexPointsCoverEveryPosition(init);
      assert AllVertices(meshes) == AllVertices(init) + MeshVertices(last);
      forall k, i | 0 <= k < |meshes| && 0 <= i < meshes[k].geometry.count
        ensures WorldVertex(meshes[k], i) in AllVertices(meshes)
      {
        if k < |meshes| - 1 {
          assert meshes[k] == init[k];
        } else {
          assert MeshVertices(last)[i] == WorldVertex(meshes[k], i);
        }
      }
    }
  }

  /** The two ends of the normal line at vertex i sit at positions 2i and 2i + 1. */
  lemma {:induction false} SegmentsAt(m: Mesh, n: nat, length: real, i: nat)
    requires i < n
    ensures |Segments(m, n, length)| == 2 * n
    ensures Segments(m, n, length)[2 * i] == WorldVertex(m, i)
    ensures Segments(m, n, length)[2 * i + 1] == Along(WorldVertex(m, i), WorldNormal(m, i), length)
  {
    SegmentsLength(m, n, length);
    if i < n - 1 {
      SegmentsAt(m, n - 1, length, i);
    }
  }

  lemma {:induction false} SegmentsLength(m: Mesh, n: nat, length: real)
    ensures |Segments(m, n, length)| == 2 * n
  {
    if n > 0 {
      SegmentsLength(m, n - 1, length);
    }
  }

  /** A point of the normals overlay is a vertex of m below n, or a point
      along the normal from one. */
  predicate StartsAtVertex(p: Vec, m: Mesh, n: nat) {
    var v := if p.Along? then p.origin else p;
    v.WorldVertex? && v.mesh == m && v.index < n
  }

  lemma {:induction false} SegmentsStartAtVertices(m: Mesh, n: nat, length: real)
    ensures forall p :: p in Segments(m, n, length) ==> StartsAtVertex(p, m, n)
  {
    if n > 0 {
      SegmentsStartAtVertices(m, n - 1, length);
      assert Segments(m, n, length) == Segments(m, n - 1, length) + NormalSegment(m, n - 1, length);
    }
  }

  /** The normals overlay holds two points per vertex of the meshes that have a
      normal attribute, and every point belongs to such a mesh. */
  lemma {:induction false} NormalLinesOnlyFromNormalMeshes(meshes: seq<Mesh>)
    ensures |AllNormalLines(meshes)| == 2 * NormalVertexCount(meshes)
    ensures forall p :: p in AllNormalLines(meshes) ==>
              var v := if p.Along? then p.origin else p;
              v.WorldVertex? && v.mesh in meshes && v.mesh.geometry.hasNormal && v.index < v.mesh.geometry.count
  {
    if meshes != [] {
      var init, last := meshes[..|meshes| - 1], meshes[|meshes| - 1];
      NormalLinesOnlyFromNormalMeshes(init);
      assert AllNormalLines(meshes) == AllNormalLines(init) + MeshNormalLines(last);
      if last.geometry.hasNormal {
        SegmentsLength(last, last.geometry.count, 0.2);
        SegmentsStartAtVertices(last, last.geometry.count, 0.2);
      }
    }
  }

  /** The loop that collects the points overlay. */
  method ExtractVertexPoints(meshes: seq<Mesh>) returns (vertices: seq<Vec>)
    ensures vertices == AllVertices(meshes)
  {
    vertices := [];
    for k := 0 to |meshes|
      invariant vertices == AllVertices(meshes[..k])
    {
      var mesh := meshes[k];
      var count := mesh.geometry.count;
      for i := 0 to count
        invariant vertices == AllVertices(meshes[..k]) + seq(i, (j: int) requires 0 <= j => WorldVertex(mesh, j))
      {
        vertices := vertices + [WorldVertex(mesh, i)];
      }
      assert meshes[..k + 1][..k] == meshes[..k];
    }
    assert meshes[..|meshes|] == meshes;
  }

  /** The loop that collects the normals overlay, skipping meshes without normals. */
  method ExtractNormalLines(meshes: seq<Mesh>) returns (lines: seq<Vec>)
    ensures lines == AllNormalLines(meshes)
  {
    lines := [];
    for k := 0 to |meshes|
      invariant lines == AllNormalLines(meshes[..k])
    {
      var mesh := meshes[k];
      var geometry := mesh.geometry;
      if geometry.hasNormal {
        for i := 0 to geometry.count
          invariant lines == AllNormalLines(meshes[..k]) + Segments(mesh, i, 0.2)
        {
          var vertex := WorldVertex(mesh, i);
          var normal := WorldNormal(mesh, i);
          lines := lines + [vertex];
          lines := lines + [Along(vertex, normal, 0.2)];
        }
      }
      assert meshes[..k + 1][..k] == meshes[..k];
    }
    assert meshes[..|meshes|] == meshes;
  }

  /** Gives every mesh a new material of its own of the given kind, leaving
      geometries alone. */
  method AssignOwnMaterials(group: seq<Mesh>, kind: MaterialKind, time: real)
    requires Distinct(group)
    modifies group
    ensures AllHaveKind(group, kind)
    ensures forall m :: m in group ==> fresh(m.material) && m.material.time == time && m.geometry == old(m.geometry)
    ensures OwnMaterials(group)
  {
    for k := 0 to |group|
      invariant forall j :: 0 <= j < k ==>
                  group[j].material != null && fresh(group[j].material) &&
                  group[j].material.kind == kind && group[j].material.time == time
      invariant forall i, j :: 0 <= i < j < k ==> group[i].material != group[j].material
      invariant forall j :: 0 <= j < |group| ==> group[j].geometry == old(group[j].geometry)
    {
      group[k].material := new Material(kind, time);
    }
  }

  /** Replaces a mesh's geometry by a clone that carries the per-triangle
      colour buffer, and disposes the geometry it replaced. */
  method ReplaceWithColouredClone(mesh: Mesh)
    modifies mesh`geometry, mesh.geometry`disposed
    ensures fresh(mesh.geometry) && old(mesh.geometry).disposed
    ensures mesh.geometry.count == old(mesh.geometry).count && mesh.geometry.hasNormal == old(mesh.geometry).hasNormal
    ensures HasTriangleColours(mesh.geometry)
  {
    var geometry := new Geometry.Clone(mesh.geometry);
    var colours := BuildTriangleColours(geometry.count);
    geometry.colours := Some(colours);
    mesh.geometry.Dispose();
    mesh.geometry := geometry;
  }

  /** A mesh of the primitive stage: it wears a material of the given kind and,
      when colouring, a coloured copy of the geometry `was` it had before, which
      is disposed; otherwise it still has `was`. */
  ghost predicate PrimitiveDressed(m: Mesh, was: Geometry, kind: MaterialKind, colour: bool)
    reads m, m.geometry, was
  {
    m.material != null && m.material.kind == kind &&
    if colour then
      was.disposed && m.geometry.count == was.count && m.geometry.hasNormal == was.hasNormal &&
      HasTriangleColours(m.geometry)
    else
      m.geometry == was
  }

  /** One mesh of the primitive stage: a new material and, when asked to, a
      coloured clone of its geometry. */
  method DressPrimitive(mesh: Mesh, kind: MaterialKind, colour: bool)
    modifies mesh, mesh.geometry`disposed
    ensures fresh(mesh.material) && (colour ==> fresh(mesh.geometry))
    ensures PrimitiveDressed(mesh, old(mesh.geometry), kind, colour)
    ensures !colour ==> mesh.geometry.disposed == old(mesh.geometry.disposed)
  {
    if colour {
      ReplaceWithColouredClone(mesh);
    }
    mesh.material := new Material(kind, 0.0);
  }

  /** Gives every mesh a new material of its own of the given kind and, when
      asked to, a coloured clone of its geometry. */
  method AssignPrimitiveMaterials(group: seq<Mesh>, kind: MaterialKind, colour: bool)
    requires Distinct(group)
    modifies group, (set m | m in group :: m.geometry)`disposed
    ensures AllHaveKind(group, kind)
    ensures forall m :: m in group ==> fresh(m.material)
    ensures OwnMaterials(group)
    ensures !colour ==> forall m :: m in group ==> m.geometry == old(m.geometry)
    ensures colour ==> forall m :: m in group ==>
              fresh(m.geometry) && old(m.geometry).disposed &&
              m.geometry.count == old(m.geometry).count && m.geometry.hasNormal == old(m.geometry).hasNormal &&
              HasTriangleColours(m.geometry)
    ensures forall m :: m in group ==> old(m.geometry).colours == old(m.geometry.colours)
    ensures !colour ==> forall m :: m in group ==> m.geometry.disposed == old(m.geometry.disposed)
  {
    ghost var geometries := set m | m in group :: m.geometry;
    for k := 0 to |group|
      modifies group, geometries`disposed
      invariant forall j :: k <= j < |group| ==> group[j].geometry == old(group[j].geometry)
      invariant forall j :: 0 <= j < k ==>
                  fresh(group[j].material) && (colour ==> fresh(group[j].geometry)) &&
                  PrimitiveDressed(group[j], old(group[j].geometry), kind, colour)
      invariant forall i, j :: 0 <= i < j < k ==> group[i].material != group[j].material
      invariant !colour ==> forall j :: 0 <= j < |group| ==> group[j].geometry.disposed == old(group[j].geometry.disposed)
    {
      DressPrimitive(group[k], kind, colour);
    }
  }

  /** The work of the vertex stage on the model's meshes: each gets its own
      wireframe material, and the overlays to append are collected. */
  method DressVertexStage(group: seq<Mesh>, showVertices: bool, showNormals: bool) returns (overlays: seq<Node>)
    requires Distinct(group)
    modifies group
    ensures overlays == VertexOverlays(group, showVertices, showNormals)
    ensures AllHaveKind(group, VertexWireframe) && OwnMaterials(group)
    ensures forall m :: m in group ==> fresh(m.material) && m.geometry == old(m.geometry)
  {
    AssignOwnMaterials(group, VertexWireframe, 0.0);
    overlays := [];
    if showVertices {
      var vertices := ExtractVertexPoints(group);
      overlays := overlays + [PointCloud(vertices, 0x00ffff, 0.1)];
    }
    if showNormals {
      var lines := ExtractNormalLines(group);
      overlays := overlays + [LineSet(lines, 0xff00ff)];
    }
  }

  /** One mesh of the template: a new geometry with normals and `count`
      positions, and a new material of the given kind. */
  method NewTemplateMesh(count: nat, kind: MaterialKind) returns (m: Mesh)
    ensures fresh(m) && fresh(m.geometry) && m.material != null && fresh(m.material)
    ensures m.geometry.count == count && m.geometry.hasNormal && m.material.kind == kind
  {
    var geometry := new Geometry(count, true);
    var material := new Material(kind, 0.0);
    m := new Mesh(geometry, material);
  }

  /** Every shader material of the group that has a time uniform takes the
      elapsed time; every other material keeps its time. */
  method FeedShaderTime(group: seq<Mesh>, elapsed: real)
    modifies (set m | m in group && m.material != null :: m.material)`time
    ensures forall m :: m in group && m.material != null && m.material.kind.HasTimeUniform() ==>
              m.material.time == elapsed
    ensures forall m :: m in group && m.material != null && !m.material.kind.HasTimeUniform() ==>
              m.material.time == old(m.material.time)
  {
    for k := 0 to |group|
      invariant forall j :: 0 <= j < k && group[j].material != null && group[j].material.kind.HasTimeUniform() ==>
                  group[j].material.time == elapsed
      invariant forall m :: m in group && m.material != null && !m.material.kind.HasTimeUniform() ==>
                  m.material.time == old(m.material.time)
    {
      var material := group[k].material;
      if material != null && material.kind.HasTimeUniform() {
        material.time := elapsed;
      }
    }
  }

  /** The material each mesh wears in the rasterization stage: the depth
      material exactly when the depth buffer is shown, otherwise a shader that
      reads the time uniform. */
  function RasterMaterial(showDepthBuffer: bool): (k: MaterialKind)
    ensures k == DepthView <==> showDepthBuffer
    ensures !showDepthBuffer ==> k.HasTimeUniform()
  {
    if showDepthBuffer then DepthView else PixelGrid(0.05, DoubleSide)
  }

  /** The scene component: the memoised geometry template, the root group's
      children, the renderer, the elapsed time and the torus rotation. */
  class StageScene {
    const template: seq<Mesh>
    const gl: Renderer
    var children: seq<Node>
    var time: real
    var torusRotation: real
    var modelLoaded: bool

    /** The template holds four meshes; the root's first child, once there is
        one, is a group of distinct meshes that are not template meshes. */
    ghost predicate Valid()
      reads this
    {
      |template| == 4 && Distinct(template) &&
      (|children| > 0 ==>
         children[0].GroupNode? && Distinct(children[0].meshes) &&
         forall m :: m in children[0].meshes ==> m !in template)
    }

    /** The meshes of the root's first child, which every stage traverses. */
    function GroupMeshes(): seq<Mesh>
      reads this
    {
      if |children| > 0 && children[0].GroupNode? then children[0].meshes else []
    }

    /** The meshes are fresh copies of the template meshes that share their
        geometries and materials. */
    ghost predicate IsTemplateClone(meshes: seq<Mesh>)
      reads this, meshes, template
    {
      |meshes| == |template| &&
      forall i :: 0 <= i < |meshes| ==>
        meshes[i].geometry == template[i].geometry && meshes[i].material == template[i].material
    }

    /** The fixed demonstration scene: cube, sphere, torus and ground plane with
        their base materials, and an empty root. The position counts are the
        ones three.js generates for the geometries' parameters. */
    constructor (gl: Renderer)
      ensures Valid() && this.gl == gl && children == [] && time == 0.0 && torusRotation == 0.0 && !modelLoaded
      ensures forall m :: m in template ==> fresh(m) && fresh(m.geometry) && m.material != null && fresh(m.material)
      ensures [template[0].geometry.count, template[1].geometry.count,
               template[2].geometry.count, template[3].geometry.count] == [24, 1089, 1717, 4]
      ensures forall m :: m in template ==> m.geometry.hasNormal
      ensures template[0].material.kind == Standard(0x6699ff, 0.3, 0.7, FrontSide)
      ensures template[1].material.kind == Standard(0xff6666, 0.1, 0.2, FrontSide)
      ensures template[2].material.kind == Standard(0x66ff99, 0.5, 0.5, FrontSide)
      ensures template[3].material.kind == Standard(0xeeeeee, 0.1, 0.9, DoubleSide)
    {
      var cube := NewTemplateMesh(24, Standard(0x6699ff, 0.3, 0.7, FrontSide));
      var sphere := NewTemplateMesh(1089, Standard(0xff6666, 0.1, 0.2, FrontSide));
      var torus := NewTemplateMesh(1717, Standard(0x66ff99, 0.5, 0.5, FrontSide));
      var plane := NewTemplateMesh(4, Standard(0xeeeeee, 0.1, 0.9, DoubleSide));
      template := [cube, sphere, torus, plane];
      this.gl := gl;
      children := [];
      time := 0.0;
      torusRotation := 0.0;
      modelLoaded := false;
    }

    /** A clone of the template group: new meshes sharing the template's
        geometries and materials. */
    method CloneTemplate() returns (clone: seq<Mesh>)
      requires |template| == 4
      ensures IsTemplateClone(clone) && Distinct(clone)
      ensures forall m :: m in clone ==> fresh(m)
    {
      var cube := new Mesh(template[0].geometry, template[0].material);
      var sphere := new Mesh(template[1].geometry, template[1].material);
      var torus := new Mesh(template[2].geometry, template[2].material);
      var plane := new Mesh(template[3].geometry, template[3].material);
      clone := [cube, sphere, torus, plane];
    }

    /** The mount effect: empty the root, add a template clone and record that
        the model is loaded. */
    method Mount()
      requires Valid()
      modifies this`children, this`modelLoaded
      ensures Valid() && |children| == 1 && IsTemplateClone(GroupMeshes()) && modelLoaded
      ensures forall m :: m in GroupMeshes() ==> fresh(m)
    {
      ResetToTemplate();
      modelLoaded := true;
    }

    /** Removes every child but the first, so that no overlay of the previous
        stage survives. */
    method PruneOverlays()
      requires Valid() && |children| > 0
      modifies this`children
      ensures Valid() && children == [old(children)[0]]
    {
      while |children| > 1
        invariant Valid() && |children| >= 1 && children[0] == old(children)[0]
        decreases |children|
      {
        children := children[..1] + children[2..];
      }
    }

    /** The vertex stage: every mesh gets its own translucent grey wireframe;
        the points and normals overlays are appended to the root when shown. */
    method ApplyVertexVisualization(showVertices: bool, showNormals: bool)
      requires Valid() && |children| > 0
      modifies this`children, GroupMeshes()
      ensures Valid() && GroupMeshes() == old(GroupMeshes())
      ensures children == old(children) + VertexOverlays(GroupMeshes(), showVertices, showNormals)
      ensures AllHaveKind(GroupMeshes(), VertexWireframe) && OwnMaterials(GroupMeshes())
      ensures forall m :: m in GroupMeshes() ==> fresh(m.material) && m.geometry == old(m.geometry)
    {
      var group := children[0].meshes;
      var overlays := DressVertexStage(group, showVertices, showNormals);
      children := children + overlays;
      assert GroupMeshes() == group;
    }

    /** The primitive stage: every mesh gets its own primitive material; outside
        wireframe mode its geometry is replaced by a clone carrying the
        per-triangle colour buffer, and the old geometry is disposed. */
    method ApplyPrimitiveVisualization(wireframe: bool, backfaceCulling: bool)
      requires Valid() && |children| > 0
      modifies GroupMeshes(), (set m | m in GroupMeshes() :: m.geometry)`disposed
      ensures AllHaveKind(GroupMeshes(), PrimitiveMaterial(wireframe, backfaceCulling)) && OwnMaterials(GroupMeshes())
      ensures forall m :: m in GroupMeshes() ==> fresh(m.material)
      ensures wireframe ==> forall m :: m in GroupMeshes() ==>
                m.geometry == old(m.geometry) && m.geometry.disposed == old(m.geometry.disposed)
      ensures !wireframe ==> forall m :: m in GroupMeshes() ==>
                fresh(m.geometry) && old(m.geometry).disposed &&
                m.geometry.count == old(m.geometry).count && m.geometry.hasNormal == old(m.geometry).hasNormal &&
                m.geometry.colours == Some(ColourBuffer(m.geometry.count))
      ensures forall m :: m in GroupMeshes() ==> old(m.geometry).colours == old(m.geometry.colours)
      ensures forall m :: m in template ==>
                m.geometry == old(m.geometry) && m.material == old(m.material) && m.geometry.colours == old(m.geometry.colours)
      ensures wireframe ==> forall m :: m in template ==> m.geometry.disposed == old(m.geometry.disposed)
      ensures !wireframe && old(IsTemplateClone(GroupMeshes())) ==> forall m :: m in template ==> m.geometry.disposed
    {
      var group := children[0].meshes;
      AssignPrimitiveMaterials(group, PrimitiveMaterial(wireframe, backfaceCulling), !wireframe);
    }

    /** The rasterization stage: the clear colour becomes opaque black with the
        depth view and transparent black without; every mesh gets its own depth
        material, or its own pixel-grid shader starting at the current time. */
    method ApplyRasterizationVisualization(showDepthBuffer: bool)
      requires Valid() && |children| > 0
      modifies gl, GroupMeshes()
      ensures gl.clearColour == if showDepthBuffer then OpaqueBlack else TransparentBlack
      ensures AllHaveKind(GroupMeshes(), RasterMaterial(showDepthBuffer))
      ensures forall m :: m in GroupMeshes() ==> fresh(m.material) && m.geometry == old(m.geometry)
      ensures !showDepthBuffer ==> forall m :: m in GroupMeshes() ==> m.material.time == time
      ensures OwnMaterials(GroupMeshes())
    {
      if showDepthBuffer {
        gl.SetClearColor(0x000000);
      } else {
        gl.SetClearColor(0x000000, 0.0);
      }
      AssignOwnMaterials(children[0].meshes, RasterMaterial(showDepthBuffer), time);
    }

    /** The fragment stage: every mesh gets its own clone of the shading
        material of the lighting mode. */
    method ApplyFragmentVisualization(lightingMode: string)
      requires Valid() && |children| > 0
      modifies GroupMeshes()
      ensures AllHaveKind(GroupMeshes(), ShadingFor(ParseLightingMode(lightingMode)))
      ensures forall m :: m in GroupMeshes() ==> fresh(m.material) && m.geometry == old(m.geometry)
      ensures OwnMaterials(GroupMeshes())
    {
      AssignOwnMaterials(children[0].meshes, ShadingFor(ParseLightingMode(lightingMode)), 0.0);
    }

    /** The post-processing stage and the complete stage alike: the root is
        emptied and a fresh template clone added, so the meshes wear their base
        materials again; the effects come from the compositor alone. No root
        child is ever a mesh, so the loop's disposal branch never applies. */
    method ResetToTemplate()
      requires Valid()
      modifies this`children
      ensures Valid() && |children| == 1 && IsTemplateClone(GroupMeshes())
      ensures forall m :: m in GroupMeshes() ==> fresh(m)
    {
      while |children| > 0
        decreases |children|
      {
        children := children[1..];
      }
      var clone := CloneTemplate();
      children := children + [GroupNode(clone)];
    }

    /** What the root and its meshes look like once `stage` has been applied
        over the model `model` with the given toggles. */
    ghost predicate StageShown(stage: Stage, t: Toggles, model: Node)
      reads this, gl, template, GroupMeshes(), set m | m in GroupMeshes() :: m.geometry
      reads set m | m in GroupMeshes() && m.material != null :: m.material
    {
      match stage
      case Vertex =>
        |children| > 0 && children[0] == model &&
        children[1..] == VertexOverlays(GroupMeshes(), t.showVertices, t.showNormals) &&
        AllHaveKind(GroupMeshes(), VertexWireframe) && OwnMaterials(GroupMeshes())
      case Primitive =>
        children == [model] && AllHaveKind(GroupMeshes(), PrimitiveMaterial(t.wireframe, t.backfaceCulling)) &&
        OwnMaterials(GroupMeshes()) &&
        (!t.wireframe ==> forall m :: m in GroupMeshes() ==> HasTriangleColours(m.geometry))
      case Rasterization =>
        children == [model] && AllHaveKind(GroupMeshes(), RasterMaterial(t.showDepthBuffer)) &&
        OwnMaterials(GroupMeshes()) &&
        (!t.showDepthBuffer ==> forall m :: m in GroupMeshes() && m.material != null ==> m.material.time == time) &&
        gl.clearColour == (if t.showDepthBuffer then OpaqueBlack else TransparentBlack)
      case Fragment =>
        children == [model] && AllHaveKind(GroupMeshes(), ShadingFor(ParseLightingMode(t.lightingMode))) &&
        OwnMaterials(GroupMeshes())
      case PostProcessing =>
        |children| == 1 && IsTemplateClone(GroupMeshes())
      case Complete =>
        |children| == 1 && IsTemplateClone(GroupMeshes())
    }

    /** The stage-dispatch effect: nothing happens on an empty root; otherwise the
        overlays are pruned and the stage the selector names is applied, the
        complete visualization for any unrecognised value. The first four stages
        give every mesh a material of its own and keep its geometry, except that
        the primitive stage outside wireframe mode swaps in a coloured clone and
        disposes the old geometry; the last two replace the meshes with a fresh
        template clone. Only the rasterization stage touches the clear colour,
        and no stage restores it. The template meshes keep their geometries,
        materials and colour buffers; only the primitive stage in fill mode can
        dispose their geometries, which it does when the root showed a template
        clone. */
    method ApplyStage(stage: string, toggles: Toggles)
      requires Valid()
      modifies this`children, GroupMeshes(), (set m | m in GroupMeshes() :: m.geometry)`disposed, gl
      ensures Valid()
      ensures old(children) == [] ==> children == [] && gl.clearColour == old(gl.clearColour)
      ensures old(children) != [] ==> StageShown(ParseStage(stage), toggles, old(children[0]))
      ensures old(children) != [] && ParseStage(stage) in {Vertex, Primitive, Rasterization, Fragment} ==>
                forall m :: m in GroupMeshes() ==> fresh(m.material)
      ensures old(children) != [] && ParseStage(stage) in {PostProcessing, Complete} ==>
                forall m :: m in GroupMeshes() ==> fresh(m)
      ensures old(children) != [] &&
              (ParseStage(stage) in {Vertex, Rasterization, Fragment} || (ParseStage(stage) == Primitive && toggles.wireframe)) ==>
                forall m :: m in GroupMeshes() ==> m.geometry == old(m.geometry)
      ensures old(children) != [] && ParseStage(stage) == Primitive && !toggles.wireframe ==>
                forall m :: m in GroupMeshes() ==>
                  fresh(m.geometry) && old(m.geometry).disposed &&
                  m.geometry.count == old(m.geometry).count && m.geometry.hasNormal == old(m.geometry).hasNormal
      ensures ParseStage(stage) != Rasterization ==> gl.clearColour == old(gl.clearColour)
      ensures forall m :: m in template ==>
                m.geometry == old(m.geometry) && m.material == old(m.material) && m.geometry.colours == old(m.geometry.colours)
      ensures !(old(children) != [] && ParseStage(stage) == Primitive && !toggles.wireframe) ==>
                forall m :: m in template ==> m.geometry.disposed == old(m.geometry.disposed)
      ensures old(children) != [] && ParseStage(stage) == Primitive && !toggles.wireframe && old(IsTemplateClone(GroupMeshes())) ==>
                forall m :: m in template ==> m.geometry.disposed
      ensures !(old(children) != [] && ParseStage(stage) == Primitive && !toggles.wireframe) ==>
                forall m :: m in old(GroupMeshes()) ==> old(m.geometry).disposed == old(m.geometry.disposed)
      ensures old(children) != [] && ParseStage(stage) in {PostProcessing, Complete} ==>
                forall m :: m in old(GroupMeshes()) ==> m.geometry == old(m.geometry) && m.material == old(m.material)
    {
      if |children| == 0 {
        return;
      }
      ghost var group := GroupMeshes();
      PruneOverlays();
      assert GroupMeshes() == group;
      ApplyParsedStage(ParseStage(stage), toggles);
    }

    /** The dispatch once the overlays are pruned and the selector is parsed. */
    method ApplyParsedStage(s: Stage, toggles: Toggles)
      requires Valid() && |children| == 1
      modifies this`children, GroupMeshes(), (set m | m in GroupMeshes() :: m.geometry)`disposed, gl
      ensures Valid()
      ensures StageShown(s, toggles, old(children[0]))
      ensures s in {Vertex, Primitive, Rasterization, Fragment} ==> forall m :: m in GroupMeshes() ==> fresh(m.material)
      ensures s in {PostProcessing, Complete} ==> forall m :: m in GroupMeshes() ==> fresh(m)
      ensures s in {Vertex, Rasterization, Fragment} || (s == Primitive && toggles.wireframe) ==>
                forall m :: m in GroupMeshes() ==> m.geometry == old(m.geometry)
      ensures s == Primitive && !toggles.wireframe ==>
                forall m :: m in GroupMeshes() ==>
                  fresh(m.geometry) && old(m.geometry).disposed &&
                  m.geometry.count == old(m.geometry).count && m.geometry.hasNormal == old(m.geometry).hasNormal
      ensures s != Rasterization ==> gl.clearColour == old(gl.clearColour)
      ensures forall m :: m in template ==>
                m.geometry == old(m.geometry) && m.material == old(m.material) && m.geometry.colours == old(m.geometry.colours)
      ensures !(s == Primitive && !toggles.wireframe) ==>
                forall m :: m in template ==> m.geometry.disposed == old(m.geometry.disposed)
      ensures s == Primitive && !toggles.wireframe && old(IsTemplateClone(GroupMeshes())) ==>
                forall m :: m in template ==> m.geometry.disposed
      ensures !(s == Primitive && !toggles.wireframe) ==>
                forall m :: m in old(GroupMeshes()) ==> old(m.geometry).disposed == old(m.geometry.disposed)
      ensures s in {PostProcessing, Complete} ==>
                forall m :: m in old(GroupMeshes()) ==> m.geometry == old(m.geometry) && m.material == old(m.material)
    {
      match s
      case Vertex =>
        ApplyVertexVisualization(toggles.showVertices, toggles.showNormals);
      case Primitive =>
        ApplyPrimitiveVisualization(toggles.wireframe, toggles.backfaceCulling);
      case Rasterization =>
        ApplyRasterizationVisualization(toggles.showDepthBuffer);
      case Fragment =>
        ApplyFragmentVisualization(toggles.lightingMode);
      case PostProcessing =>
        ResetToTemplate();
      case Complete =>
        ResetToTemplate();
    }

    /** The effect that, in the complete stage, marks every material of the
        root for re-upload. */
    method RefreshCompleteMaterials(stage: string)
      modifies (set m | m in GroupMeshes() && m.material != null :: m.material)`needsUpdate
      ensures forall m :: m in GroupMeshes() ==> m.material == old(m.material)
      ensures stage == "complete" ==> forall m :: m in GroupMeshes() && m.material != null ==> m.material.needsUpdate
      ensures stage != "complete" ==>
                forall m :: m in GroupMeshes() && m.material != null ==> m.material.needsUpdate == old(m.material.needsUpdate)
      ensures forall m :: m in GroupMeshes() && m.material != null ==> m.material.time == old(m.material.time)
    {
      if stage == "complete" {
        MarkNeedsUpdate(GroupMeshes());
      }
    }

    /** The frame tick: record the elapsed time, turn the torus while animation
        is on, and feed the time to the shader materials of the root while the
        rasterization stage shows pixels rather than depth. */
    method FrameTick(elapsed: real, stage: string, animationEnabled: bool, showDepthBuffer: bool)
      modifies this`time, this`torusRotation
      modifies (set m | m in GroupMeshes() && m.material != null :: m.material)`time
      ensures time == elapsed
      ensures torusRotation == if animationEnabled then elapsed * 0.5 else old(torusRotation)
      ensures forall m :: m in GroupMeshes() ==> m.material == old(m.material)
      ensures forall m :: m in GroupMeshes() && m.material != null ==> m.material.needsUpdate == old(m.material.needsUpdate)
      ensures stage == "rasterization" && !showDepthBuffer ==>
                forall m :: m in GroupMeshes() && m.material != null && m.material.kind.HasTimeUniform() ==>
                  m.material.time == elapsed
      ensures forall m :: m in GroupMeshes() && m.material != null && !m.material.kind.HasTimeUniform() ==>
                m.material.time == old(m.material.time)
      ensures !(stage == "rasterization" && !showDepthBuffer) ==>
                forall m :: m in GroupMeshes() && m.material != null ==> m.material.time == old(m.material.time)
    {
      time := elapsed;
      if animationEnabled {
        torusRotation := elapsed * 0.5;
      }
      if stage == "rasterization" && !showDepthBuffer {
        FeedShaderTime(GroupMeshes(), elapsed);
      }
    }
  }
}
