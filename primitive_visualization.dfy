/** The stand-alone primitive-stage view: on a clone of the scene, every mesh
    that has a material gets a new basic material, a green wireframe or a
    per-vertex-coloured fill; outside wireframe mode the alternating red/green
    triangle colours are written straight onto the mesh's own geometry. */
module PrimitiveVisualization {
  import opened Graphics

  /** Sets a geometry's colour attribute to the per-triangle colour buffer. */
  method ColourTriangles(geometry: Geometry)
    modifies geometry`colours
    ensures HasTriangleColours(geometry)
  {
    var colours := BuildTriangleColours(geometry.count);
    geometry.colours := Some(colours);
  }

  /** A mesh after the settings effect, given the material `had` it wore before:
      a mesh without a material keeps none; one with a material wears the
      primitive material, and outside wireframe mode its geometry carries the
      triangle colours. */
  ghost predicate Viewed(m: Mesh, had: Material?, kind: MaterialKind, wireframe: bool)
    reads m, m.geometry
  {
    if had == null then m.material == null
    else m.material != null && m.material.kind == kind && (!wireframe ==> HasTriangleColours(m.geometry))
  }

  /** No mesh of the group that uses geometry `g` has a material, so the
      settings effect leaves `g` alone. */
  ghost predicate Bare(meshes: seq<Mesh>, g: Geometry)
    reads meshes
  {
    forall n :: n in meshes && n.geometry == g ==> n.material == null
  }

  /** The settings effect on one mesh. */
  method ViewMesh(mesh: Mesh, kind: MaterialKind, wireframe: bool)
    modifies mesh`material, mesh.geometry`colours
    ensures old(mesh.material) != null ==> fresh(mesh.material)
    ensures Viewed(mesh, old(mesh.material), kind, wireframe)
    ensures wireframe || old(mesh.material) == null ==> mesh.geometry.colours == old(mesh.geometry.colours)
    ensures mesh.geometry.colours == old(mesh.geometry.colours) || HasTriangleColours(mesh.geometry)
  {
    if mesh.material != null {
      if !wireframe {
        ColourTriangles(mesh.geometry);
      }
      mesh.material := new Material(kind, 0.0);
    }
  }

  /** The settings effect over the clone's meshes. A geometry is never cloned,
      so the colour buffer lands on the geometry object the mesh already has. */
  method ApplyPrimitiveView(clone: seq<Mesh>, wireframe: bool, backfaceCulling: bool)
    requires Distinct(clone)
    modifies clone, (set m | m in clone :: m.geometry)`colours
    ensures forall m :: m in clone ==> m.geometry == old(m.geometry)
    ensures forall m :: m in clone && old(m.material) == null ==> m.material == null
    ensures forall m :: m in clone && old(m.material) != null ==>
              m.material != null && fresh(m.material) && m.material.kind == PrimitiveMaterial(wireframe, backfaceCulling)
    ensures !wireframe ==> forall m :: m in clone && old(m.material) != null ==> HasTriangleColours(m.geometry)
    ensures wireframe ==> forall m :: m in clone ==> m.geometry.colours == old(m.geometry.colours)
    ensures forall m :: m in clone && old(Bare(clone, m.geometry)) ==> m.geometry.colours == old(m.geometry.colours)
  {
    ghost var geometries := set m | m in clone :: m.geometry;
    var kind := PrimitiveMaterial(wireframe, backfaceCulling);
    for k := 0 to |clone|
      modifies clone, geometries`colours
      invariant forall j :: 0 <= j < |clone| ==> clone[j].geometry == old(clone[j].geometry)
      invariant forall j :: k <= j < |clone| ==> clone[j].material == old(clone[j].material)
      invariant forall j :: 0 <= j < k ==>
                  (old(clone[j].material) != null ==> fresh(clone[j].material)) &&
                  Viewed(clone[j], old(clone[j].material), kind, wireframe)
      invariant wireframe ==> forall j :: 0 <= j < |clone| ==> clone[j].geometry.colours == old(clone[j].geometry.colours)
      invariant forall j :: 0 <= j < |clone| && old(Bare(clone[..k], clone[j].geometry)) ==>
                  clone[j].geometry.colours == old(clone[j].geometry.colours)
    {
      ghost var before := clone[..k];
      assert clone[..k + 1] == before + [clone[k]];
      ViewMesh(clone[k], kind, wireframe);
    }
  }

  /** The whole view on a scene. The scene's own meshes keep their materials,
      but outside wireframe mode the geometries they share with the clone carry
      the triangle colours too. */
  method Show(scene: seq<Mesh>, wireframe: bool, backfaceCulling: bool) returns (clone: seq<Mesh>)
    modifies (set m | m in scene :: m.geometry)`colours
    ensures |clone| == |scene|
    ensures forall m :: m in scene ==> m.material == old(m.material) && m.geometry == old(m.geometry)
    ensures forall k :: 0 <= k < |clone| ==> fresh(clone[k]) && clone[k].geometry == scene[k].geometry
    ensures forall k :: 0 <= k < |clone| && scene[k].material != null ==>
              clone[k].material != null && clone[k].material.kind == PrimitiveMaterial(wireframe, backfaceCulling)
    ensures !wireframe ==> forall k :: 0 <= k < |scene| && scene[k].material != null ==>
              HasTriangleColours(scene[k].geometry)
    ensures wireframe ==> forall k :: 0 <= k < |scene| ==> scene[k].geometry.colours == old(scene[k].geometry.colours)
    ensures forall m :: m in scene && Bare(scene, m.geometry) ==> m.geometry.colours == old(m.geometry.colours)
  {
    clone := CloneScene(scene);
    ApplyPrimitiveView(clone, wireframe, backfaceCulling);
  }
}
