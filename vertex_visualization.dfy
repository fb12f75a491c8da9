/** The stand-alone vertex-stage view: it clones the scene, samples every
    hundredth vertex of each mesh that has normals (at most 501 per mesh),
    draws the samples as points and their normals as short lines, and puts a
    translucent grey wireframe on every mesh of the clone. */
module VertexVisualization {
  import opened Graphics

  /** The distance between two sampled vertex indices. */
  const SamplingRate: nat := 100

  /** The per-mesh counter may pass this value once; the loop stops right after. */
  const SampleLimit: nat := 500

  /** A sampled normal: where it starts and which way it points. */
  datatype NormalRecord = NormalRecord(origin: Vec, dir: Vec)

  /** How many vertices the loop samples from a mesh with n positions: one per
      started block of a hundred, and at most 501 because the counter is checked
      after it is incremented. */
  function SampleCount(n: nat): (c: nat)
    ensures c <= SampleLimit + 1
    ensures c > 0 ==> SamplingRate * (c - 1) < n
    ensures c == SampleLimit + 1 || SamplingRate * c >= n
    ensures n <= SamplingRate * (SampleLimit + 1) ==> c == (n + SamplingRate - 1) / SamplingRate
  {
    var blocks := (n + SamplingRate - 1) / SamplingRate;
    if blocks <= SampleLimit + 1 then blocks else SampleLimit + 1
  }

  /** The sampled vertices of one mesh: indices 0, 100, 200, ... when the mesh has normals, none otherwise. */
  function MeshSamples(m: Mesh): seq<Vec>
    reads m
  {
    if m.geometry.hasNormal then
      seq(SampleCount(m.geometry.count), (k: int) requires 0 <= k => WorldVertex(m, SamplingRate * k))
    else []
  }

  /** The sampled vertices of all meshes, mesh after mesh. */
  function Samples(meshes: seq<Mesh>): (r: seq<Vec>)
    reads meshes
    ensures forall v :: v in r ==> v.WorldVertex?
    decreases |meshes|
  {
    if meshes == [] then [] else Samples(meshes[..|meshes| - 1]) + MeshSamples(meshes[|meshes| - 1])
  }

  /** The normal record of a sampled vertex: it starts at the vertex and follows the vertex's normal. */
  function RecordOf(v: Vec): NormalRecord
    requires v.WorldVertex?
  {
    NormalRecord(v, WorldNormal(v.mesh, v.index))
  }

  /** One normal record per sample, in sample order: the reference the
      normal records `ExtractSamples` builds are specified against. */
  function Records(samples: seq<Vec>): (r: seq<NormalRecord>)
    requires forall v :: v in samples ==> v.WorldVertex?
    ensures |r| == |samples|
    ensures forall k :: 0 <= k < |r| ==> r[k] == RecordOf(samples[k])
  {
    seq(|samples|, (k: int) requires 0 <= k < |samples| => RecordOf(samples[k]))
  }

  /** The number of samples over all meshes. */
  function TotalSampleCount(meshes: seq<Mesh>): nat
    reads meshes
    decreases |meshes|
  {
    if meshes == [] then 0
    else
      var last := meshes[|meshes| - 1];
      TotalSampleCount(meshes[..|meshes| - 1]) + (if last.geometry.hasNormal then SampleCount(last.geometry.count) else 0)
  }

  /** Only meshes with a normal attribute are sampled, only at multiples of a
      hundred below their vertex count, and each such mesh gives exactly
      SampleCount of its vertex count samples. */
  lemma {:induction false} SamplesAreStrided(meshes: seq<Mesh>)
    ensures |Samples(meshes)| == TotalSampleCount(meshes)
    ensures forall v :: v in Samples(meshes) ==>
              v.WorldVertex? && v.mesh in meshes && v.mesh.geometry.hasNormal &&
              v.index % SamplingRate == 0 && v.index < v.mesh.geometry.count
    ensures forall k, j ::
              0 <= k < |meshes| && meshes[k].geometry.hasNormal && 0 <= j < SampleCount(meshes[k].geometry.count) ==>
              WorldVertex(meshes[k], SamplingRate * j) in Samples(meshes)
  {
    if meshes != [] {
      var init, last := meshes[..|meshes| - 1], meshes[|meshes| - 1];
      SamplesAreStrided(init);
      assert Samples(meshes) == Samples(init) + MeshSamples(last);
      forall v | v in MeshSamples(last)
        ensures v.WorldVertex? && v.mesh == last && v.mesh.geometry.hasNormal &&
                v.index % SamplingRate == 0 && v.index < v.mesh.geometry.count
      {
        var j :| 0 <= j < |MeshSamples(last)| && MeshSamples(last)[j] == v;
        assert v == WorldVertex(last, SamplingRate * j);
      }
      forall k, j | 0 <= k < |meshes| && meshes[k].geometry.hasNormal && 0 <= j < SampleCount(meshes[k].geometry.count)
        ensures WorldVertex(meshes[k], SamplingRate * j) in Samples(meshes)
      {
        if k < |meshes| - 1 {
          assert meshes[k] == init[k];
        } else {
          assert MeshSamples(last)[j] == WorldVertex(meshes[k], SamplingRate * j);
        }
      }
    }
  }

  /** A mesh with at most 50100 positions gives one sample per started block of
      a hundred; a larger one gives 501. */
  lemma SampleCountCases(n: nat)
    ensures n <= 50100 ==> SampleCount(n) == (n + 99) / 100
    ensures n > 50100 ==> SampleCount(n) == 501
  {
  }

  /** The extraction loop over every mesh of the cloned scene: sample every
      hundredth vertex of each mesh that has normals, record its normal, and
      stop a mesh once its counter has gone past 500. */
  method ExtractSamples(meshes: seq<Mesh>) returns (vertices: seq<Vec>, normals: seq<NormalRecord>)
    ensures vertices == Samples(meshes)
    ensures forall v :: v in vertices ==> v.WorldVertex?
    ensures normals == Records(vertices)
  {
    vertices := [];
    normals := [];
    for k := 0 to |meshes|
      invariant vertices == Samples(meshes[..k])
      invariant forall v :: v in vertices ==> v.WorldVertex?
      invariant normals == Records(vertices)
    {
      vertices, normals := SampleMesh(meshes[k], vertices, normals);
      assert meshes[..k + 1][..k] == meshes[..k];
    }
    assert meshes[..|meshes|] == meshes;
  }

  /** The sampling of one mesh, pushing onto the vertices and normal records
      collected so far: every hundredth vertex while the mesh's counter has not
      gone past 500, and nothing for a mesh without normals. */
  method SampleMesh(mesh: Mesh, vertices0: seq<Vec>, normals0: seq<NormalRecord>)
    returns (vertices: seq<Vec>, normals: seq<NormalRecord>)
    requires forall v :: v in vertices0 ==> v.WorldVertex?
    requires normals0 == Records(vertices0)
    ensures vertices == vertices0 + MeshSamples(mesh)
    ensures forall v :: v in vertices ==> v.WorldVertex?
    ensures normals == Records(vertices)
  {
    vertices, normals := vertices0, normals0;
    var geometry := mesh.geometry;
    if geometry.hasNormal {
      var vertexCount := 0;
      var i := 0;
      while i < geometry.count
        invariant i == SamplingRate * vertexCount && vertexCount <= SampleCount(geometry.count)
        invariant vertices == vertices0 + MeshSamples(mesh)[..vertexCount]
        invariant forall v :: v in vertices ==> v.WorldVertex?
        invariant normals == Records(vertices)
        invariant vertexCount == SampleCount(geometry.count) ==> i >= geometry.count
        decreases geometry.count - i
      {
        var vertex := WorldVertex(mesh, i);
        vertices := vertices + [vertex];
        normals := normals + [NormalRecord(vertex, WorldNormal(mesh, i))];
        vertexCount := vertexCount + 1;
        if vertexCount > SampleLimit {
          break;
        }
        i := i + SamplingRate;
      }
      assert vertexCount == SampleCount(geometry.count);
      assert MeshSamples(mesh)[..vertexCount] == MeshSamples(mesh);
    } else {
      assert vertices == vertices0 + MeshSamples(mesh);
    }
  }

  /** The normals geometry: for every record its origin, then the origin moved
      half a unit along its direction. */
  function NormalLines(records: seq<NormalRecord>): (r: seq<Vec>)
    ensures |r| == 2 * |records|
    ensures forall k :: 0 <= k < |records| ==>
              r[2 * k] == records[k].origin && r[2 * k + 1] == Along(records[k].origin, records[k].dir, 0.5)
    decreases |records|
  {
    if records == [] then []
    else
      var last := records[|records| - 1];
      NormalLines(records[..|records| - 1]) + [last.origin, Along(last.origin, last.dir, 0.5)]
  }

  /** The loop that builds the normals geometry. */
  method BuildNormalLines(records: seq<NormalRecord>) returns (lines: seq<Vec>)
    ensures lines == NormalLines(records)
  {
    lines := [];
    for k := 0 to |records|
      invariant lines == NormalLines(records[..k])
    {
      var record := records[k];
      lines := lines + [record.origin];
      lines := lines + [Along(record.origin, record.dir, 0.5)];
      assert records[..k + 1][..k] == records[..k];
    }
    assert records[..|records|] == records;
  }

  /** The normal lines of the samples start, pair by pair, at the sampled vertices. */
  lemma {:induction false} NormalLinesStartAtSamples(samples: seq<Vec>)
    requires forall v :: v in samples ==> v.WorldVertex?
    ensures |NormalLines(Records(samples))| == 2 * |samples|
    ensures forall k :: 0 <= k < |samples| ==>
              NormalLines(Records(samples))[2 * k] == samples[k] &&
              NormalLines(Records(samples))[2 * k + 1] ==
                Along(samples[k], WorldNormal(samples[k].mesh, samples[k].index), 0.5)
  {
    var records := Records(samples);
    forall k | 0 <= k < |samples|
      ensures NormalLines(records)[2 * k] == samples[k]
      ensures NormalLines(records)[2 * k + 1] == Along(samples[k], WorldNormal(samples[k].mesh, samples[k].index), 0.5)
    {
      assert records[k] == RecordOf(samples[k]);
    }
  }

  /** What the view draws beside the wireframe model: the cyan points when
      vertices are shown, then the magenta normal lines when normals are shown. */
  function Overlays(vertices: seq<Vec>, lines: seq<Vec>, showVertices: bool, showNormals: bool): (r: seq<Node>)
    ensures |r| == (if showVertices then 1 else 0) + (if showNormals then 1 else 0)
    ensures PointCloud(vertices, 0x00ffff, 0.2) in r <==> showVertices
    ensures LineSet(lines, 0xff00ff) in r <==> showNormals
    ensures forall n :: n in r ==> n == PointCloud(vertices, 0x00ffff, 0.2) || n == LineSet(lines, 0xff00ff)
  {
    (if showVertices then [PointCloud(vertices, 0x00ffff, 0.2)] else [])
    + (if showNormals then [LineSet(lines, 0xff00ff)] else [])
  }

  /** The wireframe effect: every mesh of the clone that has a material gets a
      new translucent grey wireframe; a mesh without one keeps none. */
  method ApplyWireframe(clone: seq<Mesh>)
    requires Distinct(clone)
    modifies clone
    ensures forall m :: m in clone ==> m.geometry == old(m.geometry)
    ensures forall m :: m in clone && old(m.material) == null ==> m.material == null
    ensures forall m :: m in clone && old(m.material) != null ==>
              m.material != null && fresh(m.material) && m.material.kind == VertexWireframe
  {
    for k := 0 to |clone|
      invariant forall j :: 0 <= j < |clone| ==> clone[j].geometry == old(clone[j].geometry)
      invariant forall j :: k <= j < |clone| ==> clone[j].material == old(clone[j].material)
      invariant forall j :: 0 <= j < k && old(clone[j].material) == null ==> clone[j].material == null
      invariant forall j :: 0 <= j < k && old(clone[j].material) != null ==>
                  clone[j].material != null && fresh(clone[j].material) && clone[j].material.kind == VertexWireframe
    {
      var mesh := clone[k];
      if mesh.material != null {
        mesh.material := new Material(VertexWireframe, 0.0);
      }
    }
  }

  /** The whole view on a scene: clone it, put the wireframe on the clone,
      sample it, build the normal lines and choose the overlays. (The view
      samples before the wireframe effect runs; sampling reads only the
      geometries, which that effect leaves alone.) The scene's own meshes keep
      their materials. */
  method Show(scene: seq<Mesh>, showVertices: bool, showNormals: bool) returns (clone: seq<Mesh>, overlays: seq<Node>)
    ensures |clone| == |scene|
    ensures forall m :: m in scene ==> m.material == old(m.material) && m.geometry == old(m.geometry)
    ensures forall k :: 0 <= k < |clone| ==> fresh(clone[k]) && clone[k].geometry == scene[k].geometry
    ensures forall k :: 0 <= k < |clone| && scene[k].material != null ==>
              clone[k].material != null && clone[k].material.kind == VertexWireframe
    ensures overlays == Overlays(Samples(clone), NormalLines(Records(Samples(clone))), showVertices, showNormals)
  {
    clone := CloneScene(scene);
    ApplyWireframe(clone);
    var vertices, normals := ExtractSamples(clone);
    var lines := BuildNormalLines(normals);
    overlays := Overlays(vertices, lines, showVertices, showNormals);
  }
}
