# Rendering pipeline demo: a Dafny model

This project models the logic of a React/three.js teaching demo. The demo walks
a small fixed scene through the stages of a GPU rendering pipeline: vertex,
primitive, rasterization, fragment, post-processing and the complete picture.
GPU maths is not modelled. The model covers the decisions and buffers around the
three.js calls:

- which stage runs, and the material each stage puts on every mesh;
- the overlay children the vertex stage adds to the scene root;
- the per-triangle colour buffer of the primitive stage;
- the environment and light tables, and the in-place update of the lights;
- the post-processing pass chain: its order, its enabled flags, and the
  resolution and time uniforms it keeps;
- four stand-alone stage views, each with its own rules.

Meshes are abstract. A mesh has a geometry and at most one material. A geometry
has a position count, a "has normals" flag and an optional colour buffer. A
material has a fixed kind and a few mutable fields. Colours are 24-bit hex
integers. A world-space point is kept symbolically, as the vertex or normal
index it came from (`Graphics.Vec`).

Files and modules:

- `graphics.dfy` (`Graphics`) holds the shared entities: material kinds,
  `Geometry`, `Mesh`, `Material`, `Renderer`, the triangle colour buffer and its
  loop, and scene cloning.
- `lighting.dfy` (`Lighting`) holds the environment table, the background
  colour, the lighting-mode selector, and the `LightRig` class, which updates
  the lights in place.
- `scene_stage.dfy` (`SceneStage`) holds the `StageScene` class: the geometry
  template, the children of the scene root, stage dispatch, the six stages and
  the frame tick.
- `post_processing.dfy` (`PostProcessing`) holds the `Compositor` class over an
  `array<Pass>`, plus specification functions for building, syncing and
  ticking the chain.
- `vertex_visualization.dfy`, `primitive_visualization.dfy`,
  `rasterization_visualization.dfy` and `fragment_visualization.dfy` model the
  four stand-alone views.

Behaviour the model keeps as the code has it:

- The scene's vertex stage takes every vertex, with no stride. The stand-alone
  vertex view samples every hundredth vertex. Its counter is checked after it is
  incremented, so one mesh can give 501 samples. The cap applies per mesh, not to
  the total.
- An unknown environment name leaves the lights at their starting values
  (ambient 0.5, 0x404040; primary 1.5, 0xffffff at (5, 5, 5)). These are not the
  daytime values. The background colour, however, falls back to the daytime sky.
  `Lighting.UnknownEnvironmentFallbacksDisagree` states the difference.
- The scene's rasterization stage sets the clear colour and nothing restores it.
  Only the stand-alone rasterization view restores transparent black, in its
  cleanup.
- The pixel grid has cells of 0.05 in the scene's stage and 0.02 in the
  stand-alone view. Normal lines are 0.2 long in the scene and 0.5 in the
  stand-alone view.
- The post-processing chain is rebuilt whenever the viewport size changes.
  Nothing guards against a zero or negative size.
- `scene.clone()` shares geometries and materials with the original. Two
  consequences follow:
  - the scene's primitive stage disposes the template's own geometries;
  - the stand-alone primitive view writes its colour buffer onto geometries it
    shares with the caller's scene (`PrimitiveVisualization.Show`).

## Model

| member | source | states |
|---|---|---|
| `Graphics.PrimitiveMaterial` | components/scene.tsx:481-511 | the primitive material is single-sided exactly when back faces are culled; wireframe mode is green at opacity 0.8 without vertex colours; fill mode uses vertex colours at opacity 0.9 |
| `Graphics.TriangleColours` | components/scene.tsx:498-499 | one colour per started triangle, ⌈n/3⌉ in all; triangle t is red (0xff5555) exactly when t is even, i.e. its first vertex index is a multiple of 6, and green (0x55ff55) otherwise |
| `Graphics.ColourBufferShape` | components/scene.tsx:498-503 | the colour buffer has 9 entries per started triangle, more than 3 per vertex when the count is not a multiple of 3; entries 9t..9t+9 repeat triangle t's red or green channels three times |
| `Graphics.BuildTriangleColours` | components/scene.tsx:495-503 | the stride-3 loop produces exactly the specified colour buffer for the position count |
| `Graphics.ColourBufferStep` | components/scene.tsx:498-503 | walking three more vertex indices appends exactly the nine entries of the triangle they start |
| `Graphics.MarkNeedsUpdate` | components/scene.tsx:319-329 | every mesh's material is marked for re-upload; only the materials' update flags may change, so no mesh changes material and no material's time changes |
| `Graphics.CloneScene` | components/visualizations/vertex-visualization.tsx:17 | the clone has fresh, distinct meshes that share the originals' geometries and materials |
| `Graphics.Renderer.SetClearColor` | components/scene.tsx:526-530 | the clear colour becomes the given colour; the alpha is 1 unless one is given |
| `Lighting.ParseEnvironment` | components/scene.tsx:259-281 | exactly "daytime", "nighttime" and "rainy" name an environment, each its own |
| `Lighting.BackgroundColour` | components/scene.tsx:699-711 | the daytime sky exactly for the daytime environment and any unrecognised value; the night and rain colours exactly for their own environments |
| `Lighting.EnvironmentLightParams` | components/scene.tsx:253-281 | the light values are the starting defaults exactly when the name is not one of the three environments |
| `Lighting.EnvironmentsDistinguishable` | components/scene.tsx:700-711 | the three environments give pairwise different backgrounds and different light settings |
| `Lighting.UnknownEnvironmentFallbacksDisagree` | components/scene.tsx:700-711 | for an unknown name the background is the daytime sky, but the lights are not daytime's: the ambient light is dimmer |
| `Lighting.ParseLightingMode` | components/scene.tsx:617-629 | "point" and "spot" select their modes; "directional" and any other value select directional |
| `Lighting.ShadingFor` | components/scene.tsx:596-612 | Phong for directional, PBR for point and normal encoding for spot, each one double-sided |
| `Lighting.RenderLighting` | components/scene.tsx:686-697 | the primary light's kind follows the lighting mode, it casts shadows exactly when shadows are on, and it starts at (5, 5, 5) |
| `Lighting.Light.constructor` | components/scene.tsx:288-290 | a new light has the given colour and intensity |
| `Lighting.LightRig.constructor` | components/scene.tsx:52-59 | no ambient light yet, and no light added to the scene |
| `Lighting.Light.Place` | components/scene.tsx:294-300 | a primary light takes the primary intensity, colour and position, and its shadow map is marked for refresh |
| `Lighting.LightRig.ApplyEnvironment` | components/scene.tsx:251-331 | the ambient light is created and added once, then only its colour and intensity are updated in place, a new one starting at the origin with no shadow refresh; every mounted primary light gets the table's intensity, colour and position and a shadow refresh; every material is marked for re-upload, and of the materials only the update flag changes |
| `Lighting.LightRig.SetAmbient` | components/scene.tsx:283-291 | an existing ambient light has only its colour and intensity updated in place and nothing is added to the scene; otherwise a fresh one, at the origin with no shadow refresh, is created and added once |
| `Lighting.LightRig.PlacePrimaries` | components/scene.tsx:293-316 | every mounted primary light (directional, point, spot) gets the same primary values and a shadow refresh |
| `SceneStage.DemoStartingState` | components/rendering-pipeline-demo.tsx:16-37 | the demo starts in the complete stage under the daytime table, with a shadow-casting directional light at (5,5,5), no vertex overlays, the pixel view rather than depth, and front-sided colour fill for the primitive stage |
| `SceneStage.ParseStage` | components/scene.tsx:347-367 | each of the five named stages selects itself; "complete" and every unrecognised value select the complete stage |
| `SceneStage.VertexOverlays` | components/scene.tsx:414-473 | the vertex stage adds [showVertices] + [showNormals] overlays: the cyan point cloud first, then the magenta line set |
| `SceneStage.VertexPointsCoverEveryPosition` | components/scene.tsx:414-429 | the points overlay has one point per position entry of every mesh: every position appears, and nothing else does |
| `SceneStage.SegmentsAt` | components/scene.tsx:452-463 | the normal line of vertex i occupies positions 2i and 2i+1: the vertex, then the vertex moved 0.2 along its normal |
| `SceneStage.NormalLinesOnlyFromNormalMeshes` | components/scene.tsx:442-466 | the normals overlay has two points per vertex of the meshes with a normal attribute, and every point comes from such a mesh |
| `SceneStage.SegmentsStartAtVertices` | components/scene.tsx:452-463 | every point of a mesh's normal lines is one of its first n vertices, or a point along the normal from one |
| `SceneStage.ExtractVertexPoints` | components/scene.tsx:416-429 | the nested loop collects exactly the specified points overlay |
| `SceneStage.ExtractNormalLines` | components/scene.tsx:444-466 | the nested loop collects exactly the specified normal lines, skipping meshes without normals |
| `SceneStage.AssignOwnMaterials` | components/scene.tsx:391-411 | every mesh gets a new material of its own of the given kind, no two meshes sharing one; geometries are untouched |
| `SceneStage.ReplaceWithColouredClone` | components/scene.tsx:493-515 | the mesh's geometry is replaced by a fresh copy with the same counts that carries the colour buffer, and the old geometry is disposed |
| `SceneStage.AssignPrimitiveMaterials` | components/scene.tsx:478-520 | every mesh gets its own primitive material, no two meshes sharing one; in fill mode every geometry is replaced by a coloured clone and the old one disposed, in wireframe mode no geometry is replaced or disposed; only the old geometries' disposal flags may change, so their colour buffers stay as they were |
| `SceneStage.DressPrimitive` | components/scene.tsx:478-519 | one mesh gets a new primitive material and, in fill mode, a fresh coloured copy of its geometry, whose old geometry is disposed; in wireframe mode the geometry is neither replaced nor disposed |
| `SceneStage.DressVertexStage` | components/scene.tsx:389-474 | every model mesh gets its own wireframe, no two meshes sharing one, and the returned overlays are exactly the specified vertex overlays |
| `SceneStage.NewTemplateMesh` | components/scene.tsx:67-114 | a template mesh is a fresh mesh with a fresh geometry with normals and the given position count, and a fresh material of the given kind |
| `SceneStage.StageScene.constructor` | components/scene.tsx:63-121 | the template holds cube, sphere, torus and plane with 24, 1089, 1717 and 4 positions, normals, and their base materials; the root starts empty |
| `SceneStage.StageScene.CloneTemplate` | components/scene.tsx:132 | the clone has new meshes that share the template's geometries and materials |
| `SceneStage.StageScene.Mount` | components/scene.tsx:124-135 | after mounting, the root has exactly one child, a fresh template clone, and the model counts as loaded |
| `SceneStage.StageScene.PruneOverlays` | components/scene.tsx:341-344 | every child but the first is removed |
| `SceneStage.StageScene.ApplyVertexVisualization` | components/scene.tsx:389-474 | every mesh wears its own grey wireframe at opacity 0.3, no two meshes sharing one, and the root ends with the model followed by the vertex overlays |
| `SceneStage.StageScene.ApplyPrimitiveVisualization` | components/scene.tsx:477-521 | every mesh wears its own primitive material, no two meshes sharing one; outside wireframe mode every geometry is a fresh coloured clone and the old geometry is disposed, in wireframe mode geometries are neither replaced nor disposed; no existing colour buffer changes; the template meshes keep geometry, material and colours, and their geometries are disposed in fill mode when the root showed a template clone |
| `SceneStage.RasterMaterial` | components/scene.tsx:532-585 | the depth material exactly when the depth buffer is shown; otherwise a shader with a time uniform |
| `SceneStage.StageScene.ApplyRasterizationVisualization` | components/scene.tsx:524-590 | opaque black clear colour and own depth materials with the depth view; transparent black and own pixel-grid shaders starting at the current time without it; no two meshes share a material |
| `SceneStage.StageScene.ApplyFragmentVisualization` | components/scene.tsx:592-632 | every mesh wears its own copy of the lighting mode's shading material, no two meshes sharing one |
| `SceneStage.StageScene.ResetToTemplate` | components/scene.tsx:635-656 | the post-processing and complete stages leave the root with exactly one child, a fresh template clone |
| `SceneStage.StageScene.ApplyStage` | components/scene.tsx:334-368 | nothing happens on an empty root; otherwise the overlays are pruned and the selected stage is shown: the first four stages give every mesh its own fresh material, no two meshes sharing one, the primitive stage in fill mode gives every mesh a fresh coloured clone of its geometry, with the same vertex count and normal attribute, and disposes the old one, the other three of them keep every geometry, and the last two show fresh template clones and leave the old meshes' geometry and material references alone; outside primitive fill mode no geometry of the old group is disposed; the rasterization stage's pixel view starts every material at the current time; only the rasterization stage changes the clear colour; the template meshes keep their geometry, material and colour buffers, and only the primitive stage in fill mode disposes their geometries, as it does when the root showed a template clone |
| `SceneStage.FeedShaderTime` | components/scene.tsx:196-204 | every material with a time uniform takes the elapsed time; every other material keeps its time, and nothing but the time changes |
| `SceneStage.StageScene.RefreshCompleteMaterials` | components/scene.tsx:371-386 | in the complete stage every material of the root is marked for re-upload, in any other stage no update flag changes; no mesh changes material and no material's time changes |
| `SceneStage.StageScene.FrameTick` | components/scene.tsx:188-205 | the time is recorded; the torus angle becomes half the elapsed time while animation is on; shader time uniforms follow the clock only in the rasterization stage's pixel view; materials without a time uniform keep their time, no update flag changes and no mesh changes material |
| `PostProcessing.InitialUniforms` | components/custom-post-processing.tsx:21-248 | each pass's uniform record has the shape of its shader's declarations; the noise and scanline shaders start at time zero and the pixel shader's resolution at the one-by-one placeholder |
| `PostProcessing.InitialChain` | components/custom-post-processing.tsx:306-349 | the chain is render, bloom, chromatic, noise, vignette, dot-screen, scanline, pixel; each pass is enabled as its switch says, has its shader's initial uniforms, and the pixel pass's resolution is the viewport size |
| `PostProcessing.Synced` | components/custom-post-processing.tsx:361-369 | syncing sets every effect pass's flag to its switch; ids, uniforms and the render pass are unchanged |
| `PostProcessing.SyncedSwitches` | components/custom-post-processing.tsx:361-369 | on a well-formed chain, syncing is exactly setting the seven effect passes' switches one by one, with the render pass untouched |
| `PostProcessing.Ticked` | components/custom-post-processing.tsx:381-388 | a tick changes only the noise and scanline passes, and only their uniforms |
| `PostProcessing.UpdatesKeepWellFormed` | components/custom-post-processing.tsx:361-388 | syncing and ticking keep the chain in order, with each pass's uniforms in its shader's shape |
| `PostProcessing.TickSetsTimes` | components/custom-post-processing.tsx:382-388 | after a tick the noise and scanline time uniforms equal the elapsed time |
| `PostProcessing.SyncActsLikeRebuild` | components/custom-post-processing.tsx:316-369 | syncing a freshly built chain to new switches gives the chain a build with those switches gives |
| `PostProcessing.SyncIdempotent` | components/custom-post-processing.tsx:361-369 | syncing twice with the same switches is the same as syncing once |
| `PostProcessing.StartingSwitches` | components/custom-post-processing.tsx:284-290 | with the default switches only the render pass is enabled; the demo's switches enable bloom, chromatic aberration and noise |
| `PostProcessing.Compositor.constructor` | components/custom-post-processing.tsx:296-303 | no composer and no pass before the first build |
| `PostProcessing.Compositor.Build` | components/custom-post-processing.tsx:306-358 | the passes array is a fresh array holding exactly the initial chain for the switches and the viewport size |
| `PostProcessing.Compositor.SyncFlags` | components/custom-post-processing.tsx:361-369 | with a composer the array becomes the synced chain; without one nothing changes |
| `PostProcessing.Compositor.Resize` | components/custom-post-processing.tsx:372-376 | the pixel pass's resolution becomes the viewport size; its pixel size and every other pass are unchanged |
| `PostProcessing.Compositor.Frame` | components/custom-post-processing.tsx:379-393 | with a composer the time uniforms are set first and then the chain is rendered exactly once; without one nothing happens |
| `VertexVisualization.SampleCount` | components/visualizations/vertex-visualization.tsx:33-55 | a mesh gives one sample per started block of 100 positions, at most 501; every sampled index is below the count |
| `VertexVisualization.Samples` | components/visualizations/vertex-visualization.tsx:24-58 | every sample is a world-space vertex |
| `VertexVisualization.Records` | components/visualizations/vertex-visualization.tsx:41-51 | one normal record per sample, starting at that sample and following its normal |
| `VertexVisualization.SamplesAreStrided` | components/visualizations/vertex-visualization.tsx:30-55 | only meshes with normals are sampled, only at multiples of 100 below their count, and each gives exactly its sample count |
| `VertexVisualization.SampleCountCases` | components/visualizations/vertex-visualization.tsx:53-54 | up to 50100 positions give ⌈n/100⌉ samples; more give 501 |
| `VertexVisualization.ExtractSamples` | components/visualizations/vertex-visualization.tsx:20-61 | the loop with stride, counter and break produces exactly the specified samples and one matching normal record per sample |
| `VertexVisualization.SampleMesh` | components/visualizations/vertex-visualization.tsx:25-56 | one mesh appends exactly its own samples to the collected vertices, with one matching normal record each, and nothing when it has no normals |
| `VertexVisualization.NormalLines` | components/visualizations/vertex-visualization.tsx:71-82 | two points per record: the origin, then the origin moved 0.5 along the direction |
| `VertexVisualization.BuildNormalLines` | components/visualizations/vertex-visualization.tsx:72-77 | the loop builds exactly the specified normal lines |
| `VertexVisualization.NormalLinesStartAtSamples` | components/visualizations/vertex-visualization.tsx:41-77 | the normal lines start, pair by pair, at the sampled vertices |
| `VertexVisualization.Overlays` | components/visualizations/vertex-visualization.tsx:113-131 | the points are drawn exactly when vertices are shown and the lines exactly when normals are shown, and nothing else is drawn |
| `VertexVisualization.ApplyWireframe` | components/visualizations/vertex-visualization.tsx:98-111 | every mesh with a material gets a new grey wireframe; a mesh without one keeps none |
| `VertexVisualization.Show` | components/visualizations/vertex-visualization.tsx:15-133 | the scene's own meshes are untouched; the clone wears the wireframe wherever the scene had a material; the overlays are those of the clone's samples |
| `PrimitiveVisualization.ColourTriangles` | components/visualizations/primitive-visualization.tsx:36-47 | the geometry's colour attribute becomes the triangle colour buffer for its count |
| `PrimitiveVisualization.ViewMesh` | components/visualizations/primitive-visualization.tsx:19-56 | a mesh without a material is left alone; one with a material gets the primitive material, and in fill mode its geometry gets the colour buffer; colours otherwise stay as they were, in particular for a mesh without a material |
| `PrimitiveVisualization.ApplyPrimitiveView` | components/visualizations/primitive-visualization.tsx:17-59 | only meshes with a material change; they get the primitive material; in fill mode their own geometry carries the colour buffer, a geometry used only by meshes without a material keeps its colours, and in wireframe mode no colours change |
| `PrimitiveVisualization.Show` | components/visualizations/primitive-visualization.tsx:12-62 | the scene's meshes keep their materials, but in fill mode the geometries they share with the clone carry the colour buffer, except that a geometry used only by meshes without a material keeps its colours; in wireframe mode no colour buffer changes |
| `RasterizationVisualization.RasterizationView.constructor` | components/visualizations/rasterization-visualization.tsx:15-71 | one depth material and one pixel shader, created once, with the shader's time at 0 |
| `RasterizationVisualization.RasterizationView.Chosen` | components/visualizations/rasterization-visualization.tsx:75-83 | the depth material (RGBA packing, double-sided, near 1, far 20) with the depth view, otherwise the pixel shader, the only one with a time uniform |
| `RasterizationVisualization.RasterizationView.ApplyMaterials` | components/visualizations/rasterization-visualization.tsx:74-90 | every mesh shares the chosen material; the clear colour is opaque black with the depth view and transparent black otherwise |
| `RasterizationVisualization.RasterizationView.Cleanup` | components/visualizations/rasterization-visualization.tsx:92-94 | cleanup restores transparent black whatever the toggle was |
| `RasterizationVisualization.RasterizationView.ChangeSetting` | components/visualizations/rasterization-visualization.tsx:74-95 | after a toggle change the clear colour depends only on the new setting |
| `RasterizationVisualization.RasterizationView.Frame` | components/visualizations/rasterization-visualization.tsx:98-102 | the shader's time follows the clock only while the depth view is off |
| `FragmentVisualization.SplitViewPeriod` | components/visualizations/fragment-visualization.tsx:23-29 | the split view after t ticks depends only on the parity of t, so two ticks bring it back |
| `FragmentVisualization.FragmentView.constructor` | components/visualizations/fragment-visualization.tsx:12-135 | the four materials are created once with their kinds, the split view starts off and the shader's time at 0 |
| `FragmentVisualization.FragmentView.Chosen` | components/visualizations/fragment-visualization.tsx:143-163 | the split shader while the split view is on, whatever the mode; otherwise the mode's shading material, with Phong for "directional" and every unknown mode |
| `FragmentVisualization.FragmentView.ApplyMaterials` | components/visualizations/fragment-visualization.tsx:138-172 | every mesh shares the chosen material; that material is marked for re-upload when there is a mesh to wear it, and an empty clone leaves its flag as it was; the other three materials' flags do not change |
| `FragmentVisualization.FragmentView.Tick` | components/visualizations/fragment-visualization.tsx:24-26 | every interval tick flips the split view and keeps it equal to its parity-of-ticks value |
| `FragmentVisualization.FragmentView.Frame` | components/visualizations/fragment-visualization.tsx:175-179 | the split shader's time follows the clock only while the split view is on |

## Left out

- Shader programs (bloom, chromatic aberration, noise, vignette, dot screen, scanline, pixelate, pixel grid, split quadrants): these are floating-point GPU code. Only the uniform records and material kinds are kept.
- three.js internals are left out: what `clone`, `dispose`, `setFromPoints`, `applyMatrix4` and `transformDirection` do inside the library. World-space points are kept as symbolic expressions (`Graphics.Vec`), and disposal is a flag.
- Colour-space conversion in `THREE.Color` is not modelled: a channel is modelled as the 8-bit value divided by 255.
- Meshes with an array of materials are not modelled. A mesh has at most one material.
- Every mesh is assumed to have a position attribute. Its size is the geometry's `count`.
- React mechanics (hook scheduling, dependency lists, ref lifetimes, frame priorities) are not modelled. Each effect and frame callback is a method that the caller invokes.
- `SceneStage.StageScene.FrameTick`: records the torus angle, but not its application to the torus's z rotation. That is a float transform.
- The camera is not modelled: its reset on load, the reset and resize listeners, the aspect-ratio update, orbit controls and the grid. This is browser and library plumbing.
- The light helpers, the lights' JSX, and the debug logging are declarative or have no effect on state.
- The point-size pulse of the stand-alone vertex view is float-only animation.
- `VertexVisualization.Show`: samples after putting on the wireframe, while the view samples before. The sampling reads only geometries, which the wireframe step does not change, so the results are the same.
- Building the normal lines halves each record's direction vector in place (`multiplyScalar`). The model keeps the direction and scales the line end instead. This is the same for the one pass over the records.
- The composer's disposal when the chain is rebuilt is not modelled, nor is the render pass taking over the frame loop. Both belong to the library.
- The interval timer of the fragment view is modelled as calls to `FragmentView.Tick`, and its clearing on unmount is not modelled.
- The fragment view creates a base-colour material that it never assigns. This material is not modelled.
- The UI components and the application shell are not part of this model. Only the demo's starting toggle values are kept, as the constants that `SceneStage.DemoStartingState` is about.
