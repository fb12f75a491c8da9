/** The lighting and environment controller of the scene: the environment table,
    the lighting-mode selector, the background colour, and the effect that
    updates the persistent ambient light and the primary light in place. */
module Lighting {
  import opened Graphics

  datatype Environment = Daytime | Nighttime | Rainy

  function EnvironmentName(e: Environment): string {
    match e
    case Daytime => "daytime"
    case Nighttime => "nighttime"
    case Rainy => "rainy"
  }

  /** The environment a selector value names, if any. */
  function ParseEnvironment(name: string): (r: Option<Environment>)
    ensures r.Some? ==> EnvironmentName(r.value) == name
    ensures forall e :: name == EnvironmentName(e) ==> r == Some(e)
  {
    if name == "daytime" then Some(Daytime)
    else if name == "nighttime" then Some(Nighttime)
    else if name == "rainy" then Some(Rainy)
    else None
  }

  datatype Position = Position(x: int, y: int, z: int)

  /** Ambient colour and intensity, primary-light colour and intensity, and the
      primary light's position. */
  datatype LightParams = LightParams(
    ambientIntensity: real, ambientColour: Hex,
    primaryIntensity: real, primaryColour: Hex,
    position: Position)

  /** The values the environment effect starts from before its switch. */
  const DefaultLightParams: LightParams := LightParams(0.5, 0x404040, 1.5, 0xffffff, Position(5, 5, 5))

  /** The light parameters for an environment selector value: each named
      environment replaces the defaults, any other value keeps them. */
  function EnvironmentLightParams(environment: string): (p: LightParams)
    ensures p == DefaultLightParams <==> ParseEnvironment(environment) == None
  {
    match ParseEnvironment(environment)
    case Some(Daytime) => LightParams(0.7, 0xffffff, 1.5, 0xffffff, Position(5, 5, 5))
    case Some(Nighttime) => LightParams(0.2, 0x101020, 0.8, 0xaaaaff, Position(3, 5, 3))
    case Some(Rainy) => LightParams(0.4, 0x606080, 1.0, 0xcccccc, Position(4, 6, 4))
    case None => DefaultLightParams
  }

  /** The scene background: one colour per environment, the daytime sky for any other value. */
  function BackgroundColour(environment: string): (r: Hex)
    ensures r == 0xf0f8ff <==> ParseEnvironment(environment) in {None, Some(Daytime)}
    ensures r == 0x0a0a1a <==> ParseEnvironment(environment) == Some(Nighttime)
    ensures r == 0x202030 <==> ParseEnvironment(environment) == Some(Rainy)
  {
    match ParseEnvironment(environment)
    case Some(Daytime) => 0xf0f8ff
    case Some(Nighttime) => 0x0a0a1a
    case Some(Rainy) => 0x202030
    case None => 0xf0f8ff
  }

  /** The three environments give three different backgrounds and three
      different light settings. */
  lemma EnvironmentsDistinguishable(e1: Environment, e2: Environment)
    requires e1 != e2
    ensures BackgroundColour(EnvironmentName(e1)) != BackgroundColour(EnvironmentName(e2))
    ensures EnvironmentLightParams(EnvironmentName(e1)) != EnvironmentLightParams(EnvironmentName(e2))
  {
  }

  /** An unrecognised environment falls back to the daytime background but not
      to the daytime lights: the ambient light stays at the dimmer grey defaults. */
  lemma UnknownEnvironmentFallbacksDisagree(environment: string)
    requires ParseEnvironment(environment) == None
    ensures BackgroundColour(environment) == BackgroundColour(EnvironmentName(Daytime))
    ensures EnvironmentLightParams(environment) != EnvironmentLightParams(EnvironmentName(Daytime))
    ensures EnvironmentLightParams(environment).ambientIntensity < EnvironmentLightParams(EnvironmentName(Daytime)).ambientIntensity
  {
    assert ParseEnvironment(EnvironmentName(Daytime)) == Some(Daytime);
  }

  datatype LightingMode = DirectionalMode | PointMode | SpotMode

  function LightingModeName(m: LightingMode): string {
    match m
    case DirectionalMode => "directional"
    case PointMode => "point"
    case SpotMode => "spot"
  }

  /** The lighting mode a selector value names; any other value means directional. */
  function ParseLightingMode(mode: string): (m: LightingMode)
    ensures m != DirectionalMode ==> mode == LightingModeName(m)
    ensures forall k :: mode == LightingModeName(k) ==> m == k
  {
    if mode == "directional" then DirectionalMode
    else if mode == "point" then PointMode
    else if mode == "spot" then SpotMode
    else DirectionalMode
  }

  /** The shading material the fragment stage assigns for a lighting mode:
      Phong for directional light, physically based for a point light, normal
      encoding for a spot light. */
  function ShadingFor(m: LightingMode): (k: MaterialKind)
    ensures k.Phong? <==> m == DirectionalMode
    ensures k.Pbr? <==> m == PointMode
    ensures k.NormalEncoding? <==> m == SpotMode
    ensures k.side == DoubleSide
  {
    match m
    case DirectionalMode => PhongShading
    case PointMode => PbrShading
    case SpotMode => NormalShading
  }

  /** The primary light the scene renders: its kind follows the lighting mode,
      shadows follow the shadow toggle, and it starts at (5, 5, 5). */
  datatype PrimaryLight = PrimaryLight(kind: LightingMode, castShadow: bool, position: Position)

  function RenderLighting(lightingMode: string, showShadows: bool): (l: PrimaryLight)
    ensures l.kind == ParseLightingMode(lightingMode)
    ensures l.castShadow == showShadows && l.position == Position(5, 5, 5)
  {
    match ParseLightingMode(lightingMode)
    case DirectionalMode => PrimaryLight(DirectionalMode, showShadows, Position(5, 5, 5))
    case PointMode => PrimaryLight(PointMode, showShadows, Position(5, 5, 5))
    case SpotMode => PrimaryLight(SpotMode, showShadows, Position(5, 5, 5))
  }

  /** A light object, updated in place by the environment effect. */
  class Light {
    var colour: Hex
    var intensity: real
    var position: Position
    var shadowNeedsUpdate: bool

    constructor (colour: Hex, intensity: real)
      ensures this.colour == colour && this.intensity == intensity
      ensures position == Position(0, 0, 0) && !shadowNeedsUpdate
    {
      this.colour := colour;
      this.intensity := intensity;
      position := Position(0, 0, 0);
      shadowNeedsUpdate := false;
    }

    /** A primary light takes the environment's intensity, colour and position,
        and its shadow map is refreshed. */
    method Place(p: LightParams)
      modifies this
      ensures intensity == p.primaryIntensity && colour == p.primaryColour
      ensures position == p.position && shadowNeedsUpdate
    {
      intensity := p.primaryIntensity;
      colour := p.primaryColour;
      position := p.position;
      shadowNeedsUpdate := true;
    }
  }

  /** The lights of the scene: the ambient light this controller creates once,
      the references to whichever primary light is mounted, and the lights it
      has added to the scene. */
  class LightRig {
    var ambient: Light?
    var directional: Light?
    var point: Light?
    var spot: Light?
    var sceneLights: seq<Light>

    /** The ambient light is a different object from every primary light. */
    ghost predicate Valid()
      reads this
    {
      ambient != null ==> ambient != directional && ambient != point && ambient != spot
    }

    /** The ambient light, once there is one, as a set to frame its fields. */
    function Ambient(): set<Light>
      reads this
    {
      if ambient == null then {} else {ambient}
    }

    constructor (directional: Light?, point: Light?, spot: Light?)
      ensures Valid() && ambient == null && sceneLights == []
      ensures this.directional == directional && this.point == point && this.spot == spot
    {
      ambient := null;
      this.directional := directional;
      this.point := point;
      this.spot := spot;
      sceneLights := [];
    }

    /** The environment effect: the light values of the named environment, or
        the starting values for an unknown name, applied to the rig. */
    method ApplyEnvironment(environment: string, meshes: seq<Mesh>)
      requires Valid()
      modifies this`ambient, this`sceneLights, Ambient()`colour, Ambient()`intensity, directional, point, spot
      modifies (set m | m in meshes && m.material != null :: m.material)`needsUpdate
      ensures Valid()
      ensures directional == old(directional) && point == old(point) && spot == old(spot)
      ensures ambient != null
      ensures ambient.colour == EnvironmentLightParams(environment).ambientColour
      ensures ambient.intensity == EnvironmentLightParams(environment).ambientIntensity
      ensures old(ambient) != null ==> ambient == old(ambient) && sceneLights == old(sceneLights)
      ensures old(ambient) == null ==> fresh(ambient) && sceneLights == old(sceneLights) + [ambient]
      ensures old(ambient) != null ==>
                ambient.position == old(ambient.position) && ambient.shadowNeedsUpdate == old(ambient.shadowNeedsUpdate)
      ensures old(ambient) == null ==> ambient.position == Position(0, 0, 0) && !ambient.shadowNeedsUpdate
      ensures forall l :: l in {directional, point, spot} && l != null ==>
                l.intensity == EnvironmentLightParams(environment).primaryIntensity &&
                l.colour == EnvironmentLightParams(environment).primaryColour &&
                l.position == EnvironmentLightParams(environment).position &&
                l.shadowNeedsUpdate
      ensures forall m :: m in meshes && m.material != null ==> m.material.needsUpdate
      ensures forall m :: m in meshes ==> m.material == old(m.material)
      ensures forall m :: m in meshes && m.material != null ==> m.material.time == old(m.material.time)
    {
      var p := EnvironmentLightParams(environment);
      SetAmbient(p);
      PlacePrimaries(p);
      MarkNeedsUpdate(meshes);
    }

    /** The ambient light takes the environment's values; it is created and
        added to the scene only when there is none yet. */
    method SetAmbient(p: LightParams)
      requires Valid()
      modifies this`ambient, this`sceneLights, Ambient()`colour, Ambient()`intensity
      ensures Valid() && ambient != null
      ensures ambient.colour == p.ambientColour && ambient.intensity == p.ambientIntensity
      ensures old(ambient) != null ==> ambient == old(ambient) && sceneLights == old(sceneLights)
      ensures old(ambient) == null ==> fresh(ambient) && sceneLights == old(sceneLights) + [ambient]
      ensures old(ambient) == null ==> ambient.position == Position(0, 0, 0) && !ambient.shadowNeedsUpdate
    {
      if ambient != null {
        ambient.colour := p.ambientColour;
        ambient.intensity := p.ambientIntensity;
      } else {
        var created := new Light(p.ambientColour, p.ambientIntensity);
        sceneLights := sceneLights + [created];
        ambient := created;
      }
    }

    /** Every mounted primary light takes the environment's primary values. */
    method PlacePrimaries(p: LightParams)
      modifies directional, point, spot
      ensures forall l :: l in {directional, point, spot} && l != null ==>
                l.intensity == p.primaryIntensity && l.colour == p.primaryColour &&
                l.position == p.position && l.shadowNeedsUpdate
    {
      if directional != null {
        directional.Place(p);
      }
      if point != null {
        point.Place(p);
      }
      if spot != null {
        spot.Place(p);
      }
    }
  }
}
