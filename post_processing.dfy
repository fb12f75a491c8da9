/** The post-processing pass chain: a scene render pass followed by seven
    full-screen effect passes, each with an enabled flag and its shader's
    uniform values. The shader programs themselves are not modelled. */
module PostProcessing {

  datatype PassId = RenderScene | Bloom | Chromatic | Noise | Vignette | DotScreen | Scanline | Pixelate

  /** The uniform values of each pass; the input texture is left implicit. */
  datatype Uniforms =
    | NoUniforms
    | BloomUniforms(intensity: real, threshold: real, smoothing: real)
    | ChromaticUniforms(offsetX: real, offsetY: real)
    | NoiseUniforms(time: real, opacity: real)
    | VignetteUniforms(offset: real, darkness: real)
    | DotScreenUniforms(dotSize: real, dotSpacing: real)
    | ScanlineUniforms(lineWidth: real, lineCount: real, time: real, intensity: real)
    | PixelUniforms(width: real, height: real, pixelSize: real)

  datatype Pass = Pass(id: PassId, enabled: bool, uniforms: Uniforms)

  /** The seven effect switches the component receives. */
  datatype EffectFlags = EffectFlags(
    bloom: bool, chromatic: bool, noise: bool, vignette: bool,
    dotScreen: bool, scanline: bool, pixel: bool)

  /** Every switch the caller leaves out is off. */
  const DefaultFlags: EffectFlags := EffectFlags(false, false, false, false, false, false, false)

  /** The switches the demo starts with: bloom, chromatic aberration and noise. */
  const DemoFlags: EffectFlags := EffectFlags(true, true, true, false, false, false, false)

  /** The fixed order of the chain. */
  const ChainOrder: seq<PassId> := [RenderScene, Bloom, Chromatic, Noise, Vignette, DotScreen, Scanline, Pixelate]

  /** The uniform values each shader declares: a record of the shader's own
      shape, with the animated shaders starting at time zero and the
      pixelation resolution at its placeholder of one by one until the
      drawing-buffer size is known. */
  function InitialUniforms(id: PassId): (u: Uniforms)
    ensures Fits(id, u)
    ensures u.NoiseUniforms? || u.ScanlineUniforms? ==> u.time == 0.0
    ensures u.PixelUniforms? ==> u.width == 1.0 && u.height == 1.0
  {
    match id
    case RenderScene => NoUniforms
    case Bloom => BloomUniforms(1.5, 0.2, 0.9)
    case Chromatic => ChromaticUniforms(0.005, 0.005)
    case Noise => NoiseUniforms(0.0, 0.3)
    case Vignette => VignetteUniforms(0.5, 0.5)
    case DotScreen => DotScreenUniforms(1.5, 5.0)
    case Scanline => ScanlineUniforms(0.2, 80.0, 0.0, 0.1)
    case Pixelate => PixelUniforms(1.0, 1.0, 8.0)
  }

  /** The uniform record has the shape of the pass's shader. */
  predicate Fits(id: PassId, u: Uniforms) {
    match id
    case RenderScene => u.NoUniforms?
    case Bloom => u.BloomUniforms?
    case Chromatic => u.ChromaticUniforms?
    case Noise => u.NoiseUniforms?
    case Vignette => u.VignetteUniforms?
    case DotScreen => u.DotScreenUniforms?
    case Scanline => u.ScanlineUniforms?
    case Pixelate => u.PixelUniforms?
  }

  /** The switch that governs a pass; the render pass is always on. */
  function FlagFor(flags: EffectFlags, id: PassId): bool {
    match id
    case RenderScene => true
    case Bloom => flags.bloom
    case Chromatic => flags.chromatic
    case Noise => flags.noise
    case Vignette => flags.vignette
    case DotScreen => flags.dotScreen
    case Scanline => flags.scanline
    case Pixelate => flags.pixel
  }

  /** A well-formed chain: the passes in chain order, each with uniforms of its own shape. */
  predicate WellFormed(chain: seq<Pass>) {
    |chain| == |ChainOrder| &&
    forall i :: 0 <= i < |chain| ==> chain[i].id == ChainOrder[i] && Fits(chain[i].id, chain[i].uniforms)
  }

  /** The pass the chain construction creates for `id`. */
  function NewPass(id: PassId, flags: EffectFlags, width: real, height: real): Pass {
    if id == Pixelate then Pass(id, flags.pixel, PixelUniforms(width, height, 8.0))
    else Pass(id, FlagFor(flags, id), InitialUniforms(id))
  }

  /** The chain right after construction for the given switches and viewport size. */
  function InitialChain(flags: EffectFlags, width: real, height: real): (chain: seq<Pass>)
    ensures WellFormed(chain)
    ensures forall i :: 0 <= i < |chain| ==> chain[i].enabled == FlagFor(flags, ChainOrder[i])
    ensures forall i :: 0 <= i < |chain| - 1 ==> chain[i].uniforms == InitialUniforms(ChainOrder[i])
    ensures chain[|chain| - 1].uniforms == PixelUniforms(width, height, 8.0)
  {
    seq(|ChainOrder|, (i: int) requires 0 <= i < |ChainOrder| => NewPass(ChainOrder[i], flags, width, height))
  }

  /** The initial chain, pass by pass. */
  lemma InitialChainSpelledOut(flags: EffectFlags, width: real, height: real)
    ensures InitialChain(flags, width, height) ==
            [Pass(RenderScene, true, NoUniforms),
             Pass(Bloom, flags.bloom, InitialUniforms(Bloom)),
             Pass(Chromatic, flags.chromatic, InitialUniforms(Chromatic)),
             Pass(Noise, flags.noise, InitialUniforms(Noise)),
             Pass(Vignette, flags.vignette, InitialUniforms(Vignette)),
             Pass(DotScreen, flags.dotScreen, InitialUniforms(DotScreen)),
             Pass(Scanline, flags.scanline, InitialUniforms(Scanline)),
             Pass(Pixelate, flags.pixel, PixelUniforms(width, height, 8.0))]
  {
  }

  /** Every effect pass takes its switch, the render pass stays as it is. */
  function Synced(chain: seq<Pass>, flags: EffectFlags): (r: seq<Pass>)
    ensures |r| == |chain|
    ensures forall i :: 0 <= i < |r| ==> r[i].id == chain[i].id && r[i].uniforms == chain[i].uniforms
    ensures forall i :: 0 <= i < |r| && chain[i].id != RenderScene ==> r[i].enabled == FlagFor(flags, chain[i].id)
    ensures forall i :: 0 <= i < |r| && chain[i].id == RenderScene ==> r[i].enabled == chain[i].enabled
  {
    seq(|chain|, (i: int) requires 0 <= i < |chain| =>
      if chain[i].id == RenderScene then chain[i] else chain[i].(enabled := FlagFor(flags, chain[i].id)))
  }

  /** A chain of eight passes after the seven effect passes take their switches. */
  function SwitchedChain(c: seq<Pass>, flags: EffectFlags): seq<Pass>
    requires |c| == 8
  {
    [c[0], c[1].(enabled := flags.bloom), c[2].(enabled := flags.chromatic), c[3].(enabled := flags.noise),
     c[4].(enabled := flags.vignette), c[5].(enabled := flags.dotScreen), c[6].(enabled := flags.scanline),
     c[7].(enabled := flags.pixel)]
  }

  /** On a well-formed chain, syncing is setting the seven effect switches in place. */
  lemma SyncedSwitches(chain: seq<Pass>, flags: EffectFlags)
    requires WellFormed(chain)
    ensures Synced(chain, flags) == SwitchedChain(chain, flags)
  {
    var r, e := Synced(chain, flags), SwitchedChain(chain, flags);
    assert chain[0].id == RenderScene && r[0] == e[0];
    assert chain[1].id == Bloom && r[1] == e[1];
    assert chain[2].id == Chromatic && r[2] == e[2];
    assert chain[3].id == Noise && r[3] == e[3];
    assert chain[4].id == Vignette && r[4] == e[4];
    assert chain[5].id == DotScreen && r[5] == e[5];
    assert chain[6].id == Scanline && r[6] == e[6];
    assert chain[7].id == Pixelate && r[7] == e[7];
  }

  /** The uniforms with their time, if they have one, set to `t`. */
  function WithTime(u: Uniforms, t: real): Uniforms {
    match u
    case NoiseUniforms(_, opacity) => NoiseUniforms(t, opacity)
    case ScanlineUniforms(lineWidth, lineCount, _, intensity) => ScanlineUniforms(lineWidth, lineCount, t, intensity)
    case _ => u
  }

  /** The noise and scanline passes take the elapsed time; nothing else changes. */
  function Ticked(chain: seq<Pass>, elapsed: real): (r: seq<Pass>)
    ensures |r| == |chain|
    ensures forall i :: 0 <= i < |r| ==> r[i].id == chain[i].id && r[i].enabled == chain[i].enabled
    ensures forall i :: 0 <= i < |r| && chain[i].id != Noise && chain[i].id != Scanline ==> r[i] == chain[i]
  {
    seq(|chain|, (i: int) requires 0 <= i < |chain| =>
      if chain[i].id == Noise || chain[i].id == Scanline then chain[i].(uniforms := WithTime(chain[i].uniforms, elapsed))
      else chain[i])
  }

  /** A well-formed chain stays well formed under every update. */
  lemma {:induction false} UpdatesKeepWellFormed(chain: seq<Pass>, flags: EffectFlags, elapsed: real)
    requires WellFormed(chain)
    ensures WellFormed(Synced(chain, flags)) && WellFormed(Ticked(chain, elapsed))
  {
    forall i | 0 <= i < |chain|
      ensures Fits(chain[i].id, Ticked(chain, elapsed)[i].uniforms)
    {
      assert chain[i].id == ChainOrder[i] && Fits(chain[i].id, chain[i].uniforms);
    }
  }

  /** After a tick of a well-formed chain, the noise and scanline passes carry the elapsed time. */
  lemma {:induction false} TickSetsTimes(chain: seq<Pass>, elapsed: real)
    requires WellFormed(chain)
    ensures Ticked(chain, elapsed)[3].uniforms.time == elapsed
    ensures Ticked(chain, elapsed)[6].uniforms.time == elapsed
  {
    assert chain[3].id == Noise && Fits(Noise, chain[3].uniforms);
    assert chain[6].id == Scanline && Fits(Scanline, chain[6].uniforms);
  }

  /** Syncing a freshly built chain to new switches gives the chain a build
      with those switches would have given. */
  lemma {:induction false} SyncActsLikeRebuild(oldFlags: EffectFlags, flags: EffectFlags, width: real, height: real)
    ensures Synced(InitialChain(oldFlags, width, height), flags) == InitialChain(flags, width, height)
  {
    var a := Synced(InitialChain(oldFlags, width, height), flags);
    var b := InitialChain(flags, width, height);
    forall i | 0 <= i < |a|
      ensures a[i] == b[i]
    {
      assert InitialChain(oldFlags, width, height)[i].id == ChainOrder[i];
    }
  }

  /** Syncing twice with the same switches changes nothing the second time. */
  lemma {:induction false} SyncIdempotent(chain: seq<Pass>, flags: EffectFlags)
    ensures Synced(Synced(chain, flags), flags) == Synced(chain, flags)
  {
    var once := Synced(chain, flags);
    var twice := Synced(once, flags);
    forall i | 0 <= i < |chain|
      ensures twice[i] == once[i]
    {
      assert once[i].id == chain[i].id;
    }
  }

  /** With every switch left at its default only the render pass is enabled;
      the demo's switches enable bloom, chromatic aberration and noise. */
  lemma {:induction false} StartingSwitches(width: real, height: real)
    ensures forall i :: 0 <= i < |ChainOrder| ==>
              (InitialChain(DefaultFlags, width, height)[i].enabled <==> i == 0)
    ensures forall i :: 0 <= i < |ChainOrder| ==>
              (InitialChain(DemoFlags, width, height)[i].enabled <==> i <= 3)
  {
    forall i | 0 <= i < |ChainOrder|
      ensures InitialChain(DefaultFlags, width, height)[i].enabled <==> i == 0
      ensures InitialChain(DemoFlags, width, height)[i].enabled <==> i <= 3
    {
      assert InitialChain(DefaultFlags, width, height)[i].enabled == FlagFor(DefaultFlags, ChainOrder[i]);
      assert InitialChain(DemoFlags, width, height)[i].enabled == FlagFor(DemoFlags, ChainOrder[i]);
      assert i == 0 || i == 1 || i == 2 || i == 3 || i == 4 || i == 5 || i == 6 || i == 7;
    }
  }

  /** The component's state: the pass chain, whether a composer has been
      built, and the chains the composer has rendered, oldest first. */
  class Compositor {
    var passes: array<Pass>
    var hasComposer: bool
    var rendered: seq<seq<Pass>>

    /** Once a composer exists, its chain is well formed. */
    ghost predicate Valid()
      reads this, passes
    {
      hasComposer ==> WellFormed(passes[..])
    }

    /** Before the first build there is no composer and no pass. */
    constructor ()
      ensures Valid() && !hasComposer && passes.Length == 0 && rendered == []
    {
      passes := new Pass[0];
      hasComposer := false;
      rendered := [];
    }

    /** The construction effect: a new composer with the render pass and the
        seven effect passes appended in chain order, each enabled as its switch
        says, the pixel pass's resolution set to the viewport size. It runs
        again, replacing the chain, whenever the viewport size changes. */
    method Build(flags: EffectFlags, width: real, height: real)
      modifies this`passes, this`hasComposer
      ensures Valid() && hasComposer && fresh(passes)
      ensures passes[..] == InitialChain(flags, width, height)
    {
      InitialChainSpelledOut(flags, width, height);
      var chain := new Pass[8];
      chain[0] := Pass(RenderScene, true, NoUniforms);
      chain[1] := Pass(Bloom, flags.bloom, InitialUniforms(Bloom));
      chain[2] := Pass(Chromatic, flags.chromatic, InitialUniforms(Chromatic));
      chain[3] := Pass(Noise, flags.noise, InitialUniforms(Noise));
      chain[4] := Pass(Vignette, flags.vignette, InitialUniforms(Vignette));
      chain[5] := Pass(DotScreen, flags.dotScreen, InitialUniforms(DotScreen));
      chain[6] := Pass(Scanline, flags.scanline, InitialUniforms(Scanline));
      chain[7] := Pass(Pixelate, flags.pixel, PixelUniforms(width, height, 8.0));
      passes := chain;
      hasComposer := true;
      assert passes[..] == InitialChain(flags, width, height);
    }

    /** The switch effect: every effect pass that exists takes its switch. */
    method SyncFlags(flags: EffectFlags)
      requires Valid()
      modifies passes
      ensures Valid()
      ensures passes[..] == if hasComposer then Synced(old(passes[..]), flags) else old(passes[..])
    {
      if hasComposer {
        ghost var before := passes[..];
        SyncedSwitches(before, flags);
        passes[1] := passes[1].(enabled := flags.bloom);
        passes[2] := passes[2].(enabled := flags.chromatic);
        passes[3] := passes[3].(enabled := flags.noise);
        passes[4] := passes[4].(enabled := flags.vignette);
        passes[5] := passes[5].(enabled := flags.dotScreen);
        passes[6] := passes[6].(enabled := flags.scanline);
        passes[7] := passes[7].(enabled := flags.pixel);
        assert passes[..] == SwitchedChain(before, flags);
      }
    }

    /** The resize effect: the pixel pass's resolution follows the viewport
        size; the other passes and the pixel size are untouched. */
    method Resize(width: real, height: real)
      requires Valid()
      modifies passes
      ensures Valid()
      ensures !hasComposer ==> passes[..] == old(passes[..])
      ensures hasComposer ==>
                passes[..7] == old(passes[..7]) &&
                passes[7] == old(passes[7]).(uniforms := PixelUniforms(width, height, old(passes[7]).uniforms.pixelSize))
    {
      if hasComposer {
        assert passes[7].id == Pixelate && Fits(Pixelate, passes[7].uniforms);
        passes[7] := passes[7].(uniforms := passes[7].uniforms.(width := width, height := height));
      }
    }

    /** The frame callback: with a composer, the noise and scanline passes take
        the elapsed time and then the chain is rendered once; without one,
        nothing happens. */
    method Frame(elapsed: real)
      requires Valid()
      modifies passes, this`rendered
      ensures Valid()
      ensures !hasComposer ==> passes[..] == old(passes[..]) && rendered == old(rendered)
      ensures hasComposer ==>
                passes[..] == Ticked(old(passes[..]), elapsed) && rendered == old(rendered) + [passes[..]]
    {
      if hasComposer {
        assert passes[3].id == Noise && Fits(Noise, passes[3].uniforms);
        assert passes[6].id == Scanline && Fits(Scanline, passes[6].uniforms);
        var noise := passes[3].uniforms;
        passes[3] := passes[3].(uniforms := NoiseUniforms(elapsed, noise.opacity));
        var scanline := passes[6].uniforms;
        passes[6] := passes[6].(uniforms := ScanlineUniforms(scanline.lineWidth, scanline.lineCount, elapsed, scanline.intensity));
        assert passes[..] == Ticked(old(passes[..]), elapsed);
        rendered := rendered + [passes[..]];
      }
    }
  }
}
