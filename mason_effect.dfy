/** The legacy particle effect of src/core/index.js (`MasonEffect`).

    It differs from the TypeScript effect in a few ways. It renders one line
    of text at a fixed font size: no fitting search. It neither clamps the
    canvas nor skips the build for an empty canvas. It has no
    IntersectionObserver: it starts as soon as it is made. Its `scatter`
    sends particles to clamped random points rather than home. */
module MasonEffectLegacy {
  import opened Common
  import opened Particles

  /** The largest value a coordinate may take on a side of `size` pixels
      after the clamp of `scatter`. */
  function LastPixel(size: int): real {
    if size >= 1 then (size - 1) as real else 0.0
  }

  /** `Math.floor(size * DPR)`. */
  function Scaled(size: real, dpr: real): int {
    (size * dpr).Floor
  }

  /** Particles pulled to samples need a canvas with pixels: on an empty
      canvas nothing is sampled, so no particle is left. */
  lemma NoCanvasNoParticles(ps: seq<Particle>, img: seq<int>, w: int, h: int, step: int, maxParticles: nat)
    requires step > 0 && PulledToSamples(ps, img, w, h, step, maxParticles)
    ensures ps != [] ==> w > 0 && h > 0
  {
    if ps != [] {
      assert Sampled(img, w, h, step, TargetOf(ps[0]));
    }
  }

  class MasonEffect {
    const container: ElementId
    const host: Host
    var config: Config
    var W: int
    var H: int
    var DPR: real
    /** The drawing canvas's `width` and `height` attributes. */
    var canvasWidth: int
    var canvasHeight: int
    var particles: seq<Particle>
    /** How many numbers of the `host.random` stream have been used. */
    var drawn: nat
    var animationId: Option<Handle>
    var isRunning: bool
    /** The last handle the host gave out. */
    var issued: Handle
    /** Whether the resize and mouse listeners are installed. */
    var listening: bool
    /** Whether the canvas is in the container. */
    var attached: bool

    /** A frame is pending exactly while the effect runs, under a handle
        the host gave out. */
    ghost predicate Core()
      reads this`isRunning, this`animationId, this`issued
    {
      && RandomUnit(host.random)
      && (isRunning <==> animationId.Some?)
      && (animationId.Some? ==> 0 < animationId.value <= issued)
    }

    /** Once sized, the canvas attributes hold the canvas size. */
    ghost predicate Valid()
      reads this`isRunning, this`animationId, this`issued, this`W, this`H, this`canvasWidth, this`canvasHeight
    {
      Core() && canvasWidth == W && canvasHeight == H
    }

    /** The particles are pulled to the sampled points of the text drawn at
        the configured or default font size on the current canvas. */
    ghost predicate TargetsBuilt()
      reads this`particles, this`config, this`W, this`H
    {
      PulledToSamples(particles,
                      host.pixels(config.text, config.fontFamily, InitialFontSize(config.fontSize, W, H), W, H),
                      W, H, GridStep(config.densityStep), config.maxParticles)
    }

    /** The state the constructor leaves before it calls `init()`; a new
        canvas is 300 by 150. */
    constructor Init(container: ElementId, host: Host, options: Options, windowDpr: real)
      requires RandomUnit(host.random)
      ensures Core()
      ensures this.container == container && this.host == host
      ensures config == Configure(options, "mason crawler")
      ensures W == 0 && H == 0 && DPR == InitialDpr(config.devicePixelRatio, windowDpr)
      ensures canvasWidth == 300 && canvasHeight == 150
      ensures particles == [] && drawn == 0 && issued == 0
      ensures !isRunning && animationId.None? && attached && !listening
    {
      this.container := container;
      this.host := host;
      config := Configure(options, "mason crawler");
      W := 0;
      H := 0;
      DPR := InitialDpr(options.devicePixelRatio, windowDpr);
      canvasWidth := 300;
      canvasHeight := 150;
      particles := [];
      drawn := 0;
      animationId := None;
      isRunning := false;
      issued := 0;
      listening := false;
      attached := true;
    }

    /** `new MasonEffect(container, options)`: fails only when the container
        is missing, then runs `init()`. */
    static method New(container: Option<ElementId>, host: Host, options: Options, windowDpr: real, view: Viewport)
      returns (r: Result<MasonEffect>, notes: seq<Note>)
      requires RandomUnit(host.random)
      ensures container.None? ==> r == Err("Container element not found") && notes == []
      ensures container.Some? ==>
        && r.Ok? && fresh(r.value) && r.value.Valid() && r.value.container == container.value
        && r.value.isRunning && r.value.listening && r.value.attached && r.value.TargetsBuilt()
        && notes == UpdateNotes(r.value.config) + (if r.value.config.onReady.Some? then [Ready] else [])
    {
      notes := [];
      if container.None? {
        return Err("Container element not found"), notes;
      }
      var m := new MasonEffect.Init(container.value, host, options, windowDpr);
      notes := m.Initialize(view);
      r := Ok(m);
    }

    /** `init()`: size the canvas, install the listeners, start, report
        ready. */
    method Initialize(view: Viewport) returns (notes: seq<Note>)
      requires Core() && !isRunning
      modifies this`W, this`H, this`canvasWidth, this`canvasHeight, this`particles, this`drawn
      modifies this`listening, this`isRunning, this`animationId, this`issued
      ensures Valid() && isRunning && listening && TargetsBuilt()
      ensures notes == UpdateNotes(config) + (if config.onReady.Some? then [Ready] else [])
    {
      Resize(view);
      listening := true;
      notes := Start();
      if config.onReady.Some? {
        notes := notes + [Ready];
      }
    }

    /** `resize()`: size the canvas from the configuration, the container or
        the window, with no clamp and no check, then rebuild the targets. */
    method Resize(view: Viewport)
      requires Core()
      modifies this`W, this`H, this`canvasWidth, this`canvasHeight, this`particles, this`drawn
      ensures Valid() && TargetsBuilt()
      ensures W == Scaled(ViewWidth(config, view), DPR) && H == Scaled(ViewHeight(config, view), DPR)
    {
      W := Scaled(ViewWidth(config, view), DPR);
      H := Scaled(ViewHeight(config, view), DPR);
      canvasWidth := W;
      canvasHeight := H;
      BuildTargets();
      if |particles| == 0 {
        InitParticles();
      }
    }

    /** `buildTargets()`: draw the text at the configured font size, or at
        18% of the smaller side but at least 80, sample it, and pull the
        particles to the samples. An empty canvas leaves no particle. */
    method BuildTargets()
      requires RandomUnit(host.random)
      modifies this`particles, this`drawn
      ensures TargetsBuilt()
      ensures W <= 0 || H <= 0 ==> particles == []
      ensures forall i :: 0 <= i < |particles| && i < |old(particles)| ==>
        particles[i] == old(particles)[i].(tx := particles[i].tx, ty := particles[i].ty)
    {
      var fontSize := InitialFontSize(config.fontSize, W, H);
      var img := host.pixels(config.text, config.fontFamily, fontSize, W, H);
      particles, drawn := BuildFromImage(particles, img, W, H, config.densityStep, config.maxParticles,
                                         host.random, drawn, false);
      NoCanvasNoParticles(particles, img, W, H, GridStep(config.densityStep), config.maxParticles);
    }

    /** `initParticles()`: every particle to a random point of the canvas,
        at rest; no initial position is recorded. */
    method InitParticles()
      modifies this`particles, this`drawn
      ensures |particles| == |old(particles)| && drawn == old(drawn) + 2 * |particles|
      ensures forall i :: 0 <= i < |particles| ==>
        Placed(old(particles)[i], particles[i], Spot(host.random, old(drawn) + 2 * i, W),
               Spot(host.random, old(drawn) + 2 * i + 1, H), false)
    {
      var placed, next := Particles.InitParticles(particles, W, H, host.random, drawn, false);
      particles, drawn := placed, next;
    }

    /** `scatter()`: size the canvas first when it has no size, then send
        particle `i` to the raw point `raw(i)` clamped into the canvas. The
        raw point stands for the random angle and radius the source draws,
        two numbers per particle. */
    method Scatter(view: Viewport, raw: nat -> Pos)
      requires Valid()
      modifies this`W, this`H, this`canvasWidth, this`canvasHeight, this`particles, this`drawn
      ensures Valid()
      ensures old(W) == 0 || old(H) == 0 ==>
        W == Scaled(ViewWidth(config, view), DPR) && H == Scaled(ViewHeight(config, view), DPR)
      ensures old(W) != 0 && old(H) != 0 ==> W == old(W) && H == old(H) && |particles| == |old(particles)|
      ensures old(W) != 0 && old(H) != 0 ==> forall i :: 0 <= i < |particles| ==>
        particles[i] == old(particles)[i].(tx := ClampTarget(raw(i), W, H).x, ty := ClampTarget(raw(i), W, H).y)
      ensures forall i :: 0 <= i < |particles| ==>
        0.0 <= particles[i].tx <= LastPixel(W) && 0.0 <= particles[i].ty <= LastPixel(H)
    {
      if W == 0 || H == 0 {
        Resize(view);
      }
      var canvasW := if W > 0 then W else canvasWidth;
      var canvasH := if H > 0 then H else canvasHeight;
      var ps := particles;
      var i := 0;
      while i < |ps|
        invariant 0 <= i <= |ps| && |ps| == |particles|
        invariant forall m :: 0 <= m < i ==>
          ps[m] == particles[m].(tx := ClampTarget(raw(m), canvasW, canvasH).x, ty := ClampTarget(raw(m), canvasW, canvasH).y)
        invariant forall m :: i <= m < |ps| ==> ps[m] == particles[m]
      {
        var t := ClampTarget(raw(i), canvasW, canvasH);
        ps := ps[i := ps[i].(tx := t.x, ty := t.y)];
        i := i + 1;
      }
      particles := ps;
      drawn := drawn + 2 * |ps|;
    }

    /** `morph()`: take the new text or options and rebuild, except for
        options without a text. */
    method Morph(arg: MorphArg)
      requires Valid()
      modifies this`particles, this`drawn, this`config
      ensures config == Morphed(old(config), arg)
      ensures MorphRebuilds(arg) ==> TargetsBuilt()
      ensures !MorphRebuilds(arg) ==> particles == old(particles) && drawn == old(drawn)
    {
      config := Morphed(config, arg);
      if MorphRebuilds(arg) {
        BuildTargets();
      }
    }

    /** `updateConfig()`: merge the patch; rebuild when it carries a
        non-empty text. */
    method UpdateConfig(patch: Options)
      requires Valid()
      modifies this`particles, this`drawn, this`config
      ensures config == Merge(old(config), patch)
      ensures patch.text.Some? && patch.text.value != "" ==> TargetsBuilt()
      ensures !(patch.text.Some? && patch.text.value != "") ==> particles == old(particles) && drawn == old(drawn)
    {
      config := Merge(config, patch);
      if patch.text.Some? && patch.text.value != "" {
        BuildTargets();
      }
    }

    /** `animate()`: when running, one `update()` and the next frame. */
    method Animate() returns (notes: seq<Note>)
      requires animationId.Some? ==> 0 < animationId.value <= issued
      modifies this`animationId, this`issued
      ensures animationId.Some? ==> 0 < animationId.value <= issued
      ensures !isRunning ==> animationId == old(animationId) && issued == old(issued) && notes == []
      ensures isRunning ==>
        animationId == Some(old(issued) + 1) && issued == old(issued) + 1 && notes == UpdateNotes(config)
    {
      notes := [];
      if !isRunning {
        return;
      }
      notes := UpdateNotes(config);
      issued := issued + 1;
      animationId := Some(issued);
    }

    /** The pending animation frame fires. */
    method FrameFires() returns (notes: seq<Note>)
      requires Core() && animationId.Some?
      modifies this`animationId, this`issued
      ensures Core()
      ensures animationId == Some(old(issued) + 1) && notes == UpdateNotes(config)
    {
      notes := Animate();
    }

    /** `start()`: a no-op while running. */
    method Start() returns (notes: seq<Note>)
      requires Core()
      modifies this`isRunning, this`animationId, this`issued
      ensures Core() && isRunning
      ensures old(isRunning) ==> animationId == old(animationId) && issued == old(issued) && notes == []
      ensures !old(isRunning) ==> animationId == Some(old(issued) + 1) && notes == UpdateNotes(config)
    {
      notes := [];
      if isRunning {
        return;
      }
      isRunning := true;
      notes := Animate();
    }

    /** `stop()`: no longer running, and no frame pending. */
    method Stop()
      requires Core()
      modifies this`isRunning, this`animationId
      ensures Core() && !isRunning && animationId.None?
    {
      isRunning := false;
      if animationId.Some? {
        animationId := None;
      }
    }

    /** `destroy()`: stop, remove the listeners and take the canvas out of
        the container. */
    method Destroy()
      requires Core()
      modifies this`isRunning, this`animationId, this`listening, this`attached
      ensures Core() && !isRunning && animationId.None? && !listening && !attached
    {
      Stop();
      listening := false;
      attached := false;
    }
  }
}
