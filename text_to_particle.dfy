/** The particle text effect of src/core/textToParticle/index.ts.

    The effect renders its text on an offscreen canvas at the largest font
    size that fits, samples the bright pixels on a grid, and pulls one
    particle to each sampled point. The canvas is clamped to 4096 pixels per
    side. Animation frames, the IntersectionObserver and window resizes are
    host events, modelled as methods; the host's measurements, pixels and
    random numbers come from a `Host` value. */
module TextToParticleEffect {
  import opened Common
  import opened Particles
  import V = Visibility

  /** The largest canvas side `resize` allows. */
  const MaxCanvasSize := 4096

  /** The smallest font size `findOptimalFontSize` returns. */
  const MinFontSize := 12

  // ----- Canvas size -----

  /** `Math.min(4096 / W, 4096 / H)`; a zero side divides to Infinity and
      so never wins the minimum. */
  function ScaleFor(w: int, h: int): real
    requires w > MaxCanvasSize || h > MaxCanvasSize
  {
    if w == 0 then 4096.0 / h as real
    else if h == 0 then 4096.0 / w as real
    else Min(4096.0 / w as real, 4096.0 / h as real)
  }

  /** The canvas size and pixel ratio after the clamp of `resize`. */
  function Clamped(w: int, h: int, dpr: real): (int, int, real) {
    if w > MaxCanvasSize || h > MaxCanvasSize then
      var s := ScaleFor(w, h);
      ((w as real * s).Floor, (h as real * s).Floor, dpr * s)
    else (w, h, dpr)
  }

  /** One side scaled by `4096 / side` or by a smaller factor stays
      within the limit. */
  lemma ScaledSideWithin(side: int, s: real)
    requires side > 0 && s <= 4096.0 / side as real
    ensures (side as real * s).Floor <= MaxCanvasSize
  {
    assert side as real * s <= side as real * (4096.0 / side as real);
  }

  /** A side scaled by exactly `4096 / side` becomes 4096. */
  lemma ExactSide(side: int)
    requires side != 0
    ensures (side as real * (4096.0 / side as real)).Floor == MaxCanvasSize
  {
  }

  /** After the clamp both sides are at most 4096, whatever the sizes and
      the ratio; sizes already within the limit are kept. */
  lemma ClampedWithin(w: int, h: int, dpr: real)
    ensures Clamped(w, h, dpr).0 <= MaxCanvasSize && Clamped(w, h, dpr).1 <= MaxCanvasSize
    ensures w <= MaxCanvasSize && h <= MaxCanvasSize ==> Clamped(w, h, dpr) == (w, h, dpr)
  {
    if w > MaxCanvasSize || h > MaxCanvasSize {
      var s := ScaleFor(w, h);
      if w == 0 {
        ExactSide(h);
      } else if h == 0 {
        ExactSide(w);
      } else if w > 0 && h > 0 {
        ScaledSideWithin(w, s);
        ScaledSideWithin(h, s);
      } else if w > 0 {
        // The negative side divides to the smaller factor, and the other
        // side turns negative.
        assert s == 4096.0 / h as real;
        ExactSide(h);
        assert w as real * s < 0.0;
      } else {
        assert h > 0 && s == 4096.0 / w as real;
        ExactSide(w);
        assert h as real * s < 0.0;
      }
    }
  }

  /** The canvas of a `width` by `height` element at pixel ratio `dpr`,
      clamped: never more than 4096 pixels per side. */
  function CanvasSize(width: real, height: real, dpr: real): (r: (int, int, real))
    ensures r.0 <= MaxCanvasSize && r.1 <= MaxCanvasSize
    ensures (width * dpr).Floor <= MaxCanvasSize && (height * dpr).Floor <= MaxCanvasSize ==>
      r == ((width * dpr).Floor, (height * dpr).Floor, dpr)
  {
    var w := (width * dpr).Floor;
    var h := (height * dpr).Floor;
    ClampedWithin(w, h, dpr);
    Clamped(w, h, dpr)
  }

  // ----- Fitting the text -----

  /** `text.split('\n')`. */
  function SplitLines(t: string): (lines: seq<string>)
    ensures |lines| >= 1
    ensures forall line :: line in lines ==> '\n' !in line
    decreases |t|
  {
    if |t| == 0 then [""]
    else
      var rest := SplitLines(t[1..]);
      if t[0] == '\n' then [""] + rest
      else [[t[0]] + rest[0]] + rest[1..]
  }

  /** `lines.join('\n')`. */
  function JoinLines(lines: seq<string>): string
    requires |lines| >= 1
    decreases |lines|
  {
    if |lines| == 1 then lines[0] else lines[0] + "\n" + JoinLines(lines[1..])
  }

  /** Splitting loses nothing: joining the lines gives the text back. */
  lemma {:induction false} SplitJoin(t: string)
    ensures JoinLines(SplitLines(t)) == t
    decreases |t|
  {
    if |t| > 0 {
      var rest := SplitLines(t[1..]);
      SplitJoin(t[1..]);
      if t[0] == '\n' {
        var lines := [""] + rest;
        assert lines[1..] == rest;
        assert JoinLines(lines) == "" + "\n" + JoinLines(rest);
        assert t == [t[0]] + t[1..];
      } else if |rest| == 1 {
        assert t == [t[0]] + t[1..];
      } else {
        var lines := [[t[0]] + rest[0]] + rest[1..];
        assert lines[1..] == rest[1..];
        assert JoinLines(rest) == rest[0] + "\n" + JoinLines(rest[1..]);
        assert t == [t[0]] + t[1..];
      }
    }
  }

  /** The width `measureTextFit` gives one non-empty line: its measured
      width plus 5% of the font size between neighbouring characters. */
  function LineWidth(line: string, family: string, fs: real, measure: (string, string, real) -> real): real {
    measure(family, line, fs) + fs * 0.05 * (|line| - 1) as real
  }

  /** The widest of the first `n` lines, empty lines skipped, at least 0. */
  function LinesWidth(lines: seq<string>, n: nat, family: string, fs: real,
                      measure: (string, string, real) -> real): (r: real)
    requires n <= |lines|
    ensures r >= 0.0
  {
    if n == 0 then 0.0
    else if lines[n - 1] == "" then LinesWidth(lines, n - 1, family, fs, measure)
    else Max(LinesWidth(lines, n - 1, family, fs, measure), LineWidth(lines[n - 1], family, fs, measure))
  }

  /** The width is that of the widest non-empty line, or 0 when every
      line is empty. */
  lemma {:induction false} LinesWidthIsWidest(lines: seq<string>, n: nat, family: string, fs: real,
                                              measure: (string, string, real) -> real)
    requires n <= |lines|
    ensures forall i :: 0 <= i < n && lines[i] != "" ==>
      LineWidth(lines[i], family, fs, measure) <= LinesWidth(lines, n, family, fs, measure)
    ensures LinesWidth(lines, n, family, fs, measure) == 0.0
      || exists i :: 0 <= i < n && lines[i] != "" && LineWidth(lines[i], family, fs, measure) == LinesWidth(lines, n, family, fs, measure)
  {
    if n > 0 {
      LinesWidthIsWidest(lines, n - 1, family, fs, measure);
    }
  }

  /** What `measureTextFit` reports. */
  datatype Fit = Fit(width: real, height: real, fits: bool)

  /** The fit of `text` at font size `fs`: as wide as its widest line, as
      tall as its lines plus 10% of the font size between neighbouring
      lines; it fits when neither exceeds its maximum. */
  function FitOf(fs: real, text: string, family: string, measure: (string, string, real) -> real,
                 maxW: real, maxH: real): (f: Fit)
    ensures f.fits <==> f.width <= maxW && f.height <= maxH
    ensures var n := |SplitLines(text)|; f.height == fs * n as real + fs * 0.1 * (n - 1) as real
    ensures f.width >= 0.0
  {
    var lines := SplitLines(text);
    var n := |lines|;
    var w := LinesWidth(lines, n, family, fs, measure);
    var h := if n > 0 then fs * n as real + fs * 0.1 * (n - 1) as real else fs;
    Fit(w, h, w <= maxW && h <= maxH)
  }

  predicate FitsAt(fs: real, text: string, family: string, measure: (string, string, real) -> real,
                   maxW: real, maxH: real) {
    FitOf(fs, text, family, measure, maxW, maxH).fits
  }

  /** Text never gets narrower at a larger font size. */
  ghost predicate MeasureMonotone(measure: (string, string, real) -> real) {
    forall family, line, a, b :: a <= b ==> measure(family, line, a) <= measure(family, line, b)
  }

  /** The letter spacing of a line grows with the font size. */
  lemma GapMono(a: real, b: real, gaps: real)
    requires a <= b && 0.0 <= gaps
    ensures a * 0.05 * gaps <= b * 0.05 * gaps
  {
    var d := b - a;
    assert d * gaps >= 0.0;
    assert b * 0.05 * gaps == a * 0.05 * gaps + 0.05 * (d * gaps);
  }

  lemma {:induction false} LinesWidthMonotone(lines: seq<string>, n: nat, family: string, a: real, b: real,
                                              measure: (string, string, real) -> real)
    requires n <= |lines| && a <= b && MeasureMonotone(measure)
    ensures LinesWidth(lines, n, family, a, measure) <= LinesWidth(lines, n, family, b, measure)
  {
    if n > 0 {
      LinesWidthMonotone(lines, n - 1, family, a, b, measure);
      if lines[n - 1] != "" {
        var line := lines[n - 1];
        GapMono(a, b, (|line| - 1) as real);
        assert measure(family, line, a) <= measure(family, line, b);
        assert LineWidth(line, family, a, measure) <= LineWidth(line, family, b, measure);
      }
    }
  }

  /** With a monotone width oracle, text that fits at one size fits at
      every smaller size. */
  lemma FitMonotone(a: real, b: real, text: string, family: string, measure: (string, string, real) -> real,
                    maxW: real, maxH: real)
    requires MeasureMonotone(measure) && a <= b && FitsAt(b, text, family, measure, maxW, maxH)
    ensures FitsAt(a, text, family, measure, maxW, maxH)
  {
    var lines := SplitLines(text);
    var n := |lines|;
    LinesWidthMonotone(lines, n, family, a, b, measure);
    assert a * n as real <= b * n as real;
    assert a * 0.1 * (n - 1) as real <= b * 0.1 * (n - 1) as real;
  }

  /** Fitting as a function of the font size alone. */
  function FitsFor(text: string, family: string, measure: (string, string, real) -> real,
                   maxW: real, maxH: real): real -> bool {
    fs => FitsAt(fs, text, family, measure, maxW, maxH)
  }

  /** A fit oracle that never stops fitting at a smaller size. */
  ghost predicate Antitone(fits: real -> bool) {
    forall a, b :: a <= b && fits(b) ==> fits(a)
  }

  /** A monotone width oracle makes fitting antitone in the font size. */
  lemma FitsForAntitone(text: string, family: string, measure: (string, string, real) -> real,
                        maxW: real, maxH: real)
    requires MeasureMonotone(measure)
    ensures Antitone(FitsFor(text, family, measure, maxW, maxH))
  {
    var fits := FitsFor(text, family, measure, maxW, maxH);
    forall a, b | a <= b && fits(b)
      ensures fits(a)
    {
      FitMonotone(a, b, text, family, measure, maxW, maxH);
    }
  }

  /** What `findOptimalFontSize` promises about its result `size`: the
      initial size when it fits; otherwise a whole size of at least 12 and
      at most the initial one (12 when the initial one is at most 12) that
      fits unless it is 12, and, for an antitone oracle, no larger whole
      size up to the initial one fits. */
  ghost predicate BestFit(size: real, initial: real, fits: real -> bool) {
    && (fits(initial) ==> size == initial)
    && (!fits(initial) ==>
          && MinFontSize as real <= size && size == size.Floor as real
          && (initial <= MinFontSize as real ==> size == MinFontSize as real)
          && (initial > MinFontSize as real ==> size <= initial)
          && (size == MinFontSize as real || fits(size))
          && (Antitone(fits) ==>
                forall k: real :: size < k <= initial && k == k.Floor as real ==> !fits(k)))
  }

  /** A step of the search: when `mid` does not fit, an antitone oracle
      lets no whole size from `mid` up fit either. */
  lemma NoFitFrom(mid: int, high: real, initial: real, fits: real -> bool)
    requires mid as real <= high && !fits(mid as real)
    requires Antitone(fits) ==> forall k: real :: high < k <= initial && k == k.Floor as real ==> !fits(k)
    ensures Antitone(fits) ==> forall k: real :: (mid - 1) as real < k <= initial && k == k.Floor as real ==> !fits(k)
  {
    if Antitone(fits) {
      forall k: real | (mid - 1) as real < k <= initial && k == k.Floor as real
        ensures !fits(k)
      {
        assert mid - 1 < k.Floor;
        assert mid as real <= k;
      }
    }
  }

  /** The end of the search: nothing above the best size found fits. */
  lemma SearchEnds(low: int, high: real, best: int, initial: real, fits: real -> bool)
    requires high < low as real
    requires (best == MinFontSize && low == MinFontSize) || best == low - 1
    requires Antitone(fits) ==> forall k: real :: high < k <= initial && k == k.Floor as real ==> !fits(k)
    ensures Antitone(fits) ==> forall k: real :: best as real < k <= initial && k == k.Floor as real ==> !fits(k)
  {
    if Antitone(fits) {
      forall k: real | best as real < k <= initial && k == k.Floor as real
        ensures !fits(k)
      {
        assert best < k.Floor;
        assert high < k;
      }
    }
  }

  // ----- The effect -----

  class TextToParticle {
    const container: ElementId
    const host: Host
    const debounceDelay: real
    var config: Config
    var W: int
    var H: int
    var DPR: real
    var particles: seq<Particle>
    /** How many numbers of the `host.random` stream have been used. */
    var drawn: nat
    var animationId: Option<Handle>
    var isRunning: bool
    var isVisible: bool
    var intersectionObserver: Option<Handle>
    /** The last handle the host gave out. */
    var issued: Handle
    /** Whether the resize and mouse listeners are installed. */
    var listening: bool
    /** Whether the canvas is in the container. */
    var attached: bool

    ghost predicate Sized()
      reads this`W, this`H
    {
      W <= MaxCanvasSize && H <= MaxCanvasSize
    }

    /** A frame is pending exactly while the effect runs. */
    ghost predicate Running()
      reads this`isRunning, this`animationId
    {
      isRunning <==> animationId.Some?
    }

    ghost predicate Handles()
      reads this`animationId, this`intersectionObserver, this`issued
    {
      && (animationId.Some? ==> 0 < animationId.value <= issued)
      && (intersectionObserver.Some? ==> 0 < intersectionObserver.value <= issued)
    }

    ghost predicate Valid()
      reads this`W, this`H, this`isRunning, this`animationId, this`intersectionObserver, this`issued
    {
      RandomUnit(host.random) && Sized() && Running() && Handles()
    }

    /** The particles are pulled to the sampled points of the text drawn at
        font size `fs` on the current canvas. */
    ghost predicate TargetsBuilt(fs: real)
      reads this`particles, this`config, this`W, this`H
    {
      PulledToSamples(particles, host.pixels(config.text, config.fontFamily, fs, W, H),
                      W, H, GridStep(config.densityStep), config.maxParticles)
    }

    /** The particles are pulled to the text drawn at the font size
        `findOptimalFontSize` settles on for the current canvas. */
    ghost predicate TargetsFitted()
      reads this`particles, this`config, this`W, this`H
    {
      exists fs :: BestFit(fs, InitialFontSize(config.fontSize, W, H),
                           FitsFor(config.text, config.fontFamily, host.measure, (W - 80) as real, (H - 80) as real))
                   && TargetsBuilt(fs)
    }

    /** The state the constructor leaves before it calls `init()`. */
    constructor Init(container: ElementId, host: Host, options: Options, windowDpr: real)
      requires RandomUnit(host.random)
      ensures Valid()
      ensures this.container == container && this.host == host
      ensures config == Configure(options, "mason effect")
      ensures debounceDelay == Or(options.debounceDelay, 150.0)
      ensures W == 0 && H == 0 && DPR == InitialDpr(config.devicePixelRatio, windowDpr)
      ensures particles == [] && drawn == 0 && issued == 0
      ensures !isRunning && !isVisible && animationId.None? && intersectionObserver.None?
      ensures attached && !listening
    {
      this.container := container;
      this.host := host;
      debounceDelay := Or(options.debounceDelay, 150.0);
      config := Configure(options, "mason effect");
      W := 0;
      H := 0;
      DPR := InitialDpr(options.devicePixelRatio, windowDpr);
      particles := [];
      drawn := 0;
      animationId := None;
      isRunning := false;
      isVisible := false;
      intersectionObserver := None;
      issued := 0;
      listening := false;
      attached := true;
    }

    /** `new TextToParticle(container, options)`: fails when the container
        is missing or a canvas has no 2D context, then runs `init()`. */
    static method New(container: Option<ElementId>, hasContext: bool, hasOffscreenContext: bool,
                      host: Host, options: Options, windowDpr: real, view: Viewport, hasIntersectionObserver: bool)
      returns (r: Result<TextToParticle>, notes: seq<Note>)
      requires RandomUnit(host.random)
      ensures container.None? ==> r == Err("Container element not found")
      ensures container.Some? && !hasContext ==> r == Err("Canvas context not available")
      ensures container.Some? && hasContext && !hasOffscreenContext ==>
        r == Err("Offscreen canvas context not available")
      ensures container.Some? && hasContext && hasOffscreenContext ==>
        && r.Ok? && fresh(r.value) && r.value.Valid() && r.value.container == container.value
        && r.value.listening && r.value.attached && r.value.config == Configure(options, "mason effect")
        && (ViewWidth(r.value.config, view) <= 0.0 || ViewHeight(r.value.config, view) <= 0.0 ==>
              r.value.W == 0 && r.value.H == 0 && r.value.particles == [])
        && (ViewWidth(r.value.config, view) > 0.0 && ViewHeight(r.value.config, view) > 0.0 ==>
              (r.value.W, r.value.H, r.value.DPR)
                == CanvasSize(ViewWidth(r.value.config, view), ViewHeight(r.value.config, view),
                              InitialDpr(r.value.config.devicePixelRatio, windowDpr)))
        && (ViewWidth(r.value.config, view) > 0.0 && ViewHeight(r.value.config, view) > 0.0 && r.value.W > 0 ==>
              r.value.H > 0 ==> r.value.TargetsFitted())
        && (!hasIntersectionObserver ==> r.value.isVisible && r.value.isRunning)
        && (hasIntersectionObserver ==> r.value.intersectionObserver.Some? && !r.value.isRunning)
        && (r.value.config.onReady.Some? <==> Ready in notes)
    {
      notes := [];
      if container.None? {
        return Err("Container element not found"), notes;
      }
      if !hasContext {
        return Err("Canvas context not available"), notes;
      }
      if !hasOffscreenContext {
        return Err("Offscreen canvas context not available"), notes;
      }
      var t := new TextToParticle.Init(container.value, host, options, windowDpr);
      notes := t.Initialize(view, hasIntersectionObserver);
      r := Ok(t);
    }

    /** `init()`: size the canvas, install the listeners, watch the
        container, then report ready. */
    method Initialize(view: Viewport, hasIntersectionObserver: bool) returns (notes: seq<Note>)
      requires Valid() && !isRunning && !isVisible && intersectionObserver.None?
      modifies this`W, this`H, this`DPR, this`particles, this`drawn, this`listening
      modifies this`isVisible, this`isRunning, this`animationId, this`issued, this`intersectionObserver
      ensures Valid() && listening
      ensures ViewWidth(config, view) <= 0.0 || ViewHeight(config, view) <= 0.0 ==>
        W == old(W) && H == old(H) && DPR == old(DPR) && particles == old(particles)
      ensures ViewWidth(config, view) > 0.0 && ViewHeight(config, view) > 0.0 ==>
        (W, H, DPR) == CanvasSize(ViewWidth(config, view), ViewHeight(config, view), old(DPR))
      ensures ViewWidth(config, view) > 0.0 && ViewHeight(config, view) > 0.0 && W > 0 && H > 0 ==>
        TargetsFitted()
      ensures !hasIntersectionObserver ==> isVisible && isRunning
      ensures hasIntersectionObserver ==> intersectionObserver.Some? && !isRunning && !isVisible
      ensures config.onReady.Some? <==> Ready in notes
    {
      Resize(view);
      listening := true;
      notes := SetupIntersectionObserver(hasIntersectionObserver);
      if config.onReady.Some? {
        notes := notes + [Ready];
      }
    }

    /** Without an IntersectionObserver the effect counts as visible and
        starts; otherwise it watches the container, once. */
    method SetupIntersectionObserver(hasIntersectionObserver: bool) returns (notes: seq<Note>)
      requires Valid()
      modifies this`isVisible, this`isRunning, this`animationId, this`issued, this`intersectionObserver
      ensures Valid()
      ensures !hasIntersectionObserver ==>
        isVisible && isRunning && intersectionObserver == old(intersectionObserver)
      ensures hasIntersectionObserver ==>
        isVisible == old(isVisible) && isRunning == old(isRunning) && animationId == old(animationId) && notes == []
      ensures hasIntersectionObserver && old(intersectionObserver).Some? ==>
        intersectionObserver == old(intersectionObserver) && issued == old(issued)
      ensures hasIntersectionObserver && old(intersectionObserver).None? ==>
        intersectionObserver == Some(old(issued) + 1) && issued == old(issued) + 1
      ensures Ready !in notes
    {
      notes := [];
      if !hasIntersectionObserver {
        isVisible := true;
        notes := Start();
        return;
      }
      if intersectionObserver.Some? {
        return;
      }
      issued := issued + 1;
      intersectionObserver := Some(issued);
    }

    /** The observer reports a batch of entries: each entry for the
        container sets `isVisible` and starts or stops the effect. */
    method Intersect(entries: seq<V.Entry>) returns (notes: seq<Note>)
      requires Valid() && intersectionObserver.Some?
      modifies this`isVisible, this`isRunning, this`animationId, this`issued
      ensures Valid()
      ensures isVisible == V.BatchVisible(container, old(isVisible), entries)
      ensures V.Own(container, entries) != [] ==> isRunning == isVisible
      ensures V.Own(container, entries) == [] ==>
        isRunning == old(isRunning) && animationId == old(animationId) && notes == []
    {
      notes := [];
      var i := 0;
      while i < |entries|
        invariant 0 <= i <= |entries| && Valid()
        invariant isVisible == V.BatchVisible(container, old(isVisible), entries[..i])
        invariant V.Own(container, entries[..i]) != [] ==> isRunning == isVisible
        invariant V.Own(container, entries[..i]) == [] ==>
          isRunning == old(isRunning) && animationId == old(animationId) && notes == []
      {
        assert entries[..i + 1][..i] == entries[..i];
        var entry := entries[i];
        if entry.target == container {
          if entry.isIntersecting {
            isVisible := true;
            var started := Start();
            notes := notes + started;
          } else {
            isVisible := false;
            Stop();
          }
        }
        i := i + 1;
      }
      assert entries[..i] == entries;
    }

    /** `resize()`: size the canvas from the configuration, the container or
        the window, clamp it to 4096 per side, then rebuild the targets. */
    method Resize(view: Viewport)
      requires Valid()
      modifies this`W, this`H, this`DPR, this`particles, this`drawn
      ensures Valid()
      ensures ViewWidth(config, view) <= 0.0 || ViewHeight(config, view) <= 0.0 ==>
        W == old(W) && H == old(H) && DPR == old(DPR) && particles == old(particles) && drawn == old(drawn)
      ensures ViewWidth(config, view) > 0.0 && ViewHeight(config, view) > 0.0 ==>
        (W, H, DPR) == CanvasSize(ViewWidth(config, view), ViewHeight(config, view), old(DPR))
      ensures ViewWidth(config, view) > 0.0 && ViewHeight(config, view) > 0.0 && W > 0 && H > 0 ==>
        TargetsFitted()
      ensures !(W > 0 && H > 0) ==> particles == old(particles) && drawn == old(drawn)
    {
      var width := ViewWidth(config, view);
      var height := ViewHeight(config, view);
      if width <= 0.0 || height <= 0.0 {
        return;
      }
      var size := CanvasSize(width, height, DPR);
      W, H, DPR := size.0, size.1, size.2;
      if W > 0 && H > 0 {
        ghost var fs := BuildTargets();
        if |particles| == 0 {
          InitParticles();
        }
        assert TargetsBuilt(fs);
        assert TargetsFitted();
      }
    }

    /** `measureTextFit`: measure every line of `text` at `fontSize`. */
    method MeasureTextFit(fontSize: real, text: string, maxW: real, maxH: real) returns (m: Fit)
      ensures m == FitOf(fontSize, text, config.fontFamily, host.measure, maxW, maxH)
    {
      var lines := SplitLines(text);
      var spacing := fontSize * 0.05;
      var maxLineWidth := 0.0;
      var i := 0;
      while i < |lines|
        invariant 0 <= i <= |lines|
        invariant maxLineWidth == LinesWidth(lines, i, config.fontFamily, fontSize, host.measure)
      {
        var line := lines[i];
        if |line| != 0 {
          var textWidth := host.measure(config.fontFamily, line, fontSize);
          var totalWidth := textWidth + spacing * (|line| - 1) as real;
          maxLineWidth := Max(maxLineWidth, totalWidth);
        }
        i := i + 1;
      }
      var n := |lines|;
      var totalHeight := if n > 0 then fontSize * n as real + fontSize * 0.1 * (n - 1) as real else fontSize;
      m := Fit(maxLineWidth, totalHeight, maxLineWidth <= maxW && totalHeight <= maxH);
    }

    /** `findOptimalFontSize`: the initial size when it fits, else a binary
        search over the whole sizes from 12 up to the initial one. */
    method FindOptimalFontSize(text: string, maxW: real, maxH: real, initial: real) returns (size: real)
      ensures BestFit(size, initial, FitsFor(text, config.fontFamily, host.measure, maxW, maxH))
    {
      ghost var fits := FitsFor(text, config.fontFamily, host.measure, maxW, maxH);
      var first := MeasureTextFit(initial, text, maxW, maxH);
      assert first.fits == fits(initial);
      if first.fits {
        return initial;
      }
      if initial <= MinFontSize as real {
        return MinFontSize as real;
      }
      var low: int := MinFontSize;
      var high: real := initial;
      var best: int := MinFontSize;
      while low as real <= high
        invariant MinFontSize <= low && MinFontSize <= best && high <= initial && best as real <= initial
        invariant (best == MinFontSize && low == MinFontSize) || (best == low - 1 && fits(best as real))
        invariant Antitone(fits) ==> forall k: real :: high < k <= initial && k == k.Floor as real ==> !fits(k)
        decreases high.Floor - low
      {
        var mid := ((low as real + high) / 2.0).Floor;
        var m := MeasureTextFit(mid as real, text, maxW, maxH);
        assert m.fits == fits(mid as real);
        if m.fits {
          best := mid;
          low := mid + 1;
        } else {
          NoFitFrom(mid, high, initial, fits);
          high := (mid - 1) as real;
        }
      }
      SearchEnds(low, high, best, initial, fits);
      size := best as real;
      assert size.Floor == best;
    }

    /** `buildTargets()`: draw the text at the best-fitting font size within
        a 40-pixel padding, sample it, and pull the particles to the samples.
        Returns, as a ghost, the font size it drew at. */
    method BuildTargets() returns (ghost fontSize: real)
      requires Valid()
      modifies this`particles, this`drawn
      ensures W <= 0 || H <= 0 ==> particles == old(particles) && drawn == old(drawn)
      ensures W > 0 && H > 0 ==>
        && BestFit(fontSize, InitialFontSize(config.fontSize, W, H),
                   FitsFor(config.text, config.fontFamily, host.measure, (W - 80) as real, (H - 80) as real))
        && TargetsBuilt(fontSize)
        && forall i :: 0 <= i < |particles| && i < |old(particles)| ==>
             particles[i] == old(particles)[i].(tx := particles[i].tx, ty := particles[i].ty)
    {
      fontSize := 0.0;
      if W <= 0 || H <= 0 {
        return;
      }
      var initial := InitialFontSize(config.fontSize, W, H);
      var size := FindOptimalFontSize(config.text, (W - 80) as real, (H - 80) as real, initial);
      fontSize := size;
      var img := host.pixels(config.text, config.fontFamily, size, W, H);
      particles, drawn := BuildFromImage(particles, img, W, H, config.densityStep, config.maxParticles,
                                         host.random, drawn, true);
    }

    /** `initParticles()`: every particle to a random point of the canvas,
        at rest, remembered as its initial position. */
    method InitParticles()
      modifies this`particles, this`drawn
      ensures |particles| == |old(particles)| && drawn == old(drawn) + 2 * |particles|
      ensures forall i :: 0 <= i < |particles| ==>
        Placed(old(particles)[i], particles[i], Spot(host.random, old(drawn) + 2 * i, W),
               Spot(host.random, old(drawn) + 2 * i + 1, H), true)
    {
      var placed, next := Particles.InitParticles(particles, W, H, host.random, drawn, true);
      particles, drawn := placed, next;
    }

    /** `scatter()`: every particle heads back to its initial position. */
    method Scatter()
      modifies this`particles
      ensures |particles| == |old(particles)|
      ensures forall i :: 0 <= i < |particles| ==> particles[i] == Home(old(particles)[i])
    {
      var ps := particles;
      var i := 0;
      while i < |ps|
        invariant 0 <= i <= |ps| && |ps| == |particles|
        invariant forall m :: 0 <= m < i ==> ps[m] == Home(particles[m])
        invariant forall m :: i <= m < |ps| ==> ps[m] == particles[m]
      {
        ps := ps[i := Home(ps[i])];
        i := i + 1;
      }
      particles := ps;
    }

    /** `_morphInternal`: size the canvas first when it has no size, then
        take the new text or options and rebuild, except for options
        without a text. */
    method MorphInternal(arg: MorphArg, view: Viewport)
      requires Valid()
      modifies this`W, this`H, this`DPR, this`particles, this`drawn, this`config
      ensures Valid()
      ensures config == Morphed(old(config), arg)
      ensures old(W) != 0 && old(H) != 0 ==> W == old(W) && H == old(H) && DPR == old(DPR)
      ensures old(W) != 0 && old(H) != 0 && !MorphRebuilds(arg) ==>
        particles == old(particles) && drawn == old(drawn)
      ensures MorphRebuilds(arg) && W > 0 && H > 0 ==> TargetsFitted()
    {
      if W == 0 || H == 0 {
        Resize(view);
      }
      config := Morphed(config, arg);
      if MorphRebuilds(arg) {
        ghost var fs := BuildTargets();
        assert W > 0 && H > 0 ==> BestFit(fs, InitialFontSize(config.fontSize, W, H),
          FitsFor(config.text, config.fontFamily, host.measure, (W - 80) as real, (H - 80) as real)) && TargetsBuilt(fs);
      }
    }

    /** `_updateConfigInternal`: merge the patch; rebuild when it carries a
        non-empty text. */
    method UpdateConfigInternal(patch: Options)
      requires Valid()
      modifies this`particles, this`drawn, this`config
      ensures config == Merge(old(config), patch)
      ensures !(patch.text.Some? && patch.text.value != "") ==>
        particles == old(particles) && drawn == old(drawn)
      ensures patch.text.Some? && patch.text.value != "" && W > 0 && H > 0 ==> TargetsFitted()
    {
      config := Merge(config, patch);
      if patch.text.Some? && patch.text.value != "" {
        ghost var fs := BuildTargets();
        assert W > 0 && H > 0 ==> BestFit(fs, InitialFontSize(config.fontSize, W, H),
          FitsFor(config.text, config.fontFamily, host.measure, (W - 80) as real, (H - 80) as real)) && TargetsBuilt(fs);
      }
    }

    /** `animate()`: when running, one `update()` and the next frame. */
    method Animate() returns (notes: seq<Note>)
      requires Handles()
      modifies this`animationId, this`issued
      ensures Handles()
      ensures !isRunning ==> animationId == old(animationId) && issued == old(issued) && notes == []
      ensures isRunning ==>
        animationId == Some(old(issued) + 1) && issued == old(issued) + 1 && notes == UpdateNotes(config)
    {
      notes := [];
      if !isRunning {
        return;
      }
      notes := UpdateNotes(config);
      issued := issued + 1;
      animationId := Some(issued);
    }

    /** The pending animation frame fires. */
    method FrameFires() returns (notes: seq<Note>)
      requires Valid() && animationId.Some?
      modifies this`animationId, this`issued
      ensures Valid()
      ensures animationId == Some(old(issued) + 1) && notes == UpdateNotes(config)
    {
      notes := Animate();
    }

    /** `start()`: a no-op while running. */
    method Start() returns (notes: seq<Note>)
      requires Valid()
      modifies this`isRunning, this`animationId, this`issued
      ensures Valid() && isRunning
      ensures old(isRunning) ==> animationId == old(animationId) && issued == old(issued) && notes == []
      ensures !old(isRunning) ==> animationId == Some(old(issued) + 1) && notes == UpdateNotes(config)
    {
      notes := [];
      if isRunning {
        return;
      }
      isRunning := true;
      notes := Animate();
    }

    /** `stop()`: no longer running, and no frame pending. */
    method Stop()
      requires Valid()
      modifies this`isRunning, this`animationId
      ensures Valid() && !isRunning && animationId.None?
    {
      isRunning := false;
      if animationId.Some? {
        animationId := None;
      }
    }

    /** `destroy()`: stop, remove the listeners, disconnect the observer and
        take the canvas out of the container. */
    method Destroy()
      requires Valid()
      modifies this`isRunning, this`animationId, this`listening, this`intersectionObserver, this`attached
      ensures Valid()
      ensures !isRunning && animationId.None? && !listening && intersectionObserver.None? && !attached
    {
      Stop();
      listening := false;
      if intersectionObserver.Some? {
        intersectionObserver := None;
      }
      attached := false;
    }
  }
}
