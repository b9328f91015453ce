/** What the two particle effects (src/core/textToParticle/index.ts and the
    legacy src/core/index.js) share: the particle record, the grid sampling of
    the rendered text's pixels, the random cap on the number of targets, the
    resizing of the particle list to the targets and the target rules of
    `scatter`. The host's `Math.random` is a stream `random` of draws in
    [0, 1), read from the position `drawn` on. */
module Particles {
  import opened Common

  /** A position on the canvas, in device pixels. */
  datatype Pos = Pos(x: real, y: real)

  /** A sampled pixel: the grid point a particle is pulled to. */
  datatype Point = Point(x: int, y: int)

  /** A particle: position, velocity, target, the initial position `scatter`
      returns to (absent in the legacy effect) and the phase of its wobble. */
  datatype Particle = Particle(
    x: real, y: real, vx: real, vy: real, tx: real, ty: real,
    initial: Option<Pos>, j: real)

  /** `Math.random` only ever yields draws in [0, 1). */
  ghost predicate RandomUnit(random: nat -> real) {
    forall k :: 0.0 <= random(k) < 1.0
  }

  /** Two pi, as the float `Math.PI * 2`. */
  const TwoPi: real := 6.283185307179586

  /** `makeParticle`: at rest on a random point of the canvas, pulled to that
      same point; `recordInitial` says whether the point is also kept as the
      particle's initial position (the legacy effect keeps none). */
  function MakeParticle(w: int, h: int, r1: real, r2: real, r3: real, recordInitial: bool): (p: Particle)
    ensures p.tx == p.x && p.ty == p.y && p.vx == 0.0 && p.vy == 0.0
    ensures recordInitial ==> p.initial == Some(Pos(p.x, p.y))
    ensures !recordInitial ==> p.initial.None?
  {
    var sx := r1 * w as real;
    var sy := r2 * h as real;
    Particle(sx, sy, 0.0, 0.0, sx, sy, if recordInitial then Some(Pos(sx, sy)) else None, r3 * TwoPi)
  }

  /** A draw in [0, 1) scaled by a positive size lands inside [0, size). */
  lemma ScaledDrawWithin(r: real, size: int)
    requires 0.0 <= r < 1.0 && size > 0
    ensures 0.0 <= r * size as real < size as real
    ensures 0 <= (r * size as real).Floor < size
  {
    assert size as real - r * size as real == (1.0 - r) * size as real;
    assert (1.0 - r) * size as real > 0.0;
  }

  /** A new particle starts inside the canvas. */
  lemma MadeParticleOnCanvas(w: int, h: int, r1: real, r2: real, r3: real, recordInitial: bool)
    requires w > 0 && h > 0 && 0.0 <= r1 < 1.0 && 0.0 <= r2 < 1.0
    ensures var p := MakeParticle(w, h, r1, r2, r3, recordInitial);
      0.0 <= p.x < w as real && 0.0 <= p.y < h as real
  {
    ScaledDrawWithin(r1, w);
    ScaledDrawWithin(r2, h);
  }

  /** The red, green and blue bytes of pixel (x, y) of a `w`-wide RGBA buffer
      add up to more than 600. A read outside the buffer is `undefined` in
      the source, and the sum is then `NaN`, which is never bright. */
  predicate Bright(img: seq<int>, w: int, p: Point) {
    var i := (p.y * w + p.x) * 4;
    0 <= i && i + 2 < |img| && img[i] + img[i + 1] + img[i + 2] > 600
  }

  /** A target the sampling keeps: a point of the `step` grid inside the
      `w` by `h` canvas whose pixel is bright. */
  predicate Sampled(img: seq<int>, w: int, h: int, step: int, p: Point)
    requires step > 0
  {
    && 0 <= p.x < w && 0 <= p.y < h
    && p.x % step == 0 && p.y % step == 0
    && Bright(img, w, p)
  }

  /** Row-major order: by row, then by column. */
  predicate Before(p: Point, q: Point) {
    p.y < q.y || (p.y == q.y && p.x < q.x)
  }

  /** Strictly in row-major order, hence without repetition. */
  predicate RowMajor(t: seq<Point>) {
    forall i, k :: 0 <= i < k < |t| ==> Before(t[i], t[k])
  }

  /** Multiplying by a non-negative factor keeps the order. */
  lemma {:induction false} MulMonoInt(x: int, y: int, s: int)
    requires x <= y && s >= 0
    ensures x * s <= y * s
    decreases s
  {
    if s > 0 {
      MulMonoInt(x, y, s - 1);
      assert x * s == x * (s - 1) + x;
      assert y * s == y * (s - 1) + y;
    }
  }

  /** A multiple of `step` below `step` and not negative is zero. */
  lemma SmallMultiple(d: int, step: int)
    requires step > 0 && 0 <= d * step < step
    ensures d == 0
  {
    if d >= 1 {
      MulMonoInt(1, d, step);
      assert false;
    }
    if d <= -1 {
      MulMonoInt(d, -1, step);
      assert false;
    }
  }

  /** One step on from a multiple of `step` is a multiple of `step`. */
  lemma ModAddStep(x: int, step: int)
    requires step > 0 && x % step == 0
    ensures (x + step) % step == 0
  {
    var q := x / step;
    var q2 := (x + step) / step;
    var r := (x + step) % step;
    assert x == q * step;
    assert x + step == q2 * step + r;
    assert r == (q + 1 - q2) * step;
    SmallMultiple(q + 1 - q2, step);
  }

  /** Two distinct multiples of `step` are at least `step` apart. */
  lemma NextMultiple(a: int, b: int, step: int)
    requires step > 0 && a % step == 0 && b % step == 0 && a < b
    ensures a + step <= b
  {
    var qa := a / step;
    var qb := b / step;
    assert a == qa * step && b == qb * step;
    if qb <= qa {
      MulMonoInt(qb, qa, step);
      assert false;
    }
    MulMonoInt(qa + 1, qb, step);
    assert (qa + 1) * step == qa * step + step;
  }

  /** For a buffer of the canvas's size, every pixel the sampling reads is in
      bounds. */
  lemma PixelInBounds(img: seq<int>, w: int, h: int, x: int, y: int)
    requires 0 <= x < w && 0 <= y < h && |img| == w * h * 4
    ensures 0 <= (y * w + x) * 4 && (y * w + x) * 4 + 2 < |img|
  {
    assert y * w <= (h - 1) * w;
    assert y * w + x < h * w;
  }

  /** The sampling loops of `buildTargets`: every `step`-th pixel of every
      `step`-th row, row by row, keeping the bright ones. */
  method SampleTargets(img: seq<int>, w: int, h: int, step: int) returns (targets: seq<Point>)
    requires step >= 2
    ensures forall p :: p in targets <==> Sampled(img, w, h, step, p)
    ensures RowMajor(targets)
  {
    targets := [];
    var y := 0;
    while y < h
      invariant 0 <= y && y % step == 0
      invariant forall p :: p in targets <==> Sampled(img, w, h, step, p) && p.y < y
      invariant RowMajor(targets)
    {
      targets := SampleRow(img, w, h, y, step, targets);
      forall p | Sampled(img, w, h, step, p) && y < p.y
        ensures y + step <= p.y
      {
        NextMultiple(y, p.y, step);
      }
      ModAddStep(y, step);
      y := y + step;
    }
  }

  /** The inner loop: the bright grid points of row `y`, appended in order. */
  method SampleRow(img: seq<int>, w: int, h: int, y: int, step: int, before: seq<Point>)
    returns (targets: seq<Point>)
    requires step >= 2 && 0 <= y < h && y % step == 0
    requires forall p :: p in before ==> p.y < y
    requires RowMajor(before)
    ensures forall p :: p in targets <==> p in before || (Sampled(img, w, h, step, p) && p.y == y)
    ensures RowMajor(targets)
  {
    targets := before;
    var x := 0;
    while x < w
      invariant 0 <= x && x % step == 0
      invariant forall p :: p in targets <==>
        p in before || (Sampled(img, w, h, step, p) && p.y == y && p.x < x)
      invariant RowMajor(targets)
      invariant forall k :: 0 <= k < |targets| ==> Before(targets[k], Point(x, y))
    {
      var i := (y * w + x) * 4;
      if 0 <= i && i + 2 < |img| && img[i] + img[i + 1] + img[i + 2] > 600 {
        targets := targets + [Point(x, y)];
      }
      forall p | Sampled(img, w, h, step, p) && p.y == y && x < p.x
        ensures x + step <= p.x
      {
        NextMultiple(x, p.x, step);
      }
      ModAddStep(x, step);
      x := x + step;
    }
  }

  /** Dropping one element keeps what is left in row-major order. */
  lemma RemovalKeepsOrder(t: seq<Point>, idx: nat)
    requires idx < |t| && RowMajor(t)
    ensures RowMajor(t[..idx] + t[idx + 1..])
  {
    var r := t[..idx] + t[idx + 1..];
    forall i, k | 0 <= i < k < |r|
      ensures Before(r[i], r[k])
    {
      var i' := if i < idx then i else i + 1;
      var k' := if k < idx then k else k + 1;
      assert r[i] == t[i'] && r[k] == t[k'];
    }
  }

  /** Dropping the element at `idx`: one fewer, none new, order kept. */
  lemma RemovalFacts(t: seq<Point>, idx: nat)
    requires idx < |t|
    ensures |t[..idx] + t[idx + 1..]| == |t| - 1
    ensures multiset(t[..idx] + t[idx + 1..]) <= multiset(t)
    ensures RowMajor(t) ==> RowMajor(t[..idx] + t[idx + 1..])
  {
    assert t == t[..idx] + [t[idx]] + t[idx + 1..];
    if RowMajor(t) {
      RemovalKeepsOrder(t, idx);
    }
  }

  /** The targets without the one at `idx`. */
  function Without(t: seq<Point>, idx: nat): (r: seq<Point>)
    requires idx < |t|
    ensures |r| == |t| - 1 && multiset(r) <= multiset(t)
    ensures RowMajor(t) ==> RowMajor(r)
  {
    RemovalFacts(t, idx);
    t[..idx] + t[idx + 1..]
  }

  /** `Math.floor(r * n)`: the index a draw in [0, 1) picks among `n` items. */
  function DrawIndex(r: real, n: int): (idx: nat)
    requires 0.0 <= r < 1.0 && n > 0
    ensures idx < n
  {
    ScaledDrawWithin(r, n);
    (r * n as real).Floor
  }

  /** The cap of `buildTargets`: while there are more targets than
      `maxParticles`, drop the one at a random index. The targets left are
      as many as the cap allows, all of them drawn from the sampled ones,
      still in order; one draw is spent per target dropped. */
  method CapTargets(targets: seq<Point>, maxParticles: nat, random: nat -> real, drawn: nat)
    returns (capped: seq<Point>, next: nat)
    requires RandomUnit(random)
    ensures |capped| == if |targets| <= maxParticles then |targets| else maxParticles
    ensures multiset(capped) <= multiset(targets)
    ensures RowMajor(targets) ==> RowMajor(capped)
    ensures next == drawn + (|targets| - |capped|)
    ensures |targets| <= maxParticles ==> capped == targets
  {
    capped := targets;
    next := drawn;
    while |capped| > maxParticles
      invariant |capped| >= (if |targets| <= maxParticles then |targets| else maxParticles)
      invariant |capped| <= |targets|
      invariant multiset(capped) <= multiset(targets)
      invariant RowMajor(targets) ==> RowMajor(capped)
      invariant next == drawn + (|targets| - |capped|)
      invariant |targets| <= maxParticles ==> capped == targets
    {
      capped := Without(capped, DrawIndex(random(next), |capped|));
      next := next + 1;
    }
  }

  /** The particle-count adjustment of `buildTargets`: push new particles
      until there are `n`, or cut the list down to `n`. Particles that stay
      are untouched; each new one spends three draws. */
  method FitParticles(particles: seq<Particle>, n: nat, w: int, h: int,
                      random: nat -> real, drawn: nat, recordInitial: bool)
    returns (fitted: seq<Particle>, next: nat)
    ensures |fitted| == n
    ensures forall i :: 0 <= i < |particles| && i < n ==> fitted[i] == particles[i]
    ensures forall i :: |particles| <= i < n ==>
      var k := drawn + 3 * (i - |particles|);
      fitted[i] == MakeParticle(w, h, random(k), random(k + 1), random(k + 2), recordInitial)
    ensures next == drawn + 3 * (if |particles| < n then n - |particles| else 0)
  {
    fitted := particles;
    next := drawn;
    if |particles| < n {
      var need := n - |particles|;
      var i := 0;
      while i < need
        invariant 0 <= i <= need && |fitted| == |particles| + i
        invariant fitted[..|particles|] == particles
        invariant next == drawn + 3 * i
        invariant forall m :: |particles| <= m < |fitted| ==>
          var k := drawn + 3 * (m - |particles|);
          fitted[m] == MakeParticle(w, h, random(k), random(k + 1), random(k + 2), recordInitial)
      {
        fitted := fitted + [MakeParticle(w, h, random(next), random(next + 1), random(next + 2), recordInitial)];
        next := next + 3;
        i := i + 1;
      }
    } else if |particles| > n {
      fitted := particles[..n];
    }
  }

  /** The target assignment of `buildTargets`: particle `i` is pulled to
      target `i`; nothing else about it changes. */
  method AssignTargets(particles: seq<Particle>, targets: seq<Point>) returns (pulled: seq<Particle>)
    requires |particles| == |targets|
    ensures |pulled| == |particles|
    ensures forall i :: 0 <= i < |pulled| ==>
      pulled[i] == particles[i].(tx := targets[i].x as real, ty := targets[i].y as real)
  {
    pulled := particles;
    var i := 0;
    while i < |pulled|
      invariant 0 <= i <= |pulled| && |pulled| == |particles|
      invariant forall m :: 0 <= m < i ==>
        pulled[m] == particles[m].(tx := targets[m].x as real, ty := targets[m].y as real)
      invariant forall m :: i <= m < |pulled| ==> pulled[m] == particles[m]
    {
      var t := targets[i];
      pulled := pulled[i := pulled[i].(tx := t.x as real, ty := t.y as real)];
      i := i + 1;
    }
  }

  /** `initParticles`: every particle to a random point of the canvas, at
      rest, two draws each; `recordInitial` also keeps the point as its
      initial position. Targets and phase are left alone. */
  method InitParticles(particles: seq<Particle>, w: int, h: int,
                       random: nat -> real, drawn: nat, recordInitial: bool)
    returns (placed: seq<Particle>, next: nat)
    ensures |placed| == |particles| && next == drawn + 2 * |particles|
    ensures forall i :: 0 <= i < |placed| ==>
      Placed(particles[i], placed[i], Spot(random, drawn + 2 * i, w),
             Spot(random, drawn + 2 * i + 1, h), recordInitial)
  {
    placed := particles;
    next := drawn;
    var i := 0;
    while i < |placed|
      invariant 0 <= i <= |placed| && |placed| == |particles| && next == drawn + 2 * i
      invariant forall m :: 0 <= m < i ==>
        Placed(particles[m], placed[m], Spot(random, drawn + 2 * m, w),
               Spot(random, drawn + 2 * m + 1, h), recordInitial)
      invariant forall m :: i <= m < |placed| ==> placed[m] == particles[m]
    {
      var sx := Spot(random, next, w);
      var sy := Spot(random, next + 1, h);
      var p := placed[i].(x := sx, y := sy, vx := 0.0, vy := 0.0);
      if recordInitial {
        p := p.(initial := Some(Pos(sx, sy)));
      }
      assert Placed(particles[i], p, Spot(random, drawn + 2 * i, w),
                    Spot(random, drawn + 2 * i + 1, h), recordInitial);
      placed := placed[i := p];
      next := next + 2;
      i := i + 1;
      assert forall m :: 0 <= m < i ==>
        Placed(particles[m], placed[m], Spot(random, drawn + 2 * m, w),
               Spot(random, drawn + 2 * m + 1, h), recordInitial);
    }
  }

  /** The coordinate a draw in [0, 1) picks along a side of `size` pixels. */
  function Spot(random: nat -> real, k: nat, size: int): real {
    random(k) * size as real
  }

  /** `after` is `before` moved to (sx, sy) and at rest, with (sx, sy) as its
      initial position when `recordInitial`, and otherwise unchanged. */
  predicate Placed(before: Particle, after: Particle, sx: real, sy: real, recordInitial: bool) {
    && after.x == sx && after.y == sy && after.vx == 0.0 && after.vy == 0.0
    && after.tx == before.tx && after.ty == before.ty && after.j == before.j
    && after.initial == (if recordInitial then Some(Pos(sx, sy)) else before.initial)
  }

  /** The rule of `scatter` in src/core/textToParticle/index.ts for one
      particle: back to its initial position, which is first taken from its
      current position when it has none. */
  function Home(p: Particle): (q: Particle)
    ensures q.initial.Some? && q.tx == q.initial.value.x && q.ty == q.initial.value.y
    ensures q.x == p.x && q.y == p.y && q.vx == p.vx && q.vy == p.vy && q.j == p.j
    ensures p.initial.Some? ==> q.initial == p.initial
    ensures p.initial.None? ==> q.initial == Some(Pos(p.x, p.y))
  {
    if p.initial.Some? then p.(tx := p.initial.value.x, ty := p.initial.value.y)
    else p.(initial := Some(Pos(p.x, p.y)), tx := p.x, ty := p.y)
  }

  /** Scattering twice is scattering once. */
  lemma HomeIdempotent(p: Particle)
    ensures Home(Home(p)) == Home(p)
  {
  }

  /** The clamp of the legacy `scatter`: a raw target into
      [0, width - 1] by [0, height - 1]. */
  function ClampTarget(raw: Pos, width: int, height: int): (t: Pos)
    ensures width >= 1 ==> 0.0 <= t.x <= (width - 1) as real
    ensures height >= 1 ==> 0.0 <= t.y <= (height - 1) as real
    ensures width >= 1 && 0.0 <= raw.x <= (width - 1) as real ==> t.x == raw.x
    ensures height >= 1 && 0.0 <= raw.y <= (height - 1) as real ==> t.y == raw.y
    ensures width < 1 ==> t.x == 0.0
    ensures height < 1 ==> t.y == 0.0
  {
    Pos(Max(0.0, Min((width - 1) as real, raw.x)), Max(0.0, Min((height - 1) as real, raw.y)))
  }

  /** Clamping a clamped target changes nothing. */
  lemma ClampIdempotent(raw: Pos, width: int, height: int)
    ensures ClampTarget(ClampTarget(raw, width, height), width, height) == ClampTarget(raw, width, height)
  {
  }

  /** The target of a particle as a grid point. */
  function TargetOf(p: Particle): Point {
    Point(p.tx.Floor, p.ty.Floor)
  }

  /** The particles are pulled to sampled points of the image: no more of
      them than `maxParticles`, each to a bright grid point, in row-major
      order, and, when the cap was not reached, to every such point. */
  ghost predicate PulledToSamples(ps: seq<Particle>, img: seq<int>, w: int, h: int, step: int, maxParticles: nat)
    requires step > 0
  {
    && |ps| <= maxParticles
    && (forall i :: 0 <= i < |ps| ==>
          ps[i].tx == ps[i].tx.Floor as real && ps[i].ty == ps[i].ty.Floor as real
          && Sampled(img, w, h, step, TargetOf(ps[i])))
    && (forall i, k :: 0 <= i < k < |ps| ==> Before(TargetOf(ps[i]), TargetOf(ps[k])))
    && (|ps| < maxParticles ==>
          forall p :: Sampled(img, w, h, step, p) ==> exists i :: 0 <= i < |ps| && TargetOf(ps[i]) == p)
  }

  /** The particle adjustment and target assignment of `buildTargets`
      together: as many particles as targets, particle `i` pulled to
      target `i`, the ones that stay otherwise untouched. */
  method PullToTargets(particles: seq<Particle>, targets: seq<Point>, w: int, h: int,
                       random: nat -> real, drawn: nat, recordInitial: bool)
    returns (ps: seq<Particle>, next: nat)
    ensures |ps| == |targets|
    ensures forall i :: 0 <= i < |ps| ==>
      ps[i].tx == targets[i].x as real && ps[i].ty == targets[i].y as real && TargetOf(ps[i]) == targets[i]
    ensures forall i :: 0 <= i < |ps| && i < |particles| ==>
      ps[i] == particles[i].(tx := targets[i].x as real, ty := targets[i].y as real)
    ensures next == drawn + 3 * (if |particles| < |targets| then |targets| - |particles| else 0)
  {
    var fitted;
    fitted, next := FitParticles(particles, |targets|, w, h, random, drawn, recordInitial);
    ps := AssignTargets(fitted, targets);
  }

  /** The second half of `buildTargets`, shared by both effects: sample the
      rendered image on a grid of step `max(2, densityStep)`, cap the
      targets at `maxParticles`, fit the particles to them. */
  method BuildFromImage(particles: seq<Particle>, img: seq<int>, w: int, h: int, densityStep: int,
                        maxParticles: nat, random: nat -> real, drawn: nat, recordInitial: bool)
    returns (ps: seq<Particle>, next: nat)
    requires RandomUnit(random)
    ensures PulledToSamples(ps, img, w, h, GridStep(densityStep), maxParticles)
    ensures forall i :: 0 <= i < |ps| && i < |particles| ==>
      ps[i] == particles[i].(tx := ps[i].tx, ty := ps[i].ty)
    ensures next >= drawn
  {
    var step := GridStep(densityStep);
    var targets := SampleTargets(img, w, h, step);
    var capped, afterCap := CapTargets(targets, maxParticles, random, drawn);
    ps, next := PullToTargets(particles, capped, w, h, random, afterCap, recordInitial);
    forall i | 0 <= i < |ps|
      ensures Sampled(img, w, h, step, TargetOf(ps[i]))
    {
      assert capped[i] in multiset(targets);
    }
    if |ps| < maxParticles {
      forall p | Sampled(img, w, h, step, p)
        ensures exists i :: 0 <= i < |ps| && TargetOf(ps[i]) == p
      {
        var i :| 0 <= i < |targets| && targets[i] == p;
        assert TargetOf(ps[i]) == p;
      }
    }
  }

  /** The host, as far as the particle effects see it: `Math.random`, the
      width `measureText` reports for a text in a font family at a font
      size, and the RGBA bytes `getImageData` returns for a `w` by `h`
      canvas after the text is drawn at a font size. */
  datatype Host = Host(
    random: nat -> real,
    measure: (string, string, real) -> real,
    pixels: (string, string, real, int, int) -> seq<int>)

  /** The container's and the window's sizes, read by `resize`. */
  datatype Viewport = Viewport(clientWidth: real, clientHeight: real, innerWidth: real, innerHeight: real)

  /** A number option is falsy when absent or zero. */
  predicate Truthy(o: Option<real>) {
    o.Some? && o.value != 0.0
  }

  /** `configured || client || fallback`. */
  function Dim(configured: Option<real>, client: real, fallback: real): (d: real)
    ensures Truthy(configured) ==> d == configured.value
    ensures !Truthy(configured) && client != 0.0 ==> d == client
    ensures !Truthy(configured) && client == 0.0 ==> d == fallback
  {
    if Truthy(configured) then configured.value else if client != 0.0 then client else fallback
  }

  /** The pixel ratio: the configured one when truthy, else the window's
      (1 when it has none), at most 1.8. */
  function InitialDpr(configured: Option<real>, windowDpr: real): (d: real)
    ensures !Truthy(configured) ==> d <= 1.8
    ensures !Truthy(configured) && 0.0 < windowDpr <= 1.8 ==> d == windowDpr
    ensures !Truthy(configured) && windowDpr > 1.8 ==> d == 1.8
    ensures !Truthy(configured) && windowDpr == 0.0 ==> d == 1.0
    ensures Truthy(configured) ==> d == configured.value
  {
    if Truthy(configured) then configured.value else Min(if windowDpr != 0.0 then windowDpr else 1.0, 1.8)
  }

  datatype Options = Options(
    text: Option<string>, densityStep: Option<int>, maxParticles: Option<nat>,
    pointSize: Option<real>, ease: Option<real>, repelRadius: Option<real>, repelStrength: Option<real>,
    particleColor: Option<string>, fontFamily: Option<string>, fontSize: Option<real>,
    width: Option<real>, height: Option<real>, devicePixelRatio: Option<real>,
    debounceDelay: Option<real>, onReady: Option<CallbackId>, onUpdate: Option<CallbackId>)

  /** A `fontSize`, `width`, `height` or `devicePixelRatio` of `None` is the
      source's `null`; the other fields always hold a value. */
  datatype Config = Config(
    text: string, densityStep: int, maxParticles: nat,
    pointSize: real, ease: real, repelRadius: real, repelStrength: real,
    particleColor: string, fontFamily: string, fontSize: Option<real>,
    width: Option<real>, height: Option<real>, devicePixelRatio: Option<real>,
    onReady: Option<CallbackId>, onUpdate: Option<CallbackId>)

  function OrString(o: Option<string>, d: string): string {
    if o.Some? && o.value != "" then o.value else d
  }

  function Or<T>(o: Option<T>, d: T): T {
    if o.Some? then o.value else d
  }

  /** `options.x || null` for a number option. */
  function OrNull(o: Option<real>): Option<real> {
    if Truthy(o) then o else None
  }

  /** The constructor's configuration: an empty or missing text becomes
      `defaultText`; density step 2, at most 3200 particles, point size 0.5,
      ease 0.05, repel radius 150 and strength 1, color "#fff", font family
      "Inter, system-ui, Arial"; falsy sizes become `null`. */
  function Configure(o: Options, defaultText: string): (c: Config)
    ensures c.text == OrString(o.text, defaultText)
    ensures defaultText != "" ==> c.text != ""
    ensures c.densityStep == Or(o.densityStep, 2) && c.maxParticles == Or(o.maxParticles, 3200)
    ensures c.pointSize == Or(o.pointSize, 0.5) && c.ease == Or(o.ease, 0.05)
    ensures c.repelRadius == Or(o.repelRadius, 150.0) && c.repelStrength == Or(o.repelStrength, 1.0)
    ensures c.particleColor == OrString(o.particleColor, "#fff")
    ensures c.fontFamily == OrString(o.fontFamily, "Inter, system-ui, Arial")
    ensures c.fontSize == OrNull(o.fontSize) && c.width == OrNull(o.width) && c.height == OrNull(o.height)
    ensures c.devicePixelRatio == o.devicePixelRatio
    ensures c.onReady == o.onReady && c.onUpdate == o.onUpdate
  {
    Config(OrString(o.text, defaultText), Or(o.densityStep, 2), Or(o.maxParticles, 3200),
           Or(o.pointSize, 0.5), Or(o.ease, 0.05), Or(o.repelRadius, 150.0), Or(o.repelStrength, 1.0),
           OrString(o.particleColor, "#fff"), OrString(o.fontFamily, "Inter, system-ui, Arial"),
           OrNull(o.fontSize), OrNull(o.width), OrNull(o.height), o.devicePixelRatio,
           o.onReady, o.onUpdate)
  }

  /** `{ ...config, ...patch }`: every field the patch carries replaces the
      configured one. */
  function Merge(c: Config, p: Options): (r: Config)
    ensures r.text == Or(p.text, c.text) && r.densityStep == Or(p.densityStep, c.densityStep)
    ensures r.maxParticles == Or(p.maxParticles, c.maxParticles)
    ensures r.fontFamily == Or(p.fontFamily, c.fontFamily)
    ensures r.fontSize == (if p.fontSize.Some? then p.fontSize else c.fontSize)
    ensures r.width == (if p.width.Some? then p.width else c.width)
    ensures r.height == (if p.height.Some? then p.height else c.height)
    ensures r.pointSize == Or(p.pointSize, c.pointSize) && r.ease == Or(p.ease, c.ease)
    ensures r.repelRadius == Or(p.repelRadius, c.repelRadius) && r.repelStrength == Or(p.repelStrength, c.repelStrength)
    ensures r.particleColor == Or(p.particleColor, c.particleColor)
    ensures r.devicePixelRatio == (if p.devicePixelRatio.Some? then p.devicePixelRatio else c.devicePixelRatio)
    ensures r.onReady == (if p.onReady.Some? then p.onReady else c.onReady)
    ensures r.onUpdate == (if p.onUpdate.Some? then p.onUpdate else c.onUpdate)
    ensures p == Options(None, None, None, None, None, None, None, None, None, None, None, None, None, None, None, None) ==> r == c
  {
    Config(
      Or(p.text, c.text), Or(p.densityStep, c.densityStep), Or(p.maxParticles, c.maxParticles),
      Or(p.pointSize, c.pointSize), Or(p.ease, c.ease), Or(p.repelRadius, c.repelRadius),
      Or(p.repelStrength, c.repelStrength), Or(p.particleColor, c.particleColor),
      Or(p.fontFamily, c.fontFamily),
      if p.fontSize.Some? then p.fontSize else c.fontSize,
      if p.width.Some? then p.width else c.width,
      if p.height.Some? then p.height else c.height,
      if p.devicePixelRatio.Some? then p.devicePixelRatio else c.devicePixelRatio,
      if p.onReady.Some? then p.onReady else c.onReady,
      if p.onUpdate.Some? then p.onUpdate else c.onUpdate)
  }

  /** Merging the same patch twice is merging it once. */
  lemma MergeIdempotent(c: Config, p: Options)
    ensures Merge(Merge(c, p), p) == Merge(c, p)
  {
  }

  /** The argument of `morph`: a string, an options object, or nothing. */
  datatype MorphArg = MorphText(text: string) | MorphOptions(patch: Options) | MorphNothing

  /** Whether `morph` rebuilds the targets: always, except for an object
      without a `text` key. */
  predicate MorphRebuilds(arg: MorphArg) {
    !(arg.MorphOptions? && arg.patch.text.None?)
  }

  /** The configuration after `morph`. */
  function Morphed(c: Config, arg: MorphArg): (r: Config)
    ensures arg.MorphText? ==> r == c.(text := arg.text)
    ensures arg.MorphOptions? ==> r == Merge(c, arg.patch)
    ensures arg.MorphNothing? ==> r == c
  {
    match arg
    case MorphText(t) => c.(text := t)
    case MorphOptions(p) => Merge(c, p)
    case MorphNothing => c
  }

  /** What an effect reports to its caller's callbacks. */
  datatype Note = Ready | Updated

  /** The callbacks one `update()` invokes. */
  function UpdateNotes(c: Config): (notes: seq<Note>)
    ensures notes == [] <==> c.onUpdate.None?
  {
    if c.onUpdate.Some? then [Updated] else []
  }

  /** The sampling step `max(2, densityStep)`. */
  function GridStep(densityStep: int): (s: int)
    ensures s >= 2 && s >= densityStep
    ensures s == densityStep || s == 2
  {
    if densityStep >= 2 then densityStep else 2
  }

  /** The font size `buildTargets` starts from: the configured one when
      truthy, else 18% of the smaller canvas side, at least 80. */
  function InitialFontSize(fontSize: Option<real>, w: int, h: int): (fs: real)
    ensures Truthy(fontSize) ==> fs == fontSize.value
    ensures !Truthy(fontSize) ==> fs >= 80.0 && fs == fs.Floor as real
    ensures !Truthy(fontSize) && 0 <= w <= h ==> fs <= Max(80.0, w as real * 0.18)
  {
    if Truthy(fontSize) then fontSize.value
    else
      var base := if w <= h then w else h;
      var scaled := (base as real * 0.18).Floor;
      (if scaled >= 80 then scaled else 80) as real
  }

  /** The CSS width `resize` gives the canvas. */
  function ViewWidth(c: Config, v: Viewport): real {
    Dim(c.width, v.clientWidth, v.innerWidth)
  }

  /** The CSS height `resize` gives the canvas: 70% of the window's when
      neither the configuration nor the container has one. */
  function ViewHeight(c: Config, v: Viewport): real {
    Dim(c.height, v.clientHeight, v.innerHeight * 0.7)
  }
}
