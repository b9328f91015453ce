/** The scroll-triggered fade-in of src/core/scrollFadeIn/index.ts: a CSS
    length parser, the direction-signed offset that shrinks as the curve
    advances, and the effect's lifecycle around its visibility manager. */
module ScrollFadeInEffect {
  import opened Common
  import opened Easing
  import V = Visibility

  // ---------------------------------------------------------------------------
  // JavaScript `parseFloat`
  // ---------------------------------------------------------------------------

  predicate IsDigit(c: char) { '0' <= c <= '9' }

  /** The StrWhiteSpaceChar set of ECMAScript: white space and line terminators. */
  predicate IsSpace(c: char) {
    || c in {' ', '\t', '\n', '\r', '\U{000B}', '\U{000C}', '\U{00A0}', '\U{FEFF}', '\U{1680}',
             '\U{2028}', '\U{2029}', '\U{202F}', '\U{205F}', '\U{3000}'}
    || ('\U{2000}' <= c <= '\U{200A}')
  }

  /** The length of the run of decimal digits that starts `s`. */
  function DigitRun(s: seq<char>): (n: nat)
    ensures n <= |s|
    ensures n < |s| ==> !IsDigit(s[n])
  {
    if |s| > 0 && IsDigit(s[0]) then 1 + DigitRun(s[1..]) else 0
  }

  lemma {:induction false} DigitRunDigits(s: seq<char>, k: nat)
    requires k < DigitRun(s)
    ensures IsDigit(s[k])
  {
    if k > 0 {
      DigitRunDigits(s[1..], k - 1);
    }
  }

  /** The length of the run of white space that starts `s`. */
  function SpaceRun(s: seq<char>): (n: nat)
    ensures n <= |s|
    ensures n < |s| ==> !IsSpace(s[n])
  {
    if |s| > 0 && IsSpace(s[0]) then 1 + SpaceRun(s[1..]) else 0
  }

  /** The value of a string of decimal digits, most significant first. */
  function DigitsValue(d: seq<char>): nat
  {
    if |d| == 0 then 0 else DigitsValue(d[..|d| - 1]) * 10 + DigitValue(d[|d| - 1])
  }

  function DigitValue(c: char): nat {
    if IsDigit(c) then (c as int) - ('0' as int) else 0
  }

  function Pow10(n: nat): (r: real)
    ensures r >= 1.0
  {
    if n == 0 then 1.0 else 10.0 * Pow10(n - 1)
  }

  /** The factor an exponent part (`e`, optional sign, at least one digit) at
      the start of `s` contributes; 1 when there is none. */
  function ExponentScale(s: seq<char>): (r: real)
    ensures r > 0.0
  {
    if |s| >= 2 && (s[0] == 'e' || s[0] == 'E') then
      var digits := if s[1] == '+' || s[1] == '-' then s[2..] else s[1..];
      var n := DigitRun(digits);
      if n == 0 then 1.0
      else if s[1] == '-' then 1.0 / Pow10(DigitsValue(digits[..n]))
      else Pow10(DigitsValue(digits[..n]))
    else 1.0
  }

  /** The value of the longest prefix of `s` that is an unsigned decimal
      literal (`12`, `12.`, `.5`, `1.5e3`), or None when there is none. */
  function UnsignedPrefix(s: seq<char>): Option<real> {
    var i := DigitRun(s);
    var hasDot := i < |s| && s[i] == '.';
    var f := if hasDot then DigitRun(s[i + 1..]) else 0;
    if i == 0 && f == 0 then None
    else
      var whole := DigitsValue(s[..i]) as real;
      var frac := if hasDot then DigitsValue(s[i + 1..i + 1 + f]) as real / Pow10(f) else 0.0;
      var k := if hasDot then i + 1 + f else i;
      Some((whole + frac) * ExponentScale(s[k..]))
  }

  /** `parseFloat(s)`: skip leading white space, read an optional sign and the
      longest decimal prefix; None stands for NaN. */
  function ParseFloat(s: seq<char>): Option<real> {
    var t := s[SpaceRun(s)..];
    if |t| > 0 && t[0] == '-' then
      match UnsignedPrefix(t[1..])
      case None => None
      case Some(v) => Some(-v)
    else if |t| > 0 && t[0] == '+' then UnsignedPrefix(t[1..])
    else UnsignedPrefix(t)
  }

  // ---------------------------------------------------------------------------
  // parseDistance
  // ---------------------------------------------------------------------------

  /** An unsigned numeral: `\d+\.?\d*`. */
  predicate IsUnsignedNumeral(u: seq<char>) {
    var i := DigitRun(u);
    i > 0 && (i == |u| || (u[i] == '.' && DigitRun(u[i + 1..]) == |u| - i - 1))
  }

  /** The numeral of the length pattern: `-?\d+\.?\d*`. */
  predicate IsNumeral(t: seq<char>) {
    if |t| > 0 && t[0] == '-' then IsUnsignedNumeral(t[1..]) else IsUnsignedNumeral(t)
  }

  /** What an unsigned numeral denotes: its whole part plus its fraction. */
  function UnsignedValue(u: seq<char>): real
    requires IsUnsignedNumeral(u)
  {
    var i := DigitRun(u);
    var frac := if i < |u| then u[i + 1..] else [];
    DigitsValue(u[..i]) as real + DigitsValue(frac) as real / Pow10(|frac|)
  }

  /** What a numeral denotes, read independently of `parseFloat`. */
  function NumeralValue(t: seq<char>): real
    requires IsNumeral(t)
  {
    if |t| > 0 && t[0] == '-' then -UnsignedValue(t[1..]) else UnsignedValue(t)
  }

  lemma UnsignedParses(u: seq<char>)
    requires IsUnsignedNumeral(u)
    ensures UnsignedPrefix(u) == Some(UnsignedValue(u))
  {
    var i := DigitRun(u);
    if i < |u| {
      var f := DigitRun(u[i + 1..]);
      assert u[i + 1..i + 1 + f] == u[i + 1..];
      assert u[i + 1 + f..] == [];
    } else {
      assert u[i..] == [];
      assert u[..i] == u;
    }
  }

  /** `parseFloat` reads a whole numeral and nothing else. */
  lemma NumeralParses(t: seq<char>)
    requires IsNumeral(t)
    ensures ParseFloat(t) == Some(NumeralValue(t))
  {
    assert !IsSpace(t[0]);
    assert SpaceRun(t) == 0;
    assert t[0..] == t;
    if t[0] == '-' {
      UnsignedParses(t[1..]);
    } else {
      UnsignedParses(t);
    }
  }

  lemma NumeralEnd(t: seq<char>)
    requires IsNumeral(t)
    ensures |t| > 0 && (IsDigit(t[|t| - 1]) || t[|t| - 1] == '.')
  {
    var u := if t[0] == '-' then t[1..] else t;
    assert u[|u| - 1] == t[|t| - 1];
    var i := DigitRun(u);
    if i < |u| && i + 1 < |u| {
      DigitRunDigits(u[i + 1..], |u| - i - 2);
    } else if i == |u| {
      DigitRunDigits(u, i - 1);
    }
  }

  datatype Unit = Px | Rem | Em | Percent | Vh | Vw

  function UnitText(u: Unit): string {
    match u
    case Px => "px"
    case Rem => "rem"
    case Em => "em"
    case Percent => "%"
    case Vh => "vh"
    case Vw => "vw"
  }

  predicate EndsWith(s: seq<char>, suffix: seq<char>) {
    |suffix| <= |s| && s[|s| - |suffix|..] == suffix
  }

  /** The numeral before `u`, when `s` is that numeral followed by `u`. */
  function Before(s: seq<char>, u: Unit): Option<seq<char>> {
    var w := UnitText(u);
    if EndsWith(s, w) && IsNumeral(s[..|s| - |w|]) then Some(s[..|s| - |w|]) else None
  }

  /** The match of `^(-?\d+\.?\d*)(px|rem|em|%|vh|vw)$`: the numeral and the unit. */
  function Match(s: seq<char>): Option<(seq<char>, Unit)> {
    if Before(s, Px).Some? then Some((Before(s, Px).value, Px))
    else if Before(s, Rem).Some? then Some((Before(s, Rem).value, Rem))
    else if Before(s, Em).Some? then Some((Before(s, Em).value, Em))
    else if Before(s, Percent).Some? then Some((Before(s, Percent).value, Percent))
    else if Before(s, Vh).Some? then Some((Before(s, Vh).value, Vh))
    else if Before(s, Vw).Some? then Some((Before(s, Vw).value, Vw))
    else None
  }

  datatype Direction = Top | Right | Bottom | Left

  /** What `parseDistance` reads from the page: the root element's computed
      font size, the container's bounding box and the window size. */
  datatype Env = Env(rootFontSize: string, rectWidth: real, rectHeight: real, innerWidth: real, innerHeight: real)

  /** `parseFloat(fontSize) || 16`. */
  function FontSize(env: Env): (r: real)
    ensures r != 0.0
  {
    var f := ParseFloat(env.rootFontSize);
    if f.None? || f.value == 0.0 then 16.0 else f.value
  }

  /** The container's size along the axis of the movement. */
  function Axis(dir: Direction, env: Env): real {
    if dir == Top || dir == Bottom then env.rectHeight else env.rectWidth
  }

  /** The switch of `parseDistance` on the unit of a matched length. */
  function Scaled(value: real, unit: Unit, dir: Direction, env: Env): real {
    match unit
    case Px => value
    case Rem => value * FontSize(env)
    case Em => value * FontSize(env)
    case Percent => (value / 100.0) * Axis(dir, env)
    case Vh => (value / 100.0) * env.innerHeight
    case Vw => (value / 100.0) * env.innerWidth
  }

  /** `parseDistance`: a length in pixels. Without a match the string's
      `parseFloat` prefix is taken, and 50 when that is NaN or 0. */
  function ParseDistance(s: string, dir: Direction, env: Env): real {
    match Match(s)
    case None =>
      var n := ParseFloat(s);
      if n.None? || n.value == 0.0 then 50.0 else n.value
    case Some((t, unit)) =>
      NumeralParses(t);
      Scaled(ParseFloat(t).value, unit, dir, env)
  }

  /** A string whose last character differs from a suffix's does not end with it. */
  lemma LastDiffers(s: seq<char>, w: seq<char>)
    requires |w| > 0 && |s| > 0 && s[|s| - 1] != w[|w| - 1]
    ensures !EndsWith(s, w)
  {
    assert |w| <= |s| ==> s[|s| - |w|..][|w| - 1] == s[|s| - 1];
  }

  /** A numeral followed by a unit matches the pattern with exactly that numeral and unit. */
  lemma MatchesUnit(t: seq<char>, u: Unit)
    requires IsNumeral(t)
    ensures Match(t + UnitText(u)) == Some((t, u))
  {
    var w := UnitText(u);
    var s := t + w;
    NumeralEnd(t);
    assert s[..|s| - |w|] == t;
    assert s[|s| - |w|..] == w;
    assert s[|s| - 1] == w[|w| - 1];
    assert Before(s, u) == Some(t);
    match u
    case Px =>
    case Rem =>
      LastDiffers(s, "px");
    case Em =>
      LastDiffers(s, "px");
      assert s[|s| - 3..][0] == t[|t| - 1];
      assert !EndsWith(s, "rem");
    case Percent =>
      LastDiffers(s, "px");
      LastDiffers(s, "rem");
      LastDiffers(s, "em");
    case Vh =>
      LastDiffers(s, "px");
      LastDiffers(s, "rem");
      LastDiffers(s, "em");
      LastDiffers(s, "%");
    case Vw =>
      LastDiffers(s, "px");
      LastDiffers(s, "rem");
      LastDiffers(s, "em");
      LastDiffers(s, "%");
      LastDiffers(s, "vh");
  }

  /** A numeral followed by a unit is read as the numeral's value scaled by
      that unit: pixels as they are, `rem` and `em` by the root font size, `%`
      by the container's size along the movement, `vh`/`vw` by the window. */
  lemma DistanceOfUnit(t: seq<char>, u: Unit, dir: Direction, env: Env)
    requires IsNumeral(t)
    ensures ParseDistance(t + UnitText(u), dir, env) == Scaled(NumeralValue(t), u, dir, env)
  {
    MatchesUnit(t, u);
    NumeralParses(t);
  }

  /** Half the container's height, for an upward or downward movement. */
  lemma HalfHeightExample(env: Env)
    requires env.rectHeight == 200.0
    ensures ParseDistance("50%", Bottom, env) == 100.0
  {
    DistanceOfUnit("50", Percent, Bottom, env);
    assert "50" + "%" == "50%";
    assert DigitRun("50") == 2;
    assert "50"[..2] == "50" && "50"[..1] == "5";
  }

  /** A computed font size of `16px` reads as 16. */
  lemma SixteenPixels()
    ensures ParseFloat("16px") == Some(16.0)
  {
    var f := "16px";
    assert SpaceRun(f) == 0 && f[0..] == f;
    assert f[1..] == "6px" && "6px"[1..] == "px";
    assert DigitRun("px") == 0;
    assert DigitRun(f) == 2;
    assert f[..2] == "16" && "16"[..1] == "1";
    assert f[2..] == "px";
    assert DigitsValue("1") == 1 && DigitsValue("16") == 16;
    assert ExponentScale("px") == 1.0;
    assert UnsignedPrefix(f) == Some(16.0);
  }

  /** Two root ems, with the font size read and with the 16 pixel fallback. */
  lemma RemExample(env: Env)
    requires env.rootFontSize == "16px" || env.rootFontSize == ""
    ensures ParseDistance("2rem", Top, env) == 32.0
  {
    var s := "2rem";
    assert s == "2" + UnitText(Rem);
    DistanceOfUnit("2", Rem, Top, env);
    if env.rootFontSize == "16px" {
      SixteenPixels();
    }
  }

  /** Text that is not a length falls back to 50 pixels. */
  lemma GarbageExample(dir: Direction, env: Env)
    ensures ParseDistance("garbage", dir, env) == 50.0
  {
    var s := "garbage";
    LastDiffers(s, "px");
    LastDiffers(s, "rem");
    LastDiffers(s, "em");
    LastDiffers(s, "%");
    LastDiffers(s, "vh");
    LastDiffers(s, "vw");
    assert Match(s) == None;
    assert SpaceRun(s) == 0 && s[0..] == s;
    assert DigitRun(s) == 0 && s[0] != '.';
    assert UnsignedPrefix(s) == None;
  }

  /** A bare zero is falsy and falls back to 50, while `0px` is zero. */
  lemma ZeroExamples(dir: Direction, env: Env)
    ensures ParseDistance("0", dir, env) == 50.0
    ensures ParseDistance("0px", dir, env) == 0.0
  {
    var s := "0";
    LastDiffers(s, "px");
    LastDiffers(s, "rem");
    LastDiffers(s, "em");
    LastDiffers(s, "%");
    LastDiffers(s, "vh");
    LastDiffers(s, "vw");
    assert SpaceRun(s) == 0 && s[0..] == s;
    assert DigitRun(s) == 1 && s[..1] == s;
    assert s[1..] == [];
    DistanceOfUnit("0", Px, dir, env);
    assert "0" + "px" == "0px";
  }

  lemma SpaceDefeatsPattern()
    ensures Match(" 30px") == None
  {
    var s := " 30px";
    assert s[..|s| - 2] == " 30";
    assert DigitRun(" 30") == 0;
    LastDiffers(s, "rem");
    LastDiffers(s, "em");
    LastDiffers(s, "%");
    LastDiffers(s, "vh");
    LastDiffers(s, "vw");
  }

  lemma SpaceSkipped()
    ensures ParseFloat(" 30px") == Some(30.0)
  {
    var s := " 30px";
    assert IsSpace(s[0]) && !IsSpace(s[1]);
    assert s[1..] == "30px" && "30px"[1..] == "0px" && "0px"[1..] == "px";
    assert SpaceRun(s) == 1;
    var t := s[1..];
    assert DigitRun("px") == 0;
    assert DigitRun(t) == 2;
    assert t[..2] == "30" && "30"[..1] == "3";
    assert t[2..] == "px";
  }

  /** Leading white space defeats the pattern, but `parseFloat` skips it. */
  lemma SpaceExample(dir: Direction, env: Env)
    ensures ParseDistance(" 30px", dir, env) == 30.0
  {
    SpaceDefeatsPattern();
    SpaceSkipped();
  }

  // ---------------------------------------------------------------------------
  // Offsets and the container's style
  // ---------------------------------------------------------------------------

  /** `setInitialPosition`'s translation for a distance `d`. */
  function InitialOffset(dir: Direction, d: real): (real, real) {
    match dir
    case Top => (0.0, -d)
    case Right => (d, 0.0)
    case Bottom => (0.0, d)
    case Left => (-d, 0.0)
  }

  /** `animate`'s translation for eased progress `e` (`-d * k` is `-(d * k)` over reals). */
  function FrameOffset(dir: Direction, d: real, e: real): (real, real) {
    match dir
    case Top => (0.0, -(d * (1.0 - e)))
    case Right => (d * (1.0 - e), 0.0)
    case Bottom => (0.0, d * (1.0 - e))
    case Left => (-(d * (1.0 - e)), 0.0)
  }

  /** A frame's translation is the initial one scaled by `1 - e`: it starts at
      the initial offset and ends at the element's own place. */
  lemma FrameOffsetScalesInitial(dir: Direction, d: real, e: real)
    ensures FrameOffset(dir, d, e).0 == InitialOffset(dir, d).0 * (1.0 - e)
    ensures FrameOffset(dir, d, e).1 == InitialOffset(dir, d).1 * (1.0 - e)
    ensures FrameOffset(dir, d, 0.0) == InitialOffset(dir, d)
    ensures FrameOffset(dir, d, 1.0) == (0.0, 0.0)
  {
  }

  function Abs(x: real): real { if x < 0.0 then -x else x }

  /** As the eased progress grows within [0, 1] the element only moves
      towards its place: a later frame is no further from it than an earlier
      one, and none is further than the initial offset. */
  lemma OffsetShrinks(dir: Direction, d: real, e1: real, e2: real)
    requires 0.0 <= e1 <= e2 <= 1.0
    ensures Abs(FrameOffset(dir, d, e2).0) <= Abs(FrameOffset(dir, d, e1).0)
    ensures Abs(FrameOffset(dir, d, e2).1) <= Abs(FrameOffset(dir, d, e1).1)
    ensures Abs(FrameOffset(dir, d, e1).0) <= Abs(InitialOffset(dir, d).0)
    ensures Abs(FrameOffset(dir, d, e1).1) <= Abs(InitialOffset(dir, d).1)
  {
    AxisShrinks(d, e1, e2);
    assert Abs(-d) == Abs(d);
    assert Abs(-(d * (1.0 - e1))) == Abs(d * (1.0 - e1));
    assert Abs(-(d * (1.0 - e2))) == Abs(d * (1.0 - e2));
  }

  lemma AxisShrinks(x: real, e1: real, e2: real)
    requires 0.0 <= e1 <= e2 <= 1.0
    ensures Abs(x * (1.0 - e2)) <= Abs(x * (1.0 - e1)) <= Abs(x)
  {
    ScaledAbs(x, 1.0 - e2, 1.0 - e1);
    ScaledAbs(x, 1.0 - e1, 1.0);
    assert x * 1.0 == x;
  }

  /** With a named curve, later frames never move the element away from its place. */
  lemma CurveOffsetShrinks(dir: Direction, d: real, ease: Ease, p1: real, p2: real)
    requires BuiltIn(ease) && 0.0 <= p1 <= p2 <= 1.0
    ensures Abs(FrameOffset(dir, d, Apply(ease, p2)).0) <= Abs(FrameOffset(dir, d, Apply(ease, p1)).0)
    ensures Abs(FrameOffset(dir, d, Apply(ease, p2)).1) <= Abs(FrameOffset(dir, d, Apply(ease, p1)).1)
  {
    Monotone(ease, p1, p2);
    Bounded(ease, p1);
    Bounded(ease, p2);
    OffsetShrinks(dir, d, Apply(ease, p1), Apply(ease, p2));
  }

  lemma ScaledAbs(d: real, k1: real, k2: real)
    requires 0.0 <= k1 <= k2
    ensures Abs(d * k1) <= Abs(d * k2)
  {
    if d >= 0.0 {
      MulMono(d, d, k1, k2);
      MulMono(0.0, d, 0.0, k1);
    } else {
      MulMono(-d, -d, k1, k2);
      MulMono(0.0, -d, 0.0, k1);
      assert Abs(d * k1) == -d * k1;
      assert Abs(d * k2) == -d * k2;
    }
  }

  /** The element's `transform`: a translation, followed by the transform it
      had before when there was one, or a plain value. */
  datatype Transform = Translate(x: real, y: real, after: string) | Plain(value: string)

  /** The container's inline style: `transform`, `opacity` (None is the empty
      string) and whether `transition` is `none`. */
  datatype Style = Style(transform: Transform, opacity: Option<real>, transitionNone: bool)

  /** `initialTransform` counts as a transform when it is neither empty nor `none`. */
  predicate HasBase(it: string) { it != "" && it != "none" }

  /** The transform saved at creation: the computed one unless that is `none`,
      else the inline one. */
  function SavedTransform(computed: string, inline: string): string {
    if computed != "none" then computed else inline
  }

  function Positioned(it: string, offset: (real, real)): (t: Transform)
    ensures t.Translate? && t.x == offset.0 && t.y == offset.1
    ensures t.after == (if HasBase(it) then it else "")
  {
    Translate(offset.0, offset.1, if HasBase(it) then it else "")
  }

  /** The style `setInitialPosition` gives: moved by the full offset, hidden, no transition. */
  function InitialStyle(dir: Direction, d: real, it: string): Style {
    Style(Positioned(it, InitialOffset(dir, d)), Some(0.0), true)
  }

  /** The style `complete` leaves: the saved transform alone, fully shown. */
  function FinalStyle(it: string, transitionNone: bool): Style {
    Style(Plain(if HasBase(it) then it else ""), Some(1.0), transitionNone)
  }

  // ---------------------------------------------------------------------------
  // Configuration
  // ---------------------------------------------------------------------------

  datatype Options = Options(
    direction: Option<Direction>, distance: Option<string>, duration: Option<real>,
    easing: Option<Ease>, threshold: Option<real>, rootMargin: Option<string>,
    triggerOnce: Option<bool>, enabled: Option<bool>,
    onStart: Option<CallbackId>, onComplete: Option<CallbackId>)

  datatype Config = Config(
    direction: Direction, distance: string, duration: real, easing: Ease,
    threshold: real, rootMargin: string, triggerOnce: bool, enabled: bool,
    onStart: Option<CallbackId>, onComplete: Option<CallbackId>)

  /** A partial update; a callback or easing left None keeps the current one. */
  datatype Patch = Patch(
    direction: Option<Direction>, distance: Option<string>, duration: Option<real>,
    easing: Option<Ease>, threshold: Option<real>, rootMargin: Option<string>,
    triggerOnce: Option<bool>, enabled: Option<bool>,
    onStart: Option<CallbackId>, onComplete: Option<CallbackId>)

  function Or<T>(o: Option<T>, d: T): T { if o.Some? then o.value else d }

  /** The constructor's defaults: bottom, 50px, 800 ms, ease-out cubic,
      threshold 0.1, root margin 0px, repeatable, enabled. */
  function Configure(o: Options): (c: Config)
    ensures c.direction == Or(o.direction, Bottom) && c.distance == Or(o.distance, "50px")
    ensures c.duration == Or(o.duration, 800.0) && c.easing == Or(o.easing, EaseOutCubic)
    ensures c.threshold == Or(o.threshold, 0.1) && c.rootMargin == Or(o.rootMargin, "0px")
    ensures c.triggerOnce == Or(o.triggerOnce, false) && c.enabled == Or(o.enabled, true)
    ensures c.onStart == o.onStart && c.onComplete == o.onComplete
  {
    Config(Or(o.direction, Bottom), Or(o.distance, "50px"), Or(o.duration, 800.0),
           Or(o.easing, EaseOutCubic), Or(o.threshold, 0.1), Or(o.rootMargin, "0px"),
           Or(o.triggerOnce, false), Or(o.enabled, true), o.onStart, o.onComplete)
  }

  /** `{ ...config, ...patch }` with easing and callbacks kept when the patch has none. */
  function Merge(c: Config, p: Patch): (m: Config)
    ensures m.easing == Or(p.easing, c.easing)
    ensures m.direction == Or(p.direction, c.direction) && m.distance == Or(p.distance, c.distance)
    ensures m.duration == Or(p.duration, c.duration)
    ensures m.threshold == Or(p.threshold, c.threshold) && m.rootMargin == Or(p.rootMargin, c.rootMargin)
    ensures m.onStart == (if p.onStart.Some? then p.onStart else c.onStart)
    ensures m.onComplete == (if p.onComplete.Some? then p.onComplete else c.onComplete)
    ensures m.enabled == Or(p.enabled, c.enabled) && m.triggerOnce == Or(p.triggerOnce, c.triggerOnce)
    ensures p == Patch(None, None, None, None, None, None, None, None, None, None) ==> m == c
  {
    Config(Or(p.direction, c.direction), Or(p.distance, c.distance), Or(p.duration, c.duration),
           Or(p.easing, c.easing), Or(p.threshold, c.threshold), Or(p.rootMargin, c.rootMargin),
           Or(p.triggerOnce, c.triggerOnce), Or(p.enabled, c.enabled),
           if p.onStart.Some? then p.onStart else c.onStart,
           if p.onComplete.Some? then p.onComplete else c.onComplete)
  }

  /** What the effect reports to its caller's callbacks. */
  datatype Note = Started | Completed

  function StartNotes(c: Config): seq<Note> { if c.onStart.Some? then [Started] else [] }
  function CompleteNotes(c: Config): seq<Note> { if c.onComplete.Some? then [Completed] else [] }

  /** The callbacks ScrollFadeIn hands to its manager. */
  const VisibleHook: CallbackId := 0
  const HiddenHook: CallbackId := 1

  class ScrollFadeIn {
    const container: ElementId
    var config: Config
    var visibilityManager: V.VisibilityManager?
    var animationFrameId: Option<Handle>
    var startTime: Option<real>
    var isRunning: bool
    var hasTriggered: bool
    var initialTransform: string
    /** The distance in pixels. */
    var targetDistance: real
    var style: Style
    /** The last frame handle the host gave out. */
    var issued: Handle

    /** A run in progress has its start time; kept handles were given out. */
    ghost predicate Consistent()
      reads this, visibilityManager
    {
      && config.duration > 0.0
      && (isRunning ==> startTime.Some?)
      && (animationFrameId.Some? ==> animationFrameId.value <= issued)
      && (visibilityManager != null ==> visibilityManager.Valid())
    }

    /** Between callbacks, a run in progress also has exactly one frame pending. */
    ghost predicate Valid()
      reads this, visibilityManager
    {
      Consistent() && (isRunning ==> animationFrameId.Some?)
    }

    /** The field initialisation of the constructor, `parseDistance` and
        `setInitialPosition`. */
    constructor Init(container: ElementId, options: Options, initialTransform: string, env: Env)
      requires options.duration.Some? ==> options.duration.value > 0.0
      ensures Valid()
      ensures this.container == container && config == Configure(options)
      ensures this.initialTransform == initialTransform
      ensures targetDistance == ParseDistance(config.distance, config.direction, env)
      ensures style == InitialStyle(config.direction, targetDistance, initialTransform)
      ensures visibilityManager == null && animationFrameId.None? && startTime.None?
      ensures !isRunning && !hasTriggered
    {
      this.container := container;
      config := Configure(options);
      visibilityManager := null;
      animationFrameId := None;
      startTime := None;
      isRunning := false;
      hasTriggered := false;
      this.initialTransform := initialTransform;
      var d := ParseDistance(Or(options.distance, "50px"), Or(options.direction, Bottom), env);
      targetDistance := d;
      style := InitialStyle(Or(options.direction, Bottom), d, initialTransform);
      issued := 0;
    }

    /** `new ScrollFadeIn(container, options)` at time `now`: fails without a
        container; otherwise places the element at its start and attaches a
        manager, whose immediate `onVisible` (when the host lacks
        IntersectionObserver) starts the run. */
    static method New(container: Option<ElementId>, options: Options, host: V.Host,
                      computedTransform: string, inlineTransform: string, env: Env, now: real)
      returns (r: Result<ScrollFadeIn>, notes: seq<Note>)
      requires options.duration.Some? ==> options.duration.value > 0.0
      ensures container.None? ==> r == Err("Container element not found") && notes == []
      ensures container.Some? ==> r.Ok? && fresh(r.value) && r.value.Valid()
      ensures r.Ok? ==>
        && r.value.config == Configure(options)
        && r.value.initialTransform == SavedTransform(computedTransform, inlineTransform)
        && r.value.targetDistance == ParseDistance(r.value.config.distance, r.value.config.direction, env)
        && r.value.visibilityManager != null && fresh(r.value.visibilityManager)
        && (r.value.isRunning <==>
              !host.hasIntersectionObserver && (!host.hasDocument || !host.documentHidden)
              && r.value.config.enabled)
        && (!r.value.isRunning ==>
              r.value.style == InitialStyle(r.value.config.direction, r.value.targetDistance, r.value.initialTransform)
              && notes == [])
    {
      if container.None? {
        return Err("Container element not found"), [];
      }
      var e := new ScrollFadeIn.Init(container.value, options, SavedTransform(computedTransform, inlineTransform), env);
      var fired := e.SetupVisibilityManager(host);
      if |fired| == 1 && fired[0] == V.OnHidden {
        assert fired == [V.OnHidden];
      } else if |fired| == 1 {
        assert fired == [V.OnVisible];
      }
      notes := e.Dispatch(fired, now);
      r := Ok(e);
    }

    method SetupVisibilityManager(host: V.Host) returns (fired: seq<V.Signal>)
      requires Valid()
      modifies this
      ensures Valid() && visibilityManager != null && fresh(visibilityManager)
      ensures config == old(config) && isRunning == old(isRunning) && hasTriggered == old(hasTriggered)
      ensures style == old(style) && targetDistance == old(targetDistance) && animationFrameId == old(animationFrameId)
      ensures startTime == old(startTime) && issued == old(issued) && initialTransform == old(initialTransform)
      ensures visibilityManager.options.threshold == config.threshold
      ensures visibilityManager.options.rootMargin == config.rootMargin
      ensures fired == [V.OnVisible] <==>
        !host.hasIntersectionObserver && (!host.hasDocument || !host.documentHidden)
      ensures fired == [V.OnHidden] <==>
        !host.hasIntersectionObserver && host.hasDocument && host.documentHidden
      ensures host.hasIntersectionObserver ==> fired == []
      ensures |fired| <= 1
    {
      var request := V.Request(Some(config.threshold), Some(config.rootMargin), None, Some(VisibleHook), Some(HiddenHook));
      var m;
      m, fired := V.VisibilityManager.Create(container, request, host);
      visibilityManager := m;
    }

    /** Run this effect's handlers for the callbacks its manager invoked at `now`. */
    method Dispatch(fired: seq<V.Signal>, now: real) returns (notes: seq<Note>)
      requires Valid()
      modifies this
      ensures Valid() && config == old(config) && visibilityManager == old(visibilityManager)
      ensures targetDistance == old(targetDistance) && initialTransform == old(initialTransform)
      ensures fired == [] ==> unchanged(this) && notes == []
      ensures fired == [V.OnHidden] && !old(isRunning) ==> unchanged(this) && notes == []
      ensures fired == [V.OnVisible] && !old(isRunning) && !old(hasTriggered) ==>
        && (isRunning <==> config.enabled) && (hasTriggered <==> config.enabled)
        && (!config.enabled ==> unchanged(this) && notes == [])
      ensures !config.enabled && isRunning ==> old(isRunning)
      ensures old(style) == InitialStyle(config.direction, targetDistance, initialTransform) && !isRunning ==>
        style == old(style)
      ensures fired == [V.OnVisible] && old(hasTriggered) ==> unchanged(this) && notes == []
      ensures fired == [V.OnHidden] && config.triggerOnce ==> unchanged(this) && notes == []
      ensures fired == [V.OnHidden] && old(isRunning) && !config.triggerOnce ==>
        && !isRunning && animationFrameId.None? && !hasTriggered && notes == []
        && style == InitialStyle(config.direction, targetDistance, initialTransform)
    {
      notes := [];
      var i := 0;
      while i < |fired|
        invariant 0 <= i <= |fired|
        invariant Valid() && config == old(config) && visibilityManager == old(visibilityManager)
        invariant targetDistance == old(targetDistance) && initialTransform == old(initialTransform)
        invariant fired == [] ==> unchanged(this) && notes == []
        invariant fired == [V.OnHidden] && !old(isRunning) ==> unchanged(this) && notes == []
        invariant fired == [V.OnVisible] && !old(isRunning) && !old(hasTriggered) ==>
          (i == 0 ==> unchanged(this) && notes == [])
          && (i == 1 ==> (isRunning <==> config.enabled) && (hasTriggered <==> config.enabled)
                         && (!config.enabled ==> unchanged(this) && notes == []))
        invariant !config.enabled && isRunning ==> old(isRunning)
        invariant fired == [V.OnVisible] && old(hasTriggered) ==> unchanged(this) && notes == []
        invariant fired == [V.OnHidden] && config.triggerOnce ==> unchanged(this) && notes == []
        invariant fired == [V.OnHidden] && old(isRunning) && !config.triggerOnce ==>
          (i == 0 ==> unchanged(this) && notes == [])
          && (i == 1 ==> && !isRunning && animationFrameId.None? && !hasTriggered && notes == []
                         && style == InitialStyle(config.direction, targetDistance, initialTransform))
        invariant old(style) == InitialStyle(config.direction, targetDistance, initialTransform) && !isRunning ==>
          style == old(style)
      {
        var n;
        if fired[i] == V.OnVisible {
          n := OnVisible(now);
        } else {
          OnHidden();
          n := [];
        }
        notes := notes + n;
        i := i + 1;
      }
    }

    /** The host delivers a batch of intersection entries at `now`. */
    method Intersect(entries: seq<V.Entry>, now: real) returns (notes: seq<Note>)
      requires Valid() && visibilityManager != null && visibilityManager.intersectionObserver.Some?
      modifies this, visibilityManager
      ensures Valid() && config == old(config) && visibilityManager == old(visibilityManager)
    {
      var fired := visibilityManager.OnIntersection(entries);
      notes := Dispatch(fired, now);
    }

    /** The host reports a `visibilitychange` at `now`. */
    method PageVisibilityChanged(documentHidden: bool, now: real) returns (notes: seq<Note>)
      requires Valid() && visibilityManager != null && visibilityManager.visibilityChangeHandler.Some?
      modifies this, visibilityManager
      ensures Valid() && config == old(config) && visibilityManager == old(visibilityManager)
    {
      var fired := visibilityManager.OnVisibilityChange(documentHidden);
      notes := Dispatch(fired, now);
    }

    /** The manager's `onVisible`: start once, when enabled and not yet triggered. */
    method OnVisible(now: real) returns (notes: seq<Note>)
      requires Valid()
      modifies this
      ensures Valid() && config == old(config) && visibilityManager == old(visibilityManager)
      ensures targetDistance == old(targetDistance) && initialTransform == old(initialTransform)
      ensures old(!hasTriggered && config.enabled) ==> hasTriggered && isRunning
      ensures old(!hasTriggered && config.enabled) && !old(isRunning) ==>
        startTime == Some(now) && notes == StartNotes(config)
      ensures !old(!hasTriggered && config.enabled) ==> unchanged(this) && notes == []
    {
      notes := [];
      if !hasTriggered && config.enabled {
        hasTriggered := true;
        notes := Start(now);
      }
    }

    /** The manager's `onHidden`: reset only a run still in progress, and only
        when not `triggerOnce`; a completed run keeps `hasTriggered`, so it is
        never replayed. */
    method OnHidden()
      requires Valid()
      modifies this
      ensures Valid() && config == old(config) && visibilityManager == old(visibilityManager)
      ensures targetDistance == old(targetDistance) && initialTransform == old(initialTransform)
      ensures old(!config.triggerOnce && isRunning) ==>
        !isRunning && animationFrameId.None? && !hasTriggered
        && style == InitialStyle(config.direction, targetDistance, initialTransform)
      ensures !old(!config.triggerOnce && isRunning) ==> unchanged(this)
    {
      if !config.triggerOnce && isRunning {
        Reset();
      }
    }

    /** `start` at time `now`: a no-op while running (it does not look at
        `enabled`); otherwise fires `onStart`, drops the transition and runs
        the first frame at once, which always requests another. */
    method Start(now: real) returns (notes: seq<Note>)
      requires Valid()
      modifies this
      ensures Valid() && config == old(config) && visibilityManager == old(visibilityManager)
      ensures hasTriggered == old(hasTriggered)
      ensures targetDistance == old(targetDistance) && initialTransform == old(initialTransform)
      ensures old(isRunning) ==> unchanged(this) && notes == []
      ensures !old(isRunning) ==>
        var e := Apply(config.easing, 0.0);
        && isRunning && startTime == Some(now) && notes == StartNotes(config)
        && style == Style(Positioned(initialTransform, FrameOffset(config.direction, targetDistance, e)), Some(e), true)
        && issued == old(issued) + 1 && animationFrameId == Some(issued)
    {
      if isRunning {
        return [];
      }
      isRunning := true;
      startTime := Some(now);
      notes := StartNotes(config);
      style := style.(transitionNone := true);
      assert Progress(now - startTime.value, config.duration) == 0.0;
      var more := Animate(now);
      notes := notes + more;
    }

    /** The frame callback `animate`, run at time `now`: moves the element by
        the shrinking offset and fades it in by the eased progress; before
        progress 1 it requests the next frame, at progress 1 it completes. */
    method Animate(now: real) returns (notes: seq<Note>)
      requires Consistent() && isRunning
      modifies this
      ensures Valid() && config == old(config) && visibilityManager == old(visibilityManager)
      ensures hasTriggered == old(hasTriggered) && startTime == old(startTime)
      ensures targetDistance == old(targetDistance) && initialTransform == old(initialTransform)
      ensures var p := Progress(now - startTime.value, config.duration);
              var e := Apply(config.easing, p);
              if p < 1.0 then
                && isRunning && notes == []
                && style == Style(Positioned(initialTransform, FrameOffset(config.direction, targetDistance, e)),
                                  Some(e), old(style).transitionNone)
                && issued == old(issued) + 1 && animationFrameId == Some(issued)
              else
                && !isRunning && animationFrameId.None? && issued == old(issued)
                && style == FinalStyle(initialTransform, old(style).transitionNone)
                && notes == CompleteNotes(config)
    {
      var elapsed := now - startTime.value;
      var progress := Progress(elapsed, config.duration);
      var eased := Apply(config.easing, progress);
      var offset := FrameOffset(config.direction, targetDistance, eased);
      style := Style(Positioned(initialTransform, offset), Some(eased), style.transitionNone);
      if progress < 1.0 {
        issued := issued + 1;
        animationFrameId := Some(issued);
        notes := [];
      } else {
        notes := Complete();
      }
    }

    /** `complete`: stop, leave the element at its own place fully shown,
        drop the frame handle and fire `onComplete`. */
    method Complete() returns (notes: seq<Note>)
      requires Consistent()
      modifies this`isRunning, this`style, this`animationFrameId
      ensures Valid() && !isRunning && animationFrameId.None?
      ensures style == FinalStyle(initialTransform, old(style).transitionNone)
      ensures notes == CompleteNotes(config)
    {
      isRunning := false;
      style := FinalStyle(initialTransform, style.transitionNone);
      if animationFrameId.Some? {
        animationFrameId := None;
      }
      notes := CompleteNotes(config);
    }

    /** `reset`: stop, allow a new trigger and move the element back to its start. */
    method Reset()
      requires Valid()
      modifies this`isRunning, this`animationFrameId, this`hasTriggered, this`style
      ensures Valid() && !isRunning && animationFrameId.None? && !hasTriggered
      ensures style == InitialStyle(config.direction, targetDistance, initialTransform)
    {
      Stop();
      hasTriggered := false;
      SetInitialPosition();
    }

    /** `stop`: cancel the pending frame, if any. */
    method Stop()
      requires Valid()
      modifies this`isRunning, this`animationFrameId
      ensures Valid() && !isRunning && animationFrameId.None?
    {
      isRunning := false;
      if animationFrameId.Some? {
        animationFrameId := None;
      }
    }

    method SetInitialPosition()
      requires Valid()
      modifies this`style
      ensures Valid() && style == InitialStyle(config.direction, targetDistance, initialTransform)
    {
      style := InitialStyle(config.direction, targetDistance, initialTransform);
    }

    /** `updateConfig` at time `now`: stop, merge, re-measure the distance only
        for a non-empty new distance, move the element back to its start,
        rebuild the manager only for a new threshold or root margin (whose
        immediate `onVisible` may start a run), and restart iff the effect was
        running and is still enabled. */
    method UpdateConfig(patch: Patch, host: V.Host, env: Env, now: real) returns (notes: seq<Note>)
      requires Valid()
      requires patch.duration.Some? ==> patch.duration.value > 0.0
      modifies this, visibilityManager
      ensures Valid() && config == Merge(old(config), patch)
      ensures initialTransform == old(initialTransform)
      ensures targetDistance ==
        if patch.distance.Some? && patch.distance.value != "" then ParseDistance(config.distance, config.direction, env)
        else old(targetDistance)
      ensures old(isRunning) && config.enabled ==> isRunning
      ensures !config.enabled ==> !isRunning
      ensures patch.threshold.None? && patch.rootMargin.None? ==>
        && visibilityManager == old(visibilityManager) && hasTriggered == old(hasTriggered)
        && (isRunning <==> old(isRunning) && config.enabled)
      ensures patch.threshold.Some? || patch.rootMargin.Some? ==>
        visibilityManager != null && fresh(visibilityManager)
      ensures (patch.threshold.Some? || patch.rootMargin.Some?)
              && (host.hasIntersectionObserver || (host.hasDocument && host.documentHidden)) ==>
        (isRunning <==> old(isRunning) && config.enabled) && hasTriggered == old(hasTriggered)
      ensures (patch.threshold.Some? || patch.rootMargin.Some?)
              && !host.hasIntersectionObserver && !(host.hasDocument && host.documentHidden) ==>
        && (isRunning <==> config.enabled && (old(isRunning) || !old(hasTriggered)))
        && hasTriggered == (old(hasTriggered) || config.enabled)
      ensures !isRunning ==> style == InitialStyle(config.direction, targetDistance, initialTransform)
    {
      var wasRunning := isRunning;
      Reconfigure(patch, env);
      notes := [];
      if patch.threshold.Some? || patch.rootMargin.Some? {
        notes := RebuildManager(host, now);
      }
      if wasRunning && config.enabled {
        var more := Start(now);
        notes := notes + more;
      }
    }

    /** The first half of `updateConfig`: stop, merge, re-measure a non-empty
        new distance and move the element back to its start. */
    method Reconfigure(patch: Patch, env: Env)
      requires Valid()
      requires patch.duration.Some? ==> patch.duration.value > 0.0
      modifies this`isRunning, this`animationFrameId, this`config, this`targetDistance, this`style
      ensures Valid() && config == Merge(old(config), patch) && !isRunning
      ensures targetDistance ==
        if patch.distance.Some? && patch.distance.value != "" then ParseDistance(config.distance, config.direction, env)
        else old(targetDistance)
      ensures style == InitialStyle(config.direction, targetDistance, initialTransform)
    {
      Stop();
      config := Merge(config, patch);
      if patch.distance.Some? && patch.distance.value != "" {
        targetDistance := ParseDistance(config.distance, config.direction, env);
      }
      SetInitialPosition();
    }

    /** Destroy the manager, if any, and attach a new one, running the
        handlers it invokes at once. */
    method RebuildManager(host: V.Host, now: real) returns (notes: seq<Note>)
      requires Valid()
      modifies this, visibilityManager
      ensures Valid() && visibilityManager != null && fresh(visibilityManager)
      ensures config == old(config) && targetDistance == old(targetDistance) && initialTransform == old(initialTransform)
      ensures !config.enabled && isRunning ==> old(isRunning)
      ensures old(style) == InitialStyle(config.direction, targetDistance, initialTransform) && !isRunning ==>
        style == old(style)
      ensures old(visibilityManager) != null ==>
        old(visibilityManager).intersectionObserver.None? && old(visibilityManager).visibilityChangeHandler.None?
      ensures host.hasIntersectionObserver ==>
        isRunning == old(isRunning) && hasTriggered == old(hasTriggered) && notes == []
      ensures host.hasDocument && host.documentHidden && !old(isRunning) ==>
        isRunning == old(isRunning) && hasTriggered == old(hasTriggered) && notes == []
      ensures !host.hasIntersectionObserver && !(host.hasDocument && host.documentHidden) && !old(isRunning) ==>
        (isRunning <==> config.enabled && !old(hasTriggered)) && hasTriggered == (old(hasTriggered) || config.enabled)
    {
      if visibilityManager != null {
        visibilityManager.Destroy();
        visibilityManager := null;
      }
      var fired := SetupVisibilityManager(host);
      notes := Dispatch(fired, now);
    }

    /** `destroy`: stop, destroy the manager and clear the inline style, with
        the saved transform written back as it was read. */
    method Destroy()
      requires Valid()
      modifies this, visibilityManager
      ensures Valid() && !isRunning && animationFrameId.None? && visibilityManager == null
      ensures style == Style(Plain(initialTransform), None, false)
      ensures old(visibilityManager) != null ==>
        old(visibilityManager).intersectionObserver.None? && old(visibilityManager).visibilityChangeHandler.None?
    {
      Stop();
      if visibilityManager != null {
        visibilityManager.Destroy();
        visibilityManager := null;
      }
      style := Style(Plain(initialTransform), None, false);
    }
  }

  /** A run that completed keeps `hasTriggered`, so leaving and re-entering the
      viewport leaves the element where it is, even without `triggerOnce`. */
  method CompletedRunIsNotReplayed(e: ScrollFadeIn, now: real) returns (notes: seq<Note>)
    requires e.Valid() && !e.isRunning && e.hasTriggered
    modifies e
    ensures !e.isRunning && e.style == old(e.style) && notes == []
  {
    e.OnHidden();
    notes := e.OnVisible(now);
  }
}
