/** The typewriter of src/core/typing/index.ts. The text is cut into typing
    units: a precomposed Hangul syllable becomes its jamo, following the
    arithmetic of The Unicode Standard, Section 3.12 (Conjoining Jamo
    Behavior); any other character is one unit. Each timer step adds one
    unit and shows the characters those units amount to. */
module TypingEffect {
  import opened Common
  import V = Visibility

  const HangulFirst: int := 0xAC00
  const HangulLast: int := 0xD7A3

  /** The compatibility jamo the source shows for each initial, medial and
      final index; final 0 stands for "no final" and is never shown. */
  const InitialJamo: seq<string> := [
    "\U{3131}", "\U{3132}", "\U{3134}", "\U{3137}", "\U{3138}", "\U{3139}", "\U{3141}", "\U{3142}", "\U{3143}", "\U{3145}",
    "\U{3146}", "\U{3147}", "\U{3148}", "\U{3149}", "\U{314A}", "\U{314B}", "\U{314C}", "\U{314D}", "\U{314E}"]
  const MedialJamo: seq<string> := [
    "\U{314F}", "\U{3150}", "\U{3151}", "\U{3152}", "\U{3153}", "\U{3154}", "\U{3155}", "\U{3156}", "\U{3157}", "\U{3158}",
    "\U{3159}", "\U{315A}", "\U{315B}", "\U{315C}", "\U{315D}", "\U{315E}", "\U{315F}", "\U{3160}", "\U{3161}", "\U{3162}", "\U{3163}"]
  const FinalJamo: seq<string> := [
    "", "\U{3131}", "\U{3132}", "\U{3133}", "\U{3134}", "\U{3135}", "\U{3136}", "\U{3137}", "\U{3139}", "\U{313A}",
    "\U{313B}", "\U{313C}", "\U{313D}", "\U{313E}", "\U{313F}", "\U{3140}", "\U{3141}", "\U{3142}", "\U{3144}", "\U{3145}",
    "\U{3146}", "\U{3147}", "\U{3148}", "\U{314A}", "\U{314B}", "\U{314C}", "\U{314D}", "\U{314E}"]

  /** A character in the precomposed Hangul syllable block. */
  predicate IsHangul(c: char) {
    HangulFirst <= c as int <= HangulLast
  }

  datatype Syllable = Syllable(initial: nat, medial: nat, final: nat)

  /** Initial, medial and final index of a syllable: `base / (21 * 28)`,
      `(base % (21 * 28)) / 28` and `base % 28`, within the table sizes. */
  function Split(code: int): (s: Syllable)
    requires HangulFirst <= code <= HangulLast
    ensures s.initial < |InitialJamo| && s.medial < |MedialJamo| && s.final < |FinalJamo|
  {
    var base := code - HangulFirst;
    Syllable(base / (21 * 28), (base % (21 * 28)) / 28, base % 28)
  }

  /** The three indices compose back into the code. */
  lemma SplitRecomposes(code: int)
    requires HangulFirst <= code <= HangulLast
    ensures var s := Split(code); HangulFirst + s.initial * 588 + s.medial * 28 + s.final == code
  {
    var base := code - HangulFirst;
    var q := base / 588;
    var r := base % 588;
    assert base == q * 588 + r;
    assert r == (r / 28) * 28 + r % 28;
    assert base == (q * 21) * 28 + r;
    assert r % 28 == base % 28;
  }

  /** Every triple of indices within the tables is the split of exactly one
      syllable, the one it composes to. */
  lemma SplitOfComposed(i: nat, m: nat, f: nat)
    requires i < 19 && m < 21 && f < 28
    ensures HangulFirst <= HangulFirst + i * 588 + m * 28 + f <= HangulLast
    ensures Split(HangulFirst + i * 588 + m * 28 + f) == Syllable(i, m, f)
  {
    var base := i * 588 + m * 28 + f;
    assert m * 28 + f < 588;
    assert base / 588 == i && base % 588 == m * 28 + f;
    assert (m * 28 + f) / 28 == m && (m * 28 + f) % 28 == f;
    assert base % 28 == f;
  }

  /** `decomposeHangul`: a syllable becomes initial and medial jamo, plus its
      final jamo when it has one; any other character stays as it is. */
  function DecomposeHangul(c: char): (r: seq<string>)
    ensures !IsHangul(c) ==> r == [[c]]
    ensures IsHangul(c) ==> |r| == (if Split(c as int).final == 0 then 2 else 3)
    ensures forall k :: 0 <= k < |r| ==> |r[k]| == 1
  {
    if !IsHangul(c) then [[c]]
    else
      var s := Split(c as int);
      [InitialJamo[s.initial], MedialJamo[s.medial]] + (if s.final > 0 then [FinalJamo[s.final]] else [])
  }

  /** The units `decomposeText` makes of one character. */
  function CharUnits(c: char): seq<string> {
    if IsHangul(c) then DecomposeHangul(c) else [[c]]
  }

  predicate HasFinal(c: char)
    requires IsHangul(c)
  {
    (c as int - HangulFirst) % 28 != 0
  }

  /** How many units one character makes: 1 for non-Hangul, 2 or 3 for a syllable. */
  function UnitCount(c: char): (n: nat)
    ensures 1 <= n <= 3
    ensures !IsHangul(c) ==> n == 1
    ensures IsHangul(c) ==> n >= 2
  {
    if !IsHangul(c) then 1 else if HasFinal(c) then 3 else 2
  }

  /** The units of a text, in order: the result of `decomposeText`. */
  function Units(t: string): seq<string> {
    UnitsUpTo(t, |t|)
  }

  /** The units of the first `n` characters. */
  function UnitsUpTo(t: string, n: nat): seq<string>
    requires n <= |t|
  {
    if n == 0 then [] else UnitsUpTo(t, n - 1) + CharUnits(t[n - 1])
  }

  /** `charUnitMap`: one unit count per character of the text. */
  function UnitMap(t: string): (m: seq<nat>)
    ensures |m| == |t|
  {
    UnitMapUpTo(t, |t|)
  }

  function UnitMapUpTo(t: string, n: nat): (m: seq<nat>)
    requires n <= |t|
    ensures |m| == n
  {
    if n == 0 then [] else UnitMapUpTo(t, n - 1) + [UnitCount(t[n - 1])]
  }

  /** Entry `i` of the unit map is the unit count of character `i`. */
  lemma {:induction false} UnitMapAt(t: string, n: nat, i: nat)
    requires i < n <= |t|
    ensures UnitMapUpTo(t, n)[i] == UnitCount(t[i])
  {
    if i < n - 1 {
      UnitMapAt(t, n - 1, i);
    }
  }

  /** `s[j] + ... + s[i - 1]`. */
  function SumBetween(s: seq<nat>, j: nat, i: nat): nat
    requires j <= i <= |s|
    decreases i - j
  {
    if j == i then 0 else s[j] + SumBetween(s, j + 1, i)
  }

  lemma {:induction false} SumBetweenSnoc(s: seq<nat>, j: nat, i: nat)
    requires j <= i < |s|
    ensures SumBetween(s, j, i + 1) == SumBetween(s, j, i) + s[i]
    decreases i - j
  {
    if j < i {
      SumBetweenSnoc(s, j + 1, i);
    }
  }

  /** Counts that are all at least one add up to at least their number. */
  lemma {:induction false} SumAtLeastLength(s: seq<nat>, j: nat)
    requires j <= |s| && Positive(s)
    ensures SumBetween(s, j, |s|) >= |s| - j
    decreases |s| - j
  {
    if j < |s| {
      SumAtLeastLength(s, j + 1);
    }
  }

  /** There are as many units as the unit map adds up to. */
  lemma {:induction false} UnitsLength(t: string, n: nat)
    requires n <= |t|
    ensures |UnitsUpTo(t, n)| == SumBetween(UnitMap(t), 0, n)
  {
    if n > 0 {
      UnitsLength(t, n - 1);
      UnitMapAt(t, |t|, n - 1);
      SumBetweenSnoc(UnitMap(t), 0, n - 1);
    }
  }

  /** The characters shown from character `i` on, once `u` units are typed
      past the characters before it: each fully typed character counts, and
      the first character not fully typed counts when at least two of its
      units are in for Hangul, or at least one for anything else. */
  function ShownFrom(chars: string, counts: seq<nat>, i: nat, u: nat): (n: nat)
    requires |counts| == |chars| && i <= |counts|
    ensures n <= |counts| - i
    decreases |counts| - i
  {
    if i == |counts| then 0
    else if u >= counts[i] then 1 + ShownFrom(chars, counts, i + 1, u - counts[i])
    else if u > 0 && ((IsHangul(chars[i]) && u >= 2) || (!IsHangul(chars[i]) && u >= 1)) then 1
    else 0
  }

  /** `getCharIndexFromUnitIndex`: 0 for no units, else the characters shown. */
  function CharIndex(chars: string, counts: seq<nat>, u: nat): (n: nat)
    requires |counts| == |chars|
    ensures n <= |chars|
  {
    if u == 0 then 0 else ShownFrom(chars, counts, 0, u)
  }

  /** Typing more units never shows fewer characters. */
  lemma {:induction false} ShownMonotone(chars: string, counts: seq<nat>, i: nat, u: nat, v: nat)
    requires |counts| == |chars| && i <= |counts| && u <= v
    ensures ShownFrom(chars, counts, i, u) <= ShownFrom(chars, counts, i, v)
    decreases |counts| - i
  {
    if i < |counts| && u >= counts[i] {
      ShownMonotone(chars, counts, i + 1, u - counts[i], v - counts[i]);
    }
  }

  /** Every count is at least one, as in every unit map. */
  ghost predicate Positive(counts: seq<nat>) {
    forall k :: 0 <= k < |counts| ==> counts[k] >= 1
  }

  lemma UnitMapPositive(t: string)
    ensures Positive(UnitMap(t))
  {
    forall k | 0 <= k < |t|
      ensures UnitMap(t)[k] >= 1
    {
      UnitMapAt(t, |t|, k);
    }
  }

  /** With exactly the units of the characters from `j` up to `i` typed,
      exactly those characters are shown. */
  lemma {:induction false} ShownFull(chars: string, counts: seq<nat>, j: nat, i: nat)
    requires |counts| == |chars| && j <= i <= |counts| && Positive(counts)
    ensures ShownFrom(chars, counts, j, SumBetween(counts, j, i)) == i - j
    ensures i > j ==> SumBetween(counts, j, i) > 0
    decreases i - j
  {
    if j < i {
      ShownFull(chars, counts, j + 1, i);
    }
  }

  /** Once all units are typed every character is shown. */
  lemma {:induction false} ShownComplete(chars: string, counts: seq<nat>, i: nat, u: nat)
    requires |counts| == |chars| && i <= |counts| && u >= SumBetween(counts, i, |counts|)
    ensures ShownFrom(chars, counts, i, u) == |counts| - i
    decreases |counts| - i
  {
    if i < |counts| {
      ShownComplete(chars, counts, i + 1, u - counts[i]);
    }
  }

  /** With the characters from `j` up to `i` fully typed and `k` units of
      character `i` in, short of its count, character `i` is shown iff
      `k >= 2` for Hangul or `k >= 1` otherwise. */
  lemma {:induction false} ShownPartial(chars: string, counts: seq<nat>, j: nat, i: nat, k: nat)
    requires |counts| == |chars| && j <= i < |counts| && k < counts[i]
    ensures ShownFrom(chars, counts, j, SumBetween(counts, j, i) + k)
      == (i - j) + (if (IsHangul(chars[i]) && k >= 2) || (!IsHangul(chars[i]) && k >= 1) then 1 else 0)
    decreases i - j
  {
    if j < i {
      ShownPartial(chars, counts, j + 1, i, k);
    }
  }

  /** The text shown after `n` units: `buildTextFromUnits` over `n` units. */
  function Typed(text: string, n: nat): (r: string)
    ensures r <= text
  {
    if n == 0 then "" else text[..CharIndex(text, UnitMap(text), n)]
  }

  /** The text shown only grows, as a prefix, while units are typed. */
  lemma TypedMonotone(text: string, m: nat, n: nat)
    requires m <= n
    ensures Typed(text, m) <= Typed(text, n)
  {
    if m > 0 {
      ShownMonotone(text, UnitMap(text), 0, m, n);
    }
  }

  /** After all units are typed, the whole text shows. */
  lemma TypedComplete(text: string, n: nat)
    requires n >= |Units(text)|
    ensures Typed(text, n) == text
  {
    var counts := UnitMap(text);
    UnitsLength(text, |text|);
    ShownComplete(text, counts, 0, n);
    UnitMapPositive(text);
    SumAtLeastLength(counts, 0);
  }

  /** `decomposeText`, as its loop: append the units of each character. */
  method DecomposeText(text: string) returns (units: seq<string>)
    ensures units == Units(text)
  {
    units := [];
    var i := 0;
    while i < |text|
      invariant 0 <= i <= |text|
      invariant units == UnitsUpTo(text, i)
    {
      var c := text[i];
      if IsHangul(c) {
        var decomposed := DecomposeHangul(c);
        units := units + decomposed;
      } else {
        units := units + [[c]];
      }
      i := i + 1;
    }
  }

  datatype Options = Options(
    text: string, speed: Option<real>, delay: Option<real>, enabled: Option<bool>,
    threshold: Option<real>, rootMargin: Option<string>, triggerOnce: Option<bool>,
    showCursor: Option<bool>, cursorChar: Option<string>,
    onUpdate: Option<CallbackId>, onComplete: Option<CallbackId>)

  datatype Config = Config(
    text: string, speed: real, delay: real, enabled: bool,
    threshold: real, rootMargin: string, triggerOnce: bool,
    showCursor: bool, cursorChar: string,
    onUpdate: Option<CallbackId>, onComplete: Option<CallbackId>)

  function Or<T>(o: Option<T>, d: T): T { if o.Some? then o.value else d }

  /** The constructor's defaults: 50 ms per unit, no delay, enabled,
      threshold 0.2, root margin "0px 0px -100px 0px", repeatable, a "|" cursor. */
  function Configure(o: Options): (c: Config)
    ensures c.text == o.text && c.onUpdate == o.onUpdate && c.onComplete == o.onComplete
    ensures c.speed == Or(o.speed, 50.0) && c.delay == Or(o.delay, 0.0) && c.enabled == Or(o.enabled, true)
    ensures c.threshold == Or(o.threshold, 0.2) && c.rootMargin == Or(o.rootMargin, "0px 0px -100px 0px")
    ensures c.triggerOnce == Or(o.triggerOnce, false)
    ensures c.showCursor == Or(o.showCursor, true) && c.cursorChar == Or(o.cursorChar, "|")
  {
    Config(o.text, Or(o.speed, 50.0), Or(o.delay, 0.0), Or(o.enabled, true),
           Or(o.threshold, 0.2), Or(o.rootMargin, "0px 0px -100px 0px"), Or(o.triggerOnce, false),
           Or(o.showCursor, true), Or(o.cursorChar, "|"), o.onUpdate, o.onComplete)
  }

  /** What the effect reports to its caller's callbacks. */
  datatype Note = Updated(text: string) | Completed

  /** Some entry of the batch reports the container entering the viewport. */
  predicate Entering(container: ElementId, entries: seq<V.Entry>) {
    EnteringUpTo(container, entries, |entries|)
  }

  /** Some of the first `n` entries reports the container entering. */
  predicate EnteringUpTo(container: ElementId, entries: seq<V.Entry>, n: nat)
    requires n <= |entries|
  {
    && n > 0
    && (|| EnteringUpTo(container, entries, n - 1)
        || (entries[n - 1].target == container && entries[n - 1].isIntersecting))
  }

  /** `Entering` holds exactly when some entry is the container intersecting. */
  lemma {:induction false} EnteringMeansSomeEntry(container: ElementId, entries: seq<V.Entry>, n: nat)
    requires n <= |entries|
    ensures EnteringUpTo(container, entries, n) <==>
      exists i :: 0 <= i < n && entries[i].target == container && entries[i].isIntersecting
  {
    if n > 0 {
      EnteringMeansSomeEntry(container, entries, n - 1);
    }
  }

  class Typing {
    const container: ElementId
    var config: Config
    var originalText: string
    var textUnits: seq<string>
    var originalChars: string
    var charUnitMap: seq<nat>
    /** How many units are typed. */
    var currentIndex: nat
    var displayedText: string
    /** The container's text content, cursor included. */
    var display: string
    var timeoutId: Option<Handle>
    var intersectionObserver: Option<Handle>
    /** Whether the observer still observes (`disconnect` keeps the handle). */
    var observing: bool
    var isRunning: bool
    var hasTriggered: bool
    /** Delayed `start` calls set by the observer and `setText`; never cancelled. */
    var pendingStarts: nat
    /** The last handle the host gave out. */
    var issued: Handle

    /** The unit structure belongs to the current text. */
    ghost predicate Structured()
      reads this`config, this`originalText, this`textUnits, this`originalChars, this`charUnitMap
    {
      && config.text == originalText
      && textUnits == Units(originalText)
      && originalChars == originalText
      && charUnitMap == UnitMap(originalText)
    }

    ghost predicate Handles()
      reads this`timeoutId, this`intersectionObserver, this`observing, this`issued
    {
      && (timeoutId.Some? ==> timeoutId.value <= issued)
      && (intersectionObserver.Some? ==> intersectionObserver.value <= issued)
      && (observing ==> intersectionObserver.Some?)
    }

    /** The shown text is what the typed units amount to. */
    ghost predicate Ready()
      reads this
    {
      && Structured()
      && Handles()
      && currentIndex <= |textUnits|
      && displayedText == Typed(originalText, currentIndex)
    }

    /** ... and a run in progress has its next step pending. */
    ghost predicate Valid()
      reads this
    {
      Ready() && (isRunning ==> timeoutId.Some?)
    }

    /** The constructor's own work: keep the text and its configuration,
        decompose the text into units and build the character structure,
        with nothing typed and nothing scheduled. */
    constructor Init(container: ElementId, options: Options)
      ensures Valid() && this.container == container && config == Configure(options)
      ensures originalText == options.text && textUnits == Units(options.text)
      ensures currentIndex == 0 && displayedText == "" && display == ""
      ensures timeoutId.None? && intersectionObserver.None? && !observing
      ensures !isRunning && !hasTriggered && pendingStarts == 0
    {
      this.container := container;
      originalText := options.text;
      config := Configure(options);
      var units := DecomposeText(options.text);
      textUnits := units;
      originalChars := [];
      charUnitMap := [];
      currentIndex := 0;
      displayedText := "";
      display := "";
      timeoutId := None;
      intersectionObserver := None;
      observing := false;
      isRunning := false;
      hasTriggered := false;
      pendingStarts := 0;
      issued := 0;
      new;
      InitializeTextStructure();
    }

    /** `new Typing(container, options)`: fails without a container;
        otherwise the constructor's work, then `init`. */
    static method New(container: Option<ElementId>, options: Options, hasIntersectionObserver: bool)
      returns (r: Result<Typing>)
      ensures container.None? ==> r == Err("Container element not found")
      ensures container.Some? ==> r.Ok? && fresh(r.value)
      ensures r.Ok? ==>
        && r.value.Valid() && r.value.config == Configure(options)
        && r.value.textUnits == Units(options.text) && r.value.display == ""
        && !r.value.isRunning && !r.value.hasTriggered
        && r.value.observing == hasIntersectionObserver
        && r.value.pendingStarts == (if !hasIntersectionObserver && r.value.config.enabled then 1 else 0)
    {
      if container.None? {
        return Err("Container element not found");
      }
      var t := new Typing.Init(container.value, options);
      t.Initialize(hasIntersectionObserver);
      r := Ok(t);
    }

    /** `init`: show nothing (or only the cursor's absence) and set up the
        observer. */
    method Initialize(hasIntersectionObserver: bool)
      requires Valid() && !observing
      modifies this`display, this`intersectionObserver, this`observing, this`pendingStarts, this`issued
      ensures Valid() && display == ""
      ensures observing == hasIntersectionObserver
      ensures pendingStarts == old(pendingStarts) + (if !hasIntersectionObserver && config.enabled then 1 else 0)
    {
      UpdateDisplay("");
      SetupIntersectionObserver(hasIntersectionObserver);
    }

    /** Without IntersectionObserver, a delayed start when enabled;
        otherwise a new observer on the container. */
    method SetupIntersectionObserver(hasIntersectionObserver: bool)
      requires Handles() && !observing
      modifies this`intersectionObserver, this`observing, this`pendingStarts, this`issued
      ensures Handles()
      ensures !hasIntersectionObserver ==>
        pendingStarts == old(pendingStarts) + (if config.enabled then 1 else 0)
        && intersectionObserver == old(intersectionObserver) && !observing
      ensures hasIntersectionObserver ==>
        pendingStarts == old(pendingStarts) && observing
        && issued == old(issued) + 1 && intersectionObserver == Some(issued)
    {
      if !hasIntersectionObserver {
        if config.enabled {
          pendingStarts := pendingStarts + 1;
        }
        return;
      }
      issued := issued + 1;
      intersectionObserver := Some(issued);
      observing := true;
    }

    /** `initializeTextStructure`: one character and one unit count per
        character of the text. */
    method InitializeTextStructure()
      modifies this`originalChars, this`charUnitMap
      ensures originalChars == originalText && charUnitMap == UnitMap(originalText)
    {
      var chars := "";
      var counts: seq<nat> := [];
      var i := 0;
      while i < |originalText|
        invariant 0 <= i <= |originalText|
        invariant chars == originalText[..i]
        invariant counts == UnitMapUpTo(originalText, i)
      {
        var c := originalText[i];
        chars := chars + [c];
        if IsHangul(c) {
          var decomposed := DecomposeHangul(c);
          counts := counts + [|decomposed|];
        } else {
          counts := counts + [1];
        }
        i := i + 1;
      }
      assert originalText[..|originalText|] == originalText;
      originalChars := chars;
      charUnitMap := counts;
    }

    /** `getCharIndexFromUnitIndex`, as its loop with an early exit. */
    method GetCharIndexFromUnitIndex(unitIndex: nat) returns (charIndex: nat)
      requires |charUnitMap| == |originalChars|
      ensures charIndex == CharIndex(originalChars, charUnitMap, unitIndex)
    {
      if unitIndex == 0 {
        return 0;
      }
      charIndex := 0;
      var currentUnits := 0;
      var i := 0;
      while i < |charUnitMap|
        invariant 0 <= i <= |charUnitMap|
        invariant charIndex == i && currentUnits <= unitIndex
        invariant ShownFrom(originalChars, charUnitMap, 0, unitIndex)
          == i + ShownFrom(originalChars, charUnitMap, i, unitIndex - currentUnits)
      {
        var unitsForChar := charUnitMap[i];
        currentUnits := currentUnits + unitsForChar;
        if unitIndex >= currentUnits {
          charIndex := i + 1;
        } else {
          var unitsEntered := unitIndex - (currentUnits - unitsForChar);
          if unitsEntered > 0 {
            var isHangul := IsHangul(originalChars[i]);
            if isHangul && unitsEntered >= 2 {
              charIndex := i + 1;
            } else if !isHangul && unitsEntered >= 1 {
              charIndex := i + 1;
            }
          }
          break;
        }
        i := i + 1;
      }
    }

    /** `buildTextFromUnits`: the prefix of the text the units amount to. */
    method BuildTextFromUnits(units: seq<string>) returns (r: string)
      requires Structured()
      ensures r == Typed(originalText, |units|)
    {
      if |units| == 0 {
        return "";
      }
      var charIndex := GetCharIndexFromUnitIndex(|units|);
      r := originalText[..charIndex];
    }

    method UpdateDisplay(text: string)
      modifies this`display
      ensures display == text
    {
      display := text;
    }

    /** The observer's callback: the first entry of the container entering
        the viewport while untriggered sets a delayed start when enabled,
        marks the effect triggered and, with `triggerOnce`, disconnects. */
    method Intersect(entries: seq<V.Entry>)
      requires Valid() && observing
      modifies this`hasTriggered, this`pendingStarts, this`observing
      ensures Valid()
      ensures hasTriggered == (old(hasTriggered) || Entering(container, entries))
      ensures pendingStarts == old(pendingStarts)
        + (if !old(hasTriggered) && Entering(container, entries) && config.enabled then 1 else 0)
      ensures observing == !(config.triggerOnce && !old(hasTriggered) && Entering(container, entries))
    {
      var i := 0;
      while i < |entries|
        invariant 0 <= i <= |entries|
        invariant Valid()
        invariant hasTriggered == (old(hasTriggered) || EnteringUpTo(container, entries, i))
        invariant pendingStarts == old(pendingStarts)
          + (if !old(hasTriggered) && EnteringUpTo(container, entries, i) && config.enabled then 1 else 0)
        invariant observing == !(config.triggerOnce && !old(hasTriggered) && EnteringUpTo(container, entries, i))
      {
        var entry := entries[i];
        if entry.target == container {
          if entry.isIntersecting && !hasTriggered {
            if config.enabled {
              pendingStarts := pendingStarts + 1;
            }
            hasTriggered := true;
            if config.triggerOnce {
              observing := false;
            }
          }
        }
        i := i + 1;
      }
    }

    /** A delayed start fires; `start` itself does not look at `enabled`. */
    method StartTimerFires() returns (notes: seq<Note>)
      requires Valid() && pendingStarts > 0
      modifies this
      ensures Valid() && pendingStarts == old(pendingStarts) - 1
      ensures config == old(config) && originalText == old(originalText) && textUnits == old(textUnits)
      ensures hasTriggered == old(hasTriggered) && observing == old(observing)
      ensures old(isRunning) ==>
        && isRunning && currentIndex == old(currentIndex) && displayedText == old(displayedText)
        && display == old(display) && timeoutId == old(timeoutId) && notes == []
      ensures !old(isRunning) && |textUnits| == 0 ==>
        && !isRunning && currentIndex == 0 && displayedText == ""
        && display == (if config.showCursor then originalText else old(display))
        && notes == (if config.onComplete.Some? then [Completed] else [])
      ensures !old(isRunning) && |textUnits| > 0 ==>
        && isRunning && currentIndex == 1 && displayedText == Typed(originalText, 1)
        && display == displayedText + (if config.showCursor then config.cursorChar else "")
        && notes == (if config.onUpdate.Some? then [Updated(displayedText)] else [])
        && issued == old(issued) + 1 && timeoutId == Some(issued)
    {
      pendingStarts := pendingStarts - 1;
      notes := Start();
    }

    /** `start`: a no-op when running; otherwise type from the first unit. */
    method Start() returns (notes: seq<Note>)
      requires Valid()
      modifies this`isRunning, this`currentIndex, this`displayedText, this`display, this`timeoutId, this`issued
      ensures Valid()
      ensures old(isRunning) ==> unchanged(this) && notes == []
      ensures !old(isRunning) && |textUnits| == 0 ==>
        && !isRunning && currentIndex == 0 && displayedText == ""
        && display == (if config.showCursor then originalText else old(display))
        && notes == (if config.onComplete.Some? then [Completed] else [])
      ensures !old(isRunning) && |textUnits| > 0 ==>
        && isRunning && currentIndex == 1 && displayedText == Typed(originalText, 1)
        && display == displayedText + (if config.showCursor then config.cursorChar else "")
        && notes == (if config.onUpdate.Some? then [Updated(displayedText)] else [])
        && issued == old(issued) + 1 && timeoutId == Some(issued)
    {
      if isRunning {
        return [];
      }
      Rewind();
      notes := TypeNext();
    }

    /** The first half of `start`: running, from the first unit, nothing typed. */
    method Rewind()
      requires Valid()
      modifies this`isRunning, this`currentIndex, this`displayedText
      ensures Ready() && isRunning && currentIndex == 0 && displayedText == ""
    {
      isRunning := true;
      currentIndex := 0;
      displayedText := "";
    }

    /** `typeNext`: past the last unit, finish (show the plain text when the
        cursor is on, fire `onComplete`, keep the spent timer handle);
        otherwise show the text of one more unit, with the cursor when on,
        report it and set the next timer. */
    method TypeNext() returns (notes: seq<Note>)
      requires Ready()
      modifies this`isRunning, this`currentIndex, this`displayedText, this`display, this`timeoutId, this`issued
      ensures Valid()
      ensures old(currentIndex) >= |textUnits| ==>
        && !isRunning && currentIndex == old(currentIndex) && displayedText == old(displayedText)
        && timeoutId == old(timeoutId) && issued == old(issued)
        && display == (if config.showCursor then originalText else old(display))
        && notes == (if config.onComplete.Some? then [Completed] else [])
      ensures old(currentIndex) < |textUnits| ==>
        && isRunning == old(isRunning) && currentIndex == old(currentIndex) + 1
        && displayedText == Typed(originalText, currentIndex)
        && display == displayedText + (if config.showCursor then config.cursorChar else "")
        && notes == (if config.onUpdate.Some? then [Updated(displayedText)] else [])
        && issued == old(issued) + 1 && timeoutId == Some(issued)
    {
      if currentIndex >= |textUnits| {
        notes := Finish();
      } else {
        notes := TypeOne();
      }
    }

    /** The end of a run: not running, the plain text shown when the cursor
        is on, `onComplete` fired; the spent timer handle is kept. */
    method Finish() returns (notes: seq<Note>)
      requires Ready()
      modifies this`isRunning, this`display
      ensures Valid() && !isRunning
      ensures display == (if config.showCursor then originalText else old(display))
      ensures notes == (if config.onComplete.Some? then [Completed] else [])
    {
      isRunning := false;
      if config.showCursor {
        UpdateDisplay(originalText);
      }
      notes := if config.onComplete.Some? then [Completed] else [];
    }

    /** One more unit: show its text, with the cursor when on, report it and
        set the next timer. */
    method TypeOne() returns (notes: seq<Note>)
      requires Ready() && currentIndex < |textUnits|
      modifies this`currentIndex, this`displayedText, this`display, this`timeoutId, this`issued
      ensures Valid() && currentIndex == old(currentIndex) + 1
      ensures displayedText == Typed(originalText, currentIndex)
      ensures display == displayedText + (if config.showCursor then config.cursorChar else "")
      ensures notes == (if config.onUpdate.Some? then [Updated(displayedText)] else [])
      ensures issued == old(issued) + 1 && timeoutId == Some(issued)
    {
      var unitsToShow := textUnits[..currentIndex + 1];
      displayedText := BuildTextFromUnits(unitsToShow);
      var displayText := displayedText;
      if config.showCursor {
        displayText := displayText + config.cursorChar;
      }
      UpdateDisplay(displayText);
      notes := if config.onUpdate.Some? then [Updated(displayedText)] else [];
      currentIndex := currentIndex + 1;
      issued := issued + 1;
      timeoutId := Some(issued);
    }

    /** The pending step timer fires. */
    method TimerFires() returns (notes: seq<Note>)
      requires Valid() && isRunning
      modifies this`isRunning, this`currentIndex, this`displayedText, this`display, this`timeoutId, this`issued
      ensures Valid()
      ensures old(currentIndex) >= |textUnits| ==>
        && !isRunning && currentIndex == old(currentIndex) && displayedText == old(displayedText)
        && timeoutId == old(timeoutId) && issued == old(issued)
        && display == (if config.showCursor then originalText else old(display))
        && notes == (if config.onComplete.Some? then [Completed] else [])
      ensures old(currentIndex) < |textUnits| ==>
        && isRunning && currentIndex == old(currentIndex) + 1
        && displayedText == Typed(originalText, currentIndex)
        && display == displayedText + (if config.showCursor then config.cursorChar else "")
        && notes == (if config.onUpdate.Some? then [Updated(displayedText)] else [])
        && issued == old(issued) + 1 && timeoutId == Some(issued)
    {
      notes := TypeNext();
    }

    /** `stop`: not running and no step pending. */
    method Stop()
      modifies this`isRunning, this`timeoutId
      ensures !isRunning && timeoutId.None?
    {
      isRunning := false;
      if timeoutId.Some? {
        timeoutId := None;
      }
    }

    /** `reset`: stop, forget what was typed and the trigger, show nothing. */
    method Reset()
      requires Structured() && Handles()
      modifies this`isRunning, this`timeoutId, this`currentIndex, this`displayedText, this`hasTriggered, this`display
      ensures Valid()
      ensures !isRunning && timeoutId.None? && currentIndex == 0 && displayedText == "" && !hasTriggered && display == ""
    {
      Stop();
      currentIndex := 0;
      displayedText := "";
      hasTriggered := false;
      UpdateDisplay("");
    }

    /** `setText`: adopt and decompose the new text, reset, and set a
        delayed start when enabled. */
    method SetText(newText: string)
      requires Valid()
      modifies this`originalText, this`config, this`textUnits, this`originalChars, this`charUnitMap
      modifies this`isRunning, this`timeoutId, this`currentIndex, this`displayedText, this`hasTriggered, this`display
      modifies this`pendingStarts
      ensures Valid() && originalText == newText && config == old(config).(text := newText)
      ensures textUnits == Units(newText)
      ensures !isRunning && currentIndex == 0 && display == "" && !hasTriggered
      ensures pendingStarts == old(pendingStarts) + (if config.enabled then 1 else 0)
    {
      AdoptText(newText);
      Reset();
      if config.enabled {
        pendingStarts := pendingStarts + 1;
      }
    }

    /** The first half of `setText`: the new text, its units and its
        character structure. */
    method AdoptText(newText: string)
      modifies this`originalText, this`config, this`textUnits, this`originalChars, this`charUnitMap
      ensures Structured() && originalText == newText && config == old(config).(text := newText)
      ensures textUnits == Units(newText)
    {
      originalText := newText;
      config := config.(text := newText);
      var units := DecomposeText(newText);
      textUnits := units;
      InitializeTextStructure();
    }

    /** `destroy`: stop and disconnect and drop the observer. */
    method Destroy()
      requires Valid()
      modifies this`isRunning, this`timeoutId, this`intersectionObserver, this`observing
      ensures Valid() && !isRunning && timeoutId.None? && intersectionObserver.None? && !observing
    {
      Stop();
      if intersectionObserver.Some? {
        observing := false;
        intersectionObserver := None;
      }
    }
  }

  /** A Hangul syllable is shown from its second unit: with the characters
      before it typed, its initial alone shows nothing new, its medial shows it. */
  lemma SyllableShownAtMedial(text: string, i: nat)
    requires i < |text| && IsHangul(text[i])
    ensures Typed(text, SumBetween(UnitMap(text), 0, i) + 1) == text[..i]
    ensures Typed(text, SumBetween(UnitMap(text), 0, i) + 2) == text[..i + 1]
  {
    var counts := UnitMap(text);
    UnitMapAt(text, |text|, i);
    UnitMapPositive(text);
    ShownPartial(text, counts, 0, i, 1);
    if counts[i] > 2 {
      ShownPartial(text, counts, 0, i, 2);
    } else {
      SumBetweenSnoc(counts, 0, i);
      ShownFull(text, counts, 0, i + 1);
    }
  }

  /** Any other character is shown from its first unit. */
  lemma OtherShownAtFirst(text: string, i: nat)
    requires i < |text| && !IsHangul(text[i])
    ensures Typed(text, SumBetween(UnitMap(text), 0, i)) == text[..i]
    ensures Typed(text, SumBetween(UnitMap(text), 0, i) + 1) == text[..i + 1]
  {
    var counts := UnitMap(text);
    UnitMapAt(text, |text|, i);
    UnitMapPositive(text);
    ShownFull(text, counts, 0, i);
    SumBetweenSnoc(counts, 0, i);
    ShownFull(text, counts, 0, i + 1);
  }
}
