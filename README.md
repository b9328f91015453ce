# masoneffect in Dafny

masoneffect is a small library of text effects for web pages. Each effect is a
class bound to one container element:

- **Count** animates a number from a start value to a target value, one
  animation frame at a time, through an easing curve.
- **ScrollFadeIn** fades an element in and slides it from an offset back to
  its place when it scrolls into view.
- **TextSpin** splits a text into per-character spans and reveals them in a
  random order.
- **Typing** types a text out character by character. A Hangul syllable is
  typed as its separate jamo.
- **TextToParticle** draws a text onto an off-screen canvas.
  It samples the bright pixels on a grid and pulls a cloud of particles
  towards those points.
- **MasonEffect** is the legacy JavaScript version of the particle effect.

Count, ScrollFadeIn and TextSpin share a **VisibilityManager**. It combines an
IntersectionObserver with the page-visibility API and calls `onVisible` or
`onHidden`. Typing runs its own IntersectionObserver and does not watch page
visibility. Count and ScrollFadeIn share a table of **easing curves**.

This project models that core as Dafny modules:

| module | source file |
|---|---|
| `Common` | types shared by every effect (`Option`, `Result`, handles) |
| `Easing` | the easing tables of `src/core/count/index.ts` and `src/core/scrollFadeIn/index.ts` |
| `Visibility` | `src/core/utils/visibilityManager.ts` |
| `CountEffect` | `src/core/count/index.ts` |
| `ScrollFadeInEffect` | `src/core/scrollFadeIn/index.ts` |
| `TextSpinEffect` | `src/core/textSpin/index.ts` |
| `TypingEffect` | `src/core/typing/index.ts` |
| `Particles` | the particle logic that `src/core/textToParticle/index.ts` and `src/core/index.js` share |
| `TextToParticleEffect` | `src/core/textToParticle/index.ts` |
| `MasonEffectLegacy` | `src/core/index.js` |

Every class keeps the fields of its source class. Its methods change them in
place under `modifies` clauses, and a ghost `Valid()` states the invariant
they keep. The host environment becomes explicit inputs:

- Host callbacks are methods the host calls. These are animation frames,
  timers, IntersectionObserver batches, `visibilitychange` events and
  `resize`.
- `requestAnimationFrame` and `setTimeout` handles come from a per-instance
  counter.
- The user callbacks an operation fires are returned as a sequence of
  notes.
- `Math.random` is a stream `nat -> real` of values in [0, 1). Each
  instance keeps the position of its next draw.
- Text measurement and canvas pixels come from host functions.

## Model

| member | source | states |
|---|---|---|
| `Easing.EndpointsFixed` | src/core/count/index.ts:25-31 | every named curve maps 0 to 0 and 1 to 1 |
| `Easing.Monotone` | src/core/scrollFadeIn/index.ts:25-32 | every named curve is non-decreasing on [0, 1] (including easeOutCubic's `--t * t * t + 1` and both branches of the in-out curves) |
| `Easing.Bounded` | src/core/count/index.ts:25-31 | every named curve maps [0, 1] into [0, 1] |
| `Easing.ProgressRange` | src/core/count/index.ts:125 | `min(elapsed / duration, 1)` lies in [0, 1] and is 1 exactly when the duration has elapsed |
| `Easing.ProgressMono` | src/core/scrollFadeIn/index.ts:216 | progress never decreases as time goes on |
| `Visibility.Defaults` | src/core/utils/visibilityManager.ts:24-30 | threshold defaults to 0.1, rootMargin to "0px"; root and the callbacks are taken as given |
| `Visibility.Merge` | src/core/utils/visibilityManager.ts:121 | `{ ...options, ...patch }`: every field present in the patch wins, every absent one keeps its value; an empty patch changes nothing |
| `Visibility.Own` | src/core/utils/visibilityManager.ts:53 | an entry of the batch is kept iff it targets the bound element |
| `Visibility.OwnIsFilter` | src/core/utils/visibilityManager.ts:53 | `Own` keeps the batch's order: it distributes over concatenation and keeps a single entry exactly when it targets the element |
| `Visibility.ForeignEntriesIgnored` | src/core/utils/visibilityManager.ts:52-53 | entries for other elements change neither the element flag nor the callbacks invoked |
| `Visibility.LastOwnEntryWins` | src/core/utils/visibilityManager.ts:55-62 | after a batch the flag is the `isIntersecting` of the last own entry, or unchanged when there is none |
| `Visibility.SignalsPerEntry` | src/core/utils/visibilityManager.ts:55-66 | a batch fires one callback per leaving entry and per entering entry while the page is visible; never `onVisible` while the page is hidden |
| `Visibility.Entering` | src/core/utils/visibilityManager.ts:55 | the number of intersecting entries: at most the batch size, zero iff no entry intersects, the batch size iff every entry does |
| `Visibility.PageSignalsCases` | src/core/utils/visibilityManager.ts:83-98 | hiding the tab always fires `onHidden`; showing it fires `onVisible` only when it was hidden before and the element intersects, and never `onHidden` |
| `Visibility.VisibilityManager.Init` | src/core/utils/visibilityManager.ts:22-34 | the fields start as the constructor sets them: defaulted options, no observer or listener, not visible, page visible unless the document is hidden |
| `Visibility.VisibilityManager.Create` | src/core/utils/visibilityManager.ts:22-38 | an observer exists iff the host has IntersectionObserver, a listener iff it has a document; without an observer the element counts as visible and `onVisible` fires at once iff the page is visible (`onHidden` iff it is not) |
| `Visibility.VisibilityManager.SetupIntersectionObserver` | src/core/utils/visibilityManager.ts:40-77 | with IntersectionObserver a fresh observer handle is stored; without it the element is marked visible and `onVisible` fires iff the page is visible |
| `Visibility.VisibilityManager.SetupPageVisibility` | src/core/utils/visibilityManager.ts:79-108 | a listener is registered iff there is a document; `onHidden` fires at once iff the document is hidden and the element is visible |
| `Visibility.VisibilityManager.OnIntersection` | src/core/utils/visibilityManager.ts:51-67 | the new flag and the callbacks fired are those of the batch processed in order (`BatchVisible`, `BatchSignals`) |
| `Visibility.VisibilityManager.OnVisibilityChange` | src/core/utils/visibilityManager.ts:83-98 | the page flag becomes `!document.hidden` and the callbacks are `PageSignals` of the old and new state |
| `Visibility.VisibilityManager.GetIsVisible` | src/core/utils/visibilityManager.ts:113-115 | true iff the element intersects and the page is visible |
| `Visibility.VisibilityManager.UpdateOptions` | src/core/utils/visibilityManager.ts:120-129 | options become the merge; the observer is replaced by a new one (or the element is marked visible without IntersectionObserver); the page listener is kept |
| `Visibility.VisibilityManager.Destroy` | src/core/utils/visibilityManager.ts:134-143 | observer and listener are both gone; a second call changes nothing |
| `CountEffect.Configure` | src/core/count/index.ts:57-68 | the defaults: duration 2000, start 0, enabled, linear, threshold 0.2, rootMargin "0px 0px -100px 0px", not triggerOnce |
| `CountEffect.Merge` | src/core/count/index.ts:186-191 | every field the patch carries wins and every other is kept; a callback the patch leaves undefined is kept, an explicit one (even null) replaces it; an empty patch changes nothing |
| `CountEffect.FrameValueWithin` | src/core/count/index.ts:124-130 | counting up with a named curve, a frame never shows more than the target nor less than one unit under the start |
| `CountEffect.FrameValueMonotone` | src/core/count/index.ts:124-130 | counting up with a named curve, a later frame never shows a smaller value |
| `CountEffect.FrameValueWithinDown` | src/core/count/index.ts:124-130 | counting down with a named curve, a frame never shows more than the start nor less than one unit under the target |
| `CountEffect.FrameValueMonotoneDown` | src/core/count/index.ts:124-130 | counting down with a named curve, a later frame never shows a larger value |
| `CountEffect.FirstFrameShowsStart` | src/core/count/index.ts:124-130 | the frame at elapsed 0 shows the floor of the start value |
| `CountEffect.Count.Init` | src/core/count/index.ts:57-76 | the configured defaults, current value = start value, nothing running or triggered |
| `CountEffect.Count.New` | src/core/count/index.ts:46-88 | without a container: the error "Container element not found"; otherwise a valid instance with a manager, running iff the host lacks IntersectionObserver, the page is visible and the effect is enabled |
| `CountEffect.Count.SetupVisibilityManager` | src/core/count/index.ts:90-108 | a fresh manager is attached; it fires `onVisible` at once iff the host lacks IntersectionObserver and the page is visible |
| `CountEffect.Count.Dispatch` | src/core/count/index.ts:94-106 | a first visible signal starts the count iff it is enabled, and a visible signal on an already triggered count changes nothing; a hidden signal on a running count without `triggerOnce` stops it and resets it to the start value and untriggered, while with `triggerOnce`, on an idle count or with no signal nothing changes; the configuration is kept |
| `CountEffect.Count.OnVisible` | src/core/count/index.ts:94-100 | starts once, only when enabled and not yet triggered; otherwise nothing changes |
| `CountEffect.Count.OnHidden` | src/core/count/index.ts:101-106 | resets a run still in progress unless `triggerOnce`; otherwise nothing changes |
| `CountEffect.Count.Start` | src/core/count/index.ts:110-117 | no-op when running or disabled; otherwise shows the start value and requests one frame |
| `CountEffect.Count.Tick` | src/core/count/index.ts:119-152 | the frame fixes the start time; before progress 1 it shows `FrameValue` and requests the next frame; at progress 1 it shows the target, stops and reports `onUpdate` then `onComplete` |
| `CountEffect.Count.Stop` | src/core/count/index.ts:155-161 | not running, no pending frame |
| `CountEffect.Count.Reset` | src/core/count/index.ts:163-169 | stopped, start value shown, trigger cleared, start time cleared |
| `CountEffect.Count.UpdateConfig` | src/core/count/index.ts:182-205 | config becomes the merge; a new target resets; running afterwards iff it was running and is still enabled |
| `CountEffect.Count.GetValue` | src/core/count/index.ts:208-210 | returns the current value |
| `CountEffect.Count.Destroy` | src/core/count/index.ts:213-219 | stopped, manager destroyed (its observer and listener gone) and dropped |
| `CountEffect.CompletedRunIsNotReplayed` | src/core/count/index.ts:96-105 | after a completed run, leaving and re-entering the viewport neither restarts nor changes the value |
| `CountEffect.InterruptedRunIsReplayed` | src/core/count/index.ts:96-105 | a run reset on hide (not `triggerOnce`) restarts from the start value on the next show |
| `ScrollFadeInEffect.DigitRun` | src/core/scrollFadeIn/index.ts:105 | the digit run ends at the first non-digit, or at the end |
| `ScrollFadeInEffect.DigitRunDigits` | src/core/scrollFadeIn/index.ts:105 | every character inside the run is a digit |
| `ScrollFadeInEffect.SpaceRun` | src/core/scrollFadeIn/index.ts:108 | the leading white space `parseFloat` skips ends at the first non-space |
| `ScrollFadeInEffect.Pow10` | src/core/scrollFadeIn/index.ts:108 | a power of ten is at least 1 |
| `ScrollFadeInEffect.ExponentScale` | src/core/scrollFadeIn/index.ts:108 | an exponent part scales a literal by a positive factor |
| `ScrollFadeInEffect.UnsignedParses` | src/core/scrollFadeIn/index.ts:112 | `parseFloat`'s longest unsigned prefix of an unsigned numeral is the whole numeral, with its whole-plus-fraction value |
| `ScrollFadeInEffect.NumeralParses` | src/core/scrollFadeIn/index.ts:105-112 | `parseFloat` of the numeral the pattern captures is the numeral's independently defined value |
| `ScrollFadeInEffect.NumeralEnd` | src/core/scrollFadeIn/index.ts:105 | a numeral ends with a digit or a dot, so it cannot swallow a unit |
| `ScrollFadeInEffect.FontSize` | src/core/scrollFadeIn/index.ts:121 | the root font size, or 16 when it reads as 0 or NaN, is never 0 |
| `ScrollFadeInEffect.LastDiffers` | src/core/scrollFadeIn/index.ts:105 | a string whose last character differs from a suffix's does not end with it |
| `ScrollFadeInEffect.MatchesUnit` | src/core/scrollFadeIn/index.ts:105 | numeral followed by a unit matches the length pattern with exactly that numeral and unit |
| `ScrollFadeInEffect.DistanceOfUnit` | src/core/scrollFadeIn/index.ts:103-137 | a numeral with a unit reads as its value in pixels: px as is, rem/em times the root font size, % of the container along the movement, vh/vw of the window |
| `ScrollFadeInEffect.HalfHeightExample` | src/core/scrollFadeIn/index.ts:123-129 | "50%" of a 200-pixel-high container moving vertically is 100 |
| `ScrollFadeInEffect.SixteenPixels` | src/core/scrollFadeIn/index.ts:121 | a computed font size "16px" reads as 16 |
| `ScrollFadeInEffect.RemExample` | src/core/scrollFadeIn/index.ts:118-122 | "2rem" is 32 pixels with a 16px root font, and with an empty one through the fallback |
| `ScrollFadeInEffect.GarbageExample` | src/core/scrollFadeIn/index.ts:106-109 | text that is not a length falls back to 50 |
| `ScrollFadeInEffect.ZeroExamples` | src/core/scrollFadeIn/index.ts:106-117 | a bare "0" is falsy and falls back to 50, while "0px" is 0 |
| `ScrollFadeInEffect.SpaceDefeatsPattern` | src/core/scrollFadeIn/index.ts:105 | leading white space defeats the anchored pattern |
| `ScrollFadeInEffect.SpaceSkipped` | src/core/scrollFadeIn/index.ts:108 | `parseFloat` skips leading white space |
| `ScrollFadeInEffect.SpaceExample` | src/core/scrollFadeIn/index.ts:105-109 | " 30px" still reads as 30, through the `parseFloat` fallback |
| `ScrollFadeInEffect.FrameOffsetScalesInitial` | src/core/scrollFadeIn/index.ts:226-239 | a frame's translation is the initial one (lines 145-158) scaled by `1 - eased`: the initial offset at 0, the element's own place at 1 |
| `ScrollFadeInEffect.OffsetShrinks` | src/core/scrollFadeIn/index.ts:226-239 | as eased progress grows in [0, 1] the translation never grows and never exceeds the initial offset |
| `ScrollFadeInEffect.AxisShrinks` | src/core/scrollFadeIn/index.ts:228 | abs(x (1 - e)) shrinks as e grows in [0, 1] and never exceeds abs(x) |
| `ScrollFadeInEffect.CurveOffsetShrinks` | src/core/scrollFadeIn/index.ts:216-239 | with a named curve, later progress never moves the element away from its place |
| `ScrollFadeInEffect.ScaledAbs` | src/core/scrollFadeIn/index.ts:228 | abs(d k) grows with k ≥ 0 |
| `ScrollFadeInEffect.Positioned` | src/core/scrollFadeIn/index.ts:160-169 | the transform is the translation, followed by the saved transform only when that is neither empty nor "none" |
| `ScrollFadeInEffect.Configure` | src/core/scrollFadeIn/index.ts:60-71 | the defaults: bottom, "50px", 800 ms, easeOutCubic, threshold 0.1, "0px", not triggerOnce, enabled |
| `ScrollFadeInEffect.Merge` | src/core/scrollFadeIn/index.ts:302-308 | every field the patch carries wins and every other is kept, easing and callbacks included; an empty patch changes nothing |
| `ScrollFadeInEffect.ScrollFadeIn.Init` | src/core/scrollFadeIn/index.ts:60-97 | configured defaults, the distance as `ParseDistance`, the element at its start style (full offset, opacity 0, no transition) |
| `ScrollFadeInEffect.ScrollFadeIn.New` | src/core/scrollFadeIn/index.ts:49-101 | without a container: "Container element not found"; otherwise the saved transform, the parsed distance, and running iff the host lacks IntersectionObserver, the page is visible and the effect is enabled |
| `ScrollFadeInEffect.ScrollFadeIn.SetupVisibilityManager` | src/core/scrollFadeIn/index.ts:176-194 | a fresh manager with the effect's threshold and margin; with IntersectionObserver nothing fires; without it `onVisible` fires at once iff the page is visible and `onHidden` iff it is hidden |
| `ScrollFadeInEffect.ScrollFadeIn.Dispatch` | src/core/scrollFadeIn/index.ts:180-192 | the handlers for the callbacks a manager invoked: none changes nothing; a lone `onVisible` on an untriggered idle effect starts it iff enabled, on a triggered one changes nothing; a lone `onHidden` on a running effect without `triggerOnce` stops it, clears the trigger and restores the initial style, and otherwise changes nothing |
| `ScrollFadeInEffect.ScrollFadeIn.OnVisible` | src/core/scrollFadeIn/index.ts:180-186 | starts once, only when enabled and not yet triggered; otherwise nothing changes |
| `ScrollFadeInEffect.ScrollFadeIn.OnHidden` | src/core/scrollFadeIn/index.ts:187-192 | resets a run in progress unless `triggerOnce`; otherwise nothing changes |
| `ScrollFadeInEffect.ScrollFadeIn.Start` | src/core/scrollFadeIn/index.ts:196-209 | no-op while running; otherwise fires `onStart`, stores the start time and shows the first frame at eased progress of 0, with one frame pending |
| `ScrollFadeInEffect.ScrollFadeIn.Animate` | src/core/scrollFadeIn/index.ts:211-260 | before progress 1: the element moved by `FrameOffset` with opacity `eased`, and one new frame; at progress 1: the final style, stopped, `onComplete` |
| `ScrollFadeInEffect.ScrollFadeIn.Complete` | src/core/scrollFadeIn/index.ts:262-281 | stopped, the saved transform alone with opacity 1, no frame, `onComplete` reported |
| `ScrollFadeInEffect.ScrollFadeIn.Reset` | src/core/scrollFadeIn/index.ts:283-287 | stopped, trigger cleared, element back at its start style |
| `ScrollFadeInEffect.ScrollFadeIn.Stop` | src/core/scrollFadeIn/index.ts:289-295 | not running, no pending frame |
| `ScrollFadeInEffect.ScrollFadeIn.SetInitialPosition` | src/core/scrollFadeIn/index.ts:139-174 | the style becomes the full offset, opacity 0, no transition |
| `ScrollFadeInEffect.ScrollFadeIn.UpdateConfig` | src/core/scrollFadeIn/index.ts:298-331 | config is the merge; distance re-parsed only for a non-empty new distance; manager rebuilt only for a new threshold or margin; running again iff it was running and is still enabled, with the trigger kept, when the manager is not rebuilt, or is rebuilt with IntersectionObserver or on a hidden page; a rebuild without IntersectionObserver on a visible page also starts an enabled untriggered effect and marks it triggered; element at its start when not running |
| `ScrollFadeInEffect.ScrollFadeIn.RebuildManager` | src/core/scrollFadeIn/index.ts:319-325 | the old manager is destroyed and a fresh one attached; with IntersectionObserver running state and trigger are kept and nothing fires; without it, an idle effect on a hidden page is kept and on a visible page starts iff enabled and untriggered, and is then marked triggered |
| `ScrollFadeInEffect.ScrollFadeIn.Destroy` | src/core/scrollFadeIn/index.ts:334-344 | stopped, manager destroyed and dropped, inline style cleared with the saved transform written back |
| `ScrollFadeInEffect.CompletedRunIsNotReplayed` | src/core/scrollFadeIn/index.ts:180-192 | after a completed run, leaving and re-entering the viewport leaves the element where it is |
| `TextSpinEffect.Configure` | src/core/textSpin/index.ts:53-65 | the defaults: delay 0.2 s, duration 0.6 s, random delay 2 s, threshold 0.1, "0px", no root, not triggerOnce, enabled |
| `TextSpinEffect.Merge` | src/core/textSpin/index.ts:258-264 | every field the patch carries wins and every other is kept, text and callbacks included; an empty patch changes nothing |
| `TextSpinEffect.CompletionAfterEveryChar` | src/core/textSpin/index.ts:189-206 | each character's delay lies in [delay, delay + randomDelay], and the completion timer fires no earlier than any character's transition ends |
| `TextSpinEffect.TextSpin.Init` | src/core/textSpin/index.ts:53-72 | configured defaults, no spans, no manager, not triggered, not active |
| `TextSpinEffect.TextSpin.New` | src/core/textSpin/index.ts:38-87 | "Container element not found" without a container, "Text is required" for an empty text; otherwise spans built from the draws, a manager, and active iff the host lacks IntersectionObserver, the page is visible and the effect is enabled |
| `TextSpinEffect.TextSpin.CreateTextStructure` | src/core/textSpin/index.ts:117-153 | one inactive span per character, in order, spaces flagged, each with the configured duration, and one random point per character |
| `TextSpinEffect.TextSpin.SetupVisibilityManager` | src/core/textSpin/index.ts:155-178 | a fresh manager with the effect's root; with IntersectionObserver nothing fires and the manager does not report the element visible; without it `onVisible` fires at once iff the page is visible, `onHidden` iff it is hidden, and the manager reports the element visible iff the page is |
| `TextSpinEffect.TextSpin.Dispatch` | src/core/textSpin/index.ts:160-176 | the handlers for the callbacks a manager invoked: none changes nothing; a disabled effect ignores both; a lone `onVisible` on an enabled effect activates it and marks it triggered unless `triggerOnce` has already fired, in which case nothing changes; a lone `onHidden` on an enabled effect deactivates it and clears the trigger unless `triggerOnce` keeps it; without `onVisible` an inactive effect stays inactive |
| `TextSpinEffect.TextSpin.OnVisible` | src/core/textSpin/index.ts:160-167 | when enabled and not spent by `triggerOnce`: triggered and active, firing `onStart` if it was inactive; otherwise nothing changes |
| `TextSpinEffect.TextSpin.OnHidden` | src/core/textSpin/index.ts:168-176 | when enabled: stopped, and the trigger forgotten unless `triggerOnce`; otherwise nothing changes |
| `TextSpinEffect.TextSpin.Start` | src/core/textSpin/index.ts:180-207 | no-op when active; otherwise fires `onStart`, gives span i the delay `delay + point_i * randomDelay`, requests one activation for the current spans and sets one completion timer |
| `TextSpinEffect.TextSpin.ActivationFrame` | src/core/textSpin/index.ts:195-197 | a pending activation for the current spans makes every span active, even after a stop; otherwise the spans are unchanged |
| `TextSpinEffect.TextSpin.CompletionTimerFires` | src/core/textSpin/index.ts:202-206 | the timer is spent and `onComplete` fires iff it is configured at that time |
| `TextSpinEffect.TextSpin.Stop` | src/core/textSpin/index.ts:209-219 | no-op when inactive; otherwise inactive, every span loses `active` and its delay |
| `TextSpinEffect.TextSpin.Reset` | src/core/textSpin/index.ts:221-224 | inactive and not triggered; on an active effect every span is deactivated and loses its transition delay, with its character and everything else kept; on an inactive one the spans are kept |
| `TextSpinEffect.TextSpin.UpdateText` | src/core/textSpin/index.ts:227-235 | as written: the text and spans are replaced, the effect stays active, and no new span is scheduled or activated |
| `TextSpinEffect.TextSpin.UpdateTextRestarting` | src/core/textSpin/index.ts:227-235 | as intended: an active effect restarts on the new spans, each with its delay and a pending activation |
| `TextSpinEffect.TextSpin.UpdateTransitions` | src/core/textSpin/index.ts:238-242 | every span gets the configured duration and nothing else changes |
| `TextSpinEffect.TextSpin.UpdateConfig` | src/core/textSpin/index.ts:245-293 | config is the merge; spans rebuilt iff a text is given; manager rebuilt iff threshold, margin or root is given; a disabled effect ends inactive; with the same manager it ends active iff enabled, previously active or just enabled, and visible; after a rebuild with IntersectionObserver it ends inactive with its trigger kept and nothing fired; after a rebuild without it, on a hidden page it ends inactive, and on a visible page it ends active iff enabled and either not spent by `triggerOnce`, previously active or just enabled |
| `TextSpinEffect.TextSpin.Resume` | src/core/textSpin/index.ts:284-292 | active afterwards iff it was, or it is enabled, asked to restart and visible to its manager |
| `TextSpinEffect.TextSpin.ApplyPatch` | src/core/textSpin/index.ts:258-272 | config is the merge; spans rebuilt iff a text is given, transitions rewritten iff only a duration is given |
| `TextSpinEffect.TextSpin.RefreshManager` | src/core/textSpin/index.ts:275-281 | a fresh manager iff threshold, margin or root is given, otherwise the same one and nothing changes; a rebuild with IntersectionObserver keeps activity and trigger and reports the element not visible; without it, a hidden page deactivates an enabled effect, and a visible page activates and triggers one not spent by `triggerOnce` |
| `TextSpinEffect.TextSpin.RebuildManager` | src/core/textSpin/index.ts:276-280 | the old manager is destroyed and a fresh one attached; a disabled effect's activity is unchanged; with IntersectionObserver activity and trigger are kept, nothing fires and the element is not reported visible; without it, a hidden page deactivates an enabled effect, and a visible page activates and triggers one not spent by `triggerOnce` and leaves the others as they were |
| `TextSpinEffect.TextSpin.Destroy` | src/core/textSpin/index.ts:296-305 | inactive, manager destroyed and dropped, container emptied |
| `TextSpinEffect.UpdateTextLeavesSpansHidden` | src/core/textSpin/index.ts:227-235 | updating the text of an active effect as written leaves it active while every new span is inactive, without a delay or a pending activation |
| `TextSpinEffect.HiddenRevealReplays` | src/core/textSpin/index.ts:160-176 | hiding an enabled, repeatable reveal and showing it again restarts it and fires `onStart` |
| `TypingEffect.Split` | src/core/typing/index.ts:32-35 | initial, medial and final index of a syllable lie within the 19, 21 and 28 entry tables |
| `TypingEffect.SplitRecomposes` | src/core/typing/index.ts:32-35 | the three indices compose back into the code: `0xAC00 + 588 i + 28 m + f` |
| `TypingEffect.SplitOfComposed` | src/core/typing/index.ts:32-35 | every triple within the tables composes to a syllable in 0xAC00..0xD7A3 whose split is that triple |
| `TypingEffect.DecomposeHangul` | src/core/typing/index.ts:24-55 | a non-Hangul character stays as itself; a syllable gives two jamo, or three when it has a final; each unit is one character |
| `TypingEffect.UnitCount` | src/core/typing/index.ts:200-206 | a character makes 1 unit when not Hangul and 2 or 3 when Hangul |
| `TypingEffect.UnitMap` | src/core/typing/index.ts:190-208 | one unit count per character of the text |
| `TypingEffect.UnitMapAt` | src/core/typing/index.ts:198-206 | entry i of the unit map is the unit count of character i |
| `TypingEffect.SumBetweenSnoc` | src/core/typing/index.ts:221 | the running unit total grows by one character's count per step |
| `TypingEffect.SumAtLeastLength` | src/core/typing/index.ts:219-221 | counts that are all at least one add up to at least their number |
| `TypingEffect.UnitsLength` | src/core/typing/index.ts:58-77 | the text has as many units as its unit map adds up to |
| `TypingEffect.ShownFrom` | src/core/typing/index.ts:219-244 | never more characters than remain |
| `TypingEffect.CharIndex` | src/core/typing/index.ts:213-247 | the characters shown never exceed the text's length |
| `TypingEffect.ShownMonotone` | src/core/typing/index.ts:213-247 | typing more units never shows fewer characters |
| `TypingEffect.UnitMapPositive` | src/core/typing/index.ts:200-206 | every unit count is at least 1 |
| `TypingEffect.ShownFull` | src/core/typing/index.ts:224-225 | with exactly the units of characters j..i typed, exactly those characters are shown |
| `TypingEffect.ShownComplete` | src/core/typing/index.ts:224-225 | once all units are typed every character is shown |
| `TypingEffect.ShownPartial` | src/core/typing/index.ts:226-242 | a character partly typed with k units shows iff k ≥ 2 for Hangul, k ≥ 1 otherwise |
| `TypingEffect.Typed` | src/core/typing/index.ts:250-255 | the text shown is always a prefix of the original text |
| `TypingEffect.TypedMonotone` | src/core/typing/index.ts:250-255 | the shown text only grows, as a prefix, while units are typed |
| `TypingEffect.TypedComplete` | src/core/typing/index.ts:250-255 | after all units are typed the whole text shows |
| `TypingEffect.DecomposeText` | src/core/typing/index.ts:58-77 | the loop's result is the units of every character, in order |
| `TypingEffect.Configure` | src/core/typing/index.ts:108-120 | the defaults: 50 ms per unit, no delay, enabled, threshold 0.2, "0px 0px -100px 0px", not triggerOnce, the cursor shown as a vertical bar |
| `TypingEffect.EnteringMeansSomeEntry` | src/core/typing/index.ts:161-164 | a batch triggers exactly when some entry is the container intersecting |
| `TypingEffect.Typing.Init` | src/core/typing/index.ts:105-136 | text and configuration kept, units decomposed, nothing typed, shown or scheduled |
| `TypingEffect.Typing.New` | src/core/typing/index.ts:94-140 | "Container element not found" without a container; otherwise empty display, not running, observing iff the host has IntersectionObserver, and one delayed start without it when enabled |
| `TypingEffect.Typing.Initialize` | src/core/typing/index.ts:142-148 | the display is empty and the observer is set up |
| `TypingEffect.Typing.SetupIntersectionObserver` | src/core/typing/index.ts:150-183 | without IntersectionObserver one delayed start when enabled; with it a new observing observer |
| `TypingEffect.Typing.InitializeTextStructure` | src/core/typing/index.ts:190-208 | the character array is the text and the counts are its unit map |
| `TypingEffect.Typing.GetCharIndexFromUnitIndex` | src/core/typing/index.ts:213-247 | the loop with its early exit computes `CharIndex` |
| `TypingEffect.Typing.BuildTextFromUnits` | src/core/typing/index.ts:250-255 | the result is the text shown for that many units |
| `TypingEffect.Typing.UpdateDisplay` | src/core/typing/index.ts:322-324 | the container shows the given text |
| `TypingEffect.Typing.Intersect` | src/core/typing/index.ts:160-175 | triggered iff it was or some own entry intersects; one delayed start iff this batch triggers it and it is enabled; disconnected iff it triggers with `triggerOnce` |
| `TypingEffect.Typing.StartTimerFires` | src/core/typing/index.ts:154 | the delayed start is spent; a running effect is not restarted and nothing is shown or fired; an idle effect starts typing: an empty text completes at once with `onComplete`, otherwise the first unit's text is shown with the cursor, `onUpdate` fires and the next step is scheduled; configuration, text and trigger are kept |
| `TypingEffect.Typing.Start` | src/core/typing/index.ts:257-264 | no-op when running; an empty text completes at once, showing the plain text when the cursor is on and firing `onComplete`; otherwise the first unit's text is shown followed by the cursor when on, `onUpdate` fires with it and the next step is scheduled |
| `TypingEffect.Typing.TypeNext` | src/core/typing/index.ts:266-304 | past the last unit: stopped, the plain text shown when the cursor is on, `onComplete`; otherwise one more unit, the text it amounts to plus the cursor, `onUpdate` and one new timer |
| `TypingEffect.Typing.Finish` | src/core/typing/index.ts:267-280 | stopped, the plain text shown when the cursor is on, `onComplete` reported |
| `TypingEffect.Typing.TypeOne` | src/core/typing/index.ts:282-303 | one more unit typed; the display is its text plus the cursor; `onUpdate` with the text; one new timer |
| `TypingEffect.Typing.TimerFires` | src/core/typing/index.ts:301-303 | the step timer types one more unit (its text plus the cursor shown, `onUpdate`, a new timer) or, past the last unit, finishes the run (stopped, the plain text shown when the cursor is on, `onComplete`) |
| `TypingEffect.Typing.Stop` | src/core/typing/index.ts:306-312 | not running, no step pending |
| `TypingEffect.Typing.Reset` | src/core/typing/index.ts:314-320 | stopped, nothing typed or shown, trigger cleared |
| `TypingEffect.Typing.SetText` | src/core/typing/index.ts:327-337 | the new text and its units adopted, reset, and one delayed start iff enabled |
| `TypingEffect.Typing.AdoptText` | src/core/typing/index.ts:328-331 | text, config text, units and character structure all belong to the new text |
| `TypingEffect.Typing.Destroy` | src/core/typing/index.ts:339-345 | stopped, observer disconnected and dropped |
| `TypingEffect.SyllableShownAtMedial` | src/core/typing/index.ts:233-237 | a syllable's initial alone shows nothing new; its medial shows the syllable |
| `TypingEffect.OtherShownAtFirst` | src/core/typing/index.ts:238-239 | any other character shows from its first unit |
| `Particles.MakeParticle` | src/core/textToParticle/index.ts:421-436 | a new particle is at rest and pulled to its own position; it records that position as its initial one iff the effect keeps initial positions (the legacy effect at src/core/index.js:156-169 does not) |
| `Particles.ScaledDrawWithin` | src/core/textToParticle/index.ts:423-424 | a draw in [0, 1) times a positive size lands in [0, size) |
| `Particles.MadeParticleOnCanvas` | src/core/textToParticle/index.ts:421-436 | a new particle on a non-empty canvas starts inside it |
| `Particles.MulMonoInt` | src/core/textToParticle/index.ts:390 | scaling by a non-negative factor keeps the order of pixel offsets |
| `Particles.SmallMultiple` | src/core/textToParticle/index.ts:388-389 | a non-negative multiple of the step below the step is 0 |
| `Particles.ModAddStep` | src/core/textToParticle/index.ts:388-389 | one step on from a grid line is a grid line |
| `Particles.NextMultiple` | src/core/textToParticle/index.ts:388-389 | two distinct grid lines are at least one step apart |
| `Particles.PixelInBounds` | src/core/textToParticle/index.ts:390-391 | for a buffer of the canvas's size, every byte the sampling reads is in bounds |
| `Particles.SampleTargets` | src/core/textToParticle/index.ts:383-395 | a point is a target iff it is a grid point of the canvas with a bright pixel (red + green + blue > 600); the targets are in row-major order |
| `Particles.SampleRow` | src/core/textToParticle/index.ts:389-394 | one row appends exactly its bright grid points, keeping row-major order |
| `Particles.RemovalKeepsOrder` | src/core/textToParticle/index.ts:399 | removing one target keeps the rest in row-major order |
| `Particles.RemovalFacts` | src/core/textToParticle/index.ts:399 | removing one target leaves one fewer, adds none and keeps the order |
| `Particles.Without` | src/core/textToParticle/index.ts:399 | the targets less one: one fewer, none new, order kept |
| `Particles.DrawIndex` | src/core/textToParticle/index.ts:399 | a draw in [0, 1) picks an index of one of the `n` targets |
| `Particles.CapTargets` | src/core/textToParticle/index.ts:397-400 | at most `maxParticles` targets remain, all from the sample, in order, one draw spent per target dropped; nothing changes when within the cap |
| `Particles.FitParticles` | src/core/textToParticle/index.ts:402-410 | exactly one particle per target: existing ones kept in order, the rest new particles made from three draws each, the surplus cut |
| `Particles.AssignTargets` | src/core/textToParticle/index.ts:412-418 | particle i is pulled to target i and nothing else about it changes |
| `Particles.InitParticles` | src/core/textToParticle/index.ts:438-450 | every particle moved to a random point of the canvas, at rest, that point recorded as its initial position when the effect keeps one; two draws each |
| `Particles.Home` | src/core/textToParticle/index.ts:452-467 | a particle heads to its initial position, recording its current position as that when it has none; position, velocity and phase unchanged |
| `Particles.HomeIdempotent` | src/core/textToParticle/index.ts:452-467 | scattering twice is scattering once |
| `Particles.ClampTarget` | src/core/index.js:210-211 | the target lies in [0, width - 1] by [0, height - 1]; a target already inside is kept |
| `Particles.ClampIdempotent` | src/core/index.js:210-211 | clamping a clamped target changes nothing |
| `Particles.PullToTargets` | src/core/textToParticle/index.ts:402-418 | one particle per target, particle i pulled to target i, the kept ones otherwise unchanged, three draws per new particle |
| `Particles.BuildFromImage` | src/core/textToParticle/index.ts:383-418 | the particles are pulled to sampled points only, at most `maxParticles`, in row-major order, and to every sampled point when under the cap; kept particles change only their targets |
| `Particles.Dim` | src/core/textToParticle/index.ts:204-205 | `configured`, else the container's size when non-zero, else the window fallback |
| `Particles.InitialDpr` | src/core/textToParticle/index.ts:131 | the configured ratio when truthy; otherwise the window's ratio (1 when it has none) capped at 1.8 |
| `Particles.Configure` | src/core/textToParticle/index.ts:92-108 | the defaults: step 2, 3200 particles, point size 0.5, ease 0.05, repel radius 150 and strength 1, "#fff", "Inter, system-ui, Arial"; falsy sizes become null; an empty text takes the default text |
| `Particles.Merge` | src/core/textToParticle/index.ts:611 | every field the patch carries replaces the configured one, every other field is kept; an empty patch changes nothing |
| `Particles.MergeIdempotent` | src/core/textToParticle/index.ts:611 | merging the same patch twice is merging it once |
| `Particles.Morphed` | src/core/textToParticle/index.ts:481-495 | a string replaces the text, an object is merged in, nothing leaves the configuration as it is |
| `Particles.UpdateNotes` | src/core/textToParticle/index.ts:541-543 | one `update()` reports to `onUpdate` iff it is set |
| `Particles.GridStep` | src/core/textToParticle/index.ts:384 | the step is `max(2, densityStep)` |
| `Particles.InitialFontSize` | src/core/textToParticle/index.ts:330-331 | the configured size when truthy; else a whole size of at least 80, and at most `max(80, 0.18 × width)` when the width is the shorter side |
| `TextToParticleEffect.ScaledSideWithin` | src/core/textToParticle/index.ts:219-221 | a side scaled by at most `4096 / side` stays within 4096 |
| `TextToParticleEffect.ExactSide` | src/core/textToParticle/index.ts:219-221 | the side that sets the scale becomes exactly 4096 |
| `TextToParticleEffect.ClampedWithin` | src/core/textToParticle/index.ts:217-223 | after the clamp both sides are at most 4096; sizes within the limit are kept with their ratio |
| `TextToParticleEffect.CanvasSize` | src/core/textToParticle/index.ts:212-223 | the canvas never exceeds 4096 pixels per side, and is `floor(size × DPR)` when that is within the limit |
| `TextToParticleEffect.SplitLines` | src/core/textToParticle/index.ts:251 | at least one line, none containing a line break |
| `TextToParticleEffect.SplitJoin` | src/core/textToParticle/index.ts:251 | joining the lines with line breaks gives the text back |
| `TextToParticleEffect.LinesWidth` | src/core/textToParticle/index.ts:256-265 | the width is never negative |
| `TextToParticleEffect.LinesWidthIsWidest` | src/core/textToParticle/index.ts:256-265 | the width is at least that of every non-empty line and equals one of them, or is 0 when all lines are empty |
| `TextToParticleEffect.FitOf` | src/core/textToParticle/index.ts:247-277 | it fits iff width ≤ maxWidth and height ≤ maxHeight; the height is `fs × n + 0.1 fs × (n - 1)` for n lines |
| `TextToParticleEffect.LinesWidthMonotone` | src/core/textToParticle/index.ts:262-264 | with a monotone measurement, text is never narrower at a larger size |
| `TextToParticleEffect.FitMonotone` | src/core/textToParticle/index.ts:247-277 | with a monotone measurement, text that fits at a size fits at every smaller one |
| `TextToParticleEffect.FitsForAntitone` | src/core/textToParticle/index.ts:247-277 | fitting, as a function of the font size, is antitone when the measurement is monotone |
| `TextToParticleEffect.NoFitFrom` | src/core/textToParticle/index.ts:310-311 | when `mid` does not fit, no whole size from `mid` up to the initial one fits |
| `TextToParticleEffect.SearchEnds` | src/core/textToParticle/index.ts:303-315 | when the search ends, no whole size above the best found fits |
| `TextToParticleEffect.TextToParticle.Init` | src/core/textToParticle/index.ts:92-140 | the configuration with "mason effect" as default text, debounce 150, a 0 by 0 canvas, the initial pixel ratio, no particles, not running, canvas attached |
| `TextToParticleEffect.TextToParticle.New` | src/core/textToParticle/index.ts:81-156 | "Container element not found", "Canvas context not available" and "Offscreen canvas context not available" in that order; otherwise initialised with `Configure(options)`: a non-positive view leaves a 0 by 0 canvas and no particles, otherwise the canvas is `CanvasSize` of the view at the initial pixel ratio and, when non-empty, the particles are pulled to the text drawn at a font size that is `BestFit` for the canvas less 80 pixels; visible and started without IntersectionObserver, observing otherwise; `onReady` reported iff set |
| `TextToParticleEffect.TextToParticle.Initialize` | src/core/textToParticle/index.ts:158-166 | listening; a non-positive view keeps the canvas and the particles, otherwise the canvas is `CanvasSize` of the view and, when non-empty, the particles are pulled to the text drawn at a font size that is `BestFit` for the canvas less 80 pixels; visible and started at once without IntersectionObserver, waiting on an observer otherwise; `onReady` reported iff set |
| `TextToParticleEffect.TextToParticle.SetupIntersectionObserver` | src/core/textToParticle/index.ts:168-201 | without IntersectionObserver visible and running; with it one observer, never a second |
| `TextToParticleEffect.TextToParticle.Intersect` | src/core/textToParticle/index.ts:182-194 | the flag is the batch's (`BatchVisible`); after an own entry it runs iff visible; a batch without own entries changes nothing |
| `TextToParticleEffect.TextToParticle.Resize` | src/core/textToParticle/index.ts:203-237 | a non-positive size changes nothing; otherwise the canvas is `CanvasSize` of the view and, when non-empty, the particles are pulled to the text drawn at a font size that is `BestFit` for the canvas less 80 pixels; an empty canvas keeps the particles |
| `TextToParticleEffect.TextToParticle.MeasureTextFit` | src/core/textToParticle/index.ts:247-277 | the loop computes `FitOf` |
| `TextToParticleEffect.TextToParticle.FindOptimalFontSize` | src/core/textToParticle/index.ts:283-316 | the initial size when it fits; else 12 when the initial is at most 12; else a whole size in [12, initial] that fits or is 12, with no larger whole size up to the initial fitting when fitting is antitone |
| `TextToParticleEffect.TextToParticle.BuildTargets` | src/core/textToParticle/index.ts:318-419 | an empty canvas changes nothing; otherwise the font size is the best fit of the initial one within the canvas less 40 pixels a side, and the particles are pulled to the samples of the text drawn at it |
| `TextToParticleEffect.TextToParticle.InitParticles` | src/core/textToParticle/index.ts:438-450 | every particle at a random point of the canvas, at rest, recorded as its initial position |
| `TextToParticleEffect.TextToParticle.Scatter` | src/core/textToParticle/index.ts:452-467 | every particle becomes `Home` of itself |
| `TextToParticleEffect.TextToParticle.MorphInternal` | src/core/textToParticle/index.ts:475-496 | config becomes `Morphed`; a sized canvas is not resized; on a non-empty canvas the particles are pulled to the text drawn at a font size that is `BestFit` for the canvas less 80 pixels unless an object without text is given, in which case nothing else changes |
| `TextToParticleEffect.TextToParticle.UpdateConfigInternal` | src/core/textToParticle/index.ts:610-615 | config becomes the merge; when the patch carries a non-empty text the particles on a non-empty canvas are pulled to the text drawn at a font size that is `BestFit` for the canvas less 80 pixels, otherwise they are untouched |
| `TextToParticleEffect.TextToParticle.Animate` | src/core/textToParticle/index.ts:546-550 | when running one update and one new frame; otherwise nothing |
| `TextToParticleEffect.TextToParticle.FrameFires` | src/core/textToParticle/index.ts:546-550 | the pending frame runs an update and requests the next |
| `TextToParticleEffect.TextToParticle.Start` | src/core/textToParticle/index.ts:552-556 | running afterwards; the first start runs a frame at once |
| `TextToParticleEffect.TextToParticle.Stop` | src/core/textToParticle/index.ts:558-564 | not running, no frame pending |
| `TextToParticleEffect.TextToParticle.Destroy` | src/core/textToParticle/index.ts:618-628 | stopped, listeners removed, observer disconnected, canvas detached |
| `MasonEffectLegacy.NoCanvasNoParticles` | src/core/index.js:123-130 | an empty canvas samples nothing, so particles pulled to samples need a non-empty canvas |
| `MasonEffectLegacy.MasonEffect.Init` | src/core/index.js:18-53 | the configuration with "mason crawler" as default text, a 0 by 0 size on a 300 by 150 canvas, the initial pixel ratio, no particles, not running |
| `MasonEffectLegacy.MasonEffect.New` | src/core/index.js:7-64 | "Container element not found" without a container; otherwise initialised |
| `MasonEffectLegacy.MasonEffect.Initialize` | src/core/index.js:66-74 | targets built, listening, running with one update reported, then `onReady` iff set |
| `MasonEffectLegacy.MasonEffect.Resize` | src/core/index.js:76-92 | the canvas is `floor(size × DPR)` with no clamp and no check, and the targets are rebuilt |
| `MasonEffectLegacy.MasonEffect.BuildTargets` | src/core/index.js:94-154 | the particles are pulled to the samples of the text at the configured or default size; an empty canvas leaves none |
| `MasonEffectLegacy.MasonEffect.InitParticles` | src/core/index.js:171-178 | every particle at a random point of the canvas, at rest, with no initial position |
| `MasonEffectLegacy.MasonEffect.Scatter` | src/core/index.js:180-213 | a canvas without a size is resized first; on a sized canvas nothing but the targets changes, each target being the random point clamped; every target ends inside the canvas, at most one pixel short of each side |
| `MasonEffectLegacy.MasonEffect.Morph` | src/core/index.js:215-231 | config becomes `Morphed`; targets rebuilt unless an object without text is given |
| `MasonEffectLegacy.MasonEffect.UpdateConfig` | src/core/index.js:340-345 | config becomes the merge; targets rebuilt when the patch carries a non-empty text, particles untouched otherwise |
| `MasonEffectLegacy.MasonEffect.Animate` | src/core/index.js:281-285 | when running one update and one new frame; otherwise nothing |
| `MasonEffectLegacy.MasonEffect.FrameFires` | src/core/index.js:281-285 | the pending frame runs an update and requests the next |
| `MasonEffectLegacy.MasonEffect.Start` | src/core/index.js:287-291 | running afterwards; the first start runs a frame at once |
| `MasonEffectLegacy.MasonEffect.Stop` | src/core/index.js:293-299 | not running, no frame pending |
| `MasonEffectLegacy.MasonEffect.Destroy` | src/core/index.js:348-354 | stopped, listeners removed, canvas detached |

## Left out

- The React, Vue and Svelte adapters, the sample hooks, the examples and the build files are not part of this model. They only forward props to the classes modelled here.
- Real scheduling is not modelled. `requestAnimationFrame`, `setTimeout`, IntersectionObserver and `visibilitychange` become methods the host calls, and handles come from a counter.
- The debounce in front of `morph`, `updateConfig` and `resize` (src/core/textToParticle/index.ts:41-56 and 139-152) is left out. The model calls `_morphInternal` and `_updateConfigInternal` directly, because the delay is host timing.
- The particle physics of `update()` is left out: motion, easing towards the target, the mouse repel and the wobble use floating-point trigonometry. Only the `onUpdate` report of each frame is modelled.
- The mouse and touch handlers are reduced to the `listening` flag, because they only feed the physics.
- Canvas drawing, `fillText`, `measureText` and `getImageData` are host functions. The pixel buffer and text widths are inputs.
- The legacy `scatter` draws a random angle and radius per particle. The model takes the resulting raw point as the input `raw` and models only the clamp, though it still counts the two draws.
- IEEE-754 rounding, `NaN` and `Infinity` are not modelled, because numbers are reals. In particular a ScrollFadeIn distance such as `"Infinity"`, which `parseFloat` reads as `Infinity`, falls back to 50 pixels in the model, as `NaN` does. Durations must be positive, as a zero duration gives `NaN` progress in the source.
- JavaScript strings are modelled as `string`, a sequence of Unicode scalar values, not of UTF-16 code units. The two agree on text in the Basic Multilingual Plane, Hangul syllables included. There is no normalisation.
- Characters outside the Basic Multilingual Plane (emoji, for instance) are one character here but a surrogate pair in the source. The model does not capture what the source then does: `split('')` in TextSpin gives each half its own span, Typing's `text[i]` and `charCodeAt` step through the halves one at a time, so a pair takes two typing steps, and `measureTextFit` counts a pair as two letters (`line.length`) when it adds the letter spacing.
- CSS strings (`translate(...)`, transition lists) and Count's `toLocaleString` output are left out. The model keeps the numbers they are built from.
- `injectStyles` in TextSpin only adds a style sheet to the document and is left out.
- In the effects' `updateConfig` patches, a key that is present but `undefined` or `null` is treated as absent, because those patch fields are modelled with `Option`. The exceptions keep an explicit `undefined`/`null` through `Some(None)`: every nullable field of the visibility manager's `updateOptions` patch, Count's `onUpdate` and `onComplete`, and TextSpin's `root`.
- `maxParticles` is a natural number. With a negative cap, the source's removal loop would never end.
- ScrollFadeInEffect.ScrollFadeIn.Start: the source reads `performance.now()` twice, once for the start time and again in the first `animate`. The model passes one `now` to both, so the first frame always has progress 0 and does not capture the small time between the two reads.
- `findOptimalFontSize` tests whole sizes only, as the source does. Its result is stated against a fit oracle, and that oracle is monotone when the width measurement is.
- The legacy `getImageData` on a zero-size canvas throws in a browser. The model samples nothing instead.
- Setting `canvas.width` is assumed to store the value assigned.
- In the TypeScript particle effect, the canvas is attached before the missing offscreen context raises its error. The model reports the error without that partial change to the page.
- Count and Typing leave the id of a completed frame or timer in their fields. The model keeps that stale id, as the code does.
- TextSpin's completion timer and per-character activation frames are never cancelled by `stop` or `destroy`. Typing's delayed start timer is never cancelled either. The model keeps them pending, as the code does.
- CountEffect.Count.Intersect: only keeps the invariant and the configuration. What it does is stated by `Visibility.VisibilityManager.OnIntersection` and `CountEffect.Count.Dispatch`, which it composes.
- CountEffect.Count.PageVisibilityChanged: likewise composes `OnVisibilityChange` and `Dispatch`.
- ScrollFadeInEffect.ScrollFadeIn.Intersect: likewise composes `OnIntersection` and `Dispatch`.
- ScrollFadeInEffect.ScrollFadeIn.PageVisibilityChanged: likewise composes `OnVisibilityChange` and `Dispatch`.
- TextSpinEffect.TextSpin.Intersect: likewise composes `OnIntersection` and `Dispatch`.
- TextSpinEffect.TextSpin.PageVisibilityChanged: likewise composes `OnVisibilityChange` and `Dispatch`.

## Findings

| source | as written | input that shows it | evidently intended | confidence | as-written member | corrected member |
|---|---|---|---|---|---|---|
| src/core/textSpin/index.ts:227-235 | `updateText` rebuilds the spans and then calls `start()` while `isActive` is still true, so `start()` returns at once | an active effect given a new text: every new span stays hidden and never gets its reveal | stop (or clear `isActive`) before rebuilding, so that the new text is revealed again | not executed | `TextSpinEffect.UpdateTextLeavesSpansHidden` | `TextSpinEffect.TextSpin.UpdateTextRestarting` |
