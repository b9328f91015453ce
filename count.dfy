/** The counting effect of src/core/count/index.ts.

    A `Count` animates a number from `startValue` to `targetValue`. Each frame
    maps the elapsed time to eased progress and shows
    `floor(start + (target - start) * eased)`; the frame that reaches progress 1
    shows the target itself. A visibility manager starts the run when the
    element comes into view and resets a run that is still going when it leaves. */
module CountEffect {
  import opened Common
  import opened Easing
  import V = Visibility

  /** The constructor options; absent fields take their defaults. */
  datatype Options = Options(
    targetValue: real,
    duration: Option<real>,
    startValue: Option<real>,
    enabled: Option<bool>,
    easing: Option<Ease>,
    threshold: Option<real>,
    rootMargin: Option<string>,
    triggerOnce: Option<bool>,
    onUpdate: Option<CallbackId>,
    onComplete: Option<CallbackId>)

  datatype Config = Config(
    targetValue: real,
    duration: real,
    startValue: real,
    enabled: bool,
    easing: Ease,
    threshold: real,
    rootMargin: string,
    triggerOnce: bool,
    onUpdate: Option<CallbackId>,
    onComplete: Option<CallbackId>)

  /** A partial configuration for `updateConfig`: `None` is an absent key; a
      callback given as `Some(None)` is an explicit null. */
  datatype Patch = Patch(
    targetValue: Option<real>,
    duration: Option<real>,
    startValue: Option<real>,
    enabled: Option<bool>,
    easing: Option<Ease>,
    threshold: Option<real>,
    rootMargin: Option<string>,
    triggerOnce: Option<bool>,
    onUpdate: Option<Option<CallbackId>>,
    onComplete: Option<Option<CallbackId>>)

  /** A callback invocation: `onUpdate(value)` or `onComplete()`. */
  datatype Note = Updated(value: real) | Completed

  function Or<T>(o: Option<T>, d: T): T { if o.Some? then o.value else d }

  function Configure(o: Options): (c: Config)
    ensures c.targetValue == o.targetValue
    ensures c.duration == Or(o.duration, 2000.0) && c.startValue == Or(o.startValue, 0.0)
    ensures c.enabled == Or(o.enabled, true) && c.triggerOnce == Or(o.triggerOnce, false)
    ensures c.easing == Or(o.easing, Linear)
    ensures c.threshold == Or(o.threshold, 0.2) && c.rootMargin == Or(o.rootMargin, "0px 0px -100px 0px")
    ensures c.onUpdate == o.onUpdate && c.onComplete == o.onComplete
  {
    Config(o.targetValue, Or(o.duration, 2000.0), Or(o.startValue, 0.0), Or(o.enabled, true),
           Or(o.easing, Linear), Or(o.threshold, 0.2), Or(o.rootMargin, "0px 0px -100px 0px"),
           Or(o.triggerOnce, false), o.onUpdate, o.onComplete)
  }

  /** `{ ...config, ...patch }`, with a callback kept when the patch leaves it undefined. */
  function Merge(c: Config, p: Patch): (m: Config)
    ensures p.onUpdate.None? ==> m.onUpdate == c.onUpdate
    ensures p.onComplete.None? ==> m.onComplete == c.onComplete
    ensures p.onUpdate.Some? ==> m.onUpdate == p.onUpdate.value
    ensures p.onComplete.Some? ==> m.onComplete == p.onComplete.value
    ensures m.targetValue == Or(p.targetValue, c.targetValue) && m.duration == Or(p.duration, c.duration)
    ensures m.enabled == Or(p.enabled, c.enabled) && m.triggerOnce == Or(p.triggerOnce, c.triggerOnce)
    ensures m.startValue == Or(p.startValue, c.startValue) && m.easing == Or(p.easing, c.easing)
    ensures m.threshold == Or(p.threshold, c.threshold) && m.rootMargin == Or(p.rootMargin, c.rootMargin)
    ensures p == Patch(None, None, None, None, None, None, None, None, None, None) ==> m == c
  {
    Config(Or(p.targetValue, c.targetValue), Or(p.duration, c.duration), Or(p.startValue, c.startValue),
           Or(p.enabled, c.enabled), Or(p.easing, c.easing), Or(p.threshold, c.threshold),
           Or(p.rootMargin, c.rootMargin), Or(p.triggerOnce, c.triggerOnce),
           Or(p.onUpdate, c.onUpdate), Or(p.onComplete, c.onComplete))
  }

  /** `start + (target - start) * eased`. */
  function Lerp(start: real, target: real, eased: real): real
  {
    start + (target - start) * eased
  }

  /** The value a frame shows before the run completes. */
  function FrameValue(c: Config, elapsed: real): real
    requires c.duration > 0.0
  {
    FloorR(Lerp(c.startValue, c.targetValue, Apply(c.easing, Progress(elapsed, c.duration))))
  }

  lemma LerpWithin(start: real, target: real, e: real)
    requires start <= target && 0.0 <= e <= 1.0
    ensures start <= Lerp(start, target, e) <= target
  {
    MulMono(0.0, target - start, 0.0, e);
    MulMono(target - start, target - start, e, 1.0);
  }

  lemma LerpMono(start: real, target: real, e1: real, e2: real)
    requires start <= target && e1 <= e2
    ensures Lerp(start, target, e1) <= Lerp(start, target, e2)
  {
    assert Lerp(start, target, e2) - Lerp(start, target, e1) == (target - start) * (e2 - e1);
    MulMono(0.0, target - start, 0.0, e2 - e1);
  }

  /** Counting up with a named curve never overshoots the target and never
      drops below one unit under the start. */
  lemma FrameValueWithin(c: Config, elapsed: real)
    requires c.duration > 0.0 && elapsed >= 0.0 && BuiltIn(c.easing)
    requires c.startValue <= c.targetValue
    ensures c.startValue - 1.0 < FrameValue(c, elapsed) <= c.targetValue
  {
    var p := Progress(elapsed, c.duration);
    ProgressRange(elapsed, c.duration);
    Bounded(c.easing, p);
    var v := Lerp(c.startValue, c.targetValue, Apply(c.easing, p));
    LerpWithin(c.startValue, c.targetValue, Apply(c.easing, p));
    FloorBounds(v);
  }

  lemma FloorBounds(x: real)
    ensures x - 1.0 < FloorR(x) <= x
  {
  }

  lemma FloorMono(x: real, y: real)
    requires x <= y
    ensures FloorR(x) <= FloorR(y)
  {
    FloorBounds(x);
    FloorBounds(y);
    assert (x.Floor as real) < (y.Floor as real) + 1.0;
    assert x.Floor < y.Floor + 1;
  }

  /** With a named curve, a later frame never shows a smaller value than an
      earlier one when counting up. */
  lemma FrameValueMonotone(c: Config, e1: real, e2: real)
    requires c.duration > 0.0 && 0.0 <= e1 <= e2 && BuiltIn(c.easing)
    requires c.startValue <= c.targetValue
    ensures FrameValue(c, e1) <= FrameValue(c, e2)
  {
    var p1, p2 := Progress(e1, c.duration), Progress(e2, c.duration);
    ProgressRange(e1, c.duration);
    ProgressRange(e2, c.duration);
    ProgressMono(e1, e2, c.duration);
    Monotone(c.easing, p1, p2);
    LerpMono(c.startValue, c.targetValue, Apply(c.easing, p1), Apply(c.easing, p2));
    FloorMono(Lerp(c.startValue, c.targetValue, Apply(c.easing, p1)),
              Lerp(c.startValue, c.targetValue, Apply(c.easing, p2)));
  }

  /** Counting down is counting up from the target along the mirrored curve. */
  lemma LerpMirror(start: real, target: real, e: real)
    ensures Lerp(start, target, e) == Lerp(target, start, 1.0 - e)
  {
    assert (target - start) * e == (target - start) - (target - start) * (1.0 - e);
  }

  /** Counting down with a named curve never undershoots the target and
      never shows more than the start. */
  lemma FrameValueWithinDown(c: Config, elapsed: real)
    requires c.duration > 0.0 && elapsed >= 0.0 && BuiltIn(c.easing)
    requires c.targetValue <= c.startValue
    ensures c.targetValue - 1.0 < FrameValue(c, elapsed) <= c.startValue
  {
    var p := Progress(elapsed, c.duration);
    ProgressRange(elapsed, c.duration);
    Bounded(c.easing, p);
    var e := Apply(c.easing, p);
    LerpMirror(c.startValue, c.targetValue, e);
    LerpWithin(c.targetValue, c.startValue, 1.0 - e);
    FloorBounds(Lerp(c.startValue, c.targetValue, e));
  }

  /** With a named curve, a later frame never shows a larger value than an
      earlier one when counting down. */
  lemma FrameValueMonotoneDown(c: Config, e1: real, e2: real)
    requires c.duration > 0.0 && 0.0 <= e1 <= e2 && BuiltIn(c.easing)
    requires c.targetValue <= c.startValue
    ensures FrameValue(c, e2) <= FrameValue(c, e1)
  {
    var p1, p2 := Progress(e1, c.duration), Progress(e2, c.duration);
    ProgressRange(e1, c.duration);
    ProgressRange(e2, c.duration);
    ProgressMono(e1, e2, c.duration);
    Monotone(c.easing, p1, p2);
    var a1, a2 := Apply(c.easing, p1), Apply(c.easing, p2);
    LerpMirror(c.startValue, c.targetValue, a1);
    LerpMirror(c.startValue, c.targetValue, a2);
    LerpMono(c.targetValue, c.startValue, 1.0 - a2, 1.0 - a1);
    FloorMono(Lerp(c.startValue, c.targetValue, a2), Lerp(c.startValue, c.targetValue, a1));
  }

  /** The first frame (elapsed 0) shows the floor of the start value. */
  lemma FirstFrameShowsStart(c: Config)
    requires c.duration > 0.0 && BuiltIn(c.easing)
    ensures FrameValue(c, 0.0) == FloorR(c.startValue)
  {
    assert Progress(0.0, c.duration) == 0.0;
    EndpointsFixed(c.easing);
    assert (c.targetValue - c.startValue) * Apply(c.easing, 0.0) == 0.0;
  }

  /** The callbacks Count hands to its manager. */
  const VisibleHook: CallbackId := 0
  const HiddenHook: CallbackId := 1

  class Count {
    const container: ElementId
    var config: Config
    var currentValue: real
    /** The number the element shows: `Math.floor(value)` (its locale formatting is not modelled). */
    var displayed: int
    var startTime: Option<real>
    var animationFrameId: Option<Handle>
    var visibilityManager: V.VisibilityManager?
    var isRunning: bool
    var hasTriggered: bool
    /** The last frame handle the host gave out. */
    var issued: Handle

    /** A run in progress has exactly one frame pending, whose handle is kept. */
    ghost predicate Valid()
      reads this, visibilityManager
    {
      && config.duration > 0.0
      && (isRunning ==> animationFrameId.Some?)
      && (animationFrameId.Some? ==> animationFrameId.value <= issued)
      && (visibilityManager != null ==> visibilityManager.Valid())
    }

    /** The field initialisation of the constructor and the initial display. */
    constructor Init(container: ElementId, options: Options)
      requires options.duration.Some? ==> options.duration.value > 0.0
      ensures Valid()
      ensures this.container == container && config == Configure(options)
      ensures currentValue == config.startValue && displayed == config.startValue.Floor
      ensures startTime.None? && animationFrameId.None? && visibilityManager == null
      ensures !isRunning && !hasTriggered
    {
      this.container := container;
      config := Configure(options);
      currentValue := Or(options.startValue, 0.0);
      displayed := Or(options.startValue, 0.0).Floor;
      startTime := None;
      animationFrameId := None;
      visibilityManager := null;
      isRunning := false;
      hasTriggered := false;
      issued := 0;
    }

    /** `new Count(container, options)`: fails without a container; otherwise
        shows the start value and attaches a manager, whose immediate
        `onVisible` (when the host lacks IntersectionObserver) starts the run. */
    static method New(container: Option<ElementId>, options: Options, host: V.Host) returns (r: Result<Count>)
      requires options.duration.Some? ==> options.duration.value > 0.0
      ensures container.None? ==> r == Err("Container element not found")
      ensures container.Some? ==> r.Ok? && fresh(r.value) && r.value.Valid()
      ensures r.Ok? ==> (r.value.config == Configure(options) && r.value.visibilityManager != null
                         && fresh(r.value.visibilityManager)
                         && (r.value.isRunning <==>
                               !host.hasIntersectionObserver && (!host.hasDocument || !host.documentHidden)
                               && r.value.config.enabled))
    {
      if container.None? {
        return Err("Container element not found");
      }
      var c := new Count.Init(container.value, options);
      var fired := c.SetupVisibilityManager(host);
      if |fired| == 1 && fired[0] == V.OnHidden {
        assert fired == [V.OnHidden];
      } else if |fired| == 1 {
        assert fired == [V.OnVisible];
      }
      c.Dispatch(fired);
      r := Ok(c);
    }

    method SetupVisibilityManager(host: V.Host) returns (fired: seq<V.Signal>)
      requires Valid() && !isRunning && !hasTriggered
      modifies this
      ensures Valid() && visibilityManager != null && fresh(visibilityManager)
      ensures config == old(config) && !isRunning && !hasTriggered && issued == old(issued)
      ensures visibilityManager.canObserve == host.hasIntersectionObserver
      ensures fired == [V.OnVisible] <==>
        !host.hasIntersectionObserver && (!host.hasDocument || !host.documentHidden)
      ensures |fired| <= 1
    {
      var request := V.Request(Some(config.threshold), Some(config.rootMargin), None, Some(VisibleHook), Some(HiddenHook));
      var m;
      m, fired := V.VisibilityManager.Create(container, request, host);
      visibilityManager := m;
    }

    /** Run this effect's handlers for the callbacks its manager invoked. */
    method Dispatch(fired: seq<V.Signal>)
      requires Valid()
      modifies this
      ensures Valid() && config == old(config) && visibilityManager == old(visibilityManager)
      ensures fired == [] ==> unchanged(this)
      ensures fired == [V.OnHidden] && !old(isRunning) ==> unchanged(this)
      ensures fired == [V.OnVisible] && !old(isRunning) && old(hasTriggered) == false ==>
        isRunning == config.enabled
      ensures fired == [V.OnVisible] && old(hasTriggered) ==> unchanged(this)
      ensures fired == [V.OnHidden] && config.triggerOnce ==> unchanged(this)
      ensures fired == [V.OnHidden] && old(isRunning) && !config.triggerOnce ==>
        !isRunning && animationFrameId.None? && !hasTriggered && currentValue == config.startValue && startTime.None?
    {
      var i := 0;
      while i < |fired|
        invariant 0 <= i <= |fired|
        invariant Valid() && config == old(config) && visibilityManager == old(visibilityManager)
        invariant fired == [] ==> unchanged(this)
        invariant fired == [V.OnHidden] && !old(isRunning) ==> unchanged(this)
        invariant fired == [V.OnVisible] && !old(isRunning) && old(hasTriggered) == false ==>
          (i == 0 ==> !isRunning && !hasTriggered) && (i == 1 ==> isRunning == config.enabled)
        invariant fired == [V.OnVisible] && old(hasTriggered) ==> unchanged(this)
        invariant fired == [V.OnHidden] && config.triggerOnce ==> unchanged(this)
        invariant fired == [V.OnHidden] && old(isRunning) && !config.triggerOnce ==>
          (i == 0 ==> unchanged(this))
          && (i == 1 ==> !isRunning && animationFrameId.None? && !hasTriggered
                         && currentValue == config.startValue && startTime.None?)
      {
        if fired[i] == V.OnVisible {
          OnVisible();
        } else {
          OnHidden();
        }
        i := i + 1;
      }
    }

    /** The host delivers a batch of intersection entries to the manager. */
    method Intersect(entries: seq<V.Entry>)
      requires Valid() && visibilityManager != null && visibilityManager.intersectionObserver.Some?
      modifies this, visibilityManager
      ensures Valid() && config == old(config) && visibilityManager == old(visibilityManager)
    {
      var fired := visibilityManager.OnIntersection(entries);
      Dispatch(fired);
    }

    /** The host reports a `visibilitychange` to the manager. */
    method PageVisibilityChanged(documentHidden: bool)
      requires Valid() && visibilityManager != null && visibilityManager.visibilityChangeHandler.Some?
      modifies this, visibilityManager
      ensures Valid() && config == old(config) && visibilityManager == old(visibilityManager)
    {
      var fired := visibilityManager.OnVisibilityChange(documentHidden);
      Dispatch(fired);
    }

    /** The manager's `onVisible`: start once, when enabled and not yet triggered. */
    method OnVisible()
      requires Valid()
      modifies this
      ensures Valid() && config == old(config) && visibilityManager == old(visibilityManager)
      ensures old(!hasTriggered && config.enabled) ==>
        (hasTriggered && isRunning && (!old(isRunning) ==> currentValue == config.startValue && startTime.None?))
      ensures !old(!hasTriggered && config.enabled) ==> unchanged(this)
    {
      if !hasTriggered && config.enabled {
        hasTriggered := true;
        Start();
      }
    }

    /** The manager's `onHidden`: reset only a run still in progress, and only
        when not `triggerOnce`. A completed run is left alone, so with
        `hasTriggered` still set it is never replayed. */
    method OnHidden()
      requires Valid()
      modifies this
      ensures Valid() && config == old(config) && visibilityManager == old(visibilityManager)
      ensures old(!config.triggerOnce && isRunning) ==>
        !isRunning && animationFrameId.None? && !hasTriggered
        && currentValue == config.startValue && startTime.None?
      ensures !old(!config.triggerOnce && isRunning) ==> unchanged(this)
    {
      if !config.triggerOnce && isRunning {
        Reset();
      }
    }

    /** Start a run: a no-op when running or disabled; otherwise show the
        start value and request the first frame. */
    method Start()
      requires Valid()
      modifies this
      ensures Valid() && config == old(config) && visibilityManager == old(visibilityManager)
      ensures hasTriggered == old(hasTriggered)
      ensures old(isRunning) || !config.enabled ==> unchanged(this)
      ensures !old(isRunning) && config.enabled ==>
        isRunning && startTime.None? && currentValue == config.startValue && displayed == config.startValue.Floor
        && issued == old(issued) + 1 && animationFrameId == Some(issued)
    {
      if isRunning {
        return;
      }
      if !config.enabled {
        return;
      }
      isRunning := true;
      startTime := None;
      currentValue := config.startValue;
      displayed := currentValue.Floor;
      issued := issued + 1;
      animationFrameId := Some(issued);
    }

    /** The pending frame callback, run by the host at time `now`. The first
        frame fixes the start time. Before progress 1 it shows the interpolated
        value and requests the next frame; at progress 1 it reports the
        interpolated value, then shows the target itself, stops and fires
        `onComplete` once, keeping the spent frame handle. */
    method Tick(now: real) returns (notes: seq<Note>)
      requires Valid() && isRunning
      modifies this
      ensures Valid() && config == old(config) && visibilityManager == old(visibilityManager)
      ensures hasTriggered == old(hasTriggered)
      ensures startTime == Some(if old(startTime).Some? then old(startTime).value else now)
      ensures var elapsed := now - startTime.value;
              var v := FrameValue(config, elapsed);
              var updated := if config.onUpdate.Some? then [Updated(v)] else [];
              if Progress(elapsed, config.duration) < 1.0 then
                && isRunning && currentValue == v && displayed == v.Floor
                && issued == old(issued) + 1 && animationFrameId == Some(issued)
                && notes == updated
              else
                && !isRunning && currentValue == config.targetValue && displayed == config.targetValue.Floor
                && issued == old(issued) && animationFrameId == old(animationFrameId)
                && notes == updated + (if config.onComplete.Some? then [Completed] else [])
    {
      if startTime.None? {
        startTime := Some(now);
      }
      var elapsed := now - startTime.value;
      var progress := Progress(elapsed, config.duration);
      var eased := Apply(config.easing, progress);
      currentValue := FloorR(Lerp(config.startValue, config.targetValue, eased));
      displayed := currentValue.Floor;
      notes := if config.onUpdate.Some? then [Updated(currentValue)] else [];
      if progress < 1.0 {
        issued := issued + 1;
        animationFrameId := Some(issued);
      } else {
        currentValue := config.targetValue;
        displayed := currentValue.Floor;
        isRunning := false;
        if config.onComplete.Some? {
          notes := notes + [Completed];
        }
      }
    }

    /** Cancel the pending frame, if any. */
    method Stop()
      requires Valid()
      modifies this`isRunning, this`animationFrameId
      ensures Valid() && !isRunning && animationFrameId.None?
    {
      isRunning := false;
      if animationFrameId.Some? {
        animationFrameId := None;
      }
    }

    /** Stop, show the start value again and allow a new trigger. */
    method Reset()
      requires Valid()
      modifies this
      ensures Valid() && config == old(config) && visibilityManager == old(visibilityManager)
      ensures !isRunning && animationFrameId.None? && !hasTriggered && startTime.None?
      ensures currentValue == config.startValue && displayed == config.startValue.Floor
      ensures issued == old(issued)
    {
      Stop();
      currentValue := config.startValue;
      displayed := currentValue.Floor;
      hasTriggered := false;
      startTime := None;
    }

    /** Stop, merge the patch (keeping callbacks it leaves undefined), reset
        when a new target is given, and restart iff the effect was running and
        is still enabled. */
    method UpdateConfig(patch: Patch)
      requires Valid()
      requires patch.duration.Some? ==> patch.duration.value > 0.0
      modifies this
      ensures Valid() && visibilityManager == old(visibilityManager)
      ensures config == Merge(old(config), patch)
      ensures isRunning == (old(isRunning) && config.enabled)
      ensures isRunning ==> currentValue == config.startValue && startTime.None?
      ensures patch.targetValue.Some? ==> !hasTriggered && currentValue == config.startValue && startTime.None?
      ensures patch.targetValue.None? ==> hasTriggered == old(hasTriggered)
      ensures patch.targetValue.None? && !isRunning ==> currentValue == old(currentValue)
    {
      var wasRunning := isRunning;
      Stop();
      config := Merge(config, patch);
      if patch.targetValue.Some? {
        Reset();
        if wasRunning && config.enabled {
          Start();
        }
      } else {
        if wasRunning && config.enabled {
          Start();
        }
      }
    }

    method GetValue() returns (v: real)
      ensures v == currentValue
    {
      v := currentValue;
    }

    /** Stop and destroy the manager; safe to call again. */
    method Destroy()
      requires Valid()
      modifies this, visibilityManager
      ensures Valid() && !isRunning && animationFrameId.None? && visibilityManager == null
      ensures old(visibilityManager) != null ==>
        old(visibilityManager).intersectionObserver.None? && old(visibilityManager).visibilityChangeHandler.None?
    {
      Stop();
      if visibilityManager != null {
        visibilityManager.Destroy();
        visibilityManager := null;
      }
    }
  }

  /** A run that completed keeps `hasTriggered`, so leaving and re-entering the
      viewport does not replay it, even without `triggerOnce`. */
  method CompletedRunIsNotReplayed(c: Count)
    requires c.Valid() && !c.isRunning && c.hasTriggered
    modifies c
    ensures !c.isRunning && c.hasTriggered && c.currentValue == old(c.currentValue)
  {
    c.OnHidden();
    c.OnVisible();
  }

  /** A run that is reset on hide is replayed on the next show. */
  method InterruptedRunIsReplayed(c: Count)
    requires c.Valid() && c.isRunning && !c.config.triggerOnce && c.config.enabled
    modifies c
    ensures c.isRunning && c.hasTriggered && c.currentValue == c.config.startValue && c.startTime.None?
  {
    c.OnHidden();
    c.OnVisible();
  }
}
