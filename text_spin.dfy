/** The per-character reveal of src/core/textSpin/index.ts: the text is split
    into one span per character, each span gets a random transition
    delay when the effect starts, and the spans turn active on the next frame. */
module TextSpinEffect {
  import opened Common
  import opened Easing
  import V = Visibility

  /** One character span: its character, whether it is a space, whether it
      carries the `active` class, its inline `transition-delay` in seconds
      (None is the empty string) and its transition duration in seconds. */
  datatype CharSpan = CharSpan(ch: char, isSpace: bool, active: bool, transitionDelay: Option<real>, duration: real)

  datatype Options = Options(
    text: string, delay: Option<real>, duration: Option<real>, randomDelay: Option<real>,
    threshold: Option<real>, rootMargin: Option<string>, root: Option<ElementId>,
    triggerOnce: Option<bool>, enabled: Option<bool>,
    onStart: Option<CallbackId>, onComplete: Option<CallbackId>)

  datatype Config = Config(
    text: string, delay: real, duration: real, randomDelay: real,
    threshold: real, rootMargin: string, root: Option<ElementId>,
    triggerOnce: bool, enabled: bool,
    onStart: Option<CallbackId>, onComplete: Option<CallbackId>)

  /** A partial update. `root` is Some(None) for an explicit null; text,
      easing-free callbacks left None keep the current ones. */
  datatype Patch = Patch(
    text: Option<string>, delay: Option<real>, duration: Option<real>, randomDelay: Option<real>,
    threshold: Option<real>, rootMargin: Option<string>, root: Option<Option<ElementId>>,
    triggerOnce: Option<bool>, enabled: Option<bool>,
    onStart: Option<CallbackId>, onComplete: Option<CallbackId>)

  function Or<T>(o: Option<T>, d: T): T { if o.Some? then o.value else d }

  /** The constructor's defaults: delay 0.2 s, duration 0.6 s, random delay
      2 s, threshold 0.1, root margin 0px, no root, repeatable, enabled. */
  function Configure(o: Options): (c: Config)
    ensures c.text == o.text && c.root == o.root
    ensures c.delay == Or(o.delay, 0.2) && c.duration == Or(o.duration, 0.6) && c.randomDelay == Or(o.randomDelay, 2.0)
    ensures c.threshold == Or(o.threshold, 0.1) && c.rootMargin == Or(o.rootMargin, "0px")
    ensures c.triggerOnce == Or(o.triggerOnce, false) && c.enabled == Or(o.enabled, true)
    ensures c.onStart == o.onStart && c.onComplete == o.onComplete
  {
    Config(o.text, Or(o.delay, 0.2), Or(o.duration, 0.6), Or(o.randomDelay, 2.0),
           Or(o.threshold, 0.1), Or(o.rootMargin, "0px"), o.root,
           Or(o.triggerOnce, false), Or(o.enabled, true), o.onStart, o.onComplete)
  }

  /** `{ ...config, ...patch }` with text and callbacks kept when the patch has none. */
  function Merge(c: Config, p: Patch): (m: Config)
    ensures m.text == Or(p.text, c.text) && m.root == Or(p.root, c.root)
    ensures m.enabled == Or(p.enabled, c.enabled) && m.triggerOnce == Or(p.triggerOnce, c.triggerOnce)
    ensures m.duration == Or(p.duration, c.duration)
    ensures m.delay == Or(p.delay, c.delay) && m.randomDelay == Or(p.randomDelay, c.randomDelay)
    ensures m.threshold == Or(p.threshold, c.threshold) && m.rootMargin == Or(p.rootMargin, c.rootMargin)
    ensures m.onStart == (if p.onStart.Some? then p.onStart else c.onStart)
    ensures m.onComplete == (if p.onComplete.Some? then p.onComplete else c.onComplete)
    ensures p == Patch(None, None, None, None, None, None, None, None, None, None, None) ==> m == c
  {
    Config(Or(p.text, c.text), Or(p.delay, c.delay), Or(p.duration, c.duration), Or(p.randomDelay, c.randomDelay),
           Or(p.threshold, c.threshold), Or(p.rootMargin, c.rootMargin), Or(p.root, c.root),
           Or(p.triggerOnce, c.triggerOnce), Or(p.enabled, c.enabled),
           if p.onStart.Some? then p.onStart else c.onStart,
           if p.onComplete.Some? then p.onComplete else c.onComplete)
  }

  /** The span `createTextStructure` makes for one character. */
  function Span(c: char, duration: real): CharSpan {
    CharSpan(c, c == ' ', false, None, duration)
  }

  /** The spans stand for `text` one character each, in order. */
  ghost predicate Spells(elements: seq<CharSpan>, text: string) {
    && |elements| == |text|
    && forall i :: 0 <= i < |elements| ==> elements[i].ch == text[i] && elements[i].isSpace == (text[i] == ' ')
  }

  /** Two span sequences hold the same characters. */
  ghost predicate SameLetters(a: seq<CharSpan>, b: seq<CharSpan>) {
    && |a| == |b|
    && forall i :: 0 <= i < |a| ==> a[i].ch == b[i].ch && a[i].isSpace == b[i].isSpace
  }

  /** Character `i`'s delay: `delay + randomPoint * randomDelay` seconds. */
  function CharDelay(c: Config, point: real): real {
    c.delay + point * c.randomDelay
  }

  /** The completion timer in milliseconds: `(delay + randomDelay + duration) * 1000`. */
  function CompletionDelay(c: Config): real {
    (c.delay + c.randomDelay + c.duration) * 1000.0
  }

  /** The completion timer fires no earlier than any character finishes its
      transition, since every random point lies in [0, 1). */
  lemma CompletionAfterEveryChar(c: Config, point: real)
    requires 0.0 <= point < 1.0 && c.randomDelay >= 0.0
    ensures c.delay <= CharDelay(c, point) <= c.delay + c.randomDelay
    ensures (CharDelay(c, point) + c.duration) * 1000.0 <= CompletionDelay(c)
  {
    MulMono(0.0, point, c.randomDelay, c.randomDelay);
    MulMono(point, 1.0, c.randomDelay, c.randomDelay);
  }

  /** What the effect reports to its caller's callbacks. */
  datatype Note = Started | Completed

  function StartNotes(c: Config): seq<Note> { if c.onStart.Some? then [Started] else [] }

  const VisibleHook: CallbackId := 0
  const HiddenHook: CallbackId := 1

  class TextSpin {
    const container: ElementId
    var config: Config
    var visibilityManager: V.VisibilityManager?
    /** `textElements`. */
    var elements: seq<CharSpan>
    var randomPoints: seq<real>
    var hasTriggered: bool
    var isActive: bool
    /** Whether the spans are in the container (`destroy` empties it). */
    var mounted: bool
    /** How many times the spans were rebuilt; a pending activation names the build it belongs to. */
    var generation: nat
    /** The builds whose spans a frame requested by `start` will activate; never cancelled. */
    var pendingActivations: seq<nat>
    /** The delays of the completion timers `start` set; never cancelled. */
    var completionTimers: seq<real>

    /** One span and one random point in [0, 1) per character of the text. */
    ghost predicate Valid()
      reads this, visibilityManager
    {
      && Spells(elements, config.text)
      && |randomPoints| == |elements|
      && (forall i :: 0 <= i < |randomPoints| ==> 0.0 <= randomPoints[i] < 1.0)
      && (visibilityManager != null ==> visibilityManager.Valid())
    }

    /** The field initialisation of the constructor, before the spans exist. */
    constructor Init(container: ElementId, options: Options)
      ensures this.container == container && config == Configure(options)
      ensures visibilityManager == null && elements == [] && randomPoints == []
      ensures !hasTriggered && !isActive && !mounted && generation == 0
      ensures pendingActivations == [] && completionTimers == []
    {
      this.container := container;
      config := Configure(options);
      visibilityManager := null;
      elements := [];
      randomPoints := [];
      hasTriggered := false;
      isActive := false;
      mounted := false;
      generation := 0;
      pendingActivations := [];
      completionTimers := [];
    }

    /** `new TextSpin(container, options)`, with `draws` the values
        `Math.random` returns for the characters: fails without a container
        or without text; otherwise builds the spans and attaches a manager,
        whose immediate `onVisible` (when the host lacks IntersectionObserver)
        starts the reveal. */
    static method New(container: Option<ElementId>, options: Options, host: V.Host, draws: seq<real>)
      returns (r: Result<TextSpin>, notes: seq<Note>)
      requires |draws| == |options.text|
      requires forall i :: 0 <= i < |draws| ==> 0.0 <= draws[i] < 1.0
      ensures container.None? ==> r == Err("Container element not found")
      ensures container.Some? && options.text == [] ==> r == Err("Text is required")
      ensures container.Some? && options.text != [] ==> r.Ok? && fresh(r.value) && r.value.Valid()
      ensures r.Ok? ==>
        && r.value.config == Configure(options) && r.value.randomPoints == draws && r.value.mounted
        && r.value.visibilityManager != null && fresh(r.value.visibilityManager)
        && (r.value.isActive <==>
              !host.hasIntersectionObserver && (!host.hasDocument || !host.documentHidden) && r.value.config.enabled)
    {
      notes := [];
      if container.None? {
        return Err("Container element not found"), [];
      }
      if options.text == [] {
        return Err("Text is required"), [];
      }
      var e := new TextSpin.Init(container.value, options);
      e.CreateTextStructure(draws);
      var fired := e.SetupVisibilityManager(host);
      if |fired| == 1 && fired[0] == V.OnHidden {
        assert fired == [V.OnHidden];
      } else if |fired| == 1 {
        assert fired == [V.OnVisible];
      }
      notes := e.Dispatch(fired);
      r := Ok(e);
    }

    /** `createTextStructure`: one span per character, in order, spaces
        flagged, none active, and one random point per character. */
    method CreateTextStructure(draws: seq<real>)
      requires |draws| == |config.text|
      requires forall i :: 0 <= i < |draws| ==> 0.0 <= draws[i] < 1.0
      requires visibilityManager != null ==> visibilityManager.Valid()
      modifies this`elements, this`randomPoints, this`mounted, this`generation
      ensures Valid() && mounted && generation == old(generation) + 1
      ensures randomPoints == draws
      ensures |elements| == |config.text|
      ensures forall i :: 0 <= i < |elements| ==> elements[i] == Span(config.text[i], config.duration)
    {
      var chars := config.text;
      var duration := config.duration;
      var points := [];
      var i := 0;
      while i < |chars|
        invariant 0 <= i <= |chars|
        invariant points == draws[..i]
      {
        points := points + [draws[i]];
        i := i + 1;
      }
      var spans := [];
      i := 0;
      while i < |chars|
        invariant 0 <= i <= |chars|
        invariant |spans| == i
        invariant forall j :: 0 <= j < i ==> spans[j] == Span(chars[j], duration)
      {
        spans := spans + [Span(chars[i], duration)];
        i := i + 1;
      }
      assert points == draws;
      elements := spans;
      randomPoints := points;
      mounted := true;
      generation := generation + 1;
    }

    method SetupVisibilityManager(host: V.Host) returns (fired: seq<V.Signal>)
      requires Valid()
      modifies this`visibilityManager
      ensures Valid() && visibilityManager != null && fresh(visibilityManager)
      ensures visibilityManager.options.root == config.root
      ensures fired == [V.OnVisible] <==>
        !host.hasIntersectionObserver && (!host.hasDocument || !host.documentHidden)
      ensures fired == [V.OnHidden] <==>
        !host.hasIntersectionObserver && host.hasDocument && host.documentHidden
      ensures host.hasIntersectionObserver ==> fired == []
      ensures visibilityManager.GetIsVisible() <==>
        !host.hasIntersectionObserver && (!host.hasDocument || !host.documentHidden)
      ensures |fired| <= 1
    {
      var request := V.Request(Some(config.threshold), Some(config.rootMargin), config.root, Some(VisibleHook), Some(HiddenHook));
      var m;
      m, fired := V.VisibilityManager.Create(container, request, host);
      visibilityManager := m;
    }

    /** Run this effect's handlers for the callbacks its manager invoked. */
    method Dispatch(fired: seq<V.Signal>) returns (notes: seq<Note>)
      requires Valid()
      modifies this`isActive, this`elements, this`hasTriggered, this`pendingActivations, this`completionTimers
      ensures Valid() && config == old(config) && visibilityManager == old(visibilityManager)
      ensures generation == old(generation) && mounted == old(mounted)
      ensures fired == [] ==> unchanged(this) && notes == []
      ensures fired == [V.OnVisible] && !old(isActive) && !old(hasTriggered) ==> (isActive <==> config.enabled)
      ensures !old(isActive) && V.OnVisible !in fired ==> !isActive
      ensures !config.enabled ==> unchanged(this) && notes == []
      ensures fired == [V.OnVisible] && config.enabled && (!config.triggerOnce || !old(hasTriggered)) ==>
        isActive && hasTriggered
      ensures fired == [V.OnVisible] && config.triggerOnce && old(hasTriggered) ==> unchanged(this) && notes == []
      ensures fired == [V.OnHidden] && config.enabled ==>
        && !isActive && notes == []
        && (!config.triggerOnce ==> !hasTriggered) && (config.triggerOnce ==> hasTriggered == old(hasTriggered))
    {
      notes := [];
      var i := 0;
      while i < |fired|
        invariant 0 <= i <= |fired|
        invariant Valid() && config == old(config) && visibilityManager == old(visibilityManager)
        invariant generation == old(generation) && mounted == old(mounted)
        invariant fired == [] ==> unchanged(this) && notes == []
        invariant fired == [V.OnVisible] && !old(isActive) && !old(hasTriggered) ==>
          (i == 0 ==> !isActive && !hasTriggered) && (i == 1 ==> (isActive <==> config.enabled))
        invariant !old(isActive) && V.OnVisible !in fired ==> !isActive
        invariant !config.enabled ==> unchanged(this) && notes == []
        invariant fired == [V.OnVisible] && config.enabled && (!config.triggerOnce || !old(hasTriggered)) ==>
          (i == 0 ==> unchanged(this)) && (i == 1 ==> isActive && hasTriggered)
        invariant fired == [V.OnVisible] && config.triggerOnce && old(hasTriggered) ==> unchanged(this) && notes == []
        invariant fired == [V.OnHidden] && config.enabled ==>
          (i == 0 ==> unchanged(this) && notes == [])
          && (i == 1 ==> && !isActive && notes == []
                         && (!config.triggerOnce ==> !hasTriggered) && (config.triggerOnce ==> hasTriggered == old(hasTriggered)))
      {
        var n;
        if fired[i] == V.OnVisible {
          n := OnVisible();
        } else {
          OnHidden();
          n := [];
        }
        notes := notes + n;
        i := i + 1;
      }
    }

    /** The host delivers a batch of intersection entries to the manager. */
    method Intersect(entries: seq<V.Entry>) returns (notes: seq<Note>)
      requires Valid() && visibilityManager != null && visibilityManager.intersectionObserver.Some?
      modifies this, visibilityManager
      ensures Valid() && config == old(config) && visibilityManager == old(visibilityManager)
    {
      var fired := visibilityManager.OnIntersection(entries);
      notes := Dispatch(fired);
    }

    /** The host reports a `visibilitychange` to the manager. */
    method PageVisibilityChanged(documentHidden: bool) returns (notes: seq<Note>)
      requires Valid() && visibilityManager != null && visibilityManager.visibilityChangeHandler.Some?
      modifies this, visibilityManager
      ensures Valid() && config == old(config) && visibilityManager == old(visibilityManager)
    {
      var fired := visibilityManager.OnVisibilityChange(documentHidden);
      notes := Dispatch(fired);
    }

    /** The manager's `onVisible`: when enabled, start unless `triggerOnce`
        has already been used. */
    method OnVisible() returns (notes: seq<Note>)
      requires Valid()
      modifies this`isActive, this`elements, this`hasTriggered, this`pendingActivations, this`completionTimers
      ensures Valid() && config == old(config) && visibilityManager == old(visibilityManager)
      ensures generation == old(generation) && mounted == old(mounted)
      ensures old(config.enabled && (!config.triggerOnce || !hasTriggered)) ==> hasTriggered && isActive
      ensures old(config.enabled && (!config.triggerOnce || !hasTriggered)) && !old(isActive) ==> notes == StartNotes(config)
      ensures !old(config.enabled && (!config.triggerOnce || !hasTriggered)) ==> unchanged(this) && notes == []
    {
      notes := [];
      if config.enabled {
        if !config.triggerOnce || !hasTriggered {
          hasTriggered := true;
          notes := Start();
        }
      }
    }

    /** The manager's `onHidden`: when enabled, stop, and forget the trigger
        unless `triggerOnce`; unlike Count, a finished reveal replays. */
    method OnHidden()
      requires Valid()
      modifies this`isActive, this`elements, this`hasTriggered
      ensures Valid() && config == old(config) && visibilityManager == old(visibilityManager)
      ensures generation == old(generation) && mounted == old(mounted)
      ensures config.enabled ==> !isActive && (!config.triggerOnce ==> !hasTriggered)
      ensures config.enabled && config.triggerOnce ==> hasTriggered == old(hasTriggered)
      ensures !config.enabled ==> unchanged(this)
    {
      if config.enabled {
        Stop();
        if !config.triggerOnce {
          hasTriggered := false;
        }
      }
    }

    /** `start`: a no-op when active; otherwise fire `onStart`, give every
        span its delay, request the frame that activates the spans of this
        build and set the completion timer. */
    method Start() returns (notes: seq<Note>)
      requires Valid()
      modifies this`isActive, this`elements, this`pendingActivations, this`completionTimers
      ensures Valid() && config == old(config) && visibilityManager == old(visibilityManager)
      ensures hasTriggered == old(hasTriggered) && generation == old(generation) && mounted == old(mounted)
      ensures randomPoints == old(randomPoints)
      ensures old(isActive) ==> unchanged(this) && notes == []
      ensures !old(isActive) ==>
        && isActive && notes == StartNotes(config)
        && |elements| == |old(elements)|
        && (forall i :: 0 <= i < |elements| ==>
              elements[i] == old(elements[i]).(transitionDelay := Some(CharDelay(config, randomPoints[i]))))
        && pendingActivations == old(pendingActivations) + [generation]
        && completionTimers == old(completionTimers) + [CompletionDelay(config)]
    {
      if isActive {
        return [];
      }
      isActive := true;
      notes := StartNotes(config);
      var spans := elements;
      var i := 0;
      while i < |spans|
        invariant 0 <= i <= |spans| == |elements|
        invariant forall j :: 0 <= j < i ==>
          spans[j] == elements[j].(transitionDelay := Some(CharDelay(config, randomPoints[j])))
        invariant forall j :: i <= j < |spans| ==> spans[j] == elements[j]
      {
        spans := spans[i := spans[i].(transitionDelay := Some(CharDelay(config, randomPoints[i])))];
        i := i + 1;
      }
      elements := spans;
      pendingActivations := pendingActivations + [generation];
      completionTimers := completionTimers + [CompletionDelay(config)];
    }

    /** The frame `start` requested: every activation still pending for the
        current spans adds `active` to each of them, even after a `stop`;
        activations for spans since rebuilt touch only detached spans. */
    method ActivationFrame()
      requires Valid()
      modifies this`elements, this`pendingActivations
      ensures Valid() && pendingActivations == []
      ensures |elements| == |old(elements)|
      ensures generation in old(pendingActivations) ==>
        forall i :: 0 <= i < |elements| ==> elements[i] == old(elements[i]).(active := true)
      ensures generation !in old(pendingActivations) ==> elements == old(elements)
    {
      if generation in pendingActivations {
        var spans := elements;
        var i := 0;
        while i < |spans|
          invariant 0 <= i <= |spans| == |elements|
          invariant forall j :: 0 <= j < i ==> spans[j] == elements[j].(active := true)
          invariant forall j :: i <= j < |spans| ==> spans[j] == elements[j]
        {
          spans := spans[i := spans[i].(active := true)];
          i := i + 1;
        }
        elements := spans;
      }
      pendingActivations := [];
    }

    /** Completion timer `k` fires: `onComplete` as configured at that time. */
    method CompletionTimerFires(k: nat) returns (notes: seq<Note>)
      requires k < |completionTimers|
      modifies this`completionTimers
      ensures completionTimers == old(completionTimers[..k] + completionTimers[k + 1..])
      ensures notes == (if config.onComplete.Some? then [Completed] else [])
    {
      completionTimers := completionTimers[..k] + completionTimers[k + 1..];
      notes := if config.onComplete.Some? then [Completed] else [];
    }

    /** `stop`: a no-op when inactive; otherwise every span loses `active`
        and its delay. */
    method Stop()
      requires Valid()
      modifies this`isActive, this`elements
      ensures Valid() && !isActive
      ensures !old(isActive) ==> elements == old(elements)
      ensures old(isActive) ==>
        && |elements| == |old(elements)|
        && forall i :: 0 <= i < |elements| ==>
             elements[i] == old(elements[i]).(active := false, transitionDelay := None)
    {
      if !isActive {
        return;
      }
      isActive := false;
      var spans := elements;
      var i := 0;
      while i < |spans|
        invariant 0 <= i <= |spans| == |elements|
        invariant forall j :: 0 <= j < i ==> spans[j] == elements[j].(active := false, transitionDelay := None)
        invariant forall j :: i <= j < |spans| ==> spans[j] == elements[j]
      {
        spans := spans[i := spans[i].(active := false, transitionDelay := None)];
        i := i + 1;
      }
      elements := spans;
    }

    /** `reset`: stop and forget the trigger. */
    method Reset()
      requires Valid()
      modifies this`isActive, this`elements, this`hasTriggered
      ensures Valid() && !isActive && !hasTriggered
      ensures !old(isActive) ==> elements == old(elements)
      ensures old(isActive) ==>
        && |elements| == |old(elements)|
        && forall i :: 0 <= i < |elements| ==>
             elements[i] == old(elements[i]).(active := false, transitionDelay := None)
    {
      Stop();
      hasTriggered := false;
    }

    /** `updateText` as written: rebuilds the spans, then calls `start` when
        active, which returns at once because the effect is still active. */
    method UpdateText(text: string, draws: seq<real>) returns (notes: seq<Note>)
      requires Valid()
      requires |draws| == |text| && forall i :: 0 <= i < |draws| ==> 0.0 <= draws[i] < 1.0
      modifies this
      ensures Valid() && config == old(config).(text := text) && isActive == old(isActive)
      ensures visibilityManager == old(visibilityManager) && generation == old(generation) + 1
      ensures forall i :: 0 <= i < |elements| ==> elements[i] == Span(text[i], config.duration)
      ensures pendingActivations == old(pendingActivations) && notes == []
    {
      config := config.(text := text);
      CreateTextStructure(draws);
      notes := [];
      if isActive {
        notes := Start();
      }
    }

    /** `updateText` as evidently intended: an active effect restarts on the
        new spans, each of which then has its delay and a pending activation. */
    method UpdateTextRestarting(text: string, draws: seq<real>) returns (notes: seq<Note>)
      requires Valid()
      requires |draws| == |text| && forall i :: 0 <= i < |draws| ==> 0.0 <= draws[i] < 1.0
      modifies this
      ensures Valid() && config == old(config).(text := text) && isActive == old(isActive)
      ensures visibilityManager == old(visibilityManager) && generation == old(generation) + 1
      ensures old(isActive) ==>
        && generation in pendingActivations
        && forall i :: 0 <= i < |elements| ==>
             elements[i] == Span(text[i], config.duration).(transitionDelay := Some(CharDelay(config, draws[i])))
      ensures !old(isActive) ==> forall i :: 0 <= i < |elements| ==> elements[i] == Span(text[i], config.duration)
    {
      var wasActive := isActive;
      Stop();
      config := config.(text := text);
      CreateTextStructure(draws);
      notes := [];
      if wasActive {
        notes := Start();
      }
    }

    /** Rewrite every span's transition duration. */
    method UpdateTransitions()
      requires Valid()
      modifies this`elements
      ensures Valid() && |elements| == |old(elements)|
      ensures forall i :: 0 <= i < |elements| ==> elements[i] == old(elements[i]).(duration := config.duration)
    {
      var spans := elements;
      var i := 0;
      while i < |spans|
        invariant 0 <= i <= |spans| == |elements|
        invariant forall j :: 0 <= j < i ==> spans[j] == elements[j].(duration := config.duration)
        invariant forall j :: i <= j < |spans| ==> spans[j] == elements[j]
      {
        spans := spans[i := spans[i].(duration := config.duration)];
        i := i + 1;
      }
      elements := spans;
    }

    /** `updateConfig`: stop, merge, rebuild the spans iff a text is given
        (else rewrite the transitions iff a duration is given), rebuild the
        manager iff threshold, root margin or root is given, and start again
        only when enabled, previously active or just enabled, and visible. */
    method UpdateConfig(patch: Patch, host: V.Host, draws: seq<real>) returns (notes: seq<Note>)
      requires Valid()
      requires |draws| == |Or(patch.text, config.text)|
      requires forall i :: 0 <= i < |draws| ==> 0.0 <= draws[i] < 1.0
      modifies this`config, this`elements, this`randomPoints, this`mounted, this`generation, this`visibilityManager
      modifies this`isActive, this`hasTriggered, this`pendingActivations, this`completionTimers, visibilityManager
      ensures Valid() && config == Merge(old(config), patch)
      ensures patch.text.Some? ==> generation == old(generation) + 1 && randomPoints == draws
      ensures patch.text.None? ==> generation == old(generation) && randomPoints == old(randomPoints)
      ensures patch.threshold.Some? || patch.rootMargin.Some? || patch.root.Some? ==>
        visibilityManager != null && fresh(visibilityManager)
      ensures patch.threshold.None? && patch.rootMargin.None? && patch.root.None? ==>
        visibilityManager == old(visibilityManager)
      ensures !config.enabled ==> !isActive
      ensures (patch.threshold.Some? || patch.rootMargin.Some? || patch.root.Some?) && host.hasIntersectionObserver ==>
        !isActive && hasTriggered == old(hasTriggered) && notes == []
      ensures (patch.threshold.Some? || patch.rootMargin.Some? || patch.root.Some?)
              && !host.hasIntersectionObserver && host.hasDocument && host.documentHidden ==>
        !isActive
      ensures (patch.threshold.Some? || patch.rootMargin.Some? || patch.root.Some?)
              && !host.hasIntersectionObserver && !(host.hasDocument && host.documentHidden) ==>
        && (isActive <==>
              && config.enabled
              && (!config.triggerOnce || !old(hasTriggered) || old(isActive)
                  || (patch.enabled == Some(true) && !old(config.enabled))))
        && (config.enabled && (!config.triggerOnce || !old(hasTriggered)) ==> hasTriggered)
      ensures patch.threshold.None? && patch.rootMargin.None? && patch.root.None? ==>
        (isActive <==>
           && config.enabled
           && (old(isActive) || (patch.enabled == Some(true) && !old(config.enabled)))
           && visibilityManager != null && visibilityManager.GetIsVisible())
    {
      var asked := Suspend(patch, draws);
      notes := RefreshManager(patch, host);
      var more := Resume(asked);
      notes := notes + more;
    }

    /** The first steps of `updateConfig`: stop when being disabled or
        active, then apply the patch; `asked` says whether to start again
        (the effect was active, or is being enabled). */
    method Suspend(patch: Patch, draws: seq<real>) returns (asked: bool)
      requires Valid()
      requires |draws| == |Or(patch.text, config.text)|
      requires forall i :: 0 <= i < |draws| ==> 0.0 <= draws[i] < 1.0
      modifies this`config, this`elements, this`randomPoints, this`mounted, this`generation, this`isActive
      ensures Valid() && config == Merge(old(config), patch) && !isActive
      ensures asked == (old(isActive) || (patch.enabled == Some(true) && !old(config.enabled)))
      ensures patch.text.Some? ==> generation == old(generation) + 1 && randomPoints == draws
      ensures patch.text.None? ==> generation == old(generation) && randomPoints == old(randomPoints)
    {
      var wasActive := isActive;
      var isEnabledChanging := patch.enabled.Some? && patch.enabled.value != config.enabled;
      // Both branches of the source stop: once when being disabled, once when active.
      if (isEnabledChanging && patch.enabled.value == false) || wasActive {
        Stop();
      }
      ApplyPatch(patch, draws);
      asked := wasActive || (isEnabledChanging && patch.enabled.value == true);
    }

    /** The last step of `updateConfig`: start again when enabled, asked to
        and visible according to the manager. */
    method Resume(asked: bool) returns (notes: seq<Note>)
      requires Valid()
      modifies this`isActive, this`elements, this`pendingActivations, this`completionTimers
      ensures Valid()
      ensures isActive <==> old(isActive) || (config.enabled && asked && visibilityManager != null && visibilityManager.GetIsVisible())
      ensures !(config.enabled && asked && visibilityManager != null && visibilityManager.GetIsVisible()) ==>
        unchanged(this) && notes == []
    {
      notes := [];
      if config.enabled {
        if asked {
          if visibilityManager != null && visibilityManager.GetIsVisible() {
            notes := Start();
          }
        }
      }
    }

    /** Merge the patch, then rebuild the spans iff it has a text, else
        rewrite their transitions iff it has a duration. */
    method ApplyPatch(patch: Patch, draws: seq<real>)
      requires Valid()
      requires |draws| == |Or(patch.text, config.text)|
      requires forall i :: 0 <= i < |draws| ==> 0.0 <= draws[i] < 1.0
      modifies this`config, this`elements, this`randomPoints, this`mounted, this`generation
      ensures Valid() && config == Merge(old(config), patch)
      ensures patch.text.Some? ==> generation == old(generation) + 1 && randomPoints == draws
      ensures patch.text.None? ==> generation == old(generation) && randomPoints == old(randomPoints)
      ensures patch.text.None? && patch.duration.None? ==> elements == old(elements)
    {
      config := Merge(config, patch);
      if patch.text.Some? {
        CreateTextStructure(draws);
      } else if patch.duration.Some? {
        UpdateTransitions();
      }
    }

    /** Rebuild the manager iff the patch has a threshold, root margin or root. */
    method RefreshManager(patch: Patch, host: V.Host) returns (notes: seq<Note>)
      requires Valid()
      modifies this`visibilityManager, this`isActive, this`elements, this`hasTriggered
      modifies this`pendingActivations, this`completionTimers, visibilityManager
      ensures Valid()
      ensures patch.threshold.Some? || patch.rootMargin.Some? || patch.root.Some? ==>
        visibilityManager != null && fresh(visibilityManager) && (!config.enabled ==> isActive == old(isActive))
      ensures (patch.threshold.Some? || patch.rootMargin.Some? || patch.root.Some?) && host.hasIntersectionObserver ==>
        && visibilityManager != null && !visibilityManager.GetIsVisible() && notes == []
        && isActive == old(isActive) && hasTriggered == old(hasTriggered)
      ensures (patch.threshold.Some? || patch.rootMargin.Some? || patch.root.Some?)
              && !host.hasIntersectionObserver && host.hasDocument && host.documentHidden ==>
        visibilityManager != null && !visibilityManager.GetIsVisible() && (config.enabled ==> !isActive)
      ensures (patch.threshold.Some? || patch.rootMargin.Some? || patch.root.Some?)
              && !host.hasIntersectionObserver && !(host.hasDocument && host.documentHidden) ==>
        && visibilityManager != null && visibilityManager.GetIsVisible()
        && (config.enabled && (!config.triggerOnce || !old(hasTriggered)) ==> isActive && hasTriggered)
        && (!(config.enabled && (!config.triggerOnce || !old(hasTriggered))) ==>
              isActive == old(isActive) && hasTriggered == old(hasTriggered))
      ensures patch.threshold.None? && patch.rootMargin.None? && patch.root.None? ==>
        unchanged(this) && notes == []
    {
      notes := [];
      if patch.threshold.Some? || patch.rootMargin.Some? || patch.root.Some? {
        notes := RebuildManager(host);
      }
    }

    /** Replace the manager by one built from the current configuration and
        run the callbacks the new one invokes at once. */
    method RebuildManager(host: V.Host) returns (notes: seq<Note>)
      requires Valid()
      modifies this`visibilityManager, this`isActive, this`elements, this`hasTriggered
      modifies this`pendingActivations, this`completionTimers, visibilityManager
      ensures Valid() && visibilityManager != null && fresh(visibilityManager)
      ensures old(visibilityManager) != null ==>
        old(visibilityManager).intersectionObserver.None? && old(visibilityManager).visibilityChangeHandler.None?
      ensures !config.enabled ==> isActive == old(isActive)
      ensures host.hasIntersectionObserver ==>
        && !visibilityManager.GetIsVisible() && notes == []
        && isActive == old(isActive) && hasTriggered == old(hasTriggered)
      ensures !host.hasIntersectionObserver && host.hasDocument && host.documentHidden ==>
        !visibilityManager.GetIsVisible() && (config.enabled ==> !isActive)
      ensures !host.hasIntersectionObserver && !(host.hasDocument && host.documentHidden) ==>
        && visibilityManager.GetIsVisible()
        && (config.enabled && (!config.triggerOnce || !old(hasTriggered)) ==> isActive && hasTriggered)
        && (!(config.enabled && (!config.triggerOnce || !old(hasTriggered))) ==>
              isActive == old(isActive) && hasTriggered == old(hasTriggered))
    {
      if visibilityManager != null {
        visibilityManager.Destroy();
        visibilityManager := null;
      }
      var fired := SetupVisibilityManager(host);
      notes := Dispatch(fired);
    }

    /** `destroy`: stop, destroy the manager and empty the container. */
    method Destroy()
      requires Valid()
      modifies this, visibilityManager
      ensures Valid() && !isActive && !mounted && visibilityManager == null
      ensures old(visibilityManager) != null ==>
        old(visibilityManager).intersectionObserver.None? && old(visibilityManager).visibilityChangeHandler.None?
    {
      Stop();
      if visibilityManager != null {
        visibilityManager.Destroy();
        visibilityManager := null;
      }
      mounted := false;
    }
  }

  /** Updating the text of an active effect as written leaves it active with
      no span scheduled and no activation pending for the new spans, so they
      stay hidden; the restarting version schedules them all. */
  method UpdateTextLeavesSpansHidden(e: TextSpin, text: string, draws: seq<real>)
    requires e.Valid() && e.isActive && text != []
    requires |draws| == |text| && forall i :: 0 <= i < |draws| ==> 0.0 <= draws[i] < 1.0
    requires forall g :: g in e.pendingActivations ==> g <= e.generation
    modifies e
    ensures e.isActive
    ensures forall i :: 0 <= i < |e.elements| ==> !e.elements[i].active && e.elements[i].transitionDelay.None?
    ensures e.generation !in e.pendingActivations
  {
    var _ := e.UpdateText(text, draws);
  }

  /** Unlike Count and ScrollFadeIn, hiding an enabled, repeatable reveal
      and showing it again restarts it. */
  method HiddenRevealReplays(e: TextSpin) returns (notes: seq<Note>)
    requires e.Valid() && e.config.enabled && !e.config.triggerOnce
    modifies e
    ensures e.isActive && e.hasTriggered && notes == StartNotes(e.config)
  {
    e.OnHidden();
    notes := e.OnVisible();
  }
}
