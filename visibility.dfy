/** The visibility coordinator of src/core/utils/visibilityManager.ts.

    A manager watches one element. Two flags describe what it knows: whether the
    element intersects the viewport (`isVisible`) and whether the tab is in the
    foreground (`isPageVisible`). The host reports intersection entries and
    visibility changes through `OnIntersection` and `OnVisibilityChange`; each
    returns the callbacks it invoked, in order, so that the owning effect can run
    its own `OnVisible`/`OnHidden` handlers. */
module Visibility {
  import opened Common

  /** The two callbacks a manager can invoke. */
  datatype Signal = OnVisible | OnHidden

  /** What the host offers: `window.IntersectionObserver`, a `document`, and
      whether the document is hidden when the manager is created. */
  datatype Host = Host(hasIntersectionObserver: bool, hasDocument: bool, documentHidden: bool)

  /** One IntersectionObserver entry: its target and whether it intersects. */
  datatype Entry = Entry(target: ElementId, isIntersecting: bool)

  /** The options a caller passes; absent fields take their defaults. */
  datatype Request = Request(
    threshold: Option<real>,
    rootMargin: Option<string>,
    root: Option<ElementId>,
    onVisible: Option<CallbackId>,
    onHidden: Option<CallbackId>)

  /** The options after defaults are filled in. */
  datatype Options = Options(
    threshold: real,
    rootMargin: string,
    root: Option<ElementId>,
    onVisible: Option<CallbackId>,
    onHidden: Option<CallbackId>)

  /** A partial update: `None` leaves a field as it is; for the root and the
      callbacks `Some(None)` stores an explicit null/undefined. */
  datatype Patch = Patch(
    threshold: Option<real>,
    rootMargin: Option<string>,
    root: Option<Option<ElementId>>,
    onVisible: Option<Option<CallbackId>>,
    onHidden: Option<Option<CallbackId>>)

  function Defaults(r: Request): (o: Options)
    ensures o.threshold == (if r.threshold.Some? then r.threshold.value else 0.1)
    ensures o.rootMargin == (if r.rootMargin.Some? then r.rootMargin.value else "0px")
    ensures o.root == r.root && o.onVisible == r.onVisible && o.onHidden == r.onHidden
  {
    Options(
      if r.threshold.Some? then r.threshold.value else 0.1,
      if r.rootMargin.Some? then r.rootMargin.value else "0px",
      r.root, r.onVisible, r.onHidden)
  }

  function Pick<T>(p: Option<T>, old_: T): T { if p.Some? then p.value else old_ }

  /** `{ ...options, ...patch }`: every field present in the patch wins. */
  function Merge(o: Options, p: Patch): (m: Options)
    ensures p.threshold.None? ==> m.threshold == o.threshold
    ensures p.threshold.Some? ==> m.threshold == p.threshold.value
    ensures p.rootMargin.None? ==> m.rootMargin == o.rootMargin
    ensures p.rootMargin.Some? ==> m.rootMargin == p.rootMargin.value
    ensures p.root.None? ==> m.root == o.root
    ensures p.root.Some? ==> m.root == p.root.value
    ensures p.onVisible.None? ==> m.onVisible == o.onVisible
    ensures p.onVisible.Some? ==> m.onVisible == p.onVisible.value
    ensures p.onHidden.None? ==> m.onHidden == o.onHidden
    ensures p.onHidden.Some? ==> m.onHidden == p.onHidden.value
    ensures p == Patch(None, None, None, None, None) ==> m == o
  {
    Options(
      Pick(p.threshold, o.threshold),
      Pick(p.rootMargin, o.rootMargin),
      Pick(p.root, o.root),
      Pick(p.onVisible, o.onVisible),
      Pick(p.onHidden, o.onHidden))
  }

  /** The callback one entry makes the observer invoke, if any. */
  function EntrySignals(container: ElementId, o: Options, pageVisible: bool, e: Entry): seq<Signal> {
    if e.target != container then []
    else if e.isIntersecting then (if pageVisible && o.onVisible.Some? then [OnVisible] else [])
    else (if o.onHidden.Some? then [OnHidden] else [])
  }

  /** The element flag after one entry. */
  function EntryVisible(container: ElementId, visible: bool, e: Entry): bool {
    if e.target != container then visible else e.isIntersecting
  }

  /** The element flag after a batch of entries, processed in order. */
  function BatchVisible(container: ElementId, visible: bool, entries: seq<Entry>): bool
    decreases |entries|
  {
    if entries == [] then visible
    else EntryVisible(container, BatchVisible(container, visible, entries[..|entries| - 1]), entries[|entries| - 1])
  }

  /** The callbacks a batch of entries invokes, in order. The page flag does not
      change while a batch is processed. */
  function BatchSignals(container: ElementId, o: Options, pageVisible: bool, entries: seq<Entry>): seq<Signal>
    decreases |entries|
  {
    if entries == [] then []
    else BatchSignals(container, o, pageVisible, entries[..|entries| - 1])
         + EntrySignals(container, o, pageVisible, entries[|entries| - 1])
  }

  /** The entries of a batch that target the bound element. */
  function Own(container: ElementId, entries: seq<Entry>): (r: seq<Entry>)
    ensures |r| <= |entries|
    ensures forall e :: e in r ==> e in entries && e.target == container
    ensures forall e :: e in entries && e.target == container ==> e in r
    decreases |entries|
  {
    if entries == [] then []
    else
      var init := entries[..|entries| - 1];
      assert forall e :: e in entries ==> e in init || e == entries[|entries| - 1];
      Own(container, init)
      + (if entries[|entries| - 1].target == container then [entries[|entries| - 1]] else [])
  }

  /** `Own` is the order-keeping filter: it takes a one-entry batch to
      itself exactly when the entry targets the element, and distributes
      over concatenation. */
  lemma {:induction false} OwnIsFilter(container: ElementId, a: seq<Entry>, b: seq<Entry>)
    ensures Own(container, a + b) == Own(container, a) + Own(container, b)
    ensures |a| == 1 ==> Own(container, a) == (if a[0].target == container then a else [])
    decreases |b|
  {
    if |a| == 1 {
      assert a[..0] == [];
    }
    if b == [] {
      assert a + b == a;
    } else {
      assert (a + b)[..|a + b| - 1] == a + b[..|b| - 1];
      OwnIsFilter(container, a, b[..|b| - 1]);
    }
  }

  /** Entries aimed at other elements neither change the flag nor fire anything. */
  lemma {:induction false} ForeignEntriesIgnored(container: ElementId, o: Options, pageVisible: bool, visible: bool, entries: seq<Entry>)
    ensures BatchVisible(container, visible, entries) == BatchVisible(container, visible, Own(container, entries))
    ensures BatchSignals(container, o, pageVisible, entries) == BatchSignals(container, o, pageVisible, Own(container, entries))
    decreases |entries|
  {
    if entries != [] {
      var init, last := entries[..|entries| - 1], entries[|entries| - 1];
      ForeignEntriesIgnored(container, o, pageVisible, visible, init);
      var own := Own(container, init);
      if last.target == container {
        assert Own(container, entries) == own + [last];
        assert (own + [last])[..|own + [last]| - 1] == own;
        assert (own + [last])[|own + [last]| - 1] == last;
      } else {
        assert Own(container, entries) == own + [] == own;
        assert EntrySignals(container, o, pageVisible, last) == [];
        assert BatchSignals(container, o, pageVisible, entries) == BatchSignals(container, o, pageVisible, init) + [];
      }
    }
  }

  /** After a batch the element flag is the `isIntersecting` of the last entry
      for the bound element, or unchanged when there is none. */
  lemma {:induction false} LastOwnEntryWins(container: ElementId, visible: bool, entries: seq<Entry>)
    ensures var own := Own(container, entries);
      BatchVisible(container, visible, entries) == if own == [] then visible else own[|own| - 1].isIntersecting
    decreases |entries|
  {
    if entries != [] {
      var init, last := entries[..|entries| - 1], entries[|entries| - 1];
      LastOwnEntryWins(container, visible, init);
      var own := Own(container, init);
      if last.target == container {
        assert Own(container, entries) == own + [last];
      } else {
        assert Own(container, entries) == own;
      }
    }
  }

  /** Within a batch, OnHidden fires once per leaving entry and OnVisible once
      per entering entry, and the latter only while the page is visible. */
  lemma {:induction false} SignalsPerEntry(container: ElementId, o: Options, pageVisible: bool, entries: seq<Entry>)
    requires o.onVisible.Some? && o.onHidden.Some?
    ensures |BatchSignals(container, o, pageVisible, entries)|
         == |Own(container, entries)| - (if pageVisible then 0 else Entering(Own(container, entries)))
    ensures !pageVisible ==> OnVisible !in BatchSignals(container, o, pageVisible, entries)
    decreases |entries|
  {
    if entries != [] {
      var init, last := entries[..|entries| - 1], entries[|entries| - 1];
      SignalsPerEntry(container, o, pageVisible, init);
      var own := Own(container, init);
      if last.target == container {
        assert Own(container, entries) == own + [last];
        assert (own + [last])[..|own + [last]| - 1] == own;
        assert (own + [last])[|own + [last]| - 1] == last;
        assert Entering(own + [last]) == Entering(own) + (if last.isIntersecting then 1 else 0);
      } else {
        assert Own(container, entries) == own + [] == own;
      }
    }
  }

  /** How many entries of a batch report intersecting. */
  function Entering(entries: seq<Entry>): (n: nat)
    ensures n <= |entries|
    ensures n == 0 <==> forall i :: 0 <= i < |entries| ==> !entries[i].isIntersecting
    ensures n == |entries| <==> forall i :: 0 <= i < |entries| ==> entries[i].isIntersecting
    decreases |entries|
  {
    if entries == [] then 0
    else
      var init := entries[..|entries| - 1];
      assert forall i :: 0 <= i < |init| ==> init[i] == entries[i];
      Entering(init) + (if entries[|entries| - 1].isIntersecting then 1 else 0)
  }

  /** The callbacks one `visibilitychange` event invokes. */
  function PageSignals(o: Options, wasPageVisible: bool, visible: bool, documentHidden: bool): seq<Signal> {
    if documentHidden then (if o.onHidden.Some? then [OnHidden] else [])
    else if wasPageVisible != !documentHidden then (if visible && o.onVisible.Some? then [OnVisible] else [])
    else []
  }

  /** Hiding the tab always asks to hide; showing it asks to show only when it
      was hidden before and the element still intersects. */
  lemma PageSignalsCases(o: Options, wasPageVisible: bool, visible: bool, documentHidden: bool)
    requires o.onVisible.Some? && o.onHidden.Some?
    ensures documentHidden ==> PageSignals(o, wasPageVisible, visible, documentHidden) == [OnHidden]
    ensures !documentHidden ==>
      (PageSignals(o, wasPageVisible, visible, documentHidden) == [OnVisible] <==> !wasPageVisible && visible)
    ensures !documentHidden ==> OnHidden !in PageSignals(o, wasPageVisible, visible, documentHidden)
  {
  }

  class VisibilityManager {
    const container: ElementId
    /** Whether the host has IntersectionObserver, and a document. */
    const canObserve: bool
    const hasDocument: bool
    var options: Options
    var intersectionObserver: Option<Handle>
    var visibilityChangeHandler: Option<Handle>
    var isVisible: bool
    var isPageVisible: bool
    /** The last handle the host gave out; new handles are larger. */
    var issued: Handle

    ghost predicate Valid()
      reads this
    {
      && (intersectionObserver.Some? ==> intersectionObserver.value <= issued)
      && (visibilityChangeHandler.Some? ==> visibilityChangeHandler.value <= issued)
      && (!hasDocument ==> visibilityChangeHandler.None?)
    }

    /** The field initialisation of the constructor, before any observer or
        listener is set up. */
    constructor Init(container: ElementId, request: Request, host: Host)
      ensures Valid()
      ensures this.container == container && canObserve == host.hasIntersectionObserver && hasDocument == host.hasDocument
      ensures options == Defaults(request)
      ensures intersectionObserver.None? && visibilityChangeHandler.None?
      ensures !isVisible && isPageVisible == (!host.hasDocument || !host.documentHidden)
    {
      this.container := container;
      canObserve := host.hasIntersectionObserver;
      hasDocument := host.hasDocument;
      options := Defaults(request);
      intersectionObserver := None;
      visibilityChangeHandler := None;
      isVisible := false;
      isPageVisible := if host.hasDocument then !host.documentHidden else true;
      issued := 0;
    }

    /** `new VisibilityManager(container, options)`: initialise, then set up the
        intersection observer and the page-visibility listener. */
    static method Create(container: ElementId, request: Request, host: Host) returns (m: VisibilityManager, fired: seq<Signal>)
      ensures fresh(m) && m.Valid()
      ensures m.container == container && m.options == Defaults(request)
      ensures m.canObserve == host.hasIntersectionObserver && m.hasDocument == host.hasDocument
      ensures m.intersectionObserver.Some? == host.hasIntersectionObserver
      ensures m.visibilityChangeHandler.Some? == host.hasDocument
      ensures m.isVisible == !host.hasIntersectionObserver
      ensures m.isPageVisible == (!host.hasDocument || !host.documentHidden)
      // without IntersectionObserver the element counts as visible and onVisible
      // fires once, when the page is visible; a hidden page then fires onHidden
      ensures |fired| <= 1 && (host.hasIntersectionObserver ==> fired == [])
      ensures fired == [OnVisible] <==> !host.hasIntersectionObserver && m.isPageVisible && request.onVisible.Some?
      ensures fired == [OnHidden] <==> !host.hasIntersectionObserver && !m.isPageVisible && request.onHidden.Some?
    {
      m := new VisibilityManager.Init(container, request, host);
      var f1 := m.SetupIntersectionObserver();
      var f2 := m.SetupPageVisibility(host.documentHidden);
      fired := f1 + f2;
      if host.hasIntersectionObserver {
        assert f1 == [] && fired == f2;
      } else if m.isPageVisible {
        assert f2 == [] && fired == f1;
      } else {
        assert f1 == [] && fired == f2;
      }
    }

    method SetupIntersectionObserver() returns (fired: seq<Signal>)
      requires Valid() && intersectionObserver.None?
      modifies this
      ensures Valid()
      ensures options == old(options) && isPageVisible == old(isPageVisible)
      ensures visibilityChangeHandler == old(visibilityChangeHandler)
      ensures canObserve ==> (intersectionObserver.Some? && intersectionObserver.value > old(issued)
                              && isVisible == old(isVisible) && fired == [])
      ensures !canObserve ==> (intersectionObserver.None? && isVisible
                               && fired == (if isPageVisible && options.onVisible.Some? then [OnVisible] else []))
      ensures issued >= old(issued)
    {
      if !canObserve {
        isVisible := true;
        fired := if isPageVisible && options.onVisible.Some? then [OnVisible] else [];
        return;
      }
      issued := issued + 1;
      intersectionObserver := Some(issued);
      fired := [];
    }

    method SetupPageVisibility(documentHidden: bool) returns (fired: seq<Signal>)
      requires Valid() && visibilityChangeHandler.None?
      requires hasDocument ==> isPageVisible == !documentHidden
      modifies this
      ensures Valid()
      ensures options == old(options) && isVisible == old(isVisible) && isPageVisible == old(isPageVisible)
      ensures intersectionObserver == old(intersectionObserver)
      ensures visibilityChangeHandler.Some? == hasDocument
      ensures fired == (if hasDocument && documentHidden && isVisible && options.onHidden.Some? then [OnHidden] else [])
    {
      fired := [];
      if !hasDocument {
        return;
      }
      issued := issued + 1;
      visibilityChangeHandler := Some(issued);
      if documentHidden && isVisible && options.onHidden.Some? {
        fired := [OnHidden];
      }
    }

    /** The observer callback, run by the host with a batch of entries while
        the observer is connected. */
    method OnIntersection(entries: seq<Entry>) returns (fired: seq<Signal>)
      requires intersectionObserver.Some?
      modifies this`isVisible
      ensures isVisible == BatchVisible(container, old(isVisible), entries)
      ensures fired == BatchSignals(container, options, isPageVisible, entries)
    {
      fired := [];
      var i := 0;
      while i < |entries|
        invariant 0 <= i <= |entries|
        invariant isVisible == BatchVisible(container, old(isVisible), entries[..i])
        invariant fired == BatchSignals(container, options, isPageVisible, entries[..i])
      {
        var entry := entries[i];
        assert entries[..i + 1][..i] == entries[..i];
        if entry.target != container {
          i := i + 1;
          continue;
        }
        if entry.isIntersecting {
          isVisible := true;
          if isPageVisible && options.onVisible.Some? {
            fired := fired + [OnVisible];
          }
        } else {
          isVisible := false;
          if options.onHidden.Some? {
            fired := fired + [OnHidden];
          }
        }
        i := i + 1;
      }
      assert entries[..|entries|] == entries;
    }

    /** The `visibilitychange` listener, run by the host while it is registered;
        `documentHidden` is `document.hidden` at that moment. */
    method OnVisibilityChange(documentHidden: bool) returns (fired: seq<Signal>)
      requires visibilityChangeHandler.Some?
      modifies this`isPageVisible
      ensures isPageVisible == !documentHidden
      ensures fired == PageSignals(options, old(isPageVisible), isVisible, documentHidden)
    {
      var wasVisible := isPageVisible;
      isPageVisible := !documentHidden;
      fired := [];
      if documentHidden {
        if options.onHidden.Some? {
          fired := [OnHidden];
        }
      } else if wasVisible != isPageVisible {
        if isVisible && options.onVisible.Some? {
          fired := [OnVisible];
        }
      }
    }

    /** Whether the element is shown: it intersects and the tab is visible. */
    function GetIsVisible(): (r: bool)
      reads this
      ensures r <==> isVisible && isPageVisible
    {
      isVisible && isPageVisible
    }

    /** Merge the options and replace the intersection observer; the
        page-visibility listener is left as it is. */
    method UpdateOptions(patch: Patch) returns (fired: seq<Signal>)
      requires Valid()
      modifies this
      ensures Valid()
      ensures options == Merge(old(options), patch)
      ensures visibilityChangeHandler == old(visibilityChangeHandler) && isPageVisible == old(isPageVisible)
      ensures canObserve ==> (intersectionObserver.Some? && intersectionObserver != old(intersectionObserver)
                              && isVisible == old(isVisible) && fired == [])
      ensures !canObserve ==> (intersectionObserver.None? && isVisible
                               && fired == (if isPageVisible && options.onVisible.Some? then [OnVisible] else []))
    {
      options := Merge(options, patch);
      intersectionObserver := None;
      fired := SetupIntersectionObserver();
    }

    /** Disconnect the observer and remove the listener. A second call finds
        both gone and changes nothing. */
    method Destroy()
      requires Valid()
      modifies this`intersectionObserver, this`visibilityChangeHandler
      ensures Valid()
      ensures intersectionObserver.None? && visibilityChangeHandler.None?
      ensures old(intersectionObserver).None? && old(visibilityChangeHandler).None? ==> unchanged(this)
    {
      if intersectionObserver.Some? {
        intersectionObserver := None;
      }
      if visibilityChangeHandler.Some? && hasDocument {
        visibilityChangeHandler := None;
      }
    }
  }
}
