/**
 * The load lifecycle of a ProgressiveImage component as a pure state
 * machine. A State holds the component's four state fields together with
 * what the handlers do to the outside world: the scroll listeners this
 * instance has registered on its scroll parent, the full-image fetches and
 * reveal timers still outstanding, and the number of fetches started so
 * far. Each handler of the component is a function from the old State to
 * the new one; the class in module Component is proved against them.
 *
 * The handlers are modelled as written, including two defects: the update
 * handler unregisters a handle that was never registered, and the scroll
 * handler only tests `loading`, so a loaded image is fetched again.
 */
module Lifecycle {
  import opened Visibility
  import opened Layout

  /** The properties that affect the lifecycle. `delay`, `src`,
      `placeholder` and `scrollParent` do not: the reveal timer is an event,
      the fetch is a counter, and the listeners are recorded in the State. */
  datatype Props = Props(blur: real, lazy: bool, width: Option<real>, height: Option<real>)

  /** Both `width` and `height` were given, and neither is zero. */
  predicate HasDimensions(p: Props)
    ensures HasDimensions(p) ==> p.width.Some? && p.height.Some? && AspectRatio(p.width.value, p.height.value).Percent?
  {
    Truthy(p.width) && Truthy(p.height)
  }

  /** The ratio fixed by explicit dimensions. */
  function ExplicitRatio(p: Props): Ratio
    requires HasDimensions(p)
  {
    AspectRatio(p.width.value, p.height.value)
  }

  /** The two function references that reach the scroll parent: the bound
      `checkBounds` handler, which is registered, and `lazyListener`, which
      is never assigned and is what the update handler asks to remove. */
  datatype Handle = CheckBoundsHandle | LazyListenerHandle

  datatype State = State(
    aspectRatio: Ratio,
    show: bool,
    loaded: bool,
    loading: bool,
    listeners: set<Handle>,
    fetchesInFlight: nat,
    timersPending: nat,
    fetchesStarted: nat)

  /** What the environment delivers once the component is mounted. */
  datatype Event =
    | Scroll(g: Geometry)
    | FullImageLoaded
    | RevealTimerFired
    | Updated
    | PlaceholderLoaded(naturalWidth: nat, naturalHeight: nat)

  /** The state the component is constructed with. */
  function Initial(): (s: State)
    ensures s.aspectRatio == Percent(0.0) && !s.show && !s.loaded && !s.loading
    ensures s.listeners == {} && s.fetchesInFlight == s.timersPending == s.fetchesStarted == 0
    ensures forall t :: Grows(s, t)
  {
    State(Percent(0.0), false, false, false, {}, 0, 0, 0)
  }

  /** `loadFullImage`: mark the fetch as in flight and start it. */
  function AfterLoadFullImage(s: State): (t: State)
    ensures t.loading && t.fetchesStarted == s.fetchesStarted + 1 && t.fetchesInFlight == s.fetchesInFlight + 1
    ensures t.(loading := s.loading, fetchesStarted := s.fetchesStarted, fetchesInFlight := s.fetchesInFlight) == s
  {
    s.(loading := true,
       fetchesInFlight := s.fetchesInFlight + 1,
       fetchesStarted := s.fetchesStarted + 1)
  }

  /** `checkBounds`: unless a fetch is marked as in flight, fetch when the
      container is in view. */
  function AfterCheckBounds(s: State, g: Geometry): (t: State)
    ensures s.loading ==> t == s
    ensures t == s || t == AfterLoadFullImage(s)
    ensures t.fetchesStarted > s.fetchesStarted <==> !s.loading && InView(g)
  {
    if s.loading then s
    else if InView(g) then AfterLoadFullImage(s)
    else s
  }

  /** `componentDidMount`, run on the initial state. */
  function AfterMount(p: Props, g: Geometry): (t: State)
    ensures !p.lazy ==> t.loading && t.fetchesStarted == 1 && t.listeners == {}
    ensures p.lazy ==> t.listeners == {CheckBoundsHandle}
    ensures p.lazy ==> (t.loading <==> InView(g)) && t.fetchesStarted == (if InView(g) then 1 else 0)
    ensures t.aspectRatio == if HasDimensions(p) then ExplicitRatio(p) else Percent(0.0)
    ensures !t.loaded && !t.show && t.timersPending == 0
  {
    var s := if HasDimensions(p) then Initial().(aspectRatio := ExplicitRatio(p)) else Initial();
    if p.lazy then
      var c := AfterCheckBounds(s, g);
      c.(listeners := c.listeners + {CheckBoundsHandle})
    else
      AfterLoadFullImage(s)
  }

  /** The scroll parent calls every registered scroll listener. */
  function AfterScroll(s: State, g: Geometry): (t: State)
    ensures CheckBoundsHandle !in s.listeners ==> t == s
    ensures t == s || t == AfterLoadFullImage(s)
    ensures t.fetchesStarted > s.fetchesStarted <==> CheckBoundsHandle in s.listeners && !s.loading && InView(g)
  {
    if CheckBoundsHandle in s.listeners then AfterCheckBounds(s, g) else s
  }

  /** The `onload` callback of an outstanding fetch: loaded, no longer
      loading, and a reveal timer is scheduled. Without an outstanding fetch
      there is no callback to run. */
  function AfterFullImageLoad(s: State): (t: State)
    ensures s.fetchesInFlight == 0 ==> t == s
    ensures s.fetchesInFlight > 0 ==>
      t.loaded && !t.loading && t.fetchesInFlight == s.fetchesInFlight - 1 && t.timersPending == s.timersPending + 1
    ensures t.show == s.show && t.aspectRatio == s.aspectRatio && t.listeners == s.listeners
    ensures t.fetchesStarted == s.fetchesStarted
  {
    if s.fetchesInFlight == 0 then s
    else s.(loaded := true, loading := false,
            fetchesInFlight := s.fetchesInFlight - 1,
            timersPending := s.timersPending + 1)
  }

  /** A scheduled reveal timer fires and sets `show`. */
  function AfterRevealTimer(s: State): (t: State)
    ensures t.show <==> s.show || s.timersPending > 0
    ensures t.timersPending == if s.timersPending == 0 then 0 else s.timersPending - 1
    ensures t.(show := s.show, timersPending := s.timersPending) == s
  {
    if s.timersPending == 0 then s
    else s.(show := true, timersPending := s.timersPending - 1)
  }

  /** `componentDidUpdate`: once loaded, remove the `lazyListener` handle. */
  function AfterUpdate(s: State): (t: State)
    ensures t.listeners <= s.listeners
    ensures s.loaded ==> LazyListenerHandle !in t.listeners
    ensures CheckBoundsHandle in t.listeners <==> CheckBoundsHandle in s.listeners
    ensures t.(listeners := s.listeners) == s
  {
    if s.loaded then s.(listeners := s.listeners - {LazyListenerHandle}) else s
  }

  /** `handlePlaceholderLoad`: without explicit dimensions, take the ratio of
      the placeholder's natural size, on every load. */
  function AfterPlaceholderLoad(p: Props, s: State, naturalWidth: nat, naturalHeight: nat): (t: State)
    ensures HasDimensions(p) ==> t == s
    ensures !HasDimensions(p) ==> t.aspectRatio == AspectRatio(naturalWidth as real, naturalHeight as real)
    ensures !HasDimensions(p) ==> (t.aspectRatio == NonFinite <==> naturalWidth == 0)
    ensures t.(aspectRatio := s.aspectRatio) == s
  {
    if HasDimensions(p) then s
    else s.(aspectRatio := AspectRatio(naturalWidth as real, naturalHeight as real))
  }

  function Step(p: Props, s: State, e: Event): State {
    match e
    case Scroll(g) => AfterScroll(s, g)
    case FullImageLoaded => AfterFullImageLoad(s)
    case RevealTimerFired => AfterRevealTimer(s)
    case Updated => AfterUpdate(s)
    case PlaceholderLoaded(w, h) => AfterPlaceholderLoad(p, s, w, h)
  }

  /** The state after the events `es`, in order. */
  function Run(p: Props, s: State, es: seq<Event>): State
    decreases |es|
  {
    if es == [] then s else Run(p, Step(p, s, es[0]), es[1..])
  }

  /** What holds of every state a mounted component can be in. */
  predicate Inv(p: Props, s: State) {
    && (s.show ==> s.loaded)
    && (s.timersPending > 0 ==> s.loaded)
    && (s.loaded ==> s.fetchesStarted >= 1)
    && (s.loading <==> s.fetchesInFlight > 0)
    && s.fetchesInFlight <= 1
    && s.fetchesInFlight <= s.fetchesStarted
    && s.listeners == (if p.lazy then {CheckBoundsHandle} else {})
    && (!p.lazy ==> s.fetchesStarted == 1)
    && (HasDimensions(p) ==> s.aspectRatio == ExplicitRatio(p))
  }

  /** What no event takes back: loaded, shown, fetches started and the
      registered `checkBounds` listener. */
  predicate Grows(s: State, t: State) {
    && (s.loaded ==> t.loaded)
    && (s.show ==> t.show)
    && s.fetchesStarted <= t.fetchesStarted
    && (CheckBoundsHandle in s.listeners ==> CheckBoundsHandle in t.listeners)
  }

  lemma MountEstablishesInv(p: Props, g: Geometry)
    ensures Inv(p, AfterMount(p, g))
  {
  }

  lemma StepPreservesInv(p: Props, s: State, e: Event)
    requires Inv(p, s)
    ensures Inv(p, Step(p, s, e))
  {
  }

  lemma StepGrows(p: Props, s: State, e: Event)
    ensures Grows(s, Step(p, s, e))
  {
  }

  lemma {:induction false} RunPreservesInv(p: Props, s: State, es: seq<Event>)
    requires Inv(p, s)
    ensures Inv(p, Run(p, s, es))
    decreases |es|
  {
    if es != [] {
      StepPreservesInv(p, s, es[0]);
      RunPreservesInv(p, Step(p, s, es[0]), es[1..]);
    }
  }

  lemma {:induction false} RunGrows(p: Props, s: State, es: seq<Event>)
    ensures Grows(s, Run(p, s, es))
    decreases |es|
  {
    if es != [] {
      StepGrows(p, s, es[0]);
      RunGrows(p, Step(p, s, es[0]), es[1..]);
    }
  }

  /** Every state reached from mount, by any events, satisfies Inv. */
  lemma ReachableInv(p: Props, g: Geometry, es: seq<Event>)
    ensures Inv(p, Run(p, AfterMount(p, g), es))
  {
    MountEstablishesInv(p, g);
    RunPreservesInv(p, AfterMount(p, g), es);
  }

  /** The same events, in the same order, give the same state from wherever
      they start: Run of a concatenation is Run of Run. */
  lemma {:induction false} RunAppend(p: Props, s: State, es: seq<Event>, fs: seq<Event>)
    ensures Run(p, s, es + fs) == Run(p, Run(p, s, es), fs)
    decreases |es|
  {
    if es == [] {
      assert es + fs == fs;
    } else {
      assert (es + fs)[1..] == es[1..] + fs;
      RunAppend(p, Step(p, s, es[0]), es[1..], fs);
    }
  }

  // ----- the in-view gate -----

  /** A scroll notification starts a fetch exactly when the listener is
      registered (lazy mode), no fetch is marked as in flight and the
      container is in view; otherwise it changes nothing. */
  lemma ScrollStartsFetchIff(p: Props, s: State, g: Geometry)
    requires Inv(p, s)
    ensures var t := Step(p, s, Scroll(g));
            (p.lazy && !s.loading && InView(g) ==> t == AfterLoadFullImage(s)) &&
            (!(p.lazy && !s.loading && InView(g)) ==> t == s)
    ensures Step(p, s, Scroll(g)).fetchesStarted > s.fetchesStarted <==> p.lazy && !s.loading && InView(g)
  {
  }

  /** While `loading` is set, a scroll notification changes nothing. */
  lemma ScrollWhileLoadingIsNoOp(p: Props, s: State, g: Geometry)
    requires s.loading
    ensures Step(p, s, Scroll(g)) == s
  {
  }

  /** The guard keeps at most one fetch outstanding at a time, and without
      lazy mode exactly one fetch is ever started. */
  lemma AtMostOneFetchInFlight(p: Props, g: Geometry, es: seq<Event>)
    ensures var t := Run(p, AfterMount(p, g), es);
            t.fetchesInFlight <= 1 && (t.loading <==> t.fetchesInFlight == 1)
    ensures !p.lazy ==> Run(p, AfterMount(p, g), es).fetchesStarted == 1
  {
    ReachableInv(p, g, es);
  }

  /** Only a scroll with the container in view starts a fetch: no other
      event does, and the scroll must reach the registered listener while
      nothing is loading. */
  lemma FetchOnlyByInViewScroll(p: Props, s: State, e: Event)
    requires Inv(p, s)
    requires Step(p, s, e).fetchesStarted > s.fetchesStarted
    ensures e.Scroll? && p.lazy && !s.loading && InView(e.g)
  {
  }

  /** No event of `es` is a scroll with the container in view. */
  predicate NoInViewScroll(es: seq<Event>) {
    forall i :: 0 <= i < |es| ==> !(es[i].Scroll? && InView(es[i].g))
  }

  /** From a reachable state with nothing loading, events without an in-view
      scroll start no fetch, and so cannot make the image loaded. */
  lemma {:induction false} IdleWithoutInViewScroll(p: Props, s: State, es: seq<Event>)
    requires Inv(p, s) && !s.loading && NoInViewScroll(es)
    ensures var t := Run(p, s, es);
            t.fetchesStarted == s.fetchesStarted && t.loaded == s.loaded && !t.loading
    decreases |es|
  {
    if es != [] {
      assert !(es[0].Scroll? && InView(es[0].g));
      StepPreservesInv(p, s, es[0]);
      assert NoInViewScroll(es[1..]) by {
        forall i | 0 <= i < |es[1..]| ensures !(es[1..][i].Scroll? && InView(es[1..][i].g)) {
          assert es[1..][i] == es[i + 1];
        }
      }
      IdleWithoutInViewScroll(p, Step(p, s, es[0]), es[1..]);
    }
  }

  /** In lazy mode a container out of view at mount is not fetched, and not
      loaded, until a scroll arrives with it in view. */
  lemma LazyOutOfViewWaits(p: Props, g: Geometry, es: seq<Event>)
    requires p.lazy && !InView(g) && NoInViewScroll(es)
    ensures Run(p, AfterMount(p, g), es).fetchesStarted == 0
    ensures !Run(p, AfterMount(p, g), es).loaded
  {
    MountEstablishesInv(p, g);
    IdleWithoutInViewScroll(p, AfterMount(p, g), es);
  }

  /** ... and the first scroll that finds it in view starts the fetch. */
  lemma FirstInViewScrollFetches(p: Props, g: Geometry, es: seq<Event>, h: Geometry)
    requires p.lazy && !InView(g) && NoInViewScroll(es) && InView(h)
    ensures var t := Run(p, AfterMount(p, g), es + [Scroll(h)]);
            t.loading && t.fetchesStarted == 1 && t.fetchesInFlight == 1
  {
    var s := Run(p, AfterMount(p, g), es);
    LazyOutOfViewWaits(p, g, es);
    ReachableInv(p, g, es);
    RunAppend(p, AfterMount(p, g), es, [Scroll(h)]);
    assert Run(p, s, [Scroll(h)]) == Step(p, s, Scroll(h));
  }

  // ----- ordering and monotonicity -----

  /** `show` only ever becomes true when a reveal timer fires, and a timer is
      only pending once the image is loaded; so `show` implies `loaded`. */
  lemma ShowOnlyByRevealTimer(p: Props, s: State, e: Event)
    requires Inv(p, s)
    requires !s.show && Step(p, s, e).show
    ensures e == RevealTimerFired && s.loaded && s.timersPending > 0
  {
  }

  /** A reveal timer is only scheduled by the completion of a fetch, and
      that completion sets `loaded` and clears `loading`. */
  lemma TimerOnlyScheduledByLoad(p: Props, s: State, e: Event)
    requires Step(p, s, e).timersPending > s.timersPending
    ensures e == FullImageLoaded && s.fetchesInFlight > 0
    ensures Step(p, s, e).loaded && !Step(p, s, e).loading
  {
  }

  /** In every reachable state `show` implies `loaded`, and nothing later
      resets `loaded` or `show`. */
  lemma ShowImpliesLoadedForever(p: Props, g: Geometry, es: seq<Event>, fs: seq<Event>)
    ensures var s := Run(p, AfterMount(p, g), es);
            (s.show ==> s.loaded) && Grows(s, Run(p, s, fs))
  {
    ReachableInv(p, g, es);
    RunGrows(p, Run(p, AfterMount(p, g), es), fs);
  }

  // ----- the scroll listener is never removed -----

  /** In a reachable state the update handler changes nothing: the handle it
      removes was never registered. */
  lemma UpdateRemovesNothing(p: Props, s: State)
    requires Inv(p, s)
    ensures Step(p, s, Updated) == s
  {
  }

  /** In lazy mode the `checkBounds` listener is registered at mount and is
      still registered after any events, loaded or not. */
  lemma ListenerNeverRemoved(p: Props, g: Geometry, es: seq<Event>)
    requires p.lazy
    ensures CheckBoundsHandle in Run(p, AfterMount(p, g), es).listeners
  {
    ReachableInv(p, g, es);
  }

  /** Without lazy mode no listener is ever registered. */
  lemma EagerNeverListens(p: Props, g: Geometry, es: seq<Event>)
    requires !p.lazy
    ensures Run(p, AfterMount(p, g), es).listeners == {}
  {
    ReachableInv(p, g, es);
  }

  // ----- the refetch defect -----

  /** Once a lazy image is loaded and `loading` is false again, an in-view
      scroll starts another fetch and `loading && loaded` holds. */
  lemma RefetchAfterLoad(p: Props, s: State, g: Geometry)
    requires Inv(p, s) && p.lazy && s.loaded && !s.loading && InView(g)
    ensures var t := Step(p, s, Scroll(g));
            t.loading && t.loaded && t.fetchesStarted == s.fetchesStarted + 1
  {
  }

  /** A run of the kind a browser produces: mounted out of view, scrolled
      into view, loaded, updated, revealed, updated, scrolled again. The
      listener is still there, a second fetch is started, and the state is
      both loading and loaded (and shown). */
  lemma SecondFetchReachable()
    ensures var p := Props(30.0, true, None, None);
            var below := Geometry(1000.0, 1300.0, 800.0);
            var visible := Geometry(100.0, 400.0, 800.0);
            var es := [Scroll(visible), FullImageLoaded, Updated, RevealTimerFired, Updated, Scroll(visible)];
            var t := Run(p, AfterMount(p, below), es);
            t.loading && t.loaded && t.show && t.fetchesStarted == 2 && CheckBoundsHandle in t.listeners
  {
    var p := Props(30.0, true, None, None);
    var below := Geometry(1000.0, 1300.0, 800.0);
    var visible := Geometry(100.0, 400.0, 800.0);
    var es := [Scroll(visible), FullImageLoaded, Updated, RevealTimerFired, Updated, Scroll(visible)];
    var s0 := AfterMount(p, below);
    assert !s0.loading && s0.fetchesStarted == 0;
    var s1 := Step(p, s0, es[0]);
    var s2 := Step(p, s1, es[1]);
    var s3 := Step(p, s2, es[2]);
    var s4 := Step(p, s3, es[3]);
    var s5 := Step(p, s4, es[4]);
    var s6 := Step(p, s5, es[5]);
    assert s6.loading && s6.loaded && s6.show && s6.fetchesStarted == 2;
    assert Run(p, s6, es[6..]) == s6;
    assert Run(p, s5, es[5..]) == s6;
    assert Run(p, s4, es[4..]) == s6;
    assert Run(p, s3, es[3..]) == s6;
    assert Run(p, s2, es[2..]) == s6;
    assert Run(p, s1, es[1..]) == s6;
  }

  // ----- the aspect ratio -----

  /** With explicit dimensions the ratio is fixed at mount and no event
      changes it. */
  lemma ExplicitRatioFixed(p: Props, g: Geometry, es: seq<Event>)
    requires HasDimensions(p)
    ensures Run(p, AfterMount(p, g), es).aspectRatio == AspectRatio(p.width.value, p.height.value)
  {
    ReachableInv(p, g, es);
  }

  /** 200 wide and 100 high gives 50 percent, for the whole lifetime and
      whatever the placeholder reports. */
  lemma ExplicitRatioExample(blur: real, lazy: bool, g: Geometry, es: seq<Event>)
    ensures Run(Props(blur, lazy, Some(200.0), Some(100.0)), AfterMount(Props(blur, lazy, Some(200.0), Some(100.0)), g), es).aspectRatio
            == Percent(50.0)
  {
    ExplicitRatioFixed(Props(blur, lazy, Some(200.0), Some(100.0)), g, es);
  }

  /** With explicit dimensions a placeholder load changes nothing; without
      them it sets the ratio to that of the placeholder's natural size and
      changes nothing else. */
  lemma PlaceholderLoadSetsRatio(p: Props, s: State, w: nat, h: nat)
    ensures HasDimensions(p) ==> Step(p, s, PlaceholderLoaded(w, h)) == s
    ensures !HasDimensions(p) ==>
      Step(p, s, PlaceholderLoaded(w, h)) == s.(aspectRatio := AspectRatio(w as real, h as real))
  {
  }

  /** A placeholder 400 wide and 300 high gives 75 percent; a later load of
      a 300 by 600 placeholder sets it again, to 200 percent. Nothing limits
      the update to the first load. */
  lemma PlaceholderRatioNotOnce(blur: real, lazy: bool, s: State)
    ensures var p := Props(blur, lazy, None, None);
            var t := Step(p, s, PlaceholderLoaded(400, 300));
            t.aspectRatio == Percent(75.0) &&
            Step(p, t, PlaceholderLoaded(300, 600)).aspectRatio == Percent(200.0)
  {
  }
}
