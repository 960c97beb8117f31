/**
 * The ProgressiveImage component as an object whose handlers update its
 * state in place. Each handler is proved to take the component from one
 * State to the one the matching function of module Lifecycle gives, and to
 * keep the lifecycle invariant.
 */
module Component {
  import opened Visibility
  import opened Layout
  import opened Lifecycle

  class ProgressiveImage {
    const props: Props

    // the component's state
    var aspectRatio: Ratio
    var show: bool
    var loaded: bool
    var loading: bool

    // what the handlers have done outside the component
    var scrollListeners: set<Handle>  // registered on the scroll parent by this instance
    var fetchesInFlight: nat          // full-image fetches whose `onload` has not run
    var timersPending: nat            // reveal timers scheduled and not yet fired
    var fetchesStarted: nat           // `new Image()` requests issued

    function Snapshot(): State
      reads this
    {
      State(aspectRatio, show, loaded, loading, scrollListeners, fetchesInFlight, timersPending, fetchesStarted)
    }

    ghost predicate Valid()
      reads this
    {
      Inv(props, Snapshot())
    }

    /** Construction with the initial state, followed by `componentDidMount`
        with the container's geometry at that moment. */
    constructor Mount(p: Props, g: Geometry)
      ensures props == p && Valid()
      ensures Snapshot() == AfterMount(p, g)
      ensures !p.lazy ==> loading && scrollListeners == {}
      ensures p.lazy ==> scrollListeners == {CheckBoundsHandle} && (loading <==> InView(g))
    {
      props := p;
      aspectRatio, show, loaded, loading := Percent(0.0), false, false, false;
      scrollListeners := {};
      fetchesInFlight, timersPending, fetchesStarted := 0, 0, 0;
      new;
      if HasDimensions(props) {
        aspectRatio := AspectRatio(props.width.value, props.height.value);
      }
      if props.lazy {
        CheckBounds(g);
        scrollListeners := scrollListeners + {CheckBoundsHandle};
      } else {
        LoadFullImage();
      }
      MountEstablishesInv(p, g);
    }

    /** `loadFullImage`: set `loading` and start the fetch. */
    method LoadFullImage()
      modifies this
      ensures Snapshot() == AfterLoadFullImage(old(Snapshot()))
      ensures loading && fetchesStarted == old(fetchesStarted) + 1
    {
      loading := true;
      fetchesStarted := fetchesStarted + 1;
      fetchesInFlight := fetchesInFlight + 1;
    }

    /** `checkBounds`: return at once while loading; otherwise fetch if the
        container is in view. */
    method CheckBounds(g: Geometry)
      modifies this
      ensures Snapshot() == AfterCheckBounds(old(Snapshot()), g)
      ensures old(loading) ==> Snapshot() == old(Snapshot())
      ensures fetchesStarted == old(fetchesStarted) + (if !old(loading) && InView(g) then 1 else 0)
    {
      if loading {
        return;
      }
      var inView := InView(g);
      if inView {
        LoadFullImage();
      }
    }

    /** A scroll notification from the scroll parent, which runs the
        registered listeners. */
    method OnScroll(g: Geometry)
      requires Valid()
      modifies this
      ensures Valid() && Snapshot() == Step(props, old(Snapshot()), Scroll(g))
      ensures fetchesStarted > old(fetchesStarted) <==> props.lazy && !old(loading) && InView(g)
    {
      ScrollStartsFetchIff(props, Snapshot(), g);
      StepPreservesInv(props, Snapshot(), Scroll(g));
      if CheckBoundsHandle in scrollListeners {
        CheckBounds(g);
      }
    }

    /** The `onload` callback of the outstanding fetch: `loaded` is set,
        `loading` cleared, and the reveal timer scheduled. */
    method OnFullImageLoad()
      requires Valid()
      modifies this
      ensures Valid() && Snapshot() == Step(props, old(Snapshot()), FullImageLoaded)
      ensures old(loading) ==> loaded && !loading && timersPending == old(timersPending) + 1
    {
      StepPreservesInv(props, Snapshot(), FullImageLoaded);
      if fetchesInFlight == 0 {
        return;
      }
      loaded, loading := true, false;
      fetchesInFlight := fetchesInFlight - 1;
      timersPending := timersPending + 1;
    }

    /** The reveal timer fires: `show` is set. */
    method OnRevealTimer()
      requires Valid()
      modifies this
      ensures Valid() && Snapshot() == Step(props, old(Snapshot()), RevealTimerFired)
      ensures show ==> loaded
    {
      StepPreservesInv(props, Snapshot(), RevealTimerFired);
      if timersPending == 0 {
        return;
      }
      show := true;
      timersPending := timersPending - 1;
    }

    /** `componentDidUpdate`: once loaded, ask the scroll parent to remove
        the `lazyListener` handle, which was never registered. */
    method ComponentDidUpdate()
      requires Valid()
      modifies this
      ensures Valid() && Snapshot() == Step(props, old(Snapshot()), Updated)
      ensures scrollListeners == old(scrollListeners)
    {
      UpdateRemovesNothing(props, Snapshot());
      if loaded {
        scrollListeners := scrollListeners - {LazyListenerHandle};
      }
    }

    /** `handlePlaceholderLoad`: unless both dimensions were given, reserve
        the placeholder's natural aspect ratio. */
    method HandlePlaceholderLoad(naturalWidth: nat, naturalHeight: nat)
      requires Valid()
      modifies this
      ensures Valid() && Snapshot() == Step(props, old(Snapshot()), PlaceholderLoaded(naturalWidth, naturalHeight))
      ensures HasDimensions(props) ==> aspectRatio == old(aspectRatio)
      ensures !HasDimensions(props) ==> aspectRatio == AspectRatio(naturalWidth as real, naturalHeight as real)
    {
      StepPreservesInv(props, Snapshot(), PlaceholderLoaded(naturalWidth, naturalHeight));
      if HasDimensions(props) {
        return;
      }
      aspectRatio := AspectRatio(naturalWidth as real, naturalHeight as real);
    }
  }

  /** A component mounted out of view in lazy mode, scrolled into view,
      loaded, updated, revealed, updated and scrolled into view again ends
      up loading and loaded at once, with its listener still registered. */
  method RefetchScenario() returns (c: ProgressiveImage)
    ensures c.loading && c.loaded && c.show && c.fetchesStarted == 2
    ensures CheckBoundsHandle in c.scrollListeners
  {
    var visible := Geometry(100.0, 400.0, 800.0);
    c := new ProgressiveImage.Mount(Props(30.0, true, None, None), Geometry(1000.0, 1300.0, 800.0));
    c.OnScroll(visible);
    c.OnFullImageLoad();
    c.ComponentDidUpdate();
    c.OnRevealTimer();
    c.ComponentDidUpdate();
    c.OnScroll(visible);
  }
}
