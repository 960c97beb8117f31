# ProgressiveImage load lifecycle

A model of the React component `ProgressiveImage`. The component shows a
blurred placeholder at once. It fetches the full image when its container
comes into view, or at mount when `lazy` is false. Once the fetch completes
it waits for a timer and then fades the full image in. It also reserves the
image's aspect ratio as bottom padding.

The model has five modules:

- `Visibility` (visibility.dfy): the in-view test with its margin of 20.
- `Layout` (layout.dfy): the aspect-ratio value `height / width * 100` as a
  `real`, with `NonFinite` for JavaScript's `Infinity`/`NaN`, and the
  truthiness of the `width`/`height` properties.
- `Lifecycle` (lifecycle.dfy): the component's state as a value `State`,
  with one function per handler. `Step` dispatches an `Event` to them and
  `Run` applies a sequence of events. `Inv` is the invariant of every
  reachable state. The lemmas prove the ordering, monotonicity, guard,
  listener and aspect-ratio properties, and the two defects.
- `Rendering` (render.dfy): `render` as a projection of the state onto the
  padding, the placeholder's blur, and the full image's presence and opacity.
- `Component` (component.dfy): the class `ProgressiveImage`. Its fields are
  the four state fields and the handlers' outside effects. Its methods are
  the handlers. Each method is proved to produce the `Lifecycle` function's
  result from the old state. The constructor and the five event methods
  (`OnScroll`, `OnFullImageLoad`, `OnRevealTimer`, `ComponentDidUpdate`,
  `HandlePlaceholderLoad`) also keep `Inv`. The two helpers `LoadFullImage`
  and `CheckBounds` are only proved equal to their functions: called on a
  loading state, `LoadFullImage` would break `Inv`.

The handlers are modelled as the code has them, not as they were meant:

- `componentDidUpdate` removes `this.lazyListener`, which is never assigned,
  instead of the registered `this.checkBounds`. In the model these are the
  two values of `Handle`. `UpdateRemovesNothing` and `ListenerNeverRemoved`
  prove the listener stays registered.
- `checkBounds` tests only `loading`. After a load `loading` is false again,
  so a later in-view scroll starts a second fetch and `loading && loaded`
  holds. `RefetchAfterLoad` proves this for every reachable state in lazy
  mode that is loaded and not loading, when the scroll finds the container
  in view.
  `SecondFetchReachable` and `Component.RefetchScenario` give a concrete
  run.

The component is meant to behave as a four-stage sequence (idle, fetching,
loaded, revealed) with a single fetch. In several places the code does
otherwise, and the model follows the code:

- The ratio taken from the placeholder is meant to be set once. The code
  sets it on every placeholder load (`PlaceholderRatioNotOnce`).
- The scroll subscription is meant to be released once loaded, and at most
  one fetch is meant to be made. Neither holds (see above).
- The placeholder's blur is meant to be removed on reveal. `render` computes
  `blurAmount` for that but draws the `blur` property (`RevealKeepsBlur`).
- The margin of 20 is meant as a tolerance that starts loading slightly
  before the container is visible. The code adds 20 to both edges, which
  moves the viewport up by 20 rather than widening it. A container entering
  from below is fetched only once 20 units of it are inside
  (`EnteringFromBelowIsLate`).
- "Loaded" is meant to exclude "loading". That does not hold in the code
  (`SecondFetchReachable`). The code does keep at most one fetch in flight at
  a time (`AtMostOneFetchInFlight`).

What does hold as meant: in lazy mode a container out of view at mount is
not fetched until a scroll finds it in view (`LazyOutOfViewWaits`,
`FirstInViewScrollFetches`), and nothing but such a scroll starts a fetch
(`FetchOnlyByInViewScroll`).

## Model

| member | source | states |
|---|---|---|
| `Visibility.InView` | src/index.js:79 | in view iff the rectangle overlaps the viewport shifted up by the margin of 20 |
| `Visibility.EnteringFromBelowIsLate` | src/index.js:79 | a container less than 20 units into the bottom of the viewport is not in view |
| `Visibility.LeavingAtTopIsLate` | src/index.js:79 | a container less than 20 units past the top of the viewport is still in view |
| `Layout.AspectRatio` | src/index.js:96 | a zero width gives a non-finite ratio; otherwise the percentage p satisfies p * width == 100 * height |
| `Layout.Truthy` | src/index.js:43 | a `width`/`height` property is truthy iff it is present and not zero |
| `Lifecycle.HasDimensions` | src/index.js:93 | both `width` and `height` are truthy, and then they give a finite ratio |
| `Lifecycle.Initial` | src/index.js:23-28 | ratio 0 percent, `show`, `loaded`, `loading` false, no listener, fetch or timer; every state is at or above it in `Grows` |
| `Lifecycle.AfterLoadFullImage` | src/index.js:57-61 | `loading` set, one more fetch started and in flight, nothing else changed |
| `Lifecycle.AfterCheckBounds` | src/index.js:76-83 | unchanged while loading; otherwise either unchanged or `AfterLoadFullImage`, with a fetch started iff in view |
| `Lifecycle.AfterScroll` | src/index.js:76-83 | unchanged without the registered `checkBounds` listener; a fetch starts iff registered, not loading and in view |
| `Lifecycle.AfterFullImageLoad` | src/index.js:62-66 | with a fetch in flight: loaded, not loading, one fewer fetch in flight, one more timer; unchanged otherwise; `show`, ratio, listeners and fetch count untouched |
| `Lifecycle.AfterRevealTimer` | src/index.js:67-71 | `show` afterwards iff before or a timer was pending; one timer consumed; nothing else changed |
| `Lifecycle.AfterUpdate` | src/index.js:85-89 | listeners only shrink; once loaded `lazyListener` is absent; `checkBounds` registration unchanged; nothing else changed |
| `Lifecycle.AfterPlaceholderLoad` | src/index.js:91-99 | unchanged with both dimensions; otherwise the ratio is the natural size's, non-finite iff the natural width is 0; nothing else changed |
| `Lifecycle.AfterMount` | src/index.js:41-55 | eager: loading, one fetch, no listener, whatever the geometry; lazy: the listener is registered and the fetch starts iff in view; ratio fixed iff both dimensions are truthy; not loaded, not shown |
| `Lifecycle.MountEstablishesInv` | src/index.js:23-55 | the initial state followed by mount satisfies the lifecycle invariant |
| `Lifecycle.StepPreservesInv` | src/index.js:57-99 | every handler keeps the invariant (show ⇒ loaded, pending timer ⇒ loaded, loading iff one fetch in flight, listener set fixed by `lazy`, explicit ratio kept) |
| `Lifecycle.StepGrows` | src/index.js:62-89 | no handler resets `loaded` or `show`, lowers the fetch count or unregisters `checkBounds` |
| `Lifecycle.RunPreservesInv` | src/index.js:57-99 | the invariant holds after any sequence of events |
| `Lifecycle.RunGrows` | src/index.js:62-89 | `loaded`, `show`, the fetch count and the listener are monotone over any sequence of events |
| `Lifecycle.ReachableInv` | src/index.js:41-99 | every state reached from mount satisfies the invariant |
| `Lifecycle.ScrollStartsFetchIff` | src/index.js:76-83 | a scroll starts a fetch exactly when lazy, not loading and in view, and otherwise changes nothing |
| `Lifecycle.ScrollWhileLoadingIsNoOp` | src/index.js:77 | while `loading` a scroll changes nothing |
| `Lifecycle.AtMostOneFetchInFlight` | src/index.js:57-83 | at most one fetch is outstanding; `loading` iff one is; with `lazy` false exactly one fetch is ever started |
| `Lifecycle.FetchOnlyByInViewScroll` | src/index.js:41-99 | in a reachable state only a scroll, in lazy mode, while not loading and in view, starts a fetch; no other event does |
| `Lifecycle.IdleWithoutInViewScroll` | src/index.js:57-99 | from a reachable state that is not loading, events without an in-view scroll leave the fetch count and `loaded` unchanged and `loading` false |
| `Lifecycle.LazyOutOfViewWaits` | src/index.js:48-83 | lazy and out of view at mount: no fetch and not loaded after any events without an in-view scroll |
| `Lifecycle.FirstInViewScrollFetches` | src/index.js:48-83 | lazy and out of view at mount: the first in-view scroll starts the one fetch and sets `loading` |
| `Lifecycle.RunAppend` | src/index.js:41-99 | running two event sequences one after the other is running their concatenation |
| `Lifecycle.ShowOnlyByRevealTimer` | src/index.js:62-72 | `show` becomes true only when a pending reveal timer fires, and then `loaded` already holds |
| `Lifecycle.TimerOnlyScheduledByLoad` | src/index.js:62-72 | a reveal timer is scheduled only by a fetch's completion, which sets `loaded` and clears `loading` |
| `Lifecycle.ShowImpliesLoadedForever` | src/index.js:62-72 | in a reachable state `show` implies `loaded`, and no later event resets either |
| `Lifecycle.UpdateRemovesNothing` | src/index.js:85-89 | in a reachable state `componentDidUpdate` changes nothing, because the removed handle was never registered |
| `Lifecycle.ListenerNeverRemoved` | src/index.js:48-89 | in lazy mode the `checkBounds` listener is registered after any events, loaded or not |
| `Lifecycle.EagerNeverListens` | src/index.js:48-54 | with `lazy` false no scroll listener is ever registered |
| `Lifecycle.RefetchAfterLoad` | src/index.js:76-83 | in a reachable lazy state that is loaded and not loading, an in-view scroll starts another fetch and gives `loading && loaded` |
| `Lifecycle.SecondFetchReachable` | src/index.js:41-89 | a concrete run mount–scroll–load–update–reveal–update–scroll ends loading, loaded and shown, with two fetches and the listener registered |
| `Lifecycle.ExplicitRatioFixed` | src/index.js:43-97 | with both dimensions truthy the ratio is height/width*100 after any events |
| `Lifecycle.ExplicitRatioExample` | src/index.js:43-47 | width 200 and height 100 give 50 percent for the whole lifetime |
| `Lifecycle.PlaceholderLoadSetsRatio` | src/index.js:91-99 | with both dimensions a placeholder load changes nothing; without them it sets the ratio to the natural size's and nothing else |
| `Lifecycle.PlaceholderRatioNotOnce` | src/index.js:91-97 | a 400×300 placeholder gives 75 percent, and a later 300×600 load changes it to 200 |
| `Rendering.BlurAmount` | src/index.js:104 | the computed `blurAmount` is 0 iff shown or `blur` is 0, and is `blur` until shown |
| `Rendering.Render` | src/index.js:101-111 | padding is the ratio, the placeholder blur is the `blur` property, the full image is present iff loaded, opacity 1 iff shown and 0 otherwise |
| `Rendering.RenderOfReachableState` | src/index.js:101-111 | in a reachable state the full image is drawn iff loaded, opaque (1) iff shown, transparent (0) otherwise, and never opaque while absent |
| `Rendering.RevealIsPermanent` | src/index.js:101-111 | once the full image is drawn, or drawn opaque, it stays so after any events |
| `Rendering.RevealKeepsBlur` | src/index.js:104-107 | the placeholder's blur is the `blur` property in every state, and differs from the unused `blurAmount` once shown |
| `Component.ProgressiveImage.Mount` | src/index.js:41-55 | construction plus `componentDidMount` gives the `AfterMount` state and the invariant |
| `Component.ProgressiveImage.LoadFullImage` | src/index.js:57-61 | sets `loading` and starts one more fetch |
| `Component.ProgressiveImage.CheckBounds` | src/index.js:76-83 | returns unchanged while loading; otherwise starts a fetch iff in view |
| `Component.ProgressiveImage.OnScroll` | src/index.js:76-83 | runs the registered listener; a fetch starts iff lazy, not loading and in view; keeps the invariant |
| `Component.ProgressiveImage.OnFullImageLoad` | src/index.js:62-66 | an outstanding fetch's completion sets `loaded`, clears `loading` and schedules the reveal timer |
| `Component.ProgressiveImage.OnRevealTimer` | src/index.js:67-71 | a pending timer sets `show`; afterwards `show` implies `loaded` |
| `Component.ProgressiveImage.ComponentDidUpdate` | src/index.js:85-89 | leaves the registered listeners unchanged |
| `Component.ProgressiveImage.HandlePlaceholderLoad` | src/index.js:91-99 | keeps the ratio when both dimensions are truthy, otherwise sets it to the placeholder's natural ratio |
| `Component.RefetchScenario` | src/index.js:41-89 | a client run of the handlers that ends loading, loaded and shown, with two fetches and the listener registered |

## Left out

- React and DOM plumbing: JSX, the `ref` callback, `getBoundingClientRect`, `window.innerHeight` and `new Image()`. The geometry arrives as a `Geometry` parameter of the scroll event and of mount. A fetch is a counter, and its completion is the `FullImageLoaded` event.
- Real timing: `setTimeout` and the `delay` property. A scheduled timer is a pending counter, and its firing is the `RevealTimerFired` event.
- React's batching of `setState`: each update takes effect at once. The value of `this.state.loading` read by `checkBounds` is therefore never stale in the model.
- The order of events: `Run` accepts any sequence of events, which includes every order a browser can produce. A completion or timer event with nothing outstanding changes nothing, because no callback exists then. `componentDidUpdate` is an event of its own and is not tied to each update.
- The `propTypes` validator, the default URLs, `src`, `placeholder` and `scrollParent` itself. The listeners this instance registered are recorded in the state.
- The style objects: they are presentation only.
- Number formatting and floating point: the ratio is a `real`, not the `%`-suffixed string, and its initial `'0%'` is `Percent(0.0)`. A `NaN` `width` or `height` property cannot be written as a `real` and is not modelled; JavaScript treats it as false.
- Fetch failure: the code has no error path, so a failed fetch is simply a `FullImageLoaded` event that never arrives.
- Unmounting: the component has no `componentWillUnmount`, and the model has no unmount event. The consequence is not modelled: the `checkBounds` listener stays on the scroll parent after unmount, the `ref` callback sets `this.container` to null, and a later scroll while not loading would throw at `getBoundingClientRect` (src/index.js:78). Releasing the subscription at teardown, as intended, does not happen.
- Changing props: `props` is a constant fixed at construction, while the source reads `this.props` afresh in every handler. `ExplicitRatioFixed`'s "after any events" and "whole lifetime" hold only while the props do not change. With a fixed `placeholder` the `<img>` loads once, so the repeated placeholder loads of `PlaceholderRatioNotOnce` need the `placeholder` prop to change in between.
- Several instances sharing one scroll parent: each instance's registrations are its own, and the others are not modelled.
