/**
 * What `render` draws, as a projection of the lifecycle state: the padding
 * that reserves the aspect ratio, the blur of the placeholder, and whether
 * the full image is present and how opaque it is.
 */
module Rendering {
  import opened Visibility
  import opened Layout
  import opened Lifecycle

  datatype View = View(
    paddingBottom: Ratio,
    placeholderBlur: real,
    fullImagePresent: bool,
    fullImageOpacity: real)

  /** The blur `render` computes for the placeholder (none once shown) and
      then does not use. */
  function BlurAmount(p: Props, s: State): (b: real)
    ensures b == 0.0 <==> s.show || p.blur == 0.0
    ensures !s.show ==> b == p.blur
  {
    if s.show then 0.0 else p.blur
  }

  /** The placeholder is blurred by the `blur` property; the full image is
      rendered once loaded, transparent until shown. */
  function Render(p: Props, s: State): (v: View)
    ensures v.paddingBottom == s.aspectRatio
    ensures v.placeholderBlur == p.blur
    ensures v.fullImagePresent <==> s.loaded
    ensures v.fullImageOpacity == 1.0 <==> s.show
    ensures v.fullImageOpacity == 0.0 <==> !s.show
  {
    View(s.aspectRatio, p.blur, s.loaded, if s.show then 1.0 else 0.0)
  }

  /** In every reachable state the full image is present exactly when it is
      loaded, it is opaque exactly when shown and otherwise transparent, and
      it is never opaque without being present. */
  lemma RenderOfReachableState(p: Props, g: Geometry, es: seq<Event>)
    ensures var v := Render(p, Run(p, AfterMount(p, g), es));
            var s := Run(p, AfterMount(p, g), es);
            (v.fullImagePresent <==> s.loaded) &&
            (v.fullImageOpacity == 1.0 <==> s.show) &&
            (v.fullImageOpacity == 0.0 <==> !s.show) &&
            (v.fullImageOpacity == 1.0 ==> v.fullImagePresent)
  {
    ReachableInv(p, g, es);
  }

  /** Once the full image is drawn, or drawn opaque, it stays so whatever
      events follow. */
  lemma RevealIsPermanent(p: Props, s: State, es: seq<Event>)
    ensures Render(p, s).fullImagePresent ==> Render(p, Run(p, s, es)).fullImagePresent
    ensures Render(p, s).fullImageOpacity == 1.0 ==> Render(p, Run(p, s, es)).fullImageOpacity == 1.0
  {
    RunGrows(p, s, es);
  }

  /** The placeholder's blur is the `blur` property in every state, so the
      reveal does not lift it: once shown, with a non-zero `blur`, the drawn
      blur differs from the computed `blurAmount`. */
  lemma RevealKeepsBlur(p: Props, s: State, t: State)
    ensures Render(p, s).placeholderBlur == Render(p, t).placeholderBlur == p.blur
    ensures s.show && p.blur != 0.0 ==> Render(p, s).placeholderBlur != BlurAmount(p, s)
  {
  }
}
