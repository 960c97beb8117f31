/**
 * The aspect-ratio reservation of a ProgressiveImage: the container's
 * bottom padding is `height / width * 100` percent of its width.
 */
module Layout {

  datatype Option<T> = None | Some(value: T)

  /** A width or height property: absent (the default `null`) or a number.
      JavaScript treats it as true when it is present and not zero. */
  predicate Truthy(d: Option<real>)
    ensures Truthy(d) <==> d != None && d != Some(0.0)
  {
    d.Some? && d.value != 0.0
  }

  /** The value kept in the component's `aspectRatio` state. JavaScript's
      division by a zero width gives `Infinity` or `NaN`, which is not a
      percentage; `NonFinite` stands for both. */
  datatype Ratio = Percent(value: real) | NonFinite

  /** The ratio reserved for an image `width` wide and `height` high: the
      percentage p with p * width == 100 * height. */
  function AspectRatio(width: real, height: real): (r: Ratio)
    ensures width != 0.0 <==> r.Percent?
    ensures r.Percent? ==> r.value * width == 100.0 * height
  {
    if width == 0.0 then NonFinite else Percent(height / width * 100.0)
  }
}
