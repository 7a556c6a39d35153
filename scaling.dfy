/**
  The display decision of the preview surface: how `showImage_` bounds a
  natural size to the configured maximum box (along the dominant axis only),
  how the resulting size becomes CSS lengths, and how `setMaxImageSize`
  normalises its arguments.

  Arithmetic is exact (reals); JavaScript's `Math.round` is `Round`, that is
  floor(x + 1/2).
 */
module Scaling {

  /** A dimension as the scaling arithmetic leaves it: a finite number, or
      NaN (JavaScript's 0 * b / 0). */
  datatype Extent = Finite(value: real) | NaN

  datatype Size = Size(width: Extent, height: Extent)

  /** A CSS length in an image's style: never written, a pixel length, or `auto`. */
  datatype Css = Unset | Px(pixels: real) | Auto

  datatype Style = Style(maxWidth: Css, maxHeight: Css, width: Css, height: Css)

  /** The style of a freshly created image element. */
  const InitialStyle: Style := Style(Unset, Unset, Unset, Unset)

  /** The default maximum box of a preview (the prototype's `maxWidth_`/`maxHeight_`). */
  const DefaultBound: real := 200.0

  /** The bound that stands for "no effective limit". */
  const UnboundedBound: real := 10000.0

  /** An argument of `setMaxImageSize` after JavaScript's ToNumber: a number or NaN. */
  datatype NumArg = Number(value: real) | NotANumber

  /** `isNaN(x) ? 10000 : x`. */
  function NormalizeBound(arg: NumArg): real
  {
    match arg
    case NotANumber => UnboundedBound
    case Number(v) => v
  }

  /** Normalising an already normalised bound changes nothing. */
  lemma NormalizeBoundIdempotent(arg: NumArg)
    ensures NormalizeBound(Number(NormalizeBound(arg))) == NormalizeBound(arg)
    ensures arg.NotANumber? <==> NormalizeBound(arg) == UnboundedBound && arg != Number(UnboundedBound)
  {
  }

  /** The sizes `showImage_` is ever called with: a natural size (both
      non-negative) or the "unspecified" sentinel (-1, -1). */
  predicate CallerDims(w: real, h: real)
  {
    (0.0 <= w && 0.0 <= h) || (w == -1.0 && h == -1.0)
  }

  /** The size `showImage_` computes: a landscape image (w > h) is shrunk to
      `maxW` wide if wider, anything else to `maxH` high if higher, and the
      other axis follows with the same ratio. */
  function Scaled(w: real, h: real, maxW: real, maxH: real): (r: Size)
    requires CallerDims(w, h)
    ensures r.height.Finite?
    ensures r.width.NaN? <==> w == 0.0 && h == 0.0 && maxH < 0.0
    ensures w > h ==> r.width.Finite? && r.width.value <= maxW
    ensures w <= h ==> r.height.value <= maxH
  {
    if w > h then
      if w > maxW then Size(Finite(maxW), Finite(h * maxW / w))
      else Size(Finite(w), Finite(h))
    else
      if h > maxH then
        Size(if h == 0.0 then NaN else Finite(w * maxH / h), Finite(maxH))
      else Size(Finite(w), Finite(h))
  }

  /** `Math.round`: the integer nearest to x, halves rounded up. */
  function Round(x: real): (n: int)
    ensures n as real - 0.5 <= x < n as real + 0.5
  {
    (x + 0.5).Floor
  }

  /** One axis of the computed size as CSS: `round(x)px` when x >= 0, else `auto`. */
  function CssLength(e: Extent): (r: Css)
    ensures r != Unset
    ensures r.Px? <==> e.Finite? && 0.0 <= e.value
  {
    match e
    case Finite(x) => if x >= 0.0 then Px(Round(x) as real) else Auto
    case NaN => Auto
  }

  /** The style `showImage_` leaves: the bounds as max-size lengths, the
      computed size as width and height. */
  function SurfaceStyle(size: Size, maxW: real, maxH: real): (r: Style)
    ensures r.maxWidth == Px(maxW) && r.maxHeight == Px(maxH)
    ensures r.width != Unset && r.height != Unset
  {
    Style(Px(maxW), Px(maxH), CssLength(size.width), CssLength(size.height))
  }

  /** A landscape image wider than the bound gets exactly the bound as width
      and keeps its aspect ratio. */
  lemma LandscapeScaling(w: real, h: real, maxW: real, maxH: real)
    requires CallerDims(w, h) && w > h && w > maxW
    ensures w > 0.0
    ensures Scaled(w, h, maxW, maxH) == Size(Finite(maxW), Finite(h * maxW / w))
    ensures Scaled(w, h, maxW, maxH).height.value * w == h * maxW
  {
  }

  /** A portrait or square image higher than the bound gets exactly the bound
      as height and keeps its aspect ratio. */
  lemma PortraitScaling(w: real, h: real, maxW: real, maxH: real)
    requires CallerDims(w, h) && w <= h && h > maxH && h != 0.0
    ensures Scaled(w, h, maxW, maxH) == Size(Finite(w * maxH / h), Finite(maxH))
    ensures Scaled(w, h, maxW, maxH).width.value * h == w * maxH
  {
  }

  /** Only the dominant axis is compared with its bound: the other bound has
      no influence on the result. */
  lemma DominantAxisOnly(w: real, h: real, maxW: real, maxW': real, maxH: real, maxH': real)
    requires CallerDims(w, h)
    ensures w > h ==> Scaled(w, h, maxW, maxH) == Scaled(w, h, maxW, maxH')
    ensures w <= h ==> Scaled(w, h, maxW, maxH) == Scaled(w, h, maxW', maxH)
  {
  }

  /** For instance, a 300 x 250 image in a 400 x 100 box is shown at its
      natural size although it is higher than the box. */
  lemma DominantAxisExample()
    ensures Scaled(300.0, 250.0, 400.0, 100.0) == Size(Finite(300.0), Finite(250.0))
  {
  }

  /** A product of non-negative reals is non-negative, of positive ones positive. */
  lemma ProductSign(x: real, y: real)
    requires 0.0 <= x && 0.0 <= y
    ensures 0.0 <= x * y
    ensures 0.0 < x && 0.0 < y ==> 0.0 < x * y
  {
  }

  /** A factor of a non-negative (positive) product with a positive factor is
      non-negative (positive). */
  lemma FactorSign(x: real, c: real)
    requires 0.0 < c && 0.0 <= x * c
    ensures 0.0 <= x
    ensures 0.0 < x * c ==> 0.0 < x
  {
    if x < 0.0 {
      ProductSign(-x, c);
    }
  }

  /** The ratio step of the scaling: a * b / c with 0 <= b < c and 0 <= a lies
      in [0, a], below b when a < c, and scales back to a * b. */
  lemma RatioStep(a: real, b: real, c: real)
    requires 0.0 <= a && 0.0 <= b < c
    ensures 0.0 <= a * b / c <= a
    ensures a < c ==> a * b / c <= b
    ensures a < c && 0.0 < b ==> a * b / c < b
    ensures a * b / c * c == a * b
  {
    var q := a * b / c;
    assert q * c == a * b;
    ProductSign(a, b);
    FactorSign(q, c);
    ProductSign(a, c - b);
    assert (a - q) * c == a * (c - b);
    FactorSign(a - q, c);
    if a < c {
      ProductSign(b, c - a);
      assert (b - q) * c == b * (c - a);
      FactorSign(b - q, c);
    }
  }

  /** With non-negative bounds, a natural size is never enlarged, keeps its
      aspect ratio, and its dominant axis fits its bound. */
  lemma ScaledFits(w: real, h: real, maxW: real, maxH: real)
    requires 0.0 <= w && 0.0 <= h && 0.0 <= maxW && 0.0 <= maxH
    ensures Scaled(w, h, maxW, maxH).width.Finite? && Scaled(w, h, maxW, maxH).height.Finite?
    ensures var w', h' := Scaled(w, h, maxW, maxH).width.value, Scaled(w, h, maxW, maxH).height.value;
      && 0.0 <= w' <= w && 0.0 <= h' <= h
      && w' * h == h' * w
      && (w > h ==> w' <= maxW)
      && (w <= h ==> h' <= maxH)
  {
    if w > h && w > maxW {
      RatioStep(h, maxW, w);
    } else if w <= h && h > maxH {
      RatioStep(w, maxH, h);
    }
  }

  /** Scaling a scaled size again changes nothing (non-negative bounds). */
  lemma ScaledIdempotent(w: real, h: real, maxW: real, maxH: real)
    requires 0.0 <= w && 0.0 <= h && 0.0 <= maxW && 0.0 <= maxH
    ensures var s := Scaled(w, h, maxW, maxH);
      s.width.Finite? && s.height.Finite? &&
      Scaled(s.width.value, s.height.value, maxW, maxH) == s
  {
    if w > h && w > maxW {
      RatioStep(h, maxW, w);
    } else if w <= h && h > maxH {
      RatioStep(w, maxH, h);
    }
  }

  /** The "unspecified" sentinel (-1, -1) is shown at `auto` x `auto`
      whatever the bounds. */
  lemma UnspecifiedIsAuto(maxW: real, maxH: real)
    ensures SurfaceStyle(Scaled(-1.0, -1.0, maxW, maxH), maxW, maxH)
      == Style(Px(maxW), Px(maxH), Auto, Auto)
  {
  }

  /** A zero size, as `showEmptyImage_` passes it, is shown at 0px x 0px exactly
      when the height bound is non-negative; with a negative height bound the
      NaN width and negative height both become `auto`. */
  lemma EmptySizeStyle(maxW: real, maxH: real)
    ensures var st := SurfaceStyle(Scaled(0.0, 0.0, maxW, maxH), maxW, maxH);
      && st.maxWidth == Px(maxW) && st.maxHeight == Px(maxH)
      && (0.0 <= maxH <==> st.width == Px(0.0) && st.height == Px(0.0))
      && (maxH < 0.0 <==> st.width == Auto && st.height == Auto)
  {
  }

  /** A non-negative computed length is written in whole pixels within half a
      pixel of the exact length; a negative one is written as `auto`. */
  lemma CssLengthNearest(x: real)
    ensures 0.0 <= x ==> CssLength(Finite(x)).Px? && -0.5 < CssLength(Finite(x)).pixels - x <= 0.5
                         && CssLength(Finite(x)).pixels.Floor as real == CssLength(Finite(x)).pixels
    ensures x < 0.0 <==> CssLength(Finite(x)) == Auto
  {
  }
}
