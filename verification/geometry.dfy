/** Axis-aligned rectangles in screen space, as passed to `fillRect` and
    `strokeRect`: top-left corner, width and height. */
module Geometry {

  datatype Box = Box(x: real, y: real, w: real, h: real)
  {
    /** Closed containment, edges included (the `>=`/`<=` tests of the hit test). */
    predicate Contains(px: real, py: real)
    {
      x <= px <= x + w && y <= py <= y + h
    }

    /** Strict containment: the point is in the interior. */
    predicate ContainsStrictly(px: real, py: real)
    {
      x < px < x + w && y < py < y + h
    }

    /** `inner` lies within this box. */
    predicate Encloses(inner: Box)
    {
      x <= inner.x && inner.x + inner.w <= x + w &&
      y <= inner.y && inner.y + inner.h <= y + h
    }
  }

  function Max(a: real, b: real): real
  {
    if a >= b then a else b
  }

  function Min(a: real, b: real): real
  {
    if a <= b then a else b
  }

  /** Multiplying by a positive factor preserves and reflects `<=`. */
  lemma ScalePreservesOrder(a: real, b: real, s: real)
    requires s > 0.0
    ensures a <= b <==> a * s <= b * s
    ensures a < b <==> a * s < b * s
  {
    if a <= b {
      assert b * s - a * s == (b - a) * s;
    } else {
      assert a * s - b * s == (a - b) * s;
    }
  }

  /** One axis of a scaled, shifted interval: with a positive scale `s`, the
      image `o + l * s` of `l` lies in the image of `[a, a + w]` exactly when
      `l` lies in `[a, a + w]` (closed and open versions). */
  lemma ScaledInterval(o: real, a: real, w: real, l: real, s: real)
    requires s > 0.0
    ensures (o + a * s <= o + l * s <= o + a * s + w * s) <==> (a <= l <= a + w)
    ensures (o + a * s < o + l * s < o + a * s + w * s) <==> (a < l < a + w)
  {
    ScalePreservesOrder(a, l, s);
    ScalePreservesOrder(l, a + w, s);
    assert (a + w) * s == a * s + w * s;
  }

  /** One axis of the store's floor: the image `x` of `l` lies in `[o, o + W * s]`
      exactly when `l` lies in `[0, W]`. */
  lemma ScaledSpan(o: real, l: real, x: real, wd: real, s: real)
    requires s > 0.0 && x == o + l * s
    ensures o <= x <= o + wd * s <==> 0.0 <= l <= wd
  {
    ScalePreservesOrder(0.0, l, s);
    ScalePreservesOrder(l, wd, s);
  }

  /** A shift-and-scale map with a positive factor is injective. */
  lemma AffineInjective(o: real, a: real, b: real, s: real)
    requires s > 0.0 && a != b
    ensures o + a * s != o + b * s
  {
    ScalePreservesOrder(a, b, s);
    ScalePreservesOrder(b, a, s);
  }

  /** Every coordinate is the image of a logical coordinate under a positive scale. */
  lemma Preimage(x: real, s: real, o: real) returns (l: real)
    requires s > 0.0
    ensures o + l * s == x
  {
    l := (x - o) / s;
  }
}
