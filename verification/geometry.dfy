/** Placement of the logo over a square canvas. The source computes it in
    floating point; here every length is an exact integer count of sub-pixel
    units of 1/200 pixel. With an integer canvas side and an integer percentage
    every quantity the source computes (the logo side `side·pct/100`, its
    origin, the disc centre `side/2`, the radius `logoSize/2`) and every pixel
    centre `p + 1/2` is a whole number of such units, so nothing is rounded. */
module Geometry {

  /** The slider bounds for the logo size, in percent of the canvas side. */
  const MinPct: int := 10
  const MaxPct: int := 40

  /** Sub-pixel units per pixel. */
  const Unit: int := 200

  /** The length in pixels of `u` sub-pixel units. */
  function ToPixels(u: int): real
  {
    u as real / Unit as real
  }

  /** Where the logo goes on a canvas, in sub-pixel units: a square of side
      `logoSize` with top-left corner `(x, y)`, and a clip disc of centre
      `(cx, cy)` and `radius`. */
  datatype Placement = Placement(
    logoSize: int,
    x: int,
    y: int,
    cx: int,
    cy: int,
    radius: int)

  /** The placement for a canvas of `side` pixels and a logo size of `pct` percent. */
  function Place(side: int, pct: int): (g: Placement)
    // the logo side is pct percent of the canvas side
    ensures ToPixels(g.logoSize) == side as real * (pct as real / 100.0)
    // the disc is centred on the canvas
    ensures g.cx == g.cy && ToPixels(g.cx) == side as real / 2.0
    // the square is centred on the canvas: its centre is the disc's centre
    ensures g.x == g.y && g.x * 2 + g.logoSize == g.cx * 2
    // the disc's diameter is the square's side
    ensures g.radius * 2 == g.logoSize
  {
    var logoSize := side * pct * 2;
    var x := (side * Unit - logoSize) / 2;
    Placement(logoSize, x, x, side * Unit / 2, side * Unit / 2, logoSize / 2)
  }

  /** The point (px, py), in sub-pixel units, lies in the closed clip disc. */
  predicate InDisc(g: Placement, px: int, py: int)
  {
    (px - g.cx) * (px - g.cx) + (py - g.cy) * (py - g.cy) <= g.radius * g.radius
  }

  /** The point (px, py), in sub-pixel units, lies in the closed logo square. */
  predicate InSquare(g: Placement, px: int, py: int)
  {
    g.x <= px <= g.x + g.logoSize && g.y <= py <= g.y + g.logoSize
  }

  /** The sub-pixel coordinate of the centre of pixel column or row `p`. */
  function PixelCentre(p: int): int
  {
    p * Unit + Unit / 2
  }

  /** Pixel (px, py) is inside the clip: its centre lies in the closed disc.
      (The browser's anti-aliased coverage at the rim is not modelled.) */
  predicate InClip(g: Placement, px: int, py: int)
  {
    InDisc(g, PixelCentre(px), PixelCentre(py))
  }

  /** Outside [-r, r], a coordinate's square exceeds r². */
  lemma SquareExceeds(d: int, r: int)
    requires 0 <= r
    ensures d > r ==> d * d > r * r
    ensures d < -r ==> d * d > r * r
  {
  }

  /** A coordinate whose square is at most r² lies within r of zero. */
  lemma SquareBounded(d: int, r: int)
    requires 0 <= r && d * d <= r * r
    ensures -r <= d <= r
  {
    SquareExceeds(d, r);
  }

  /** The clip disc is inscribed in the logo square: every point of the disc lies in the square. */
  lemma DiscInSquare(side: nat, pct: nat, px: int, py: int)
    requires InDisc(Place(side, pct), px, py)
    ensures InSquare(Place(side, pct), px, py)
  {
    var g := Place(side, pct);
    var dx, dy := px - g.cx, py - g.cy;
    assert 0 <= g.radius;
    assert dx * dx <= g.radius * g.radius by {
      assert 0 <= dy * dy;
    }
    assert dy * dy <= g.radius * g.radius by {
      assert 0 <= dx * dx;
    }
    SquareBounded(dx, g.radius);
    SquareBounded(dy, g.radius);
  }

  /** Within the slider bounds the logo side is between a tenth and two fifths of the
      canvas side, and the logo square (so also the disc) lies inside the canvas. */
  lemma LogoFitsCanvas(side: nat, pct: int)
    requires MinPct <= pct <= MaxPct
    ensures var g := Place(side, pct);
      side * Unit <= 10 * g.logoSize && 5 * g.logoSize <= 2 * side * Unit &&
      0 <= g.x && g.x + g.logoSize <= side * Unit &&
      0 <= g.y && g.y + g.logoSize <= side * Unit
  {
    assert side * 10 <= side * pct <= side * 40;
  }

  /** On a non-empty canvas, a larger percentage gives a strictly larger clip radius. */
  lemma RadiusIncreasing(side: nat, pct1: int, pct2: int)
    requires side > 0 && pct1 < pct2
    ensures Place(side, pct1).radius < Place(side, pct2).radius
  {
    assert side * pct1 < side * pct2;
  }

  /** Growing the percentage only grows the clip: the smaller disc lies inside the larger one. */
  lemma DiscsNested(side: nat, pct1: int, pct2: int, px: int, py: int)
    requires 0 <= pct1 <= pct2
    requires InDisc(Place(side, pct1), px, py)
    ensures InDisc(Place(side, pct2), px, py)
  {
    var g1, g2 := Place(side, pct1), Place(side, pct2);
    assert 0 <= g1.radius <= g2.radius by {
      assert side * pct1 <= side * pct2;
    }
    assert g1.radius * g1.radius <= g2.radius * g1.radius <= g2.radius * g2.radius;
  }
}
