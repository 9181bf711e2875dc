/** What the proportional layout guarantees about the game items.

    The layout is computed with Java `int` arithmetic, so for huge sizes the
    products `w * 5`, `w * 7`, `h * 3`, `h * 7` wrap around.  Each geometric
    fact below requires only the bound it needs: `WidthFits` for facts about
    distances from the left edge, `HeightFits` for facts about distances from
    the top, both (`NoOverflow`) for the exact arithmetic of the whole
    layout.  `WideViewWrapsTarget` shows that a width beyond `WidthFits`
    really does break the order. */
module LayoutProperties {
  import opened JavaInt
  import opened Geometry
  import opened CannonGame

  /** A view width (Android never reports a negative one) whose largest
      product, `w * 7`, fits in an `int`. */
  predicate WidthFits(w: int) {
    0 <= w && 7 * w <= IntMax
  }

  /** A view height whose largest product, `h * 7`, fits in an `int`. */
  predicate HeightFits(h: int) {
    0 <= h && 7 * h <= IntMax
  }

  /** A view size none of whose products overflows. */
  predicate NoOverflow(w: int, h: int) {
    WidthFits(w) && HeightFits(h)
  }

  /** Where piece `i` of the target starts (piece `i` runs to the start of
      piece `i + 1`). */
  function PieceBoundary(l: Layout, i: int): int {
    l.target.beginning + i * l.pieceLength
  }

  /** Without overflow, every Java quotient is the exact floor quotient of
      the non-negative product, except the target's velocity, which is the
      negated quarter height truncated toward zero. */
  lemma LayoutArithmetic(w: int, h: int)
    requires NoOverflow(w, h)
    ensures var l := LayoutFor(w, h);
      l.sizes == Sizes(w, h, h / 18, w / 8, w / 36, w * 3 / 2, w / 24) &&
      l.blocker.distance == w * 5 / 8 && l.blocker.beginning == h / 8 &&
      l.blocker.end == h * 3 / 8 && l.blocker.initialVelocity == h / 2 &&
      l.target.distance == w * 7 / 8 && l.target.beginning == h / 8 &&
      l.target.end == h * 7 / 8 && l.target.initialVelocity == -(h / 4) &&
      l.pieceLength == (h * 7 / 8 - h / 8) / TargetPieces &&
      l.barrelEnd == Point(w / 8, h / 2)
  {
    assert IsInt(w * 3) && IsInt(w * 5) && IsInt(w * 7) && IsInt(h * 3) && IsInt(h * 7);
    assert Neg(h) == -h;
    assert Div(-h, 4) == -(h / 4);
  }

  /** The blocker's vertical span lies inside the target's: both start at an
      eighth of the height, and the blocker ends no lower than the target. */
  lemma BlockerSpanWithinTarget(w: int, h: int)
    requires IsInt(w) && HeightFits(h)
    ensures var l := LayoutFor(w, h);
      0 <= l.blocker.beginning == l.target.beginning <= l.blocker.end <= l.target.end <= h &&
      l.target.beginning == h / 8
  {
  }

  /** From left to right: the barrel's tip, the blocker, the target, all on
      the screen; for a view at least 3 pixels wide the three are distinct. */
  lemma LeftToRightOrder(w: int, h: int)
    requires WidthFits(w) && IsInt(h)
    ensures var l := LayoutFor(w, h);
      0 <= l.sizes.cannonLength <= l.blocker.distance <= l.target.distance <= w &&
      (3 <= w ==> l.sizes.cannonLength < l.blocker.distance < l.target.distance < w)
  {
  }

  /** The pieces of layout `l` fit on its target: the piece length is
      non-negative, `TargetPieces` pieces do not exceed the target's length,
      and one more piece each would. */
  predicate PiecesFit(l: Layout) {
    var span := l.target.end - l.target.beginning;
    0 <= l.pieceLength && l.pieceLength * TargetPieces <= span < (l.pieceLength + 1) * TargetPieces
  }

  /** Without overflow, the view's pieces fit on its target. */
  lemma LayoutPiecesFit(w: int, h: int)
    requires IsInt(w) && HeightFits(h)
    ensures PiecesFit(LayoutFor(w, h))
  {
    var t := TargetFor(w, h);
    assert 0 <= t.end - t.beginning <= IntMax;
  }

  /** Every piece boundary of a layout whose pieces fit lies on the target,
      the boundaries never decrease, and the last one leaves less than
      `TargetPieces` pixels of the target uncovered; a target shorter than
      `TargetPieces` pixels has pieces of length 0. */
  lemma PiecesFitInTarget(l: Layout, i: int)
    requires PiecesFit(l) && 0 <= i <= TargetPieces
    ensures l.target.beginning <= PieceBoundary(l, i) <= PieceBoundary(l, TargetPieces) <= l.target.end
    ensures i < TargetPieces ==> PieceBoundary(l, i) <= PieceBoundary(l, i + 1)
    ensures l.target.end - PieceBoundary(l, TargetPieces) < TargetPieces
    ensures l.target.end - l.target.beginning < TargetPieces ==> l.pieceLength == 0
  {
    var p := l.pieceLength;
    MulMonotone(i, TargetPieces, p);
    if i < TargetPieces {
      assert PieceBoundary(l, i + 1) == PieceBoundary(l, i) + p;
    }
  }

  /** `i * p` grows with `i` for a non-negative `p`. */
  lemma MulMonotone(i: int, j: int, p: int)
    requires 0 <= i <= j && 0 <= p
    ensures 0 <= i * p <= j * p
  {
    assert j * p == i * p + (j - i) * p;
  }

  /** The pieces tile the part of the target they cover: every point from
      the target's beginning up to the last piece boundary lies in some
      piece `i` with `0 <= i < TargetPieces`, an index of the view's hit
      flags (`CannonView.Valid` gives them length `TargetPieces`). */
  lemma PiecesTileTarget(l: Layout, y: int)
    requires l.target.beginning <= y < PieceBoundary(l, TargetPieces)
    ensures exists i :: 0 <= i < TargetPieces && PieceBoundary(l, i) <= y < PieceBoundary(l, i + 1)
  {
    var b, p := l.target.beginning, l.pieceLength;
    assert 0 < p;
    var i := (y - b) / p;
    assert i * p <= y - b < i * p + p;
    QuotientBelow(i, p, y - b, TargetPieces);
    assert PieceBoundary(l, i) <= y < PieceBoundary(l, i + 1);
  }

  /** `q * p <= x < n * p` with a positive `p` puts `q` below `n`. */
  lemma QuotientBelow(q: int, p: int, x: int, n: int)
    requires 0 < p && q * p <= x < n * p
    ensures q < n
  {
    if n <= q {
      MulMonotone(n, q, p);
    }
  }

  /** No point lies in two pieces: with boundaries `pieceLength` apart, the
      piece containing a point is unique. */
  lemma PieceOfPointUnique(l: Layout, y: int, i: int, j: int)
    requires PieceBoundary(l, i) <= y < PieceBoundary(l, i + 1)
    requires PieceBoundary(l, j) <= y < PieceBoundary(l, j + 1)
    ensures i == j
  {
    var p := l.pieceLength;
    assert PieceBoundary(l, i + 1) == PieceBoundary(l, i) + p;
    assert PieceBoundary(l, j + 1) == PieceBoundary(l, j) + p;
    assert (i - j) * p == i * p - j * p;
    MultipleOfPositive(i - j, p);
  }

  /** A multiple `k * p` of a positive `p` strictly between `-p` and `p` is 0. */
  lemma MultipleOfPositive(k: int, p: int)
    requires 0 < p && -p < k * p < p
    ensures k == 0
  {
  }

  /** The two bars start moving in opposite vertical directions: the
      blocker down at half the height per second, the target up at a quarter
      of the height, rounded toward zero. */
  lemma OppositeInitialVelocities(w: int, h: int)
    requires IsInt(w) && 0 <= h <= IntMax
    ensures var l := LayoutFor(w, h);
      0 <= l.blocker.initialVelocity && l.target.initialVelocity <= 0 &&
      (4 <= h ==> 0 < l.blocker.initialVelocity && l.target.initialVelocity < 0)
  {
  }

  /** The target's velocity is `-h / 4` as Java computes it: when 4 does not
      divide the height it is one more than the Euclidean quotient `(-h) / 4`. */
  lemma TargetVelocityTruncates(w: int, h: int)
    requires IsInt(w) && 0 <= h <= IntMax && h % 4 != 0
    ensures LayoutFor(w, h).target.initialVelocity == (-h) / 4 + 1
  {
    assert Neg(h) == -h;
    DivOfNegative(-h, 4);
  }

  /** The barrel starts horizontal, one barrel length (an eighth of the
      width) from the left edge at half the height; that height lies within
      the target's span and, for a view at least 4 pixels high, below the
      blocker's. */
  lemma BarrelPointsHorizontally(w: int, h: int)
    requires 0 <= w <= IntMax && HeightFits(h)
    ensures var l := LayoutFor(w, h);
      l.barrelEnd.x == l.sizes.cannonLength == w / 8 && l.barrelEnd.y == h / 2 &&
      l.target.beginning <= l.barrelEnd.y <= l.target.end &&
      (4 <= h ==> l.blocker.end < l.barrelEnd.y)
  {
  }

  /** An 800 by 480 view: blocker at x = 500 from 60 to 180, target at
      x = 700 from 60 to 420 in pieces of 51 pixels, seven of which cover
      only 357 of the target's 360 pixels. */
  lemma Layout800x480()
    ensures var l := LayoutFor(800, 480);
      l.sizes == Sizes(800, 480, 26, 100, 22, 1200, 33) &&
      l.blocker == Bar(500, 60, 180, 240, Segment(Point(500, 60), Point(500, 180))) &&
      l.target == Bar(700, 60, 420, -120, Segment(Point(700, 60), Point(700, 420))) &&
      l.pieceLength == 51 && PieceBoundary(l, TargetPieces) == 417 &&
      l.barrelEnd == Point(100, 240)
  {
    LayoutArithmetic(800, 480);
  }

  /** Beyond `NoOverflow` the order breaks: in a view 400,000,000 pixels wide
      `w * 7` wraps to a negative `int`, which puts the target left of the
      blocker and of the left edge. */
  lemma WideViewWrapsTarget()
    ensures var l := LayoutFor(400_000_000, 480);
      l.blocker.distance == 250_000_000 && l.target.distance == -186_870_912 &&
      l.target.distance < 0 < l.blocker.distance
  {
  }
}
