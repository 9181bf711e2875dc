/** The game view of Cannon Block Breaker: its game constants, the game items
    its constructor creates, and the proportional layout it derives from the
    view's width and height whenever the size changes. */
module CannonGame {
  import opened JavaInt
  import opened Geometry

  /** Number of sections in the target. */
  const TargetPieces: int := 7
  /** Seconds deducted on a miss (declared, but never used in CannonView.java). */
  const MissPenalty: int := 2
  /** Seconds added on a hit (declared, but never used in CannonView.java). */
  const HitReward: int := 3

  datatype Option<T> = None | Some(value: T)

  /** The sizes the view derives from its width and height. */
  datatype Sizes = Sizes(
    screenWidth: int,
    screenHeight: int,
    cannonBaseRadius: int,
    cannonLength: int,
    cannonballRadius: int,
    cannonballSpeed: int,
    lineWidth: int)

  /** A moving bar (the blocker or the target): its distance from the left
      edge, its top and bottom distances from the top edge, its initial
      velocity and the segment its line holds. */
  datatype Bar = Bar(
    distance: int,
    beginning: int,
    end: int,
    initialVelocity: int,
    line: Segment)
  {
    /** The bar's line runs from its beginning to its end at its distance
        from the left edge. */
    predicate LineHoldsBounds() {
      line == Segment(Point(distance, beginning), Point(distance, end))
    }
  }

  /** Every dimension the view derives from its size. */
  datatype Layout = Layout(
    sizes: Sizes,
    blocker: Bar,
    target: Bar,
    pieceLength: int,
    barrelEnd: Point)

  /** The screen, cannon, cannonball and line sizes for a `w` by `h` view:
      the screen size is the view's size, and for a non-negative size the
      cannonball's radius is at most the line width, which is at most the
      barrel's length, which is at most the width. */
  function SizesFor(w: int, h: int): (s: Sizes)
    requires IsInt(w) && IsInt(h)
    ensures s.screenWidth == w && s.screenHeight == h
    ensures 0 <= w && 0 <= h ==>
      0 <= s.cannonballRadius <= s.lineWidth <= s.cannonLength <= w && 0 <= s.cannonBaseRadius <= h
  {
    Sizes(w, h, Div(h, 18), Div(w, 8), Div(w, 36), Div(Mul(w, 3), 2), Div(w, 24))
  }

  /** The blocker: 5/8 of the width from the left, from 1/8 to 3/8 of the
      height, starting at half the height per second. */
  function BlockerFor(w: int, h: int): (b: Bar)
    requires IsInt(w) && IsInt(h)
    ensures b.LineHoldsBounds() && b.line.IsVertical()
    ensures 0 <= h && 3 * h <= IntMax ==> 0 <= b.beginning <= b.end <= h && 0 <= b.initialVelocity
  {
    var distance := Div(Mul(w, 5), 8);
    var beginning := Div(h, 8);
    var end := Div(Mul(h, 3), 8);
    Bar(distance, beginning, end, Div(h, 2), Segment(Point(distance, beginning), Point(distance, end)))
  }

  /** The target: 7/8 of the width from the left, from 1/8 to 7/8 of the
      height, starting at minus a quarter of the height per second. */
  function TargetFor(w: int, h: int): (t: Bar)
    requires IsInt(w) && IsInt(h)
    ensures t.LineHoldsBounds() && t.line.IsVertical()
    ensures 0 <= h && 7 * h <= IntMax ==> 0 <= t.beginning <= t.end <= h && t.initialVelocity <= 0
  {
    var distance := Div(Mul(w, 7), 8);
    var beginning := Div(h, 8);
    var end := Div(Mul(h, 7), 8);
    Bar(distance, beginning, end, Div(Neg(h), 4), Segment(Point(distance, beginning), Point(distance, end)))
  }

  /** The length of one target piece for a target spanning `beginning` to
      `end`: when the span is a non-negative `int`, the largest length of
      which `TargetPieces` pieces still fit in the span. */
  function PieceLengthFor(beginning: int, end: int): (p: int)
    requires IsInt(beginning) && IsInt(end)
    ensures 0 <= end - beginning <= IntMax ==>
      0 <= p && p * TargetPieces <= end - beginning < (p + 1) * TargetPieces
  {
    Div(Sub(end, beginning), TargetPieces)
  }

  /** The layout for a view of width `w` and height `h`, computed with Java
      `int` arithmetic as the view computes it: the barrel end is one barrel
      length from the left edge, the blocker and the target start at the same
      height, and both lines hold their bars' bounds. */
  function LayoutFor(w: int, h: int): (l: Layout)
    requires IsInt(w) && IsInt(h)
    ensures l.barrelEnd.x == l.sizes.cannonLength
    ensures l.blocker.beginning == l.target.beginning
    ensures l.blocker.LineHoldsBounds() && l.target.LineHoldsBounds()
  {
    var target := TargetFor(w, h);
    Layout(
      SizesFor(w, h),
      BlockerFor(w, h),
      target,
      PieceLengthFor(target.beginning, target.end),
      Point(Div(w, 8), Div(h, 2)))
  }

  /** A layout whose parts are the ones computed for `w` by `h`, with the
      barrel end one barrel length from the left edge at half the height, is
      the layout for `w` by `h`. */
  lemma LayoutOfParts(w: int, h: int, l: Layout)
    requires IsInt(w) && IsInt(h)
    requires l.sizes == SizesFor(w, h) && l.blocker == BlockerFor(w, h) && l.target == TargetFor(w, h)
    requires l.pieceLength == PieceLengthFor(l.target.beginning, l.target.end)
    requires l.barrelEnd == Point(l.sizes.cannonLength, Div(h, 2))
    ensures l == LayoutFor(w, h)
  {
  }

  /** The view.  Its layout fields are plain Java `int`s, replaced whenever
      the size changes.  The blocker line, the target line and the hit flags
      are created once by the constructor and never replaced (only the lines'
      endpoints change), so they are `const` here. */
  class CannonView {
    var screenWidth: int
    var screenHeight: int
    var cannonBaseRadius: int
    var cannonLength: int
    var cannonballRadius: int
    var cannonballSpeed: int
    var lineWidth: int

    const blocker: Line
    var blockerDistance: int
    var blockerBeginning: int
    var blockerEnd: int
    var initialBlockerVelocity: int

    const target: Line
    var targetDistance: int
    var targetBeginning: int
    var targetEnd: int
    /** Declared `double` in the view, but it only ever holds an `int` quotient. */
    var pieceLength: int
    var initialTargetVelocity: int

    const hitStates: array<bool>
    var cannonball: Point
    /** `None` stands for the null reference the barrel end holds until the
        view is first given a size. */
    var barrelEnd: Option<Point>

    /** The blocker and the target are distinct lines, and there is one hit
        flag per target piece. */
    predicate Valid() {
      blocker != target && hitStates.Length == TargetPieces
    }

    /** The sizes the view's fields currently hold. */
    function SizesHeld(): Sizes
      reads this`screenWidth, this`screenHeight, this`cannonBaseRadius, this`cannonLength
      reads this`cannonballRadius, this`cannonballSpeed, this`lineWidth
    {
      Sizes(screenWidth, screenHeight, cannonBaseRadius, cannonLength,
        cannonballRadius, cannonballSpeed, lineWidth)
    }

    /** The blocker the view's fields and blocker line currently hold. */
    function BlockerHeld(): Bar
      reads this`blockerDistance, this`blockerBeginning, this`blockerEnd
      reads this`initialBlockerVelocity, blocker
    {
      Bar(blockerDistance, blockerBeginning, blockerEnd, initialBlockerVelocity, blocker.AsSegment())
    }

    /** The target the view's fields and target line currently hold. */
    function TargetHeld(): Bar
      reads this`targetDistance, this`targetBeginning, this`targetEnd
      reads this`initialTargetVelocity, target
    {
      Bar(targetDistance, targetBeginning, targetEnd, initialTargetVelocity, target.AsSegment())
    }

    /** The layout the view currently holds, once the barrel end is set. */
    function Current(): Layout
      reads this, blocker, target
      requires barrelEnd.Some?
    {
      Layout(SizesHeld(), BlockerHeld(), TargetHeld(), pieceLength, barrelEnd.value)
    }

    /** The two-argument constructor: creates the blocker and the target as
        two new lines with both endpoints at the origin, the cannonball at the
        origin, and one cleared hit flag per target piece; every `int` field
        keeps Java's default 0 and the barrel end is still null. */
    constructor ()
      ensures Valid()
      ensures fresh(blocker) && fresh(target) && fresh(hitStates)
      ensures blocker.AsSegment() == Segment(Origin, Origin) && target.AsSegment() == Segment(Origin, Origin)
      ensures hitStates[..] == seq(TargetPieces, _ => false)
      ensures cannonball == Origin
      ensures barrelEnd == None
      ensures screenWidth == 0 && screenHeight == 0
      ensures cannonBaseRadius == 0 && cannonLength == 0
      ensures cannonballRadius == 0 && cannonballSpeed == 0 && lineWidth == 0
      ensures blockerDistance == 0 && blockerBeginning == 0 && blockerEnd == 0
      ensures initialBlockerVelocity == 0
      ensures targetDistance == 0 && targetBeginning == 0 && targetEnd == 0
      ensures pieceLength == 0 && initialTargetVelocity == 0
    {
      screenWidth, screenHeight := 0, 0;
      cannonBaseRadius, cannonLength := 0, 0;
      cannonballRadius, cannonballSpeed, lineWidth := 0, 0, 0;
      blockerDistance, blockerBeginning, blockerEnd := 0, 0, 0;
      initialBlockerVelocity := 0;
      targetDistance, targetBeginning, targetEnd := 0, 0, 0;
      pieceLength, initialTargetVelocity := 0, 0;
      barrelEnd := None;
      blocker := new Line();
      target := new Line();
      cannonball := Origin;
      hitStates := new bool[TargetPieces](_ => false);
    }

    /** Recomputes every dimension from the new width `w` and height `h`.
        The previous size `oldw`, `oldh` and the previous layout play no part:
        the new layout is a function of `w` and `h` alone, so giving the same
        size twice leaves the same layout.  Only the layout fields and the
        endpoints of the two lines change.  The contract describes the view
        once the barrel end is set; the view then configures its paints and
        starts a new game, neither of which is part of this model. */
    method OnSizeChanged(w: int, h: int, oldw: int, oldh: int)
      requires Valid()
      requires IsInt(w) && IsInt(h) && IsInt(oldw) && IsInt(oldh)
      modifies this`screenWidth, this`screenHeight, this`cannonBaseRadius, this`cannonLength
      modifies this`cannonballRadius, this`cannonballSpeed, this`lineWidth
      modifies this`blockerDistance, this`blockerBeginning, this`blockerEnd, this`initialBlockerVelocity
      modifies this`targetDistance, this`targetBeginning, this`targetEnd, this`pieceLength
      modifies this`initialTargetVelocity, this`barrelEnd, blocker, target
      ensures barrelEnd.Some? && Current() == LayoutFor(w, h)
    {
      SizeCannon(w, h);
      PlaceBlocker(w, h);
      PlaceTarget(w, h);
      // the barrel initially points horizontally
      barrelEnd := Some(Point(cannonLength, Div(h, 2)));
      LayoutOfParts(w, h, Current());
    }

    /** The screen size and the sizes of the cannon, the cannonball and the
        bars' line width. */
    method SizeCannon(w: int, h: int)
      requires IsInt(w) && IsInt(h)
      modifies this`screenWidth, this`screenHeight, this`cannonBaseRadius, this`cannonLength
      modifies this`cannonballRadius, this`cannonballSpeed, this`lineWidth
      ensures SizesHeld() == SizesFor(w, h)
    {
      screenWidth := w;
      screenHeight := h;
      cannonBaseRadius := Div(h, 18);
      cannonLength := Div(w, 8);

      cannonballRadius := Div(w, 36);
      cannonballSpeed := Div(Mul(w, 3), 2);

      lineWidth := Div(w, 24);
    }

    /** The blocker's distance, vertical bounds, initial velocity and the
        endpoints of its line. */
    method PlaceBlocker(w: int, h: int)
      requires IsInt(w) && IsInt(h)
      modifies this`blockerDistance, this`blockerBeginning, this`blockerEnd
      modifies this`initialBlockerVelocity, blocker
      ensures BlockerHeld() == BlockerFor(w, h)
    {
      blockerDistance := Div(Mul(w, 5), 8);
      blockerBeginning := Div(h, 8);
      blockerEnd := Div(Mul(h, 3), 8);
      initialBlockerVelocity := Div(h, 2);
      blocker.start := Point(blockerDistance, blockerBeginning);
      blocker.end := Point(blockerDistance, blockerEnd);
    }

    /** The target's distance, vertical bounds, piece length, initial
        velocity and the endpoints of its line. */
    method PlaceTarget(w: int, h: int)
      requires IsInt(w) && IsInt(h)
      modifies this`targetDistance, this`targetBeginning, this`targetEnd
      modifies this`pieceLength, this`initialTargetVelocity, target
      ensures TargetHeld() == TargetFor(w, h)
      ensures pieceLength == PieceLengthFor(targetBeginning, targetEnd)
    {
      targetDistance := Div(Mul(w, 7), 8);
      targetBeginning := Div(h, 8);
      targetEnd := Div(Mul(h, 7), 8);
      pieceLength := Div(Sub(targetEnd, targetBeginning), TargetPieces);
      initialTargetVelocity := Div(Neg(h), 4);
      target.start := Point(targetDistance, targetBeginning);
      target.end := Point(targetDistance, targetEnd);
    }
  }
}
