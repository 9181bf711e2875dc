# Cannon Block Breaker: the game view's set-up and layout

Cannon Block Breaker is an Android game. A cannon on the left edge fires at a
moving target on the right edge, and a moving blocker stands between them.
`CannonView` is the game's surface view. Its two-argument constructor creates
the game items: the blocker and the target are `Line`s, the cannonball is a
`Point`, and there is one hit flag per target piece. Whenever the view's size
changes, `onSizeChanged` recomputes every dimension as a proportion of the
new width and height, using Java `int` arithmetic.

This project models that part of the view:

- `java_int.dfy` (module `JavaInt`): Java's 32-bit `int` operations as the
  layout uses them. Subtraction, multiplication and negation wrap around in
  two's complement, and division truncates toward zero. The model states
  these explicitly on Dafny's unbounded integers, because Dafny's own `/` is
  Euclidean.
- `geometry.dfy` (module `Geometry`): the drawing primitives. `Point` is a
  value. `Line` is a class whose two endpoints the view assigns in place.
- `cannon_view.dfy` (module `CannonGame`):
  - the game constants;
  - the class `CannonView`, with the layout fields, the constructor and
    `OnSizeChanged`;
  - `LayoutFor`, a pure definition of the layout for a width and a height.
    It is built from `BlockerFor`, `TargetFor` and `PieceLengthFor`, whose
    contracts state that each bar's line is vertical and holds the bar's
    bounds, and that the piece length is the largest one that fits.
    `OnSizeChanged` is proved to leave exactly that layout in the view's
    fields and lines.
- `layout_properties.dfy` (module `LayoutProperties`): what the layout
  guarantees.
  - From left to right come the barrel's tip, the blocker and the target.
  - The blocker's span lies inside the target's.
  - The seven target pieces fit on the target and tile it: every covered
    point lies in exactly one piece.
  - The two bars start moving in opposite directions.
  - The barrel starts horizontal, aimed within the target's span.
  - A concrete 800 by 480 layout is computed.
  - A width at which `int` overflow breaks the left-to-right order.

`onSizeChanged` is one method in the source. The model keeps it as one
method, `OnSizeChanged`. Its body calls three helpers, one for each of the
source's comment-marked groups of assignments: the cannon and its sizes, the
blocker, and the target. This keeps the frame reasoning of each group small.
The helpers assign the same fields in the same order as the source.

The layout fields are modelled as Java `int`s, and every operation wraps
around as Java's does. Each geometric lemma therefore requires the bound it
needs:
- `WidthFits(w)`: the width is non-negative and seven times it fits in an
  `int`.
- `HeightFits(h)`: the same for the height.
- `NoOverflow(w, h)`: both of the above.

`WideViewWrapsTarget` shows that the width bound is needed.

## Model

| member | source | states |
|---|---|---|
| `CannonGame.CannonView.constructor` | src/com/dylan/cannonblockbreaker/CannonView.java:96-129 | The blocker and the target are two distinct new lines, each with both endpoints at the origin. The cannonball starts at the origin. There are `TARGET_PIECES` hit flags, all cleared. The barrel end is still null, and every `int` layout field holds Java's default 0. |
| `CannonGame.CannonView.OnSizeChanged` | src/com/dylan/cannonblockbreaker/CannonView.java:134-165 | Afterwards the barrel end is set, and the view's fields and line endpoints hold exactly `LayoutFor(w, h)`. The layout depends on the new size alone, so neither the old size nor the previous layout matters, and repeating a size repeats the layout. Only the layout fields and the two lines' endpoints change. The contract describes the view once the barrel end is set at :165, before the paints are configured and `newGame()` runs. |
| `CannonGame.CannonView.SizeCannon` | src/com/dylan/cannonblockbreaker/CannonView.java:137-145 | The screen size, cannon base radius, barrel length, cannonball radius and speed, and line width are the Java `int` proportions of `w` and `h`. |
| `CannonGame.CannonView.PlaceBlocker` | src/com/dylan/cannonblockbreaker/CannonView.java:148-153 | The blocker's distance, bounds and initial velocity are the Java `int` proportions of `w` and `h`, and its line runs between its bounds at its distance. Nothing else changes. |
| `CannonGame.CannonView.PlaceTarget` | src/com/dylan/cannonblockbreaker/CannonView.java:156-162 | The target's distance, bounds and initial velocity are the Java `int` proportions of `w` and `h`, and its line runs between its bounds at its distance. The piece length is the `int` quotient of the target's length by `TARGET_PIECES`. |
| `CannonGame.SizesFor` | src/com/dylan/cannonblockbreaker/CannonView.java:137-145 | The screen size is the view's size. For a non-negative size, the cannonball's radius is at most the line width, which is at most the barrel's length, which is at most the width. The base radius lies between 0 and the height. `LayoutArithmetic` gives each size's exact value. |
| `CannonGame.LayoutFor` | src/com/dylan/cannonblockbreaker/CannonView.java:137-165 | The barrel end is one barrel length from the left edge. The blocker and the target start at the same height, and both lines hold their bars' bounds. `LayoutArithmetic` gives every value exactly, and the lemmas in `LayoutProperties` give the geometry. |
| `CannonGame.LayoutOfParts` | src/com/dylan/cannonblockbreaker/CannonView.java:159-165 | A proof step for `OnSizeChanged`, not a model of its own. The piece length at :159 is computed from the stored `targetBeginning` and `targetEnd`, and the barrel end at :165 from the stored `cannonLength`. The lemma shows that a layout assembled this way from the parts computed for `w` and `h` is `LayoutFor(w, h)`. |
| `CannonGame.BlockerFor` | src/com/dylan/cannonblockbreaker/CannonView.java:148-153 | For every `int` size, the blocker's line is vertical and runs between its bounds at its distance. Without overflow in `h * 3`, the blocker starts within the screen height, ends no higher than it starts, and has a non-negative initial velocity. |
| `CannonGame.TargetFor` | src/com/dylan/cannonblockbreaker/CannonView.java:156-162 | For every `int` size, the target's line is vertical and runs between its bounds at its distance. Without overflow in `h * 7`, the target starts within the screen height, ends no higher than it starts, and has a non-positive initial velocity. |
| `CannonGame.PieceLengthFor` | src/com/dylan/cannonblockbreaker/CannonView.java:159 | When the target's span is a non-negative `int`, the piece length is the largest length of which `TARGET_PIECES` pieces fit in the span. |
| `JavaInt.Wrap` | src/com/dylan/cannonblockbreaker/CannonView.java:143 | The result is always an `int`, and a value already in range is unchanged. |
| `JavaInt.WrapKeepsLowBits` | src/com/dylan/cannonblockbreaker/CannonView.java:143 | Wrapping changes a value only by a multiple of 2^32. |
| `JavaInt.Sub` | src/com/dylan/cannonblockbreaker/CannonView.java:159 | Java's `int` subtraction always gives an `int`, and gives the exact difference when that fits. `WrapKeepsLowBits` relates the two otherwise. |
| `JavaInt.Mul` | src/com/dylan/cannonblockbreaker/CannonView.java:143 | Java's `int` multiplication always gives an `int`, and gives the exact product when that fits. `WrapKeepsLowBits` relates the two otherwise. |
| `JavaInt.Neg` | src/com/dylan/cannonblockbreaker/CannonView.java:160 | Java's unary minus on an `int` always gives an `int`. |
| `JavaInt.NegExact` | src/com/dylan/cannonblockbreaker/CannonView.java:160 | Java's unary minus is exact, except that the negation of the smallest `int` wraps back to itself. |
| `JavaInt.Div` | src/com/dylan/cannonblockbreaker/CannonView.java:139 | Dividing an `int` by a positive `int` gives an `int`. |
| `JavaInt.DivTruncates` | src/com/dylan/cannonblockbreaker/CannonView.java:160 | Java's quotient truncates toward zero: the remainder has the dividend's sign and is smaller than the divisor in magnitude. |
| `JavaInt.DivOfNegative` | src/com/dylan/cannonblockbreaker/CannonView.java:160 | For a negative dividend, Java's quotient equals the Euclidean quotient when the division is exact, and is one more otherwise. |
| `LayoutProperties.LayoutArithmetic` | src/com/dylan/cannonblockbreaker/CannonView.java:137-165 | Without overflow, every layout quantity is the exact floor proportion of the width or height. The exception is the target's initial velocity, which is minus a quarter of the height truncated toward zero. |
| `LayoutProperties.BlockerSpanWithinTarget` | src/com/dylan/cannonblockbreaker/CannonView.java:149-158 | The blocker and the target both start one eighth of the height down (`h / 8`). The blocker ends no lower than the target, and both lie within the screen height. |
| `LayoutProperties.LeftToRightOrder` | src/com/dylan/cannonblockbreaker/CannonView.java:140-156 | The barrel's tip, the blocker and the target appear in that order from left to right, all within the width. For a view at least 3 pixels wide the order is strict. |
| `LayoutProperties.LayoutPiecesFit` | src/com/dylan/cannonblockbreaker/CannonView.java:159 | For any width, and a height whose products fit, the piece length is non-negative. `TARGET_PIECES` pieces never exceed the target's length, and one more pixel per piece would. |
| `LayoutProperties.PiecesFitInTarget` | src/com/dylan/cannonblockbreaker/CannonView.java:159 | When the pieces fit, every piece boundary lies on the target and the boundaries never decrease. When the target is shorter than `TARGET_PIECES` pixels, the piece length is 0, so all boundaries coincide. The pieces leave fewer than `TARGET_PIECES` pixels of the target uncovered. |
| `LayoutProperties.PiecesTileTarget` | src/com/dylan/cannonblockbreaker/CannonView.java:159 | Every point from the target's beginning to the last piece boundary lies in a piece `i` with `0 <= i < TARGET_PIECES`, which is an index of the hit flags because `CannonView.Valid()` gives `hitStates.Length == TARGET_PIECES`. |
| `LayoutProperties.PieceOfPointUnique` | src/com/dylan/cannonblockbreaker/CannonView.java:159 | No point lies in two pieces. |
| `LayoutProperties.OppositeInitialVelocities` | src/com/dylan/cannonblockbreaker/CannonView.java:151-160 | The blocker's initial velocity is non-negative and the target's is non-positive. For a view at least 4 pixels high, both are non-zero. |
| `LayoutProperties.TargetVelocityTruncates` | src/com/dylan/cannonblockbreaker/CannonView.java:160 | When 4 does not divide the height, the target's velocity is one more than the Euclidean quotient `(-h) / 4`. |
| `LayoutProperties.BarrelPointsHorizontally` | src/com/dylan/cannonblockbreaker/CannonView.java:140-165 | The barrel end is one barrel length (an eighth of the width) from the left edge, at half the height. That height is within the target's span and, for a view at least 4 pixels high, below the blocker's. |
| `LayoutProperties.Layout800x480` | src/com/dylan/cannonblockbreaker/CannonView.java:137-165 | The complete layout of an 800 by 480 view. Its pieces are 51 pixels long, so the seven pieces cover 357 of the target's 360 pixels. |
| `LayoutProperties.WideViewWrapsTarget` | src/com/dylan/cannonblockbreaker/CannonView.java:148-156 | In a view 400,000,000 pixels wide, `w * 7` wraps to a negative `int`. The target lands left of the screen and of the blocker. |

## Left out

- The Android glue:
  - the superclass calls;
  - the activity reference;
  - the `SurfaceHolder` callback registration;
  - the `SoundPool` and the sound map;
  - the `Paint` objects, with their text size, anti-aliasing, stroke widths (including the `float` product `lineWidth * 1.5f`) and background colour.
  These are platform I/O with no effect on the layout.
- `newGame()` is called at :175, but CannonView.java does not define it, so its effect is unknown. `OnSizeChanged`'s contract stops before the call.
- The one-argument constructor (:91-94) is an empty stub that creates no game items. It leaves `blocker`, `target` and the paints null, so `onSizeChanged` on such a view would throw a `NullPointerException` at :152. The model's lines are non-null `const` fields, which rules that path out.
- The game-loop state is left out: `gameOver`, `timeLeft`, `shotsFired`, `totalElapsedTime`, the current bar velocities, the cannonball's velocity and on-screen flag, and `targetPiecesHit`. Neither modelled method sets any of it.
- `Line.java` is not part of this model. `Line` is modelled with two `Point` endpoints that start at the origin.
- `MISS_PENALTY` and `HIT_REWARD` are declared as constants only. The code that uses them is not part of this model.
- `CannonGame.CannonView.pieceLength` is an `int` field, although the source declares it `double`. The value assigned is always an `int` quotient, and widening it to `double` is exact.
- `CannonGame.CannonView.OnSizeChanged` requires only that its arguments are Java `int`s; a negative size is computed as Java would compute it. The geometric lemmas assume `WidthFits`, `HeightFits` or both, whichever each fact needs. They say nothing about sizes beyond those bounds, where wrap-around breaks the geometry.
