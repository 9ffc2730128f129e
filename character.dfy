/**
 * The hero's per-tick state machine (hero.go): facing, the run-animation
 * cursor and horizontal integration, plus the cursor-to-image remap used
 * when the hero is drawn.  Images, sounds and drawing are left out; `Render`
 * returns the image coordinates it would draw instead of drawing.
 */
module Character {

  // Facing indices: the order of the jump images (left first, then right).
  const LeftDirectionIndex := 0
  const RightDirectionIndex := 1
  const DirectionCount := 2

  const HeroAccelerationX := 2
  const HeroDecelerationX := 1
  const HeroMaxSpeedX := 10

  /** Ticks one run-cycle phase lasts. */
  const HeroRunFrameDelay := 4

  /** Number of phases of the run cycle (the cursor runs 0,1,2,3,0,...). */
  const RunPhases := 4

  /** Number of distinct run images per direction. */
  const RunImages := 3

  /** Go's `/` on integers, which truncates toward zero. */
  function GoQuo(a: int, b: int): (q: int)
    requires b > 0
    ensures 0 <= a ==> q == a / b
    ensures a < 0 ==> q <= 0
  {
    if a >= 0 then a / b else -((-a) / b)
  }

  /**
   * Go's `%`, the remainder of the truncating division (Dafny's `%` is
   * Euclidean).  Since `a - r` is a multiple of `b` and `r` lies in a window
   * of `b` consecutive values, the contract determines `r`.
   */
  function GoRem(a: int, b: int): (r: int)
    requires b > 0
    ensures a == b * GoQuo(a, b) + r
    ensures 0 <= a ==> 0 <= r < b && r == a % b
    ensures a < 0 ==> -b < r <= 0
  {
    if a >= 0 then a % b else -((-a) % b)
  }

  /** The integer fields of a hero, the only ones `Update` reads or writes. */
  datatype HeroFields = HeroFields(
    direction: int,
    x: int, y: int,
    speedX: int, speedY: int,
    runFrameIndex: int,
    nextRunFrame: int)

  /**
   * One fixed tick of `Hero.Update`, as a function of the fields.
   * The contract is the tick law: facing follows the sign of the speed,
   * the cursor is reset at rest, while moving the frame advances (mod 4)
   * exactly when the countdown runs out and the countdown is then reloaded,
   * the cursor stays in its range, and X integrates the speed.
   */
  function Tick(h: HeroFields): (t: HeroFields)
    ensures h.speedX < 0 ==> t.direction == LeftDirectionIndex
    ensures h.speedX > 0 ==> t.direction == RightDirectionIndex
    ensures h.speedX == 0 ==> t.direction == h.direction
    ensures h.speedX == 0 ==> t.runFrameIndex == 0 && t.nextRunFrame == 0
    ensures h.speedX != 0 && h.nextRunFrame - 1 <= 0 ==>
      t.nextRunFrame == HeroRunFrameDelay &&
      (0 <= h.runFrameIndex < RunPhases ==> t.runFrameIndex == (h.runFrameIndex + 1) % RunPhases)
    ensures h.speedX != 0 && h.nextRunFrame - 1 > 0 ==>
      t.runFrameIndex == h.runFrameIndex && t.nextRunFrame == h.nextRunFrame - 1
    ensures h.speedX != 0 ==> 1 <= t.nextRunFrame
    ensures 0 <= h.runFrameIndex < RunPhases ==> 0 <= t.runFrameIndex < RunPhases
    ensures 0 <= h.direction < DirectionCount ==> 0 <= t.direction < DirectionCount
    ensures t.x == h.x + h.speedX
    ensures t.y == h.y && t.speedX == h.speedX && t.speedY == h.speedY
  {
    var direction :=
      if h.speedX < 0 then LeftDirectionIndex
      else if h.speedX > 0 then RightDirectionIndex
      else h.direction;
    var cursor: (int, int) :=
      if h.speedX == 0 then (0, 0)
      else if h.nextRunFrame - 1 <= 0 then (GoRem(h.runFrameIndex + 1, RunPhases), HeroRunFrameDelay)
      else (h.runFrameIndex, h.nextRunFrame - 1);
    h.(direction := direction, runFrameIndex := cursor.0, nextRunFrame := cursor.1,
       x := h.x + h.speedX)
  }

  /** The fields after `n` consecutive ticks. */
  function Run(h: HeroFields, n: nat): HeroFields
    decreases n
  {
    if n == 0 then h else Run(Tick(h), n - 1)
  }

  /**
   * The image shown for a run-cycle cursor: phases 0,1,2,3 show images
   * 0,1,0,2, so three drawings give a four-step gait.  Other values are
   * passed through unchanged, as in the source.
   */
  function VisibleFrame(i: int): (r: int)
    ensures 0 <= i < RunPhases ==> r == [0, 1, 0, 2][i]
    ensures 0 <= i < RunPhases ==> 0 <= r < RunImages
    ensures 0 <= i < RunPhases ==> (r == 0 <==> i % 2 == 0)
    ensures i != 2 && i != 3 ==> r == i
  {
    if i == 2 then 0 else if i == 3 then 2 else i
  }

  /** Ticking never changes speed, Y, and moves X by the speed each tick. */
  lemma {:induction false} RunIntegratesX(h: HeroFields, n: nat)
    ensures Run(h, n).x == h.x + n * h.speedX
    ensures Run(h, n).y == h.y && Run(h, n).speedX == h.speedX && Run(h, n).speedY == h.speedY
    decreases n
  {
    if n > 0 {
      RunIntegratesX(Tick(h), n - 1);
    }
  }

  /** Resting ticks keep the cursor at 0/0 and keep the facing, however many there are. */
  lemma {:induction false} RestIsIdempotent(h: HeroFields, n: nat)
    requires h.speedX == 0 && n >= 1
    ensures Run(h, n).runFrameIndex == 0 && Run(h, n).nextRunFrame == 0
    ensures Run(h, n).direction == h.direction
    decreases n
  {
    if n > 1 {
      RestIsIdempotent(Tick(h), n - 1);
    }
  }

  /** A cursor in 0..3 stays in 0..3 over any number of ticks. */
  lemma {:induction false} RunKeepsCursorInRange(h: HeroFields, n: nat)
    requires 0 <= h.runFrameIndex < RunPhases
    ensures 0 <= Run(h, n).runFrameIndex < RunPhases
    decreases n
  {
    if n > 0 {
      RunKeepsCursorInRange(Tick(h), n - 1);
    }
  }

  /** Direction only ever takes the two valid indices, over any number of ticks. */
  lemma {:induction false} RunKeepsDirectionValid(h: HeroFields, n: nat)
    requires 0 <= h.direction < DirectionCount
    ensures 0 <= Run(h, n).direction < DirectionCount
    decreases n
  {
    if n > 0 {
      RunKeepsDirectionValid(Tick(h), n - 1);
    }
  }

  /**
   * Steady running: with a constant nonzero speed and a countdown `k` in
   * 1..4, after `n` ticks the cursor has advanced once at tick `k` and then
   * once every four ticks, and the countdown has wrapped accordingly.
   */
  lemma {:induction false} SteadyGait(h: HeroFields, n: nat)
    requires h.speedX != 0
    requires 0 <= h.runFrameIndex < RunPhases
    requires 1 <= h.nextRunFrame <= HeroRunFrameDelay
    ensures Run(h, n).runFrameIndex
      == (h.runFrameIndex + (n + HeroRunFrameDelay - h.nextRunFrame) / HeroRunFrameDelay) % RunPhases
    ensures Run(h, n).nextRunFrame
      == HeroRunFrameDelay - (n + HeroRunFrameDelay - h.nextRunFrame) % HeroRunFrameDelay
    decreases n
  {
    if n > 0 {
      var t := Tick(h);
      SteadyGait(t, n - 1);
      var f, k := h.runFrameIndex, h.nextRunFrame;
      if k == 1 {
        assert t.runFrameIndex == (f + 1) % 4 && t.nextRunFrame == 4;
        assert (n + 3) / 4 == 1 + (n - 1) / 4;
        assert (n + 3) % 4 == (n - 1) % 4;
        assert ((f + 1) % 4 + (n - 1) / 4) % 4 == (f + 1 + (n - 1) / 4) % 4;
      } else {
        assert t.runFrameIndex == f && t.nextRunFrame == k - 1;
      }
    }
  }

  /** While running steadily, four ticks advance the cursor by exactly one phase. */
  lemma FourTicksAdvanceOnePhase(h: HeroFields)
    requires h.speedX != 0
    requires 0 <= h.runFrameIndex < RunPhases
    requires 1 <= h.nextRunFrame <= HeroRunFrameDelay
    ensures Run(h, HeroRunFrameDelay).runFrameIndex == (h.runFrameIndex + 1) % RunPhases
    ensures Run(h, HeroRunFrameDelay).nextRunFrame == h.nextRunFrame
  {
    SteadyGait(h, HeroRunFrameDelay);
  }

  /**
   * Starting from rest (cursor 0/0) with a constant nonzero speed, the first
   * tick already shows phase 1 and the phase then advances every four
   * ticks: after `n` ticks the cursor is `1 + (n-1)/4` mod 4.
   */
  lemma GaitFromRest(h: HeroFields, n: nat)
    requires h.speedX != 0 && h.runFrameIndex == 0 && h.nextRunFrame == 0
    requires n >= 1
    ensures Run(h, n).runFrameIndex == (1 + (n - 1) / HeroRunFrameDelay) % RunPhases
    ensures Run(h, n).nextRunFrame == HeroRunFrameDelay - (n - 1) % HeroRunFrameDelay
    ensures VisibleFrame(Run(h, n).runFrameIndex) == [0, 1, 0, 2][(1 + (n - 1) / HeroRunFrameDelay) % RunPhases]
  {
    var t := Tick(h);
    assert t.runFrameIndex == 1 && t.nextRunFrame == 4;
    SteadyGait(t, n - 1);
  }

  /** The visible images of cursors 0,1,2,3,0,1,2,3: the gait 0,1,0,2,0,1,0,2. */
  lemma GaitPattern()
    ensures seq(8, i => VisibleFrame(i % RunPhases)) == [0, 1, 0, 2, 0, 1, 0, 2]
  {
  }

  /** The hero object, with the integer fields that the tick updates in place. */
  class Hero {
    var Direction: int
    var X: int
    var Y: int
    var SpeedX: int
    var SpeedY: int
    var runFrameIndex: int
    var nextRunFrame: int

    /** The current integer fields, as a value. */
    function Fields(): HeroFields
      reads this
    {
      HeroFields(Direction, X, Y, SpeedX, SpeedY, runFrameIndex, nextRunFrame)
    }

    /** The fields that `Render` relies on are in range. */
    ghost predicate Valid()
      reads this
    {
      0 <= Direction < DirectionCount && 0 <= runFrameIndex < RunPhases
    }

    /** A new hero: every integer field starts at Go's zero value. */
    constructor ()
      ensures Fields() == HeroFields(0, 0, 0, 0, 0, 0, 0)
      ensures Valid()
    {
      Direction, X, Y, SpeedX, SpeedY := 0, 0, 0, 0, 0;
      runFrameIndex, nextRunFrame := 0, 0;
    }

    /** Advances the hero by one tick, in place. */
    method Update()
      modifies this
      ensures Fields() == Tick(old(Fields()))
      ensures old(Valid()) ==> Valid()
    {
      if SpeedX < 0 {
        Direction := LeftDirectionIndex;
      }
      if SpeedX > 0 {
        Direction := RightDirectionIndex;
      }

      if SpeedX == 0 {
        runFrameIndex := 0;
        nextRunFrame := 0;
      } else {
        nextRunFrame := nextRunFrame - 1;
        if nextRunFrame <= 0 {
          runFrameIndex := GoRem(runFrameIndex + 1, RunPhases);
          nextRunFrame := HeroRunFrameDelay;
        }
      }

      X := X + SpeedX;
    }

    /**
     * What `Render` draws: the run image `image` of direction `direction`
     * at (`x`, `y`).  The drawing itself is not part of this model.
     */
    method Render() returns (direction: int, image: int, x: int, y: int)
      requires Valid()
      ensures direction == Direction && x == X && y == Y
      ensures 0 <= direction < DirectionCount && 0 <= image < RunImages
      ensures image == VisibleFrame(runFrameIndex)
    {
      var frameIndex := runFrameIndex;
      if frameIndex == 2 {
        frameIndex := 0;
      }
      if frameIndex == 3 {
        frameIndex := 2;
      }
      direction, image, x, y := Direction, frameIndex, X, Y;
    }
  }
}
