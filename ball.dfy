/** The `Ball` entity: wall bounce, reseeding when it leaves the field sideways,
    and rebounding off a paddle. */
module Balls {
  import opened Config

  /** `setup` always gives the ball this size and this (unused) acceleration cap. */
  const BallWidth: real := 10.0
  const BallHeight: real := 10.0
  const MaxAcceleration: real := 10.0

  /** The lowest top edge that keeps the ball on the screen. */
  const MaxBallY: real := ResY - BallHeight

  /** The first paddle the ball's rectangle overlaps this tick, as the sprite
      collision test reports it (the test itself is not part of this model). */
  datatype Collision = NoCollision | HitPlayer1 | HitPlayer2

  /** The random numbers `setup` draws: the offsets from the centre, the horizontal
      speed and its sign, and the vertical velocity. */
  datatype SetupDraw = SetupDraw(dx: int, dy: int, speed: int, sign: int, vy: int)

  /** The ranges of `randint(-50, 50)`, `randint(15, 30)`, `random.choice([-1, 1])`
      and `randint(-15, 15)`. */
  predicate ValidDraw(d: SetupDraw)
  {
    -50 <= d.dx <= 50 && -50 <= d.dy <= 50 &&
    15 <= d.speed <= 30 && (d.sign == -1 || d.sign == 1) &&
    -15 <= d.vy <= 15
  }

  /** Position and velocity (pixels, and percent of the screen per second). */
  datatype BallState = BallState(x: real, y: real, vx: real, vy: real)

  /** `Ball.setup`: a ball near the centre with a fresh random velocity. */
  function Reseed(d: SetupDraw): (b: BallState)
    requires ValidDraw(d)
    ensures 350.0 <= b.x <= 450.0 && 250.0 <= b.y <= 350.0
    ensures 15.0 <= Abs(b.vx) <= 30.0 && Abs(b.vx) == d.speed as real
    ensures (b.vx < 0.0 <==> d.sign == -1)
    ensures -15.0 <= b.vy <= 15.0 && b.vy == d.vy as real
  {
    BallState(ResX / 2.0 + d.dx as real, ResY / 2.0 + d.dy as real,
              (d.speed * d.sign) as real, d.vy as real)
  }

  /** The wall test of `Ball.update` applied to the integrated top edge `y`: when the
      clamp to `[0, MaxBallY]` would move it, the vertical velocity is negated once and
      the edge becomes `abs(posy - (posy - y))`, which is `|y|`. An overshoot of the top
      wall by `d` lands at `d`; an overshoot of the bottom wall is kept as it is. */
  function WallBounce(y: real, vy: real): (r: (real, real))
    ensures 0.0 <= y <= MaxBallY ==> r == (y, vy)
    ensures y < 0.0 ==> r == (-y, -vy)
    ensures MaxBallY < y ==> r == (y, -vy)
  {
    var posy := BoundsCheck(0.0, MaxBallY, y);
    if posy != y then (Abs(posy - (posy - y)), -vy) else (y, vy)
  }

  /** The ball has reached or passed the left or the right edge of the screen. */
  predicate OutOfBoundsX(x: real)
  {
    x <= 0.0 || x >= ResX - BallWidth
  }

  /** The collision rule: hitting player 1's paddle sends the ball right (positive x),
      hitting player 2's sends it left; the speed is kept. */
  function Rebound(vx: real, c: Collision): (r: real)
    ensures c == NoCollision ==> r == vx
    ensures c != NoCollision ==> Abs(r) == Abs(vx)
    ensures c == HitPlayer1 ==> 0.0 <= r
    ensures c == HitPlayer2 ==> r <= 0.0
  {
    match c
    case NoCollision => vx
    case HitPlayer1 => Abs(vx) * 1.0
    case HitPlayer2 => Abs(vx) * -1.0
  }

  /** The top edge after `time` seconds, before the wall test. */
  function IntegrateY(b: BallState, time: real): real
  {
    b.y + (b.vy * time) * (ResY / 100.0)
  }

  /** The left edge after `time` seconds, before the edge test. */
  function IntegrateX(b: BallState, time: real): real
  {
    b.x + (b.vx * time) * (ResX / 100.0)
  }

  /** One `Ball.update(time)`: the vertical move and wall bounce, then the horizontal
      move, the reseed if the ball left the field, and last the collision rule.
      A ball that stays in the field moves by its velocity and bounces as WallBounce
      says; one that leaves it sideways is replaced by a `setup` ball (no score is
      kept); either way the collision rule only picks the sign of `vx`. After every
      step the ball is strictly inside the field horizontally and never above the top
      wall, but it can end below the bottom limit. */
  function Step(b: BallState, time: real, c: Collision, d: SetupDraw): (r: BallState)
    requires ValidDraw(d)
    ensures 0.0 <= r.y
    ensures 0.0 < r.x < ResX - BallWidth
    ensures !OutOfBoundsX(IntegrateX(b, time)) ==>
              r.x == IntegrateX(b, time) &&
              (r.y, r.vy) == WallBounce(IntegrateY(b, time), b.vy) &&
              Abs(r.vx) == Abs(b.vx)
    ensures OutOfBoundsX(IntegrateX(b, time)) ==>
              r.x == Reseed(d).x && r.y == Reseed(d).y && r.vy == Reseed(d).vy &&
              350.0 <= r.x <= 450.0 && 250.0 <= r.y <= 350.0 &&
              Abs(r.vx) == d.speed as real && -15.0 <= r.vy <= 15.0
    ensures c == NoCollision ==> r.vx == if OutOfBoundsX(IntegrateX(b, time)) then Reseed(d).vx else b.vx
    ensures c == HitPlayer1 ==> 0.0 <= r.vx
    ensures c == HitPlayer2 ==> r.vx <= 0.0
  {
    var bounced := WallBounce(IntegrateY(b, time), b.vy);
    var x := IntegrateX(b, time);
    var placed := if OutOfBoundsX(x) then Reseed(d) else BallState(x, bounced.0, b.vx, bounced.1);
    placed.(vx := Rebound(placed.vx, c))
  }

  /** A top-wall overshoot by `depth` lands `depth` below the wall with the vertical
      velocity reversed. */
  lemma StepTopWall(b: BallState, time: real, c: Collision, d: SetupDraw, depth: real)
    requires ValidDraw(d) && !OutOfBoundsX(IntegrateX(b, time))
    requires 0.0 < depth && IntegrateY(b, time) == -depth
    ensures Step(b, time, c, d).y == depth && Step(b, time, c, d).vy == -b.vy
  {
  }

  /** Without a wall contact the vertical velocity is untouched. */
  lemma StepNoWall(b: BallState, time: real, c: Collision, d: SetupDraw)
    requires ValidDraw(d) && !OutOfBoundsX(IntegrateX(b, time))
    requires 0.0 <= IntegrateY(b, time) <= MaxBallY
    ensures Step(b, time, c, d).y == IntegrateY(b, time) && Step(b, time, c, d).vy == b.vy
  {
  }

  /** A collision changes only the sign of the horizontal velocity, pointing it away
      from the paddle hit; it is applied after any reseed. */
  lemma StepCollision(b: BallState, time: real, c: Collision, d: SetupDraw)
    requires ValidDraw(d)
    ensures var free := Step(b, time, NoCollision, d);
            var hit := Step(b, time, c, d);
            hit.x == free.x && hit.y == free.y && hit.vy == free.vy &&
            Abs(hit.vx) == Abs(free.vx) &&
            (c == HitPlayer1 ==> hit.vx == Abs(free.vx)) &&
            (c == HitPlayer2 ==> hit.vx == -Abs(free.vx))
  {
  }

  /** The wall test does not keep the ball on the screen: a ball 5 pixels above the
      bottom limit moving down at 10 percent per second for 0.1 s ends 1 pixel past it,
      with its vertical velocity reversed. */
  lemma BottomOvershootEscapes()
    ensures var r := Step(BallState(400.0, MaxBallY - 5.0, 20.0, 10.0), 0.1, NoCollision, SetupDraw(0, 0, 20, 1, 0));
            r.y == MaxBallY + 1.0 && r.vy == -10.0
  {
  }

  class Ball {
    var x: real
    var y: real
    /** `velocity[X]` and `velocity[Y]`. */
    var vx: real
    var vy: real
    /** `rect.left` and `rect.top` of the drawable rectangle. */
    var rectLeft: real
    var rectTop: real

    function State(): BallState
      reads this
    {
      BallState(x, y, vx, vy)
    }

    /** `Ball()`: a freshly set-up ball. */
    constructor (d: SetupDraw)
      requires ValidDraw(d)
      ensures State() == Reseed(d)
      ensures rectLeft == x && rectTop == y
    {
      new;
      Setup(d);
    }

    /** `Ball.setup()` */
    method Setup(d: SetupDraw)
      requires ValidDraw(d)
      modifies this
      ensures State() == Reseed(d)
      ensures rectLeft == x && rectTop == y
    {
      x := ResX / 2.0 + d.dx as real;
      y := ResY / 2.0 + d.dy as real;
      vx := (d.speed * d.sign) as real;
      vy := d.vy as real;
      rectLeft, rectTop := x, y;
    }

    /** `Ball.update(time)`, with the collision test's outcome and the numbers a
        reseed would draw given as parameters. */
    method Update(time: real, collision: Collision, d: SetupDraw)
      requires ValidDraw(d)
      modifies this
      ensures State() == Step(old(State()), time, collision, d)
      ensures rectLeft == x && rectTop == y
    {
      ghost var before := State();
      ghost var bounced := WallBounce(IntegrateY(before, time), before.vy);
      // Y axis update
      y := y + (vy * time) * (ResY / 100.0);
      assert y == IntegrateY(before, time);
      var posy := BoundsCheck(0.0, MaxBallY, y);
      if posy != y {
        y := Abs(posy - (posy - y));
        vy := vy * -1.0;
      }
      assert y == bounced.0 && vy == bounced.1;
      // X axis update
      x := x + (vx * time) * (ResX / 100.0);
      assert x == IntegrateX(before, time);
      ghost var placed := if OutOfBoundsX(x) then Reseed(d) else BallState(x, bounced.0, before.vx, bounced.1);
      if x <= 0.0 || x >= ResX - BallWidth {
        Setup(d);
      }
      assert State() == placed;
      // collision with a paddle
      match collision {
        case NoCollision =>
        case HitPlayer1 => vx := Abs(vx) * 1.0;
        case HitPlayer2 => vx := Abs(vx) * -1.0;
      }
      assert vx == Rebound(placed.vx, collision);
      assert State() == Step(before, time, collision, d);
      rectTop := y;
      rectLeft := x;
    }
  }
}
