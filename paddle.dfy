/** The `Paddle` entity: a player's intent drives its speed, its speed drives its y. */
module Paddles {
  import opened Config
  import opened Input

  /** The direction a paddle is pushed in: -1 (up the screen) for up alone,
      +1 (down the screen) for down alone, 0 when both or neither key is held. */
  function Direction(intent: Intent): (d: int)
    ensures d == -1 <==> intent.up && !intent.down
    ensures d == 1 <==> intent.down && !intent.up
    ensures d == 0 <==> intent.up == intent.down
  {
    if intent.up && intent.down then 0
    else if intent.up then -1
    else if intent.down then 1
    else 0
  }

  /** The sign of a product with a non-negative factor. */
  lemma ProductSign(a: real, t: real)
    ensures 0.0 <= t && 0.0 <= a ==> 0.0 <= a * t
    ensures 0.0 <= t && a <= 0.0 ==> a * t <= 0.0
  {
  }

  /** The new speed: accelerate for `time` seconds in `direction`, then clamp to
      `[-maxspeed, maxspeed]`. There is no friction: with no push the speed is kept. */
  function NextSpeed(speed: real, maxspeed: real, acceleration: real, time: real, direction: int): (s: real)
    ensures 0.0 <= maxspeed ==> -maxspeed <= s <= maxspeed
    ensures (time == 0.0 || direction == 0) && -maxspeed <= speed <= maxspeed ==> s == speed
    ensures 0.0 <= maxspeed && 0.0 <= acceleration && 0.0 <= time && direction == 1 ==> speed <= s || s == maxspeed
    ensures 0.0 <= maxspeed && 0.0 <= acceleration && 0.0 <= time && direction == -1 ==> s <= speed || s == -maxspeed
  {
    ProductSign(acceleration, time);
    BoundsCheck(-maxspeed, maxspeed, speed + acceleration * time * direction as real)
  }

  /** The new top edge: move by `speed` percent of the screen height per second for
      `time` seconds, then clamp so the whole paddle stays on the screen. */
  function NextY(y: real, speed: real, time: real, paddlelength: real): (r: real)
    ensures 0.0 <= r
    ensures paddlelength <= ResY ==> r <= ResY - paddlelength
    ensures (time == 0.0 || speed == 0.0) && 0.0 <= y <= ResY - paddlelength ==> r == y
    ensures paddlelength <= ResY && 0.0 <= time && 0.0 <= speed ==> y <= r || r == ResY - paddlelength
    ensures paddlelength <= ResY && 0.0 <= time && speed <= 0.0 ==> r <= y || r == 0.0
  {
    ProductSign(speed, time);
    BoundsCheck(0.0, ResY - paddlelength, y + (speed * time) * (ResY / 100.0))
  }

  class Paddle {
    const player: int
    /** Length in y: 10 percent of the screen height. */
    const paddlelength: real := 10.0 * (ResY / 100.0)
    const paddlewidth: real := 12.0
    /** The fixed x: 10 pixels from the owner's edge of the screen. */
    const x: real
    const maxspeed: real := 1.0 * paddlelength
    /** Speed gained per second while a key is held. */
    const acceleration: real := 2.0 * maxspeed

    /** The top edge, and the speed in percent of the screen height per second. */
    var y: real
    var speed: real
    /** `rect.top` of the drawable rectangle. */
    var rectTop: real

    /** What every update leaves true: the paddle is on the screen, its speed is
        within its limit and its rectangle is where it is. */
    ghost predicate Valid()
      reads this
    {
      0.0 <= y <= ResY - paddlelength &&
      -maxspeed <= speed <= maxspeed &&
      rectTop == y
    }

    /** `Paddle(player)`: vertically centred, at rest, on the owner's side. */
    constructor (player: int)
      ensures this.player == player
      ensures x == if player == Player1 then 10.0 else ResX - (10.0 + paddlewidth)
      ensures y == ResY / 2.0 - paddlelength / 2.0 && speed == 0.0
      ensures Valid()
    {
      this.player := player;
      x := if player == Player1 then 10.0 else ResX - (10.0 + paddlewidth);
      y := ResY / 2.0 - paddlelength / 2.0;
      speed := 0.0;
      rectTop := ResY / 2.0 - paddlelength / 2.0;
    }

    /** `Paddle.update(time)`: only `speed`, `y` and `rect.top` change. Whatever the
        starting state, the paddle ends on the screen within its speed limit. */
    method Update(time: real, input: InputState)
      modifies this`speed, this`y, this`rectTop
      ensures speed == NextSpeed(old(speed), maxspeed, acceleration, time, Direction(ForPlayer(input.View(), player)))
      ensures y == NextY(old(y), speed, time, paddlelength)
      ensures Valid()
      ensures time == 0.0 && old(Valid()) ==> speed == old(speed) && y == old(y)
    {
      var playerAction := ForPlayer(input.View(), player);
      var direction := Direction(playerAction);
      var deltaSpeed := acceleration * time * direction as real;
      speed := BoundsCheck(-maxspeed, maxspeed, speed + deltaSpeed);
      assert speed == NextSpeed(old(speed), maxspeed, acceleration, time, direction);
      y := y + (speed * time) * (ResY / 100.0);
      y := BoundsCheck(0.0, ResY - paddlelength, y);
      assert y == NextY(old(y), speed, time, paddlelength);
      rectTop := y;
    }
  }

  /** A paddle reads its own player's keys and no one else's: Player1's paddle is
      steered by player 1's entry alone, every other paddle by player 2's alone. */
  lemma OwnKeysOnly(v: InputView, player: int, other: Intent)
    ensures player == Player1 ==> ForPlayer(v, player) == v.player1 && ForPlayer(v.(player2 := other), player) == v.player1
    ensures player != Player1 ==> ForPlayer(v, player) == v.player2 && ForPlayer(v.(player1 := other), player) == v.player2
  {
  }

  /** The arrow keys steer Player1's paddle and W/S steer Player2's: pressing the key
      of a direction while its opposite is released sets that direction, whatever
      else is held; pressing it while the opposite is held cancels to 0. */
  lemma KeysSteerTheirPaddle(v: InputView)
    ensures !v.player1.down ==> Direction(ForPlayer(Toggle(v, ArrowUp, true), Player1)) == -1
    ensures !v.player1.up ==> Direction(ForPlayer(Toggle(v, ArrowDown, true), Player1)) == 1
    ensures !v.player2.down ==> Direction(ForPlayer(Toggle(v, LetterW, true), Player2)) == -1
    ensures !v.player2.up ==> Direction(ForPlayer(Toggle(v, LetterS, true), Player2)) == 1
    ensures v.player1.down ==> Direction(ForPlayer(Toggle(v, ArrowUp, true), Player1)) == 0
    ensures v.player1.up ==> Direction(ForPlayer(Toggle(v, ArrowDown, true), Player1)) == 0
    ensures v.player2.down ==> Direction(ForPlayer(Toggle(v, LetterW, true), Player2)) == 0
    ensures v.player2.up ==> Direction(ForPlayer(Toggle(v, LetterS, true), Player2)) == 0
  {
  }

  /** A key of one player, pressed or released, never changes what the other
      player's paddle reads. */
  lemma KeysLeaveOtherPaddle(v: InputView, isPressed: bool)
    ensures ForPlayer(Toggle(v, LetterW, isPressed), Player1) == ForPlayer(v, Player1)
    ensures ForPlayer(Toggle(v, LetterS, isPressed), Player1) == ForPlayer(v, Player1)
    ensures ForPlayer(Toggle(v, ArrowUp, isPressed), Player2) == ForPlayer(v, Player2)
    ensures ForPlayer(Toggle(v, ArrowDown, isPressed), Player2) == ForPlayer(v, Player2)
  {
  }
}
