/** The kinematics of a simulated car: its lane, its horizontal position and
    the lane change it may be in the middle of, and its forward motion.
    Drawing and collision boxes belong to the renderer and are not here. */
module Kinematics {
  import opened Sides

  /** Horizontal position of a car in the left lane and in the right lane. */
  const LeftX: int := 100
  const RightX: int := 500
  /** Horizontal distance covered by one move during a lane change. */
  const LaneStep: int := 5
  /** Forward speeds: the default one and the one after "slow down". */
  const CruiseSpeed: int := 2
  const SlowSpeed: int := 1

  /** Horizontal position of the car's lane centre for a starting lane:
      "left" is the left lane, every other string the right lane. */
  function LaneX(lane: string): (x: int)
    ensures x == LeftX || x == RightX
    ensures x == LeftX <==> lane == Left
  {
    if lane == Left then LeftX else RightX
  }

  /** The horizontal part of a car's state. */
  datatype Lateral = Lateral(x: int, switching: bool)

  /** One move's horizontal update toward `targetX`: a step of `LaneStep`,
      clamped to the target on arrival, where `switching` ends. */
  function Step(x: int, targetX: int, switching: bool): (r: Lateral)
    ensures !switching ==> r == Lateral(x, false)
    ensures switching && x == targetX ==> r == Lateral(x, true)
    ensures switching && x != targetX ==>
              (x < targetX ==> x < r.x <= targetX) && (x > targetX ==> targetX <= r.x < x)
    ensures switching && x != targetX ==>
              r.x == targetX || r.x - x == LaneStep || x - r.x == LaneStep
    ensures switching && x != targetX ==> (r.switching <==> r.x != targetX)
    ensures switching && x + LaneStep < targetX ==> r == Lateral(x + LaneStep, true)
    ensures switching && targetX < x - LaneStep ==> r == Lateral(x - LaneStep, true)
  {
    if switching then
      if x < targetX then
        var nx := x + LaneStep;
        if nx >= targetX then Lateral(targetX, false) else Lateral(nx, true)
      else if x > targetX then
        var nx := x - LaneStep;
        if nx <= targetX then Lateral(targetX, false) else Lateral(nx, true)
      else Lateral(x, switching)
    else Lateral(x, switching)
  }

  /** The horizontal state after `n` moves. */
  function Moves(x: int, targetX: int, switching: bool, n: nat): Lateral
    decreases n
  {
    if n == 0 then Lateral(x, switching)
    else
      var s := Step(x, targetX, switching);
      Moves(s.x, targetX, s.switching, n - 1)
  }

  /** One more move after `n` moves is one more `Step`. */
  lemma {:induction false} MovesThenStep(x: int, targetX: int, switching: bool, n: nat)
    ensures Moves(x, targetX, switching, n + 1)
         == Step(Moves(x, targetX, switching, n).x, targetX, Moves(x, targetX, switching, n).switching)
    decreases n
  {
    if n > 0 {
      var s := Step(x, targetX, switching);
      MovesThenStep(s.x, targetX, s.switching, n - 1);
    }
  }

  /** Starting a lane change `k` steps of `LaneStep` away from the target,
      the car is after `n <= k` moves `n` steps closer, and still switching
      exactly when `n < k`. */
  lemma {:induction false} Approach(x: int, targetX: int, k: nat, n: nat)
    requires n <= k
    requires x == targetX + k * LaneStep || x == targetX - k * LaneStep
    requires k > 0
    ensures Moves(x, targetX, true, n)
         == Lateral(if x > targetX then x - n * LaneStep else x + n * LaneStep, n < k)
    decreases n
  {
    if n > 0 {
      var s := Step(x, targetX, true);
      if k == 1 {
        assert s == Lateral(targetX, false);
        assert Moves(s.x, targetX, s.switching, 0) == Lateral(targetX, false);
      } else {
        var nx := if x > targetX then x - LaneStep else x + LaneStep;
        assert s == Lateral(nx, true);
        Approach(nx, targetX, k - 1, n - 1);
      }
    }
  }

  /** A lane change between the two lanes takes exactly 80 moves: the car is
      still switching after 79 and has arrived, switching cleared, after 80. */
  lemma LaneChangeTakes80Moves(n: nat)
    requires n < 80
    ensures Moves(RightX, LeftX, true, n) == Lateral(RightX - n * LaneStep, true)
    ensures Moves(LeftX, RightX, true, n) == Lateral(LeftX + n * LaneStep, true)
    ensures Moves(RightX, LeftX, true, 80) == Lateral(LeftX, false)
    ensures Moves(LeftX, RightX, true, 80) == Lateral(RightX, false)
  {
    Approach(RightX, LeftX, 80, n);
    Approach(LeftX, RightX, 80, n);
    Approach(RightX, LeftX, 80, 80);
    Approach(LeftX, RightX, 80, 80);
  }

  class Car {
    var originalLane: string
    var lane: string
    var x: int
    var targetX: int
    var y: int
    var speed: int
    var switching: bool

    /** The car sits on the grid of lane steps between the two lanes, heads
        for the centre of its current lane, and is at that centre when no
        lane change is under way. A lane change may also be marked while
        the car is already at its target: reversing a lane change before any
        move leaves it so, and no move clears it. */
    ghost predicate Valid()
      reads this
    {
      && LeftX <= x <= RightX
      && (x - LeftX) % LaneStep == 0
      && targetX == LaneX(lane)
      && (!switching ==> x == targetX)
    }

    constructor (startLane: string, y: int)
      ensures Valid()
      ensures originalLane == startLane && lane == startLane
      ensures startLane == Left ==> x == LeftX
      ensures startLane != Left ==> x == RightX
      ensures targetX == x && this.y == y
      ensures speed == CruiseSpeed && !switching
    {
      originalLane := startLane;
      x := LaneX(startLane);
      targetX := x;
      this.y := y;
      speed := CruiseSpeed;
      lane := startLane;
      switching := false;
    }

    /** Apply a final action: "left" from the right lane or "right" from the
        left lane starts a lane change without touching the speed;
        otherwise "slow down" sets the slow speed and anything else the
        cruise speed, with the lane left as it is. */
    method UpdatePosition(action: string)
      requires Valid()
      modifies this
      ensures Valid()
      ensures x == old(x) && y == old(y) && originalLane == old(originalLane)
      ensures action == Left && old(lane) == Right ==>
                lane == Left && targetX == LeftX && switching && speed == old(speed)
      ensures action == Right && old(lane) == Left ==>
                lane == Right && targetX == RightX && switching && speed == old(speed)
      ensures !(action == Left && old(lane) == Right) && !(action == Right && old(lane) == Left) ==>
                lane == old(lane) && targetX == old(targetX) && switching == old(switching)
                && speed == (if action == SlowDown then SlowSpeed else CruiseSpeed)
    {
      if action == Left && lane == Right {
        targetX := LeftX;
        lane := Left;
        switching := true;
      } else if action == Right && lane == Left {
        targetX := RightX;
        lane := Right;
        switching := true;
      } else if action == SlowDown {
        speed := SlowSpeed;
      } else {
        speed := CruiseSpeed;
      }
    }

    /** One frame of motion: forward by `speed` (y decreases), and during a
        lane change one step toward the target lane. */
    method Move()
      requires Valid()
      modifies this
      ensures Valid()
      ensures y == old(y) - old(speed)
      ensures Lateral(x, switching) == Step(old(x), targetX, old(switching))
      ensures !old(switching) ==> x == old(x) && !switching
      ensures old(switching) && old(x) != targetX ==> (switching <==> x != targetX)
      ensures lane == old(lane) && targetX == old(targetX) && speed == old(speed)
      ensures originalLane == old(originalLane)
    {
      y := y - speed;
      if switching {
        if x < targetX {
          x := x + LaneStep;
          if x >= targetX {
            x := targetX;
            switching := false;
          }
        } else if x > targetX {
          x := x - LaneStep;
          if x <= targetX {
            x := targetX;
            switching := false;
          }
        }
      }
    }

    /** The simulation's frame loop as far as one car goes: `frames` calls
        of `Move`, after which the car is where `Moves` puts it and has
        advanced by `frames` times its speed. */
    method MoveFrames(frames: nat)
      requires Valid()
      modifies this
      ensures Valid()
      ensures Lateral(x, switching) == Moves(old(x), targetX, old(switching), frames)
      ensures y == old(y) - frames * speed
      ensures lane == old(lane) && targetX == old(targetX) && speed == old(speed)
      ensures originalLane == old(originalLane)
    {
      var i := 0;
      while i < frames
        invariant 0 <= i <= frames
        invariant Valid()
        invariant Lateral(x, switching) == Moves(old(x), targetX, old(switching), i)
        invariant y == old(y) - i * speed
        invariant lane == old(lane) && targetX == old(targetX) && speed == old(speed)
        invariant originalLane == old(originalLane)
      {
        MovesThenStep(old(x), targetX, old(switching), i);
        Move();
        i := i + 1;
      }
    }
  }
}
