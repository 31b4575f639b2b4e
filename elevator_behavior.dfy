/** src/game/behaviors/ElevatorBehavior.ts: an elevator that waits at the
    bottom, accelerates up, waits at the top and accelerates down, driving
    the vertical velocity of its character's physics body.  Times are in
    milliseconds and speeds in blocks per second, as in the source. */
module ElevatorBehaviors {
  import opened Common
  import opened Characters
  import opened BaseBehaviors

  datatype ElevatorState = StayBottom | GoingUp | StayTop | GoingDown

  const MAX_SPEED: real := 3.0
  const ACC: real := 3.0
  const WAIT_TIME: real := 1000.0 * 3.0

  /** The time and distance a cabin at full speed needs to stop, and the
      heights at which a moving cabin turns into a waiting one. */
  const STOP_ELAPSED_TIME: real := MAX_SPEED / ACC
  const STOP_DISTANCE: real := STOP_ELAPSED_TIME * (MAX_SPEED - 0.5 * ACC * STOP_ELAPSED_TIME)
  const POSITION_TOP: real := 16.0 - STOP_DISTANCE
  const POSITION_BOTTOM: real := 0.5 + STOP_DISTANCE

  function Abs(v: real): real
  {
    if v < 0.0 then -v else v
  }

  /** `decreaseSpeed`: the speed brought toward 0 by what the deceleration
      takes off in `dt` milliseconds, never past 0. */
  function DecreaseSpeed(speed: real, dt: real): real
  {
    var step := ACC * dt / 1000.0;
    if speed > 0.0 then speed - (if speed < step then speed else step)
    else speed + (if -speed < step then -speed else step)
  }

  /** For a tick that does not run backwards, braking keeps the sign of the
      speed, never adds to its magnitude, stops the cabin exactly when the
      speed is within one step of 0, and otherwise takes one step off. */
  lemma DecreaseSpeedBrakes(speed: real, dt: real)
    requires dt >= 0.0
    ensures var r := DecreaseSpeed(speed, dt);
      && Abs(r) <= Abs(speed)
      && (speed >= 0.0 ==> r >= 0.0) && (speed <= 0.0 ==> r <= 0.0)
      && (r == 0.0 <==> Abs(speed) <= ACC * dt / 1000.0)
      && (Abs(speed) > ACC * dt / 1000.0 ==> Abs(r) == Abs(speed) - ACC * dt / 1000.0)
  {
  }

  /** The cabin as the behaviour sees it: its state, the waiting time left
      and the vertical velocity of the body. */
  datatype Cabin = Cabin(state: ElevatorState, stayRemain: real, vy: real)

  /** One `onTick(dt)` with the body's centre at height `centerY`. */
  function Tick(c: Cabin, centerY: real, dt: real): Cabin
  {
    match c.state
    case StayBottom =>
      var v := if c.vy != 0.0 then DecreaseSpeed(c.vy, dt) else c.vy;
      var remain := c.stayRemain - dt;
      Cabin(if remain < 0.0 then GoingUp else StayBottom, remain, v)
    case GoingUp =>
      var v := if c.vy < MAX_SPEED then c.vy + MAX_SPEED * dt / 1000.0 else c.vy;
      if centerY >= POSITION_TOP then Cabin(StayTop, WAIT_TIME, v) else Cabin(GoingUp, c.stayRemain, v)
    case StayTop =>
      var v := if c.vy != 0.0 then DecreaseSpeed(c.vy, dt) else c.vy;
      var remain := c.stayRemain - dt;
      Cabin(if remain < 0.0 then GoingDown else StayTop, remain, v)
    case GoingDown =>
      var v := if c.vy > -MAX_SPEED then c.vy - MAX_SPEED * dt / 1000.0 else c.vy;
      if centerY <= POSITION_BOTTOM then Cabin(StayBottom, WAIT_TIME, v) else Cabin(GoingDown, c.stayRemain, v)
  }

  /** The state that follows each state in the cycle. */
  function Next(s: ElevatorState): ElevatorState
  {
    match s
    case StayBottom => GoingUp
    case GoingUp => StayTop
    case StayTop => GoingDown
    case GoingDown => StayBottom
  }

  /** The stop heights: 1.5 blocks of braking below 16 and above 0.5. */
  lemma StopHeights()
    ensures STOP_ELAPSED_TIME == 1.0 && STOP_DISTANCE == 1.5
    ensures POSITION_TOP == 14.5 && POSITION_BOTTOM == 2.0
  {
  }

  /** A tick keeps the state or moves one step along the cycle.  A waiting
      cabin counts down by `dt` and leaves exactly when the count goes
      below 0; a moving cabin keeps its count and turns into a waiting one,
      with the full waiting time, exactly when it reaches its stop height. */
  lemma TickFollowsCycle(c: Cabin, centerY: real, dt: real)
    ensures var r := Tick(c, centerY, dt);
      && (r.state == c.state || r.state == Next(c.state))
      && ((c.state == StayBottom || c.state == StayTop) ==>
            && r.stayRemain == c.stayRemain - dt
            && (r.state == Next(c.state) <==> c.stayRemain - dt < 0.0))
      && (c.state == GoingUp ==>
            if centerY >= POSITION_TOP then r.state == StayTop && r.stayRemain == WAIT_TIME
            else r.state == GoingUp && r.stayRemain == c.stayRemain)
      && (c.state == GoingDown ==>
            if centerY <= POSITION_BOTTOM then r.state == StayBottom && r.stayRemain == WAIT_TIME
            else r.state == GoingDown && r.stayRemain == c.stayRemain)
  {
  }

  /** The velocity a tick leaves: a waiting cabin brakes toward 0, a cabin
      going up speeds up only while below `MAX_SPEED`, and one going down
      speeds down only while above `-MAX_SPEED`. */
  lemma TickVelocity(c: Cabin, centerY: real, dt: real)
    requires dt >= 0.0
    ensures var r := Tick(c, centerY, dt);
      && ((c.state == StayBottom || c.state == StayTop) ==>
            Abs(r.vy) <= Abs(c.vy) && (c.vy >= 0.0 ==> r.vy >= 0.0) && (c.vy <= 0.0 ==> r.vy <= 0.0))
      && (c.state == GoingUp ==>
            if c.vy < MAX_SPEED then r.vy == c.vy + MAX_SPEED * dt / 1000.0 else r.vy == c.vy)
      && (c.state == GoingDown ==>
            if c.vy > -MAX_SPEED then r.vy == c.vy - MAX_SPEED * dt / 1000.0 else r.vy == c.vy)
  {
    if c.vy != 0.0 {
      DecreaseSpeedBrakes(c.vy, dt);
    }
  }

  /** With ticks of at most `maxDt` milliseconds, the speed never exceeds
      `MAX_SPEED` by more than one tick's acceleration: a cabin whose speed
      is within that bound stays within it. */
  lemma SpeedStaysBounded(c: Cabin, centerY: real, dt: real, maxDt: real)
    requires 0.0 <= dt <= maxDt
    requires Abs(c.vy) <= MAX_SPEED + MAX_SPEED * maxDt / 1000.0
    ensures Abs(Tick(c, centerY, dt).vy) <= MAX_SPEED + MAX_SPEED * maxDt / 1000.0
  {
    TickVelocity(c, centerY, dt);
  }

  class ElevatorBehavior {
    const base: BaseBehavior
    var state: ElevatorState
    var stayRemain: real

    constructor (base: BaseBehavior)
      ensures this.base == base && state == StayBottom && stayRemain == WAIT_TIME
    {
      this.base := base;
      stayRemain := WAIT_TIME;
      state := StayBottom;
    }

    function Cab(): Cabin
      reads this, base, base.me
    {
      Cabin(state, stayRemain, base.me.velocity.y)
    }

    /** `onTick(dt)`: one step of the cycle on the body's vertical velocity,
        reading the height of the body's centre. */
    method OnTick(dt: real)
      modifies this, base.me
      ensures Cab() == Tick(old(Cab()), old(base.me.center.y), dt)
      ensures base.me.velocity.x == old(base.me.velocity.x) && base.me.velocity.z == old(base.me.velocity.z)
      ensures base.me.center == old(base.me.center) && base.me.position == old(base.me.position)
      ensures base.me.actions == old(base.me.actions) && base.me.emitted == old(base.me.emitted)
    {
      var me := base.me;
      match state {
        case StayBottom =>
          if me.velocity.y != 0.0 {
            me.velocity := me.velocity.(y := DecreaseSpeed(me.velocity.y, dt));
          }
          stayRemain := stayRemain - dt;
          if stayRemain < 0.0 {
            state := GoingUp;
          }
        case GoingUp =>
          if me.velocity.y < MAX_SPEED {
            me.velocity := me.velocity.(y := me.velocity.y + MAX_SPEED * dt / 1000.0);
          }
          if me.center.y >= POSITION_TOP {
            stayRemain := WAIT_TIME;
            state := StayTop;
          }
        case StayTop =>
          if me.velocity.y != 0.0 {
            me.velocity := me.velocity.(y := DecreaseSpeed(me.velocity.y, dt));
          }
          stayRemain := stayRemain - dt;
          if stayRemain < 0.0 {
            state := GoingDown;
          }
        case GoingDown =>
          if me.velocity.y > -MAX_SPEED {
            me.velocity := me.velocity.(y := me.velocity.y - MAX_SPEED * dt / 1000.0);
          }
          if me.center.y <= POSITION_BOTTOM {
            stayRemain := WAIT_TIME;
            state := StayBottom;
          }
      }
    }
  }
}
