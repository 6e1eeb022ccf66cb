/**
 * The gameplay state of the Pong ball controller (the `Ball` component), with
 * the game engine stripped away: the control flags, the score pair, the side
 * of the last exit, the winner, the ball's velocity and the set of coroutines
 * the engine holds suspended for this component.
 *
 * Every coroutine of the controller is split at its `yield`: a "begin"
 * transition for the code before the delay and a "finish" transition for the
 * code after it. Random draws and the ball's position are parameters.
 */
module PongState {

  /** Points that end a game (`scoreLimit`). */
  const ScoreLimit: int := 10
  /** A score from which launches use the boosted speed. */
  const BoostScore: int := 6
  const BoostedLaunchSpeed: real := 7.0
  /** Speed added by one physics step below the cap. */
  const SpeedIncrease: real := 0.1
  /** The speed cap is this many times the starting speed. */
  const SpeedCapFactor: real := 5.0
  /** The ball scores once |x| reaches this bound. */
  const CourtBound: real := 13.0

  /** The coroutines of the controller that can be suspended at a yield. */
  datatype Routine =
    | StartGrace      // StartGameAfterDelay, started by Start
    | UnpauseDelay    // DelayedUnpause
    | LaunchDelay     // PlayResetClipAndLaunchBall, started by StartNewGame
    | RelaunchDelay   // ResetBallWithDelay
    | GameOverDelay   // ResetBallWithGameOverSound

  /**
   * The direction the ball was launched in: horizontal and vertical signs
   * and the angle off the horizontal, in degrees. The vector maths that turns
   * it into a unit vector is not part of this model.
   */
  datatype Heading = Heading(towardX: int, towardY: int, angleDegrees: real)

  /** The ball's linear velocity: the zero vector, or a heading and a speed. */
  datatype Velocity = Zero | Moving(heading: Heading, speed: real)

  datatype State = State(
    startingSpeed: real,
    isPaused: bool,
    gameStarted: bool,
    isResetting: bool,
    canPause: bool,
    unpausePending: bool,
    waitingForStart: bool,
    controlLocked: bool,
    scoreP1: int,
    scoreP2: int,
    lastSide: int,
    winner: int,
    velocity: Velocity,
    savedVelocity: Velocity,
    running: set<Routine>)

  /** The field initialisers followed by `Start`, which starts the grace delay. */
  function Initial(startingSpeed: real): State {
    State(startingSpeed := startingSpeed,
          isPaused := true, gameStarted := false, isResetting := false,
          canPause := false, unpausePending := false, waitingForStart := true,
          controlLocked := false, scoreP1 := 0, scoreP2 := 0, lastSide := 0,
          winner := 0, velocity := Zero, savedVelocity := Zero,
          running := {StartGrace})
  }

  /** What the paddles poll: paused, not started, or locked. */
  function IsPaused(s: State): bool {
    s.isPaused || !s.gameStarted || s.controlLocked
  }

  /** Ball physics and scoring run only in this case (`Update`, `FixedUpdate`). */
  predicate Active(s: State) {
    s.gameStarted && !s.isPaused && !s.isResetting && !s.controlLocked
  }

  /** The guard on the space key in `Update`. */
  predicate SpaceEnabled(s: State) {
    !s.controlLocked && !s.isResetting && s.canPause && !s.unpausePending
  }

  /** `Random.value < 0.5f ? 1 : -1`, for a given draw. */
  function CoinSide(draw: real): (side: int)
    ensures side == 1 || side == -1
    ensures side == 1 <==> draw < 0.5
  {
    if draw < 0.5 then 1 else -1
  }

  function Abs(x: real): real {
    if x < 0.0 then -x else x
  }

  function Min(a: real, b: real): real {
    if a <= b then a else b
  }

  /** The speed at which `LaunchBall` sends the ball off. */
  function LaunchSpeed(s: State): (speed: real)
    ensures s.scoreP1 >= BoostScore || s.scoreP2 >= BoostScore ==> speed == BoostedLaunchSpeed
    ensures s.scoreP1 < BoostScore && s.scoreP2 < BoostScore ==> speed == s.startingSpeed
  {
    if s.scoreP1 >= BoostScore || s.scoreP2 >= BoostScore then BoostedLaunchSpeed else s.startingSpeed
  }

  /** `LaunchBall(directionX)`, with the angle and vertical-sign draws given. */
  function LaunchBall(s: State, directionX: int, angleDegrees: real, verticalDraw: real): State {
    s.(velocity := Moving(Heading(directionX, CoinSide(verticalDraw), angleDegrees), LaunchSpeed(s)))
  }

  /** `TogglePause`: pausing saves and zeroes the velocity, unpausing restores it. */
  function TogglePause(s: State): State {
    if !s.isPaused then
      s.(isPaused := true, savedVelocity := s.velocity, velocity := Zero)
    else
      s.(isPaused := false, velocity := s.savedVelocity)
  }

  /** `StartGameAfterDelay`, after its delay. */
  function StartGameAfterDelayFinish(s: State): State {
    s.(canPause := true, running := s.running - {StartGrace})
  }

  /** `DelayedUnpause` up to its yield. */
  function DelayedUnpause(s: State): State {
    s.(unpausePending := true, canPause := false, running := s.running + {UnpauseDelay})
  }

  /** `DelayedUnpause` after its delay. */
  function DelayedUnpauseFinish(s: State): State {
    var t := TogglePause(s);
    t.(canPause := true, unpausePending := false, running := t.running - {UnpauseDelay})
  }

  /**
   * `StartNewGame` up to the yield inside the nested
   * `PlayResetClipAndLaunchBall`, whose first segment runs at once.
   */
  function StartNewGame(s: State): State {
    s.(isPaused := false, gameStarted := true, controlLocked := false,
       isResetting := true, running := s.running + {LaunchDelay})
  }

  /** `PlayResetClipAndLaunchBall` after the reset clip's delay. */
  function PlayResetClipAndLaunchBallFinish(s: State, sideDraw: real, angleDegrees: real, verticalDraw: real): State {
    var t := LaunchBall(s, CoinSide(sideDraw), angleDegrees, verticalDraw);
    t.(isResetting := false, canPause := true, running := t.running - {LaunchDelay})
  }

  /** `ResetBallWithDelay` up to its yield. */
  function ResetBallWithDelay(s: State): State {
    s.(isResetting := true, velocity := Zero, canPause := false,
       running := s.running + {RelaunchDelay})
  }

  /** `ResetBallWithDelay` after its delay: relaunch away from the last exit. */
  function ResetBallWithDelayFinish(s: State, angleDegrees: real, verticalDraw: real): State {
    var t := LaunchBall(s, -s.lastSide, angleDegrees, verticalDraw);
    t.(canPause := true, isResetting := false, running := t.running - {RelaunchDelay})
  }

  /** `ResetBallWithGameOverSound` up to its yield. */
  function ResetBallWithGameOverSound(s: State): State {
    s.(isResetting := true, controlLocked := true, velocity := Zero,
       running := s.running + {GameOverDelay})
  }

  /** `ResetBallWithGameOverSound` after its delay: back to waiting for start. */
  function ResetBallWithGameOverSoundFinish(s: State): State {
    s.(scoreP1 := 0, scoreP2 := 0, velocity := Zero, isPaused := true,
       gameStarted := false, canPause := true, isResetting := false,
       unpausePending := false, waitingForStart := true, controlLocked := false,
       running := s.running - {GameOverDelay})
  }

  /** The space-key dispatch at the head of `Update`, for a frame on which space went down. */
  function PressSpace(s: State): State {
    if !SpaceEnabled(s) then s
    else if s.waitingForStart then StartNewGame(s.(waitingForStart := false))
    else if s.isPaused then DelayedUnpause(s)
    else TogglePause(s)
  }

  /** The exit check of `Update`, with the ball's x position `x`. */
  function ScoreCheck(s: State, x: real): State {
    if !Active(s) || Abs(x) < CourtBound then s
    else
      var side := if x > 0.0 then 1 else -1;
      var t := if side == 1 then s.(lastSide := side, scoreP2 := s.scoreP2 + 1)
               else s.(lastSide := side, scoreP1 := s.scoreP1 + 1);
      if !(t.scoreP1 >= ScoreLimit || t.scoreP2 >= ScoreLimit) then
        ResetBallWithDelay(t)
      else
        ResetBallWithGameOverSound(t.(winner := if t.scoreP1 >= ScoreLimit then 1 else 2))
  }

  /** One call of `Update`: the key dispatch, then the exit check. */
  function Update(s: State, spaceDown: bool, x: real): State {
    ScoreCheck(if spaceDown then PressSpace(s) else s, x)
  }

  /** The speed ramp of `FixedUpdate` on speed magnitudes. */
  function SpeedStep(speed: real, startingSpeed: real): (r: real)
    ensures r <= SpeedCapFactor * startingSpeed
    ensures speed <= SpeedCapFactor * startingSpeed ==> speed <= r
    ensures speed < SpeedCapFactor * startingSpeed ==> r == Min(speed + SpeedIncrease, SpeedCapFactor * startingSpeed)
    ensures speed >= SpeedCapFactor * startingSpeed ==> r == SpeedCapFactor * startingSpeed
  {
    var maxSpeed := startingSpeed * SpeedCapFactor;
    if speed < maxSpeed then
      if speed + SpeedIncrease > maxSpeed then maxSpeed else speed + SpeedIncrease
    else
      maxSpeed
  }

  /** `FixedUpdate` on the velocity: the zero vector normalises to zero and stays put. */
  function RampVelocity(v: Velocity, startingSpeed: real): Velocity {
    match v
    case Zero => Zero
    case Moving(h, speed) => Moving(h, SpeedStep(speed, startingSpeed))
  }

  /** One physics step (`FixedUpdate`), without the angle clamp. */
  function FixedUpdate(s: State): State {
    if !Active(s) then s else s.(velocity := RampVelocity(s.velocity, s.startingSpeed))
  }

  /** The things the engine can do to the controller. */
  datatype Event =
    | Frame(spaceDown: bool, ballX: real)
    | PhysicsStep
    | GraceElapsed
    | UnpauseElapsed
    | LaunchElapsed(sideDraw: real, angleDegrees: real, verticalDraw: real)
    | RelaunchElapsed(angleDegrees: real, verticalDraw: real)
    | GameOverElapsed

  /** The effect of one event; a delay can only elapse for a coroutine that is suspended. */
  function Step(s: State, e: Event): State {
    match e
    case Frame(spaceDown, x) => Update(s, spaceDown, x)
    case PhysicsStep => FixedUpdate(s)
    case GraceElapsed =>
      if StartGrace in s.running then StartGameAfterDelayFinish(s) else s
    case UnpauseElapsed =>
      if UnpauseDelay in s.running then DelayedUnpauseFinish(s) else s
    case LaunchElapsed(side, angle, vertical) =>
      if LaunchDelay in s.running then PlayResetClipAndLaunchBallFinish(s, side, angle, vertical) else s
    case RelaunchElapsed(angle, vertical) =>
      if RelaunchDelay in s.running then ResetBallWithDelayFinish(s, angle, vertical) else s
    case GameOverElapsed =>
      if GameOverDelay in s.running then ResetBallWithGameOverSoundFinish(s) else s
  }

  /** The state after a sequence of events. */
  function Run(s: State, events: seq<Event>): State
    decreases |events|
  {
    if events == [] then s else Run(Step(s, events[0]), events[1..])
  }
}
