/**
 * The `Ball` component as an object: its fields are updated in place, one
 * method per engine callback and per coroutine segment, in the order the
 * component runs them. Each method's new state is the matching transition of
 * PongState applied to the old one, so everything proved there about
 * reachable states holds of the object, whose invariant `Valid` every engine
 * event keeps.
 */
module BallController {
  import PongState
  import PongInvariants

  class Ball {
    /** The inspector tunable `startingSpeed`. */
    const startingSpeed: real

    var scoreP1: int
    var scoreP2: int
    var isResetting: bool
    var isPaused: bool
    var gameStarted: bool
    var canPause: bool
    var lastSide: int
    var winner: int
    var savedVelocity: PongState.Velocity
    var unpausePending: bool
    var waitingForStart: bool
    var controlLocked: bool
    /** The rigid body's linear velocity. */
    var velocity: PongState.Velocity
    /** The coroutines of this component the engine holds suspended. */
    var running: set<PongState.Routine>

    function Snapshot(): PongState.State
      reads this
    {
      PongState.State(startingSpeed, isPaused, gameStarted, isResetting, canPause,
                      unpausePending, waitingForStart, controlLocked, scoreP1, scoreP2,
                      lastSide, winner, velocity, savedVelocity, running)
    }

    ghost predicate Valid()
      reads this
    {
      PongInvariants.Inv(Snapshot())
    }

    /** The field initialisers and `Start`, which leaves the grace delay running. */
    constructor (startingSpeed: real)
      requires startingSpeed > 0.0
      ensures Valid()
      ensures Snapshot() == PongState.Initial(startingSpeed)
    {
      this.startingSpeed := startingSpeed;
      scoreP1, scoreP2 := 0, 0;
      isResetting := false;
      isPaused := true;
      gameStarted := false;
      canPause := false;
      lastSide, winner := 0, 0;
      savedVelocity := PongState.Zero;
      unpausePending := false;
      waitingForStart := true;
      controlLocked := false;
      velocity := PongState.Zero;
      running := {PongState.StartGrace};
      new;
      PongInvariants.InitialIsBooting(startingSpeed);
    }

    /** `StartGameAfterDelay`, after its delay. */
    method StartGameAfterDelayFinish()
      requires Valid() && PongState.StartGrace in running
      modifies this
      ensures Valid()
      ensures Snapshot() == PongState.StartGameAfterDelayFinish(old(Snapshot()))
    {
      PongInvariants.StepFollowsGraph(Snapshot(), PongState.GraceElapsed);
      canPause := true;
      running := running - {PongState.StartGrace};
    }

    /** `Update`, on a frame where the space key did or did not go down and the ball is at x. */
    method Update(spaceDown: bool, x: real)
      requires Valid()
      modifies this
      ensures Valid()
      ensures Snapshot() == PongState.Update(old(Snapshot()), spaceDown, x)
    {
      PongInvariants.FrameStep(Snapshot(), spaceDown, x);
      if !controlLocked && spaceDown && !isResetting && canPause && !unpausePending {
        if waitingForStart {
          waitingForStart := false;
          StartNewGame();
        } else if isPaused {
          DelayedUnpause();
        } else {
          TogglePause();
        }
      }
      if !gameStarted || isPaused || isResetting || controlLocked {
        return;
      }
      if PongState.Abs(x) >= PongState.CourtBound {
        lastSide := if x > 0.0 then 1 else -1;
        if lastSide == 1 {
          scoreP2 := scoreP2 + 1;
        } else {
          scoreP1 := scoreP1 + 1;
        }
        var gameIsOver := scoreP1 >= PongState.ScoreLimit || scoreP2 >= PongState.ScoreLimit;
        if !gameIsOver {
          ResetBallWithDelay();
        } else {
          winner := if scoreP1 >= PongState.ScoreLimit then 1 else 2;
          ResetBallWithGameOverSound();
        }
      }
    }

    /** `DelayedUnpause` up to its yield.
     * Called only from inside an event method, which re-establishes `Valid`.
     */
    method DelayedUnpause()
      modifies this
      ensures Snapshot() == PongState.DelayedUnpause(old(Snapshot()))
    {
      unpausePending := true;
      canPause := false;
      running := running + {PongState.UnpauseDelay};
    }

    /** `DelayedUnpause` after its delay. */
    method DelayedUnpauseFinish()
      requires Valid() && PongState.UnpauseDelay in running
      modifies this
      ensures Valid()
      ensures Snapshot() == PongState.DelayedUnpauseFinish(old(Snapshot()))
    {
      PongInvariants.StepFollowsGraph(Snapshot(), PongState.UnpauseElapsed);
      TogglePause();
      canPause := true;
      unpausePending := false;
      running := running - {PongState.UnpauseDelay};
    }

    /** `StartNewGame` and the nested `PlayResetClipAndLaunchBall`, up to the yield.
     * Called only from inside an event method, which re-establishes `Valid`.
     */
    method StartNewGame()
      modifies this
      ensures Snapshot() == PongState.StartNewGame(old(Snapshot()))
    {
      isPaused := false;
      gameStarted := true;
      controlLocked := false;
      isResetting := true;
      running := running + {PongState.LaunchDelay};
    }

    /** `PlayResetClipAndLaunchBall` after the reset clip, with the random draws given. */
    method PlayResetClipAndLaunchBallFinish(sideDraw: real, angleDegrees: real, verticalDraw: real)
      requires Valid() && PongState.LaunchDelay in running
      modifies this
      ensures Valid()
      ensures Snapshot() ==
              PongState.PlayResetClipAndLaunchBallFinish(old(Snapshot()), sideDraw, angleDegrees, verticalDraw)
    {
      PongInvariants.StepFollowsGraph(Snapshot(), PongState.LaunchElapsed(sideDraw, angleDegrees, verticalDraw));
      LaunchBall(if sideDraw < 0.5 then 1 else -1, angleDegrees, verticalDraw);
      isResetting := false;
      canPause := true;
      running := running - {PongState.LaunchDelay};
    }

    /** `TogglePause`.
     * Called only from inside an event method, which re-establishes `Valid`.
     */
    method TogglePause()
      modifies this
      ensures Snapshot() == PongState.TogglePause(old(Snapshot()))
    {
      isPaused := !isPaused;
      if isPaused {
        savedVelocity := velocity;
        velocity := PongState.Zero;
      } else {
        velocity := savedVelocity;
      }
    }

    /** The pause query the paddles poll. */
    method IsPaused() returns (r: bool)
      ensures r == (isPaused || !gameStarted || controlLocked)
      ensures r == PongState.IsPaused(Snapshot())
    {
      return isPaused || !gameStarted || controlLocked;
    }

    /** `FixedUpdate` without the angle clamp: the speed ramp of an active ball. */
    method FixedUpdate()
      requires Valid()
      modifies this
      ensures Valid()
      ensures Snapshot() == PongState.FixedUpdate(old(Snapshot()))
    {
      PongInvariants.StepFollowsGraph(Snapshot(), PongState.PhysicsStep);
      if !gameStarted || isPaused || isResetting || controlLocked {
        return;
      }
      var maxSpeed := startingSpeed * PongState.SpeedCapFactor;
      match velocity
      case Zero =>
      case Moving(heading, currentSpeed) =>
        if currentSpeed < maxSpeed {
          var newSpeed := currentSpeed + PongState.SpeedIncrease;
          velocity := PongState.Moving(heading, if newSpeed > maxSpeed then maxSpeed else newSpeed);
        } else {
          velocity := PongState.Moving(heading, maxSpeed);
        }
    }

    /** `LaunchBall(directionX)` without the vector maths, with the random draws given.
     * Called only from inside an event method, which re-establishes `Valid`.
     */
    method LaunchBall(directionX: int, angleDegrees: real, verticalDraw: real)
      modifies this
      ensures Snapshot() == PongState.LaunchBall(old(Snapshot()), directionX, angleDegrees, verticalDraw)
    {
      var verticalDir := if verticalDraw < 0.5 then 1 else -1;
      var launchSpeed := if scoreP1 >= PongState.BoostScore || scoreP2 >= PongState.BoostScore
                         then PongState.BoostedLaunchSpeed else startingSpeed;
      velocity := PongState.Moving(PongState.Heading(directionX, verticalDir, angleDegrees), launchSpeed);
    }

    /** `ResetBallWithDelay` up to its yield.
     * Called only from inside an event method, which re-establishes `Valid`.
     */
    method ResetBallWithDelay()
      modifies this
      ensures Snapshot() == PongState.ResetBallWithDelay(old(Snapshot()))
    {
      isResetting := true;
      velocity := PongState.Zero;
      canPause := false;
      running := running + {PongState.RelaunchDelay};
    }

    /** `ResetBallWithDelay` after its delay, with the random draws given. */
    method ResetBallWithDelayFinish(angleDegrees: real, verticalDraw: real)
      requires Valid() && PongState.RelaunchDelay in running
      modifies this
      ensures Valid()
      ensures Snapshot() == PongState.ResetBallWithDelayFinish(old(Snapshot()), angleDegrees, verticalDraw)
    {
      PongInvariants.StepFollowsGraph(Snapshot(), PongState.RelaunchElapsed(angleDegrees, verticalDraw));
      LaunchBall(-lastSide, angleDegrees, verticalDraw);
      canPause := true;
      isResetting := false;
      running := running - {PongState.RelaunchDelay};
    }

    /** `ResetBallWithGameOverSound` up to its yield.
     * Called only from inside an event method, which re-establishes `Valid`.
     */
    method ResetBallWithGameOverSound()
      modifies this
      ensures Snapshot() == PongState.ResetBallWithGameOverSound(old(Snapshot()))
    {
      isResetting := true;
      controlLocked := true;
      velocity := PongState.Zero;
      running := running + {PongState.GameOverDelay};
    }

    /** `ResetBallWithGameOverSound` after its delay. */
    method ResetBallWithGameOverSoundFinish()
      requires Valid() && PongState.GameOverDelay in running
      modifies this
      ensures Valid()
      ensures Snapshot() == PongState.ResetBallWithGameOverSoundFinish(old(Snapshot()))
    {
      ghost var before := Snapshot();
      PongInvariants.StepFollowsGraph(before, PongState.GameOverElapsed);
      assert PongInvariants.Inv(PongState.ResetBallWithGameOverSoundFinish(before));
      scoreP1 := 0;
      scoreP2 := 0;
      velocity := PongState.Zero;
      isPaused := true;
      gameStarted := false;
      canPause := true;
      isResetting := false;
      unpausePending := false;
      waitingForStart := true;
      controlLocked := false;
      running := running - {PongState.GameOverDelay};
      assert Snapshot() == PongState.ResetBallWithGameOverSoundFinish(before);
    }
  }
}
