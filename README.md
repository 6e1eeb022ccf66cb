# Pong ball controller: a Dafny model

This project models the gameplay state machine of a two-player Pong game: the
`Ball` component in `CS/Ball.cs`. It covers the component's control flags
(`isPaused`, `gameStarted`, `isResetting`, `canPause`, `unpausePending`,
`waitingForStart`, `controlLocked`), the score pair, `lastSide`, `winner`, the
ball's velocity and the saved velocity. The ball's x position at the exit
check is a parameter. The velocity is the zero vector or a launch heading with
a speed.

The engine runs the component's coroutines and suspends each at its `yield`.
Here each coroutine is two transitions: a "begin" for the code before the
delay and a "finish" for the code after it. The engine's set of suspended
coroutines is a field (`running`), and the engine may only resume a
coroutine in that set. Random draws (`Random.value`, `Random.Range`) are
parameters.

Files:
- `pong_state.dfy` (module `PongState`): the state record, one pure
  transition per callback and per coroutine segment, the engine's events and
  runs of events.
- `pong_invariants.dfy` (module `PongInvariants`): eight named phases, each
  with the flags, the running coroutine, the score range and the velocity it
  allows. It proves that every reachable state is in exactly one phase and
  that every event follows the phase graph
  Booting → Waiting → Launching → Playing → Paused → Unpausing → Playing,
  Playing → Relaunching → Playing, Playing → GameOver → Waiting.
  The properties of the controller follow from that.
- `ball.dfy` (module `BallController`): class `Ball`. Its fields are updated
  in place in the source's order, with one method per callback and coroutine
  segment. Each method's new state is the matching `PongState` transition of
  the old state, and each engine event keeps the invariant `Valid`.

Behaviour of the code that the model follows:
- `winner` is set when a score reaches 10 and never cleared afterwards;
  the game-over sequence leaves it, `lastSide` and the saved velocity as they
  were (`GameOverRestoresWaiting`).
- `IsPaused()` is false during the start sequence's launch delay, so the
  paddles can move before the ball is launched (`StartingIsNotPaused`).
- In every reachable state `waitingForStart` holds exactly when the game has
  not started (`EnabledEvents`). The `SavePaddlesWaitingState` call at the end
  of `Update` (CS/Ball.cs:145-148) sits behind an early return that needs
  `gameStarted`. So with the audio clips configured (see "Left out") it never
  runs, and the paddle snapshot is taken only in `Start`. Without the score
  audio source or the game-over clip, the game-over sequence finishes inside
  the same `Update`, and the call does run.
- The launch speed is not capped. A launch at the boosted speed 7 exceeds the
  cap of 5× the starting speed when the starting speed is below 1.4. The first
  physics step then brings the speed down to the cap (`LaunchCanExceedCap`).
  In every reachable state the speed stays within the larger of the cap and 7,
  which is the cap itself from a starting speed of 1.4 up (`SpeedBounded`).
- A physics step on a zero velocity leaves it zero, because the normalised
  zero vector is zero. In every reachable state where physics runs the
  velocity is non-zero, so the ramp always acts.

## Model

| member | source | states |
|---|---|---|
| `PongState.CoinSide` | CS/Ball.cs:210 | a coin draw gives side 1 exactly when it is below 0.5, and -1 otherwise |
| `PongState.LaunchSpeed` | CS/Ball.cs:341 | the launch speed is 7 once either score reaches 6, and the starting speed before that |
| `PongState.SpeedStep` | CS/Ball.cs:318-330 | one physics step never leaves the speed above 5× the starting speed; below the cap it adds 0.1 up to the cap; at or above the cap it gives the cap; it never slows a ball that is under the cap |
| `PongInvariants.PhaseOf` | CS/Ball.cs:19-58 | every state that keeps the invariant is in one named phase |
| `PongInvariants.PhasesExclusive` | CS/Ball.cs:19-58 | no state is in two phases: the flags, the running coroutine, the scores and the velocity tell the phases apart |
| `PongInvariants.InitialIsBooting` | CS/Ball.cs:13-85 | after the field initialisers and `Start`, the controller waits for the grace delay with scores (0,0), paused, not started and the key disabled |
| `PongInvariants.FrameStep` | CS/Ball.cs:93-149 | a frame keeps the invariant and moves along the phase graph: a start, a pause, a delayed unpause, an exit that scores, or nothing |
| `PongInvariants.StepFollowsGraph` | CS/Ball.cs:87-417 | every engine event keeps the invariant and either stays in its phase or takes an edge of the phase graph |
| `PongInvariants.RunKeepsInv` | CS/Ball.cs:87-417 | any run of events from a state that keeps the invariant ends in one that keeps it |
| `PongInvariants.Reachable` | CS/Ball.cs:60-417 | every state reachable from start-up is in one of the eight phases |
| `PongInvariants.ScoresBounded` | CS/Ball.cs:112-142 | in every reachable state both scores lie in [0, 10] |
| `PongInvariants.RunningDeterminedByFlags` | CS/Ball.cs:165-417 | at most one coroutine is ever suspended, and the flags name it: `unpausePending` for the delayed unpause, `controlLocked` for game over, `isResetting` with or without `canPause` for the launch or the relaunch |
| `PongInvariants.EnabledEvents` | CS/Ball.cs:95-112 | the space key acts exactly in the Waiting, Playing and Paused phases; exits are checked exactly while Playing; `waitingForStart` holds exactly when the game has not started |
| `PongInvariants.IsPausedPhases` | CS/Ball.cs:307-310 | the pause query holds exactly while booting, waiting, paused, unpausing and in the game-over sequence, and fails while launching, playing and relaunching |
| `PongInvariants.SpaceDispatch` | CS/Ball.cs:95-110 | a space press changes nothing unless control is unlocked, no reset runs, `canPause` holds and no unpause is pending; if it acts, it starts a game when waiting for start, begins a delayed unpause when paused and pauses otherwise |
| `PongInvariants.ScoringRule` | CS/Ball.cs:112-127 | an exit scores only while active and once the absolute value of x is at least 13; an exit with x > 0 adds exactly 1 to P2, any other exit adds exactly 1 to P1, and the other score stays |
| `PongInvariants.ScoringOutcome` | CS/Ball.cs:129-142 | after a point both paths set `isResetting` and stop the ball; with both scores below 10 the relaunch starts and `winner` stays; otherwise `winner` is 1 if P1 reached 10 and 2 if not, and the game-over sequence starts with control locked |
| `PongInvariants.SuspendedIgnoresFrames` | CS/Ball.cs:95-112 | while any coroutine is suspended, any run of frames and physics steps leaves the state exactly as it was |
| `PongInvariants.NoSecondScore` | CS/Ball.cs:112-142 | after a scoring exit, no run of frames can score again before the relaunch or game-over sequence finishes |
| `PongInvariants.GameOverRestoresWaiting` | CS/Ball.cs:388-416 | the game-over sequence ends in the initial waiting state: scores (0,0), paused, not started, waiting for start, key enabled, no reset, no pending unpause, unlocked, velocity zero; only `lastSide`, `winner` and the saved velocity keep their values |
| `PongInvariants.PauseRoundTrip` | CS/Ball.cs:102-109 | from play, a space press pauses, saving the velocity and zeroing it; a second press begins the delayed unpause; its finish returns the ball to play with the velocity it had |
| `PongInvariants.ToggleTwice` | CS/Ball.cs:218-249 | a pausing toggle saves the velocity and sets it to zero, and the unpausing toggle after it restores it |
| `PongInvariants.DelayedUnpausePhases` | CS/Ball.cs:165-176 | the begin sets `unpausePending` and clears `canPause`, so the key is blocked; the finish unpauses with the saved velocity, sets `canPause` and clears `unpausePending` |
| `PongInvariants.RelaunchAwayFromExit` | CS/Ball.cs:361-368 | the relaunch sends the ball toward `-lastSide`, with a non-zero horizontal sign, at the launch speed; it sets `canPause`, clears `isResetting` and returns to play |
| `PongInvariants.StartingIsNotPaused` | CS/Ball.cs:178-202 | a start press enters the launch delay, and the pause query is false there |
| `PongInvariants.RampApproachesCap` | CS/Ball.cs:318-330 | from at or below the cap, n physics steps give min(s + 0.1·n, 5× the starting speed) |
| `PongInvariants.SpeedBounded` | CS/Ball.cs:318-341 | in every reachable state a moving ball, and the velocity saved while paused, are no faster than the larger of 5× the starting speed and the boosted launch speed 7; from a starting speed of 1.4 that bound is the cap itself |
| `PongInvariants.LaunchCanExceedCap` | CS/Ball.cs:318-341 | with a starting speed of 1, a start followed by six left exits and relaunches puts the ball in play at speed 7, above the cap of 5 |
| `PongInvariants.LeftPointsRaiseP1` | CS/Ball.cs:114-142 | n left exits, each followed by its relaunch, give P1 exactly n points, leave P2's score alone and end in play at the launch speed for the new scores |
| `PongInvariants.PhysicsStepCapped` | CS/Ball.cs:312-330 | a physics step on a moving, active ball keeps its heading and leaves its speed at or below the cap |
| `PongInvariants.ScenarioRightExit` | CS/Ball.cs:114-137 | at (0,0), an exit at x = 13 makes the scores (0,1) and starts the relaunch, not the game-over sequence |
| `PongInvariants.ScenarioPlayerOneWins` | CS/Ball.cs:114-142 | with P1 at 9, an exit at x = -13 gives P1 10 points, winner 1 and the game-over sequence, which ends at (0,0) waiting for start |
| `BallController.Ball.constructor` | CS/Ball.cs:60-85 | the fields start as their initialisers and `Start` set them, with the grace delay suspended |
| `BallController.Ball.StartGameAfterDelayFinish` | CS/Ball.cs:87-91 | after the grace delay, the key is enabled and the invariant holds |
| `BallController.Ball.Update` | CS/Ball.cs:93-149 | a frame does the key dispatch and then the exit check, in that order, and keeps the invariant |
| `BallController.Ball.DelayedUnpause` | CS/Ball.cs:165-170 | the begin of the delayed unpause: the unpause is pending and the key is blocked |
| `BallController.Ball.DelayedUnpauseFinish` | CS/Ball.cs:172-176 | the finish toggles the pause, frees the key and keeps the invariant |
| `BallController.Ball.StartNewGame` | CS/Ball.cs:178-207 | the start sequence up to the reset clip: unpaused, started, unlocked, resetting, with the launch delay suspended |
| `BallController.Ball.PlayResetClipAndLaunchBallFinish` | CS/Ball.cs:210-215 | the launch goes to the side the coin draw picks, and then the reset ends and the key is enabled |
| `BallController.Ball.TogglePause` | CS/Ball.cs:218-257 | the pause flag flips; pausing saves the velocity and zeroes it; unpausing restores the saved velocity |
| `BallController.Ball.IsPaused` | CS/Ball.cs:307-310 | the query holds exactly when the game is paused, not started, or control is locked, and it changes nothing |
| `BallController.Ball.FixedUpdate` | CS/Ball.cs:312-333 | only an active ball ramps; its speed follows `SpeedStep`; the zero vector stays zero |
| `BallController.Ball.LaunchBall` | CS/Ball.cs:335-347 | the new velocity has the given horizontal sign, the drawn vertical sign and angle, and the launch speed |
| `BallController.Ball.ResetBallWithDelay` | CS/Ball.cs:349-359 | the begin of the relaunch: resetting, velocity zero, key blocked, relaunch delay suspended |
| `BallController.Ball.ResetBallWithDelayFinish` | CS/Ball.cs:361-368 | the relaunch goes toward `-lastSide`, the key is enabled, the reset ends, and the invariant holds |
| `BallController.Ball.ResetBallWithGameOverSound` | CS/Ball.cs:371-386 | the begin of game over: resetting, control locked, velocity zero, game-over delay suspended |
| `BallController.Ball.ResetBallWithGameOverSoundFinish` | CS/Ball.cs:388-416 | the end of game over: back to the waiting state, and the invariant holds |

## Left out

- The direction maths of `LaunchBall`, `ClampBallAngle` and the paddle branch of `OnCollisionEnter2D`: these are float vector renormalisation, and they keep the speed only approximately. The velocity keeps the heading drawn at launch.
- Changes the physics engine makes to the velocity between callbacks, such as bounces off walls and paddles, are not modelled.
- Audio playback, pause and seek (`scoreAudioSource`, `audioPausedTime`), sprite alpha (`SetAlpha`, `SetPaddlesAlpha`), cursor visibility, the post-process volume, the win banners and the score labels are left out. They are engine side effects that no logic reads.
- `SavePaddlesWaitingState`, `RestorePaddlesWaitingState`, `p1.ResetScale()`, the ball's position, its angular velocity and its kinematic flag are left out. They copy engine transforms or set engine state, and the kinematic flag's starting value comes from the scene.
- When to resume a coroutine is the engine's choice. The `WaitForSeconds` delays are finish events, not time.
- The model assumes the audio clips are configured, so every coroutine yields. In `PlayResetClipAndLaunchBall` and `ResetBallWithGameOverSound`, a missing clip skips the wait, which is the begin followed at once by the finish. `ResetBallWithDelay` reads `resetClip.length` even when the clip is missing (CS/Ball.cs:359); that failure path is not modelled.
- `Random` draws are parameters. The `Random.Range(5f, 37.5f)` range of the angle is not constrained, because nothing in the logic reads the angle.
- `QuitGame` is a process exit.
- The paddle component `CS/P2.cs` is per-frame key polling and movement clamped to [-4.5, 4.5]. It reads only `IsPaused()`, which is modelled here.
- BallController.Ball.constructor: requires a positive `startingSpeed`. The source accepts any value of this inspector tunable, but the speed cap and the launch speed only make sense for a positive one.
- Float rounding is not modelled: speeds are reals and 0.1f is exactly 0.1. Scores are unbounded integers, and they are proved to stay within [0, 10], so the source's `int` never overflows.
