/**
 * The phases the ball controller's flags combine into, the invariant that
 * every reachable state is in exactly the phase its flags name, and the
 * properties of the controller that follow from it.
 */
module PongInvariants {
  import opened PongState

  /** The named phases of the controller's state machine. */
  datatype Phase =
    | Booting       // the grace delay after Start is running
    | Waiting       // waiting for the first space press
    | Launching     // start sequence: the reset clip plays before the launch
    | Playing       // the ball is in play
    | Paused        // play is paused
    | Unpausing     // the delayed unpause is running
    | Relaunching   // a point was scored; the relaunch delay is running
    | GameOver      // the game-over sequence is running

  /** The seven flags, in the order of their declaration in the controller. */
  predicate Flags(s: State, isResetting: bool, isPaused: bool, gameStarted: bool,
                  canPause: bool, unpausePending: bool, waitingForStart: bool,
                  controlLocked: bool)
  {
    && s.isResetting == isResetting && s.isPaused == isPaused
    && s.gameStarted == gameStarted && s.canPause == canPause
    && s.unpausePending == unpausePending && s.waitingForStart == waitingForStart
    && s.controlLocked == controlLocked
  }

  predicate IsMoving(v: Velocity) {
    v.Moving? && v.speed > 0.0
  }

  /** The speed cap of the physics step, 5× the starting speed. */
  function SpeedCap(startingSpeed: real): real {
    SpeedCapFactor * startingSpeed
  }

  /**
   * The largest speed a ball can have: the cap or the boosted launch speed,
   * whichever is larger, since a launch is not capped.
   */
  function SpeedBound(startingSpeed: real): real {
    if SpeedCap(startingSpeed) >= BoostedLaunchSpeed then SpeedCap(startingSpeed) else BoostedLaunchSpeed
  }

  /** A moving velocity no faster than the bound. */
  predicate InFlight(v: Velocity, startingSpeed: real) {
    IsMoving(v) && v.speed <= SpeedBound(startingSpeed)
  }

  /** Both scores are below the limit. */
  predicate InGame(s: State) {
    0 <= s.scoreP1 < ScoreLimit && 0 <= s.scoreP2 < ScoreLimit
  }

  predicate NoScores(s: State) {
    s.scoreP1 == 0 && s.scoreP2 == 0
  }

  /** What each phase means for the state. */
  predicate In(s: State, p: Phase) {
    match p
    case Booting =>
      Flags(s, false, true, false, false, false, true, false) && s.running == {StartGrace}
      && NoScores(s) && s.velocity == Zero
    case Waiting =>
      Flags(s, false, true, false, true, false, true, false) && s.running == {}
      && NoScores(s) && s.velocity == Zero
    case Launching =>
      Flags(s, true, false, true, true, false, false, false) && s.running == {LaunchDelay}
      && NoScores(s) && s.velocity == Zero
    case Playing =>
      Flags(s, false, false, true, true, false, false, false) && s.running == {}
      && InGame(s) && InFlight(s.velocity, s.startingSpeed)
    case Paused =>
      Flags(s, false, true, true, true, false, false, false) && s.running == {}
      && InGame(s) && s.velocity == Zero && InFlight(s.savedVelocity, s.startingSpeed)
    case Unpausing =>
      Flags(s, false, true, true, false, true, false, false) && s.running == {UnpauseDelay}
      && InGame(s) && s.velocity == Zero && InFlight(s.savedVelocity, s.startingSpeed)
    case Relaunching =>
      Flags(s, true, false, true, false, false, false, false) && s.running == {RelaunchDelay}
      && InGame(s) && s.velocity == Zero && (s.lastSide == 1 || s.lastSide == -1)
    case GameOver =>
      Flags(s, true, false, true, true, false, false, true) && s.running == {GameOverDelay}
      && s.velocity == Zero
      && ((s.scoreP1 == ScoreLimit && 0 <= s.scoreP2 < ScoreLimit && s.winner == 1 && s.lastSide == -1)
       || (s.scoreP2 == ScoreLimit && 0 <= s.scoreP1 < ScoreLimit && s.winner == 2 && s.lastSide == 1))
  }

  /** The invariant of every reachable state: a positive tunable and some phase. */
  predicate Inv(s: State) {
    s.startingSpeed > 0.0 && exists p: Phase :: In(s, p)
  }

  /** The phase of a state that satisfies the invariant. */
  function PhaseOf(s: State): (p: Phase)
    requires Inv(s)
    ensures In(s, p)
  {
    if In(s, Booting) then Booting
    else if In(s, Waiting) then Waiting
    else if In(s, Launching) then Launching
    else if In(s, Playing) then Playing
    else if In(s, Paused) then Paused
    else if In(s, Unpausing) then Unpausing
    else if In(s, Relaunching) then Relaunching
    else GameOver
  }

  /** The transitions of the state machine, besides staying in place. */
  predicate Edge(p: Phase, q: Phase) {
    match p
    case Booting => q == Waiting
    case Waiting => q == Launching
    case Launching => q == Playing
    case Playing => q == Paused || q == Relaunching || q == GameOver
    case Paused => q == Unpausing
    case Unpausing => q == Playing
    case Relaunching => q == Playing
    case GameOver => q == Waiting
  }

  lemma PhasesExclusive(s: State, p: Phase, q: Phase)
    requires In(s, p) && In(s, q)
    ensures p == q
  {
  }

  lemma InitialIsBooting(startingSpeed: real)
    requires startingSpeed > 0.0
    ensures Inv(Initial(startingSpeed)) && PhaseOf(Initial(startingSpeed)) == Booting
  {
    assert In(Initial(startingSpeed), Booting);
  }

  lemma SpeedStepPositive(speed: real, startingSpeed: real)
    requires speed > 0.0 && startingSpeed > 0.0
    ensures SpeedStep(speed, startingSpeed) > 0.0
  {
  }

  /** Each frame keeps the invariant and follows the phase graph. */
  lemma FrameStep(s: State, spaceDown: bool, x: real)
    requires Inv(s)
    ensures Inv(Update(s, spaceDown, x))
    ensures var q := PhaseOf(Update(s, spaceDown, x));
            q == PhaseOf(s) || Edge(PhaseOf(s), q)
  {
    var p := PhaseOf(s);
    var t := if spaceDown then PressSpace(s) else s;
    var u := ScoreCheck(t, x);
    match p
    case Booting =>
      assert t == s && u == s;
    case Waiting =>
      assert u == t;
      if spaceDown { assert In(u, Launching); } else { assert In(u, Waiting); }
    case Launching =>
      assert u == s;
    case Playing =>
      if spaceDown {
        assert In(t, Paused) && u == t;
      } else if !Active(s) || Abs(x) < CourtBound {
        assert u == s;
      } else if x > 0.0 {
        if u.scoreP2 >= ScoreLimit { assert In(u, GameOver); } else { assert In(u, Relaunching); }
      } else {
        if u.scoreP1 >= ScoreLimit { assert In(u, GameOver); } else { assert In(u, Relaunching); }
      }
    case Paused =>
      if spaceDown { assert In(u, Unpausing); } else { assert u == s; }
    case Unpausing =>
      assert u == s;
    case Relaunching =>
      assert u == s;
    case GameOver =>
      assert u == s;
  }

  /** Each event keeps the invariant and follows the phase graph. */
  lemma StepFollowsGraph(s: State, e: Event)
    requires Inv(s)
    ensures Inv(Step(s, e)) && Step(s, e).startingSpeed == s.startingSpeed
    ensures PhaseOf(Step(s, e)) == PhaseOf(s) || Edge(PhaseOf(s), PhaseOf(Step(s, e)))
  {
    var p := PhaseOf(s);
    var u := Step(s, e);
    match e
    case Frame(spaceDown, x) =>
      FrameStep(s, spaceDown, x);
    case PhysicsStep =>
      if p == Playing {
        SpeedStepPositive(s.velocity.speed, s.startingSpeed);
        assert In(u, Playing);
      } else {
        assert u == s;
      }
    case GraceElapsed =>
      if p == Booting { assert In(u, Waiting); } else { assert u == s; }
    case UnpauseElapsed =>
      if p == Unpausing { assert In(u, Playing); } else { assert u == s; }
    case LaunchElapsed(_, _, _) =>
      if p == Launching { assert In(u, Playing); } else { assert u == s; }
    case RelaunchElapsed(_, _) =>
      if p == Relaunching { assert In(u, Playing); } else { assert u == s; }
    case GameOverElapsed =>
      if p == GameOver { assert In(u, Waiting); } else { assert u == s; }
  }

  /** Every state reachable from a state that keeps the invariant keeps it too. */
  lemma {:induction false} RunKeepsInv(s: State, events: seq<Event>)
    requires Inv(s)
    ensures Inv(Run(s, events)) && Run(s, events).startingSpeed == s.startingSpeed
    decreases |events|
  {
    if events != [] {
      StepFollowsGraph(s, events[0]);
      RunKeepsInv(Step(s, events[0]), events[1..]);
    }
  }

  /** Every reachable state is in one of the phases. */
  lemma Reachable(startingSpeed: real, events: seq<Event>)
    requires startingSpeed > 0.0
    ensures Inv(Run(Initial(startingSpeed), events))
    ensures Run(Initial(startingSpeed), events).startingSpeed == startingSpeed
  {
    InitialIsBooting(startingSpeed);
    RunKeepsInv(Initial(startingSpeed), events);
  }

  /** Across all reachable states both scores stay within [0, 10]. */
  lemma ScoresBounded(startingSpeed: real, events: seq<Event>)
    requires startingSpeed > 0.0
    ensures var s := Run(Initial(startingSpeed), events);
            0 <= s.scoreP1 <= ScoreLimit && 0 <= s.scoreP2 <= ScoreLimit
  {
    Reachable(startingSpeed, events);
  }

  /** At most one coroutine is ever suspended, and the flags say which. */
  lemma RunningDeterminedByFlags(s: State)
    requires Inv(s)
    ensures |s.running| <= 1
    ensures StartGrace in s.running <==> !s.canPause && !s.gameStarted
    ensures UnpauseDelay in s.running <==> s.unpausePending
    ensures LaunchDelay in s.running <==> s.isResetting && s.canPause && !s.controlLocked
    ensures RelaunchDelay in s.running <==> s.isResetting && !s.canPause
    ensures GameOverDelay in s.running <==> s.controlLocked
  {
  }

  /** The events that can change a state in each phase. */
  lemma EnabledEvents(s: State)
    requires Inv(s)
    ensures SpaceEnabled(s) <==> PhaseOf(s) in {Waiting, Playing, Paused}
    ensures Active(s) <==> PhaseOf(s) == Playing
    ensures s.waitingForStart <==> !s.gameStarted
  {
  }

  /** The pause query is true exactly in the phases where the paddles must not move. */
  lemma IsPausedPhases(s: State)
    requires Inv(s)
    ensures IsPaused(s) <==> PhaseOf(s) in {Booting, Waiting, Paused, Unpausing, GameOver}
  {
  }

  /** A space press does nothing unless its guard holds; otherwise exactly one branch runs. */
  lemma SpaceDispatch(s: State)
    ensures !SpaceEnabled(s) ==> PressSpace(s) == s
    ensures SpaceEnabled(s) && s.waitingForStart ==>
              PressSpace(s) == StartNewGame(s.(waitingForStart := false))
    ensures SpaceEnabled(s) && !s.waitingForStart && s.isPaused ==> PressSpace(s) == DelayedUnpause(s)
    ensures SpaceEnabled(s) && !s.waitingForStart && !s.isPaused ==> PressSpace(s) == TogglePause(s)
  {
  }

  /**
   * An exit scores exactly one point for exactly one player, and only while
   * the ball is active; the side of the exit decides who.
   */
  lemma ScoringRule(s: State, x: real)
    ensures !Active(s) || Abs(x) < CourtBound ==> ScoreCheck(s, x) == s
    ensures Active(s) && Abs(x) >= CourtBound && x > 0.0 ==>
              ScoreCheck(s, x).scoreP2 == s.scoreP2 + 1 && ScoreCheck(s, x).scoreP1 == s.scoreP1
              && ScoreCheck(s, x).lastSide == 1
    ensures Active(s) && Abs(x) >= CourtBound && x <= 0.0 ==>
              ScoreCheck(s, x).scoreP1 == s.scoreP1 + 1 && ScoreCheck(s, x).scoreP2 == s.scoreP2
              && ScoreCheck(s, x).lastSide == -1
  {
  }

  /**
   * After a point, either the relaunch path starts with the winner untouched,
   * or a score has reached the limit and the game-over path starts with the
   * winner set.
   */
  lemma ScoringOutcome(s: State, x: real)
    requires Active(s) && Abs(x) >= CourtBound
    ensures var t := ScoreCheck(s, x);
            t.isResetting && t.velocity == Zero
            && (t.scoreP1 < ScoreLimit && t.scoreP2 < ScoreLimit ==>
                  t.winner == s.winner && RelaunchDelay in t.running && !t.controlLocked && !t.canPause)
            && (t.scoreP1 >= ScoreLimit || t.scoreP2 >= ScoreLimit ==>
                  t.winner == (if t.scoreP1 >= ScoreLimit then 1 else 2)
                  && GameOverDelay in t.running && t.controlLocked)
  {
  }

  /** While a coroutine is suspended, frames and physics steps change nothing. */
  lemma {:induction false} SuspendedIgnoresFrames(s: State, events: seq<Event>)
    requires Inv(s) && s.running != {}
    requires forall i :: 0 <= i < |events| ==> events[i].Frame? || events[i].PhysicsStep?
    ensures Run(s, events) == s
    decreases |events|
  {
    if events != [] {
      var p := PhaseOf(s);
      assert Step(s, events[0]) == s;
      SuspendedIgnoresFrames(s, events[1..]);
    }
  }

  /** So a second point cannot be scored before the relaunch or game-over sequence finishes. */
  lemma NoSecondScore(s: State, x: real, events: seq<Event>)
    requires Inv(s) && Active(s) && Abs(x) >= CourtBound
    requires forall i :: 0 <= i < |events| ==> events[i].Frame? || events[i].PhysicsStep?
    ensures Run(ScoreCheck(s, x), events) == ScoreCheck(s, x)
  {
    FrameStep(s, false, x);
    SuspendedIgnoresFrames(ScoreCheck(s, x), events);
  }

  /** The waiting state once the grace delay has elapsed. */
  function WaitingState(startingSpeed: real): State {
    StartGameAfterDelayFinish(Initial(startingSpeed))
  }

  /**
   * The game-over sequence ends in the initial waiting state, except for the
   * side of the last exit, the winner and the saved velocity, which it leaves.
   */
  lemma GameOverRestoresWaiting(s: State)
    requires Inv(s) && PhaseOf(s) == GameOver
    ensures var t := ResetBallWithGameOverSoundFinish(s);
            t == WaitingState(s.startingSpeed).(lastSide := s.lastSide, winner := s.winner,
                                                 savedVelocity := s.savedVelocity)
            && In(t, Waiting)
  {
    var t := ResetBallWithGameOverSoundFinish(s);
    assert In(t, Waiting);
  }

  /** Pausing and the delayed unpause give back the velocity the ball had. */
  lemma PauseRoundTrip(s: State, x1: real, x2: real)
    requires Inv(s) && PhaseOf(s) == Playing
    ensures var paused := Update(s, true, x1);
            var unpausing := Update(paused, true, x2);
            In(paused, Paused) && paused.velocity == Zero && paused.savedVelocity == s.velocity
            && In(unpausing, Unpausing)
            && DelayedUnpauseFinish(unpausing) == s.(savedVelocity := s.velocity)
  {
    var paused := Update(s, true, x1);
    assert In(paused, Paused);
    var unpausing := Update(paused, true, x2);
    assert In(unpausing, Unpausing);
  }

  /** Pausing and unpausing directly are inverse on the velocity. */
  lemma ToggleTwice(s: State)
    requires !s.isPaused
    ensures TogglePause(TogglePause(s)) == s.(savedVelocity := s.velocity)
    ensures TogglePause(s).velocity == Zero && TogglePause(s).savedVelocity == s.velocity
  {
  }

  /** The delayed unpause: its begin blocks the key, its finish unpauses and frees it. */
  lemma DelayedUnpausePhases(s: State)
    requires s.isPaused
    ensures var b := DelayedUnpause(s);
            b.unpausePending && !b.canPause && !SpaceEnabled(b) && b.isPaused
    ensures var f := DelayedUnpauseFinish(DelayedUnpause(s));
            !f.isPaused && f.canPause && !f.unpausePending && f.velocity == s.savedVelocity
            && UnpauseDelay !in f.running
  {
  }

  /** The relaunch goes away from the side of the last exit, at the launch speed, and frees the key. */
  lemma RelaunchAwayFromExit(s: State, angle: real, verticalDraw: real)
    requires Inv(s) && PhaseOf(s) == Relaunching
    ensures var t := ResetBallWithDelayFinish(s, angle, verticalDraw);
            t.velocity.Moving? && t.velocity.heading.towardX == -s.lastSide
            && t.velocity.heading.towardX != 0
            && t.velocity.speed == LaunchSpeed(s)
            && t.canPause && !t.isResetting && In(t, Playing)
  {
    var t := ResetBallWithDelayFinish(s, angle, verticalDraw);
    assert In(t, Playing);
  }

  /** The start sequence does not count as paused: the paddles move during the launch delay. */
  lemma StartingIsNotPaused(s: State)
    requires Inv(s) && PhaseOf(s) == Waiting
    ensures var t := Update(s, true, 0.0);
            In(t, Launching) && !IsPaused(t)
  {
    var t := Update(s, true, 0.0);
    assert In(t, Launching);
  }

  /** `SpeedStep` applied n times. */
  function Ramp(speed: real, startingSpeed: real, n: nat): real
    decreases n
  {
    if n == 0 then speed else Ramp(SpeedStep(speed, startingSpeed), startingSpeed, n - 1)
  }

  /** From below the cap, n physics steps add 0.1 each until the cap is reached, and stay there. */
  lemma {:induction false} RampApproachesCap(speed: real, startingSpeed: real, n: nat)
    requires speed <= SpeedCapFactor * startingSpeed
    ensures Ramp(speed, startingSpeed, n) == Min(speed + (n as real) * SpeedIncrease, SpeedCapFactor * startingSpeed)
    decreases n
  {
    if n > 0 {
      var next := SpeedStep(speed, startingSpeed);
      RampApproachesCap(next, startingSpeed, n - 1);
    }
  }

  /** No physics step leaves an active ball faster than the cap. */
  lemma PhysicsStepCapped(s: State)
    requires Active(s) && s.velocity.Moving?
    ensures FixedUpdate(s).velocity.Moving?
    ensures FixedUpdate(s).velocity.speed <= SpeedCapFactor * s.startingSpeed
    ensures FixedUpdate(s).velocity.heading == s.velocity.heading
  {
  }

  /** The two scenarios: an exit on the right at (0, 0), and P1's tenth point. */
  lemma ScenarioRightExit(s: State)
    requires Inv(s) && PhaseOf(s) == Playing && NoScores(s)
    ensures var t := Update(s, false, 13.0);
            t.scoreP2 == 1 && t.scoreP1 == 0 && In(t, Relaunching)
  {
    FrameStep(s, false, 13.0);
  }

  lemma ScenarioPlayerOneWins(s: State)
    requires Inv(s) && PhaseOf(s) == Playing && s.scoreP1 == 9
    ensures var t := Update(s, false, -13.0);
            var f := ResetBallWithGameOverSoundFinish(t);
            t.scoreP1 == ScoreLimit && t.winner == 1 && In(t, GameOver)
            && NoScores(f) && In(f, Waiting)
  {
    FrameStep(s, false, -13.0);
    var t := Update(s, false, -13.0);
    GameOverRestoresWaiting(t);
  }

  /** In every reachable state, the ball and the saved velocity are no faster than the bound. */
  lemma SpeedBounded(startingSpeed: real, events: seq<Event>)
    requires startingSpeed > 0.0
    ensures var t := Run(Initial(startingSpeed), events);
            (t.velocity.Moving? ==> t.velocity.speed <= SpeedBound(startingSpeed))
            && (t.isPaused && t.gameStarted ==>
                  t.savedVelocity.Moving? && t.savedVelocity.speed <= SpeedBound(startingSpeed))
    ensures startingSpeed >= 1.4 ==> SpeedBound(startingSpeed) == SpeedCap(startingSpeed)
  {
    Reachable(startingSpeed, events);
    var p := PhaseOf(Run(Initial(startingSpeed), events));
    if startingSpeed >= 1.4 {
      assert SpeedCap(startingSpeed) >= BoostedLaunchSpeed;
    }
  }

  /** A run of events appended to another is run from where the first ends. */
  lemma {:induction false} RunConcat(s: State, a: seq<Event>, b: seq<Event>)
    ensures Run(s, a + b) == Run(Run(s, a), b)
    decreases |a|
  {
    if a == [] {
      assert a + b == b;
    } else {
      assert (a + b)[0] == a[0] && (a + b)[1..] == a[1..] + b;
      RunConcat(Step(s, a[0]), a[1..], b);
    }
  }

  /** A left exit followed by the relaunch delay. */
  const LeftPoint: seq<Event> := [Frame(false, -13.0), RelaunchElapsed(10.0, 0.0)]

  function Repeat(events: seq<Event>, n: nat): seq<Event>
    decreases n
  {
    if n == 0 then [] else events + Repeat(events, n - 1)
  }

  /** Each left exit and relaunch gives P1 one point and sends the ball off at the launch speed. */
  lemma {:induction false} LeftPointsRaiseP1(s: State, n: nat)
    requires Inv(s) && In(s, Playing) && s.scoreP1 + n < ScoreLimit
    ensures var t := Run(s, Repeat(LeftPoint, n));
            In(t, Playing) && t.scoreP1 == s.scoreP1 + n && t.scoreP2 == s.scoreP2
            && (n > 0 ==> t.velocity.speed == LaunchSpeed(t))
    decreases n
  {
    if n > 0 {
      var u := Update(s, false, -13.0);
      assert In(u, Relaunching);
      var v := ResetBallWithDelayFinish(u, 10.0, 0.0);
      assert In(v, Playing);
      assert Run(s, LeftPoint) == v;
      RunConcat(s, LeftPoint, Repeat(LeftPoint, n - 1));
      LeftPointsRaiseP1(v, n - 1);
    }
  }

  /**
   * The launch speed is not capped: with a starting speed of 1, P1's sixth
   * point relaunches the ball at 7, above the cap of 5.
   */
  lemma LaunchCanExceedCap()
    ensures var t := Run(Initial(1.0), [GraceElapsed, Frame(true, 0.0), LaunchElapsed(0.0, 10.0, 0.0)]
                                       + Repeat(LeftPoint, 6));
            In(t, Playing) && t.velocity.speed == BoostedLaunchSpeed && t.velocity.speed > SpeedCap(1.0)
  {
    var start := [GraceElapsed, Frame(true, 0.0), LaunchElapsed(0.0, 10.0, 0.0)];
    var s := Initial(1.0);
    var s1 := StartGameAfterDelayFinish(s);
    var s2 := Update(s1, true, 0.0);
    var s3 := PlayResetClipAndLaunchBallFinish(s2, 0.0, 10.0, 0.0);
    assert Run(s, start) == s3;
    assert In(s3, Playing);
    RunConcat(s, start, Repeat(LeftPoint, 6));
    LeftPointsRaiseP1(s3, 6);
  }
}
