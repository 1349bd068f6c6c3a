/** The baseball scene as the browser runs it: an object whose fields the key
    handlers, `display` and `update_state` change in place. Each method is
    proved to leave the object in the state the matching function of
    `Session` computes from the state before, so every property proved about
    `Session` holds of the scene. */
module Scene {
  import opened Cameras
  import opened Session

  class Baseball {
    var phase: Phase
    var score: int
    var target: int
    var pitchCounter: int
    var night: bool
    var battingX: int
    var swingToggler: bool
    var batSwinger: bool
    var swingTimer: real
    var batCollisionDetection: bool
    var ballBounceDetection: bool
    var kind: BallKind
    var pitchTime: bool
    var pitchTimer: real
    var bodies: seq<Body>
    var sounds: seq<Sound>
    const teleporter: CameraTeleporter

    /** The scene's state as a `Session.Game`. */
    function Model(): Game
      reads this, teleporter
    {
      Game(phase, score, target, pitchCounter, night, battingX, swingToggler, batSwinger,
           swingTimer, batCollisionDetection, ballBounceDetection, kind, pitchTime, pitchTimer,
           bodies, teleporter.Current(), sounds)
    }

    constructor ()
      ensures Model() == Initial()
    {
      phase := NotStarted;
      score := 0;
      target := WinningScore;
      pitchCounter := InitialPitches;
      night := false;
      battingX := StartX;
      swingToggler := false;
      batSwinger := false;
      swingTimer := 0.0;
      batCollisionDetection := false;
      ballBounceDetection := false;
      kind := Baseball;
      pitchTime := false;
      pitchTimer := 0.0;
      bodies := [];
      sounds := [];
      // The scene creates its teleporter in its first `display` call; it is
      // created here, in the same empty state, so that every frame has one.
      teleporter := new CameraTeleporter();
    }

    // ------------------------------------------------------------ control panel

    method BeginGame()
      modifies this
      ensures Model() == Session.BeginGame(old(Model()))
    {
      phase := Started;
    }

    method RestartGame()
      modifies this
      ensures Model() == Session.RestartGame(old(Model()))
    {
      phase := Started;
      target := WinningScore;
      score := 0;
      pitchCounter := InitialPitches;
    }

    method ToggleNight()
      modifies this
      ensures Model() == Session.ToggleNight(old(Model()))
    {
      if night {
        night := false;
      } else {
        night := true;
      }
    }

    method MoveLeft()
      modifies this
      ensures Model() == Session.MoveLeft(old(Model()))
    {
      battingX := if battingX - 1 > LeftmostX then battingX - 1 else LeftmostX;
    }

    method MoveRight()
      modifies this
      ensures Model() == Session.MoveRight(old(Model()))
    {
      battingX := if battingX + 1 < RightmostX then battingX + 1 else RightmostX;
    }

    method Swing()
      modifies this
      ensures Model() == PressSwing(old(Model()))
    {
      if !batSwinger {
        swingToggler := true;
      }
    }

    method HomeRun()
      modifies this
      ensures Model() == ForceContact(old(Model()))
    {
      batCollisionDetection := true;
    }

    // ------------------------------------------------------------ update_state

    /** One physics tick; the floating point tests arrive in `input`. */
    method UpdateState(input: TickInput)
      modifies this, teleporter
      ensures Model() == Tick(old(Model()), input)
    {
      if !batCollisionDetection && input.collides && |bodies| >= 2 {
        batCollisionDetection := true;
      }
      if |bodies| > 1 {
        TickBall(input);
      }
    }

    /** The part of a tick that runs while the ball exists. */
    method TickBall(input: TickInput)
      requires |bodies| > 1
      modifies this, teleporter
      ensures Model() == Session.TickBall(old(Model()), input)
    {
      if batCollisionDetection && input.landed && !ballBounceDetection {
        Land(input.homeRunZone);
      }
      if batCollisionDetection {
        PruneAfterHit(input.band);
      } else {
        PruneIdle(input.band);
      }
      Settle(input.stopped);
    }

    /** The first landing of a hit ball. */
    method Land(homeRun: bool)
      modifies this
      ensures Model() == Session.Land(old(Model()), homeRun)
    {
      ballBounceDetection := true;
      if kind == Basketball {
        phase := GameOver;
      }
      score := score + 1;
      if homeRun {
        sounds := sounds + [HomerunCheer];
      } else {
        sounds := sounds + [Booing, Booing2];
      }
    }

    /** Both latches are released when the ball is gone or at rest; a ball at
        rest is removed. */
    method Settle(stopped: bool)
      modifies this
      ensures Model() == Session.Settle(old(Model()), stopped)
    {
      if |bodies| < 2 {
        batCollisionDetection := false;
        ballBounceDetection := false;
      } else if stopped {
        batCollisionDetection := false;
        ballBounceDetection := false;
        bodies := bodies[..|bodies| - 1];
      }
    }

    /** The filter after a hit, then one "previous location" per remaining
        body within 90. */
    method PruneAfterHit(band: nat -> Band)
      modifies this, teleporter
      ensures Model() == Session.PruneAfterHit(old(Model()), band)
    {
      var kept := Filter(bodies, band, HitRadius);
      DecreaseNear(teleporter, |bodies|, band);
      pitchTime := pitchTime || |kept| > 0;
      bodies := kept;
    }

    /** The loop over the bodies that moves the camera back once per body
        within 90. */
    static method DecreaseNear(t: CameraTeleporter, n: nat, band: nat -> Band)
      modifies t
      ensures t.Current() == DecreasedTimes(old(t.Current()), CountNear(n, band))
    {
      var i := 0;
      while i < n
        invariant 0 <= i <= n
        invariant t.Current() == DecreasedTimes(old(t.Current()), CountNear(i, band))
      {
        if Near(band(i)) {
          t.Decrease();
        }
        i := i + 1;
      }
    }

    /** The filter while no hit is being played. */
    method PruneIdle(band: nat -> Band)
      modifies this
      ensures Model() == Session.PruneIdle(old(Model()), band)
    {
      bodies := Filter(bodies, band, IdleRadius);
    }

    /** `Array.filter` on the bodies with the test `radius` sets. */
    static method Filter(bodies: seq<Body>, band: nat -> Band, radius: Radius) returns (kept: seq<Body>)
      ensures kept == Kept(bodies, band, radius)
    {
      kept := [];
      var i := 0;
      while i < |bodies|
        invariant 0 <= i <= |bodies|
        invariant kept == Kept(bodies[..i], band, radius)
      {
        assert bodies[..i + 1][..i] == bodies[..i];
        if Keeps(radius, band(i)) {
          kept := kept + [bodies[i]];
        }
        i := i + 1;
      }
      assert bodies[..i] == bodies;
    }

    // ------------------------------------------------------------ display

    /** The logic of one frame before the physics runs, at time `t`. */
    method FrameStart(t: real, swingWindowOver: bool, nextKind: BallKind)
      modifies this, teleporter
      ensures Model() == Session.FrameStart(old(Model()), t, swingWindowOver, nextKind)
    {
      teleporter.cameras := [HomePose];
      EndCheck();
      SwingFrame(t, swingWindowOver);
      PitchFrame(t, nextKind);
    }

    method SwingFrame(t: real, swingWindowOver: bool)
      modifies this
      ensures Model() == Session.SwingFrame(old(Model()), t, swingWindowOver)
    {
      var starting := swingToggler;
      ConsumeSwing(t);
      EndSwing(swingWindowOver && !starting);
    }

    method PitchFrame(t: real, nextKind: BallKind)
      modifies this
      ensures Model() == Session.PitchFrame(old(Model()), t, nextKind)
    {
      SpawnBat();
      ArmPitch(t);
      Pitch(t, nextKind);
    }

    method EndCheck()
      modifies this
      ensures Model() == Session.EndCheck(old(Model()))
    {
      if score < 3 && pitchCounter == -1 {
        phase := GameOver;
      }
      if score >= 3 && pitchCounter == -1 {
        phase := YouWin;
      }
    }

    method ConsumeSwing(t: real)
      modifies this
      ensures Model() == Session.ConsumeSwing(old(Model()), t)
    {
      if swingToggler {
        swingTimer := t;
        batSwinger := true;
        swingToggler := false;
      }
    }

    method EndSwing(swingWindowOver: bool)
      modifies this
      ensures Model() == Session.EndSwing(old(Model()), swingWindowOver)
    {
      if batSwinger && swingWindowOver {
        batSwinger := false;
      }
    }

    method SpawnBat()
      modifies this
      ensures Model() == Session.SpawnBat(old(Model()))
    {
      if |bodies| < 1 {
        bodies := bodies + [Bat];
      }
    }

    method ArmPitch(t: real)
      modifies this
      ensures Model() == Session.ArmPitch(old(Model()), t)
    {
      if pitchTime && |bodies| < 2 {
        pitchTimer := t;
        pitchTime := false;
      }
    }

    method Pitch(t: real, nextKind: BallKind)
      modifies this
      ensures Model() == Session.Pitch(old(Model()), t, nextKind)
    {
      if t > pitchTimer + PitchCooldown && |bodies| < 2 && pitchCounter > -1 && phase == Started {
        pitchTime := false;
        pitchCounter := pitchCounter - 1;
        bodies := bodies + [Projectile];
        kind := nextKind;
      }
    }

    /** A whole frame: the frame logic, the physics ticks and the ball
        camera. */
    method Display(t: real, swingWindowOver: bool, nextKind: BallKind, ticks: seq<TickInput>, pose: Pose)
      modifies this, teleporter
      ensures Model() == Session.Display(old(Model()), t, swingWindowOver, nextKind, ticks, pose)
    {
      FrameStart(t, swingWindowOver, nextKind);
      Simulate(ticks);
      FollowBall(pose);
    }

    /** One `UpdateState` per fixed time step the accumulator runs this frame. */
    method Simulate(ticks: seq<TickInput>)
      modifies this, teleporter
      ensures Model() == Ticks(old(Model()), ticks)
    {
      var k := 0;
      while k < |ticks|
        invariant 0 <= k <= |ticks|
        invariant Ticks(Model(), ticks[k..]) == Ticks(old(Model()), ticks)
      {
        assert ticks[k..][1..] == ticks[k + 1..];
        UpdateState(ticks[k]);
        k := k + 1;
      }
      assert ticks[k..] == [];
    }

    /** While a hit is being played, each ball gets a saved pose that follows
        it, and the teleporter moves on to it. */
    method FollowBall(pose: Pose)
      modifies teleporter
      ensures Model() == Session.FollowBall(old(Model()), pose)
    {
      if phase == Started && batCollisionDetection {
        var i := 0;
        while i < |bodies|
          invariant 0 <= i <= |bodies|
          invariant teleporter.Current() == FollowTimes(old(teleporter.Current()), Projectiles(bodies[..i]), pose)
        {
          assert bodies[..i + 1][..i] == bodies[..i];
          if bodies[i] == Projectile {
            teleporter.Push(pose);
            teleporter.Enable();
            teleporter.Increase();
          }
          i := i + 1;
        }
        assert bodies[..i] == bodies;
      }
    }
  }
}
