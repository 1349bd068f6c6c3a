/** Properties of whole runs of the game session: the invariant holds in every
    reachable state, a landing scores once per hit, and two complete rounds
    played out frame by frame. */
module SessionProperties {
  import opened Wrappers
  import opened Cameras
  import opened Session

  // ---------------------------------------------------------------- the invariant

  lemma {:induction false} RunKeepsInv(g: Game, events: seq<Event>)
    requires Inv(g)
    ensures Inv(Run(g, events))
    decreases |events|
  {
    if events != [] {
      RunKeepsInv(Step(g, events[0]), events[1..]);
    }
  }

  /** Whatever the player presses and whatever the physics reports, the batter
      stays within [-6, -2], the pitch counter within [-1, 20], at most two
      bodies exist and the camera selection is one of 0, 1 and 2. */
  lemma Reachable(events: seq<Event>)
    ensures var g := Run(Initial(), events);
      && LeftmostX <= g.battingX <= RightmostX
      && -1 <= g.pitchCounter <= InitialPitches
      && |g.bodies| <= 2
      && 0 <= g.camera.selection <= 2
      && g.score >= 0
  {
    InitialInv();
    RunKeepsInv(Initial(), events);
  }

  // ---------------------------------------------------------------- the ball camera

  /** At the end of a frame in which a hit is being played, the teleporter is
      enabled and looks through the pose that follows the ball, whatever the
      selection was before. */
  lemma DisplayFollowsBall(g: Game, t: real, w: bool, kind: BallKind, ticks: seq<TickInput>, pose: Pose)
    requires Inv(g)
    ensures var r := Display(g, t, w, kind, ticks, pose);
      r.phase == Started && r.contact && Projectiles(r.bodies) > 0 ==>
        DesiredCamera(r.camera) == Some(pose)
  {
    TicksInv(FrameStart(g, t, w, kind), ticks);
  }

  /** In a frame without a hit being played, only the batting view is saved. */
  lemma DisplayKeepsHomeView(g: Game, t: real, w: bool, kind: BallKind, ticks: seq<TickInput>, pose: Pose)
    ensures var r := Display(g, t, w, kind, ticks, pose);
      !(r.phase == Started && r.contact) ==> r.camera.cameras == [HomePose]
  {
  }

  // ---------------------------------------------------------------- the swing latch

  /** A pending press is consumed once: a second consumption changes nothing. */
  lemma SwingConsumedOnce(g: Game, t1: real, t2: real)
    ensures ConsumeSwing(ConsumeSwing(g, t1), t2) == ConsumeSwing(g, t1)
    ensures g.swingToggler ==> ConsumeSwing(g, t1).batSwinger
  {
  }

  // ---------------------------------------------------------------- the landing latch

  /** No tick of the run releases the landing latch when it is set, or when
      the tick itself scores. */
  ghost predicate LatchHeld(g: Game, inputs: seq<TickInput>)
    decreases |inputs|
  {
    inputs == [] ||
    (((g.landed || Scores(g, inputs[0])) ==> Tick(g, inputs[0]).landed) &&
     LatchHeld(Tick(g, inputs[0]), inputs[1..]))
  }

  /** While the landing latch is not released, a hit scores at most once, and
      nothing at all once it has landed. */
  lemma {:induction false} OneScorePerContact(g: Game, inputs: seq<TickInput>)
    requires LatchHeld(g, inputs)
    ensures Ticks(g, inputs).score <= g.score + 1
    ensures g.landed ==> Ticks(g, inputs).score == g.score
    decreases |inputs|
  {
    if inputs != [] {
      var next := Tick(g, inputs[0]);
      OneScorePerContact(next, inputs[1..]);
      if Scores(g, inputs[0]) {
        assert next.landed;
      }
    }
  }

  // ---------------------------------------------------------------- two rounds

  /** A pitch that is not hit: it flies past the bat and is dropped. */
  function MissTick(): TickInput
  {
    TickInput(false, false, false, (i: nat) => if i == 0 then Within40 else Beyond300, false)
  }

  /** A hit that lands beyond the fence, then the ball comes to rest. */
  function HitTick(): TickInput
  {
    TickInput(true, true, true, (i: nat) => Within40, false)
  }

  function RestTick(): TickInput
  {
    TickInput(false, false, false, (i: nat) => Within40, true)
  }

  function MissFrame(g: Game, t: real): Game
  {
    Display(g, t, false, Baseball, [MissTick()], Pose(0))
  }

  /** A frame with a hit pitch, then a quiet frame that starts the cooldown. */
  function HitFrames(g: Game, t: real): Game
  {
    var hit := Display(g, t, false, Baseball, [HitTick(), RestTick()], Pose(0));
    Display(hit, t + 1.0, false, Baseball, [], Pose(0))
  }

  /** `frame` played `n` times from `g`. */
  function Played(frame: Game -> Game, g: Game, n: nat): Game
  {
    if n == 0 then g else frame(Played(frame, g, n - 1))
  }

  /** `n` frames with a missed pitch each. */
  function MissFrames(g: Game, n: nat, t: real): Game
  {
    Played(x => MissFrame(x, t), g, n)
  }

  /** Between pitches: playing, only the bat present, nothing pending. */
  predicate Waiting(g: Game)
  {
    && g.phase == Started
    && (g.bodies == [] || g.bodies == [Bat])
    && !g.contact && !g.landed && !g.pitchTime && !g.swingToggler && !g.batSwinger
  }

  lemma KeptFirst(band: nat -> Band, radius: Radius)
    requires Keeps(radius, band(0)) && !Keeps(radius, band(1))
    ensures Kept([Bat, Projectile], band, radius) == [Bat]
  {
    assert [Bat, Projectile][..1] == [Bat];
    assert [Bat][..0] == [];
  }

  lemma KeptBoth(band: nat -> Band, radius: Radius)
    requires Keeps(radius, band(0)) && Keeps(radius, band(1))
    ensures Kept([Bat, Projectile], band, radius) == [Bat, Projectile]
  {
    assert [Bat, Projectile][..1] == [Bat];
    assert [Bat][..0] == [];
  }

  /** The part of a frame before the physics, between pitches: the next
      ball is pitched. */
  lemma PitchFromWaiting(g: Game, t: real)
    requires Waiting(g) && g.pitchCounter >= 0 && t > g.pitchTimer + PitchCooldown
    ensures var s := FrameStart(g, t, false, Baseball);
      && s.phase == Started && s.bodies == [Bat, Projectile]
      && !s.contact && !s.landed && !s.pitchTime && !s.swingToggler && !s.batSwinger
      && s.pitchCounter == g.pitchCounter - 1 && s.score == g.score && s.pitchTimer == g.pitchTimer
      && s.kind == Baseball
  {
    var g1 := EndCheck(g);
    var g2 := ConsumeSwing(g1, t);
    var g3 := EndSwing(g2, false);
    var g4 := SpawnBat(g3);
    assert g4.bodies == [Bat];
    var g5 := ArmPitch(g4, t);
    assert g5 == g4;
    assert CanPitch(g5, t);
  }

  /** A ball in flight that was not hit. */
  predicate Pitched(s: Game)
  {
    && s.phase == Started && s.bodies == [Bat, Projectile] && s.kind == Baseball
    && !s.contact && !s.landed && !s.pitchTime && !s.swingToggler && !s.batSwinger
  }

  lemma MissedBallDropped(s: Game)
    requires Pitched(s)
    ensures var r := Ticks(s, [MissTick()]);
      && Waiting(r) && r.bodies == [Bat]
      && r.pitchCounter == s.pitchCounter && r.score == s.score && r.pitchTimer == s.pitchTimer
  {
    KeptFirst(MissTick().band, IdleRadius);
    var r1 := Tick(s, MissTick());
    assert r1.bodies == [Bat] && !r1.contact && !r1.landed;
    assert Ticks(s, [MissTick()]) == Ticks(r1, []);
  }

  /** Ready for a pitch at time `t`: waiting, a pitch left, the cooldown over. */
  predicate Ready(g: Game, t: real)
  {
    Waiting(g) && g.pitchCounter >= 0 && t > g.pitchTimer + PitchCooldown
  }

  /** `r` is `g` one missed pitch later. */
  predicate MissedOnce(g: Game, r: Game)
  {
    && Waiting(r) && r.bodies == [Bat]
    && r.pitchCounter == g.pitchCounter - 1 && r.score == g.score
    && r.pitchTimer == g.pitchTimer
  }

  lemma MissFrameStep(g: Game, t: real)
    requires Ready(g, t)
    ensures MissedOnce(g, MissFrame(g, t))
  {
    PitchFromWaiting(g, t);
    MissedBallDropped(FrameStart(g, t, false, Baseball));
  }

  /** Any frame that misses one pitch from every ready state, played `n`
      times while pitches are left, costs `n` pitches and no score. */
  lemma {:induction false} PlayedMisses(frame: Game -> Game, g: Game, n: nat, t: real)
    requires forall x :: Ready(x, t) ==> MissedOnce(x, frame(x))
    requires Waiting(g) && g.pitchCounter >= n - 1 && t > g.pitchTimer + PitchCooldown
    ensures var r := Played(frame, g, n);
      && Waiting(r) && r.pitchCounter == g.pitchCounter - n && r.score == g.score
      && r.pitchTimer == g.pitchTimer
  {
    if n > 0 {
      PlayedMisses(frame, g, n - 1, t);
      var p := Played(frame, g, n - 1);
      assert Ready(p, t);
    }
  }

  lemma MissFramesStep(g: Game, n: nat, t: real)
    requires Waiting(g) && g.pitchCounter >= n - 1 && t > g.pitchTimer + PitchCooldown
    ensures var r := MissFrames(g, n, t);
      && Waiting(r) && r.pitchCounter == g.pitchCounter - n && r.score == g.score
      && r.pitchTimer == g.pitchTimer
  {
    forall x | Ready(x, t)
      ensures MissedOnce(x, MissFrame(x, t))
    {
      MissFrameStep(x, t);
    }
    PlayedMisses(x => MissFrame(x, t), g, n, t);
  }

  /** The hit tick: the ball is struck and lands beyond the fence. */
  lemma HitLands(s: Game)
    requires Pitched(s)
    ensures var r := Tick(s, HitTick());
      && r.phase == Started && r.bodies == [Bat, Projectile] && r.kind == Baseball
      && r.contact && r.landed && r.pitchTime && !r.swingToggler && !r.batSwinger
      && r.pitchCounter == s.pitchCounter && r.score == s.score + 1
  {
    KeptBoth(HitTick().band, HitRadius);
  }

  /** The rest tick: the landed ball stops and is removed. */
  lemma LandedBallRemoved(s: Game)
    requires s.phase == Started && s.bodies == [Bat, Projectile] && s.kind == Baseball
    requires s.contact && s.landed && !s.swingToggler && !s.batSwinger
    ensures var r := Tick(s, RestTick());
      && r.phase == Started && r.bodies == [Bat]
      && !r.contact && !r.landed && r.pitchTime && !r.swingToggler && !r.batSwinger
      && r.pitchCounter == s.pitchCounter && r.score == s.score
  {
    KeptBoth(RestTick().band, HitRadius);
  }

  /** A quiet frame after a hit: the cooldown starts and nothing is pitched. */
  lemma CooldownStarts(h: Game, t: real)
    requires h.phase == Started && h.bodies == [Bat] && h.pitchCounter >= 0
    requires !h.contact && !h.landed && h.pitchTime && !h.swingToggler && !h.batSwinger
    ensures var r := Display(h, t, false, Baseball, [], Pose(0));
      && Waiting(r) && r.bodies == [Bat] && r.pitchTimer == t
      && r.pitchCounter == h.pitchCounter && r.score == h.score
  {
    var g4 := SpawnBat(EndSwing(ConsumeSwing(EndCheck(h), t), false));
    assert g4 == h;
    var g5 := ArmPitch(g4, t);
    assert !CanPitch(g5, t);
  }

  /** `r` is `g` one home run later, the cooldown restarted at `t + 1`. */
  predicate HitOnce(g: Game, r: Game, t: real)
  {
    && Waiting(r) && r.bodies == [Bat]
    && r.pitchCounter == g.pitchCounter - 1 && r.score == g.score + 1
    && r.pitchTimer == t + 1.0
  }

  /** The frame of a home run: the ball is pitched, struck, lands beyond
      the fence and comes to rest. */
  lemma HitFrameScores(g: Game, t: real)
    requires Waiting(g) && g.pitchCounter >= 1 && t > g.pitchTimer + PitchCooldown
    ensures var h := Display(g, t, false, Baseball, [HitTick(), RestTick()], Pose(0));
      && h.phase == Started && h.bodies == [Bat] && h.pitchCounter == g.pitchCounter - 1
      && !h.contact && !h.landed && h.pitchTime && !h.swingToggler && !h.batSwinger
      && h.score == g.score + 1
  {
    PitchFromWaiting(g, t);
    var s := FrameStart(g, t, false, Baseball);
    HitLands(s);
    var r1 := Tick(s, HitTick());
    LandedBallRemoved(r1);
    var r2 := Tick(r1, RestTick());
    assert Ticks(s, [HitTick(), RestTick()]) == Ticks(r2, []) by {
      assert [HitTick(), RestTick()][1..] == [RestTick()];
    }
  }

  lemma HitFramesStep(g: Game, t: real)
    requires Waiting(g) && g.pitchCounter >= 1 && t > g.pitchTimer + PitchCooldown
    ensures HitOnce(g, HitFrames(g, t), t)
  {
    HitFrameScores(g, t);
    CooldownStarts(Display(g, t, false, Baseball, [HitTick(), RestTick()], Pose(0)), t + 1.0);
  }

  /** `frame` played once at each of `times`, in order. */
  function PlayedAt(frame: (Game, real) -> Game, g: Game, times: seq<real>): Game
  {
    if times == [] then g
    else frame(PlayedAt(frame, g, times[..|times| - 1]), times[|times| - 1])
  }

  /** Each of `times` comes after the cooldown the one before it starts. */
  predicate Spaced(start: real, times: seq<real>)
  {
    && (times != [] ==> times[0] > start + PitchCooldown)
    && forall k :: 0 < k < |times| ==> times[k] > times[k - 1] + 1.0 + PitchCooldown
  }

  /** Any frame that scores one home run from every ready state with a
      pitch to spare, played at times spaced past each cooldown, scores once
      per frame and costs one pitch per frame. */
  lemma {:induction false} PlayedHits(frame: (Game, real) -> Game, g: Game, times: seq<real>)
    requires forall x, t :: Waiting(x) && x.pitchCounter >= 1 && t > x.pitchTimer + PitchCooldown ==>
      HitOnce(x, frame(x, t), t)
    requires Waiting(g) && g.pitchCounter >= |times| && Spaced(g.pitchTimer, times)
    ensures var r := PlayedAt(frame, g, times);
      && Waiting(r) && r.pitchCounter == g.pitchCounter - |times| && r.score == g.score + |times|
      && r.pitchTimer == if times == [] then g.pitchTimer else times[|times| - 1] + 1.0
  {
    if times != [] {
      var n := |times| - 1;
      var before := times[..n];
      assert Spaced(g.pitchTimer, before) by {
        forall k | 0 < k < n
          ensures before[k] > before[k - 1] + 1.0 + PitchCooldown
        {
          assert before[k] == times[k] && before[k - 1] == times[k - 1];
        }
      }
      PlayedHits(frame, g, before);
      if n > 0 {
        assert times[n] > times[n - 1] + 1.0 + PitchCooldown;
      }
    }
  }

  /** A round as "Begin Game" or "Restart Game" leaves it, the clock at 0. */
  predicate Fresh(g: Game)
  {
    Waiting(g) && g.pitchCounter == InitialPitches && g.score == 0 && g.pitchTimer == 0.0
  }

  lemma BeginIsFresh()
    ensures Fresh(BeginGame(Initial()))
  {
  }

  /** With the last pitch played and no ball left in play, the next frame
      decides the round. */
  lemma LastFrameDecides(g: Game, t: real)
    requires Waiting(g) && g.pitchCounter == -1
    ensures MissFrame(g, t).phase == if g.score < 3 then GameOver else YouWin
  {
    var s := FrameStart(g, t, false, Baseball);
    assert s.phase == (if g.score < 3 then GameOver else YouWin) && |s.bodies| <= 1;
    assert Ticks(s, [MissTick()]) == Ticks(Tick(s, MissTick()), []);
  }

  /** A round in which every pitch is missed: twenty missed pitches leave
      the game running with the counter at 0, so a twenty-first pitch is
      still thrown, and the frame after it ends the round as lost. */
  lemma TwentyOneMissedPitchesLose(g: Game)
    requires Fresh(g)
    ensures MissFrames(g, 20, 3.0).phase == Started
    ensures MissFrames(g, 20, 3.0).pitchCounter == 0
    ensures MissFrames(g, 21, 3.0).pitchCounter == -1
    ensures MissFrame(MissFrames(g, 21, 3.0), 3.0).phase == GameOver
  {
    MissFramesStep(g, 20, 3.0);
    MissFramesStep(g, 21, 3.0);
    LastFrameDecides(MissFrames(g, 21, 3.0), 3.0);
  }

  /** A frame in which no physics tick runs. */
  function QuietFrame(g: Game, t: real): Game
  {
    Display(g, t, false, Baseball, [], Pose(0))
  }

  /** The end check runs in every frame, whatever the phase, and so do the
      physics ticks: the twenty-first ball, pitched at score 2, is still in
      flight when the next frame shows GAME OVER; if it is then hit and
      lands, the score reaches 3 and the frame after that shows YOU WIN. */
  lemma LateLandingWins(g: Game, t: real)
    requires Waiting(g) && g.pitchCounter == 0 && g.score == 2 && t > g.pitchTimer + PitchCooldown
    ensures var pitched := QuietFrame(g, t);
      var over := QuietFrame(pitched, t);
      var landed := Display(over, t, false, Baseball, [HitTick()], Pose(0));
      var won := QuietFrame(landed, t);
      && pitched.phase == Started && pitched.pitchCounter == -1
      && over.phase == GameOver && over.bodies == [Bat, Projectile]
      && landed.phase == GameOver && landed.score == 3
      && won.phase == YouWin
  {
    PitchFromWaiting(g, t);
    var pitched := QuietFrame(g, t);
    assert pitched == FrameStart(g, t, false, Baseball);
    var s2 := FrameStart(pitched, t, false, Baseball);
    assert s2 == pitched.(phase := GameOver);
    var over := QuietFrame(pitched, t);
    assert over == s2;
    var s3 := FrameStart(over, t, false, Baseball);
    assert s3 == over;
    var r3 := Tick(s3, HitTick());
    assert Scores(s3, HitTick());
    assert Ticks(s3, [HitTick()]) == Ticks(r3, []);
    assert r3.phase == GameOver && r3.score == 3;
  }

  lemma HitFramesAlways()
    ensures forall x, t :: Waiting(x) && x.pitchCounter >= 1 && t > x.pitchTimer + PitchCooldown ==>
      HitOnce(x, HitFrames(x, t), t)
  {
    forall x, t | Waiting(x) && x.pitchCounter >= 1 && t > x.pitchTimer + PitchCooldown
      ensures HitOnce(x, HitFrames(x, t), t)
    {
      HitFramesStep(x, t);
    }
  }

  /** Home runs at 3, 7 and 11 seconds into a fresh round. */
  lemma ThreeHomeRuns(g: Game)
    requires Fresh(g)
    ensures var h := PlayedAt(HitFrames, g, [3.0, 7.0, 11.0]);
      && Waiting(h) && h.pitchCounter == 17 && h.score == 3 && h.pitchTimer == 12.0
  {
    HitFramesAlways();
    assert Spaced(g.pitchTimer, [3.0, 7.0, 11.0]);
    PlayedHits(HitFrames, g, [3.0, 7.0, 11.0]);
  }

  /** After three home runs, eighteen missed pitches and the deciding frame
      win the round. */
  lemma WinAfterHomeRuns(h: Game)
    requires Waiting(h) && h.pitchCounter == 17 && h.score == 3 && h.pitchTimer == 12.0
    ensures MissFrame(MissFrames(h, 18, 15.0), 15.0).phase == YouWin
  {
    MissFramesStep(h, 18, 15.0);
    LastFrameDecides(MissFrames(h, 18, 15.0), 15.0);
  }

  /** Three home runs, then every other pitch missed: the round is won. */
  lemma ThreeHomeRunsWin(g: Game)
    requires Fresh(g)
    ensures var h := PlayedAt(HitFrames, g, [3.0, 7.0, 11.0]);
      MissFrame(MissFrames(h, 18, 15.0), 15.0).phase == YouWin
  {
    ThreeHomeRuns(g);
    WinAfterHomeRuns(PlayedAt(HitFrames, g, [3.0, 7.0, 11.0]));
  }
}
