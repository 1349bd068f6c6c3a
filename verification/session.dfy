/** The game session of the baseball scene as a value, with one function per
    event: the key handlers of the control panel, the per-frame logic of
    `display` and one physics tick of `update_state`. The floating point tests
    of the scene (collision, landing height, home-run zone, distance from the
    origin, ball at rest, swing window) arrive as inputs. */
module Session {
  import opened Cameras

  datatype Phase = NotStarted | Started | GameOver | YouWin

  /** What a simulated body is: the bat proxy (a cylinder) or a pitched ball. */
  datatype Body = Bat | Projectile

  /** `basket_or_base`: 0 for a baseball, 1 for a basketball. */
  datatype BallKind = Baseball | Basketball

  /** Sounds played when a hit ball first lands. */
  datatype Sound = HomerunCheer | Booing | Booing2

  /** How far a body's center is from the origin: below 40, below 90, below
      300, or 300 and more. */
  datatype Band = Within40 | Within90 | Within300 | Beyond300

  const InitialPitches: int := 20
  const WinningScore: int := 3
  /** `battingX` in half units: -4.0 at the start, clamped to [-6.0, -2.0]. */
  const StartX: int := -8
  const LeftmostX: int := -12
  const RightmostX: int := -4
  /** Seconds between clearing a hit ball and the next pitch. */
  const PitchCooldown: real := 2.0
  /** The batting view, which every frame makes the teleporter's only saved
      pose before any ball is followed. */
  const HomePose: Pose := Pose(0)

  datatype Game = Game(
    phase: Phase,
    score: int,
    target: int,
    pitchCounter: int,
    night: bool,
    battingX: int,
    swingToggler: bool,   // a Swing press waiting for the next frame
    batSwinger: bool,     // a swing in progress
    swingTimer: real,
    contact: bool,        // batCollisionDetection
    landed: bool,         // ballBounceDetection
    kind: BallKind,
    pitchTime: bool,
    pitchTimer: real,
    bodies: seq<Body>,
    camera: View,
    sounds: seq<Sound>)

  /** The outcome of the floating point work of one `update_state` call.
      `band(i)` is the distance band of the i-th body after the ball's
      velocity update. */
  datatype TickInput = TickInput(
    collides: bool,       // some body reports colliding with another body
    landed: bool,         // the second body is below the ground height and falling
    homeRunZone: bool,    // its landing point is beyond the fence
    band: nat -> Band,
    stopped: bool)        // every velocity component of the second body is below 0.5

  /** The session as the scene's constructor leaves it. */
  function Initial(): Game
  {
    Game(NotStarted, 0, WinningScore, InitialPitches, false, StartX, false, false, 0.0,
         false, false, Baseball, false, 0.0, [], Empty(), [])
  }

  /** What every reachable session satisfies. */
  predicate Inv(g: Game)
  {
    && g.score >= 0
    && g.target == WinningScore
    && -1 <= g.pitchCounter <= InitialPitches
    && LeftmostX <= g.battingX <= RightmostX
    && !(g.swingToggler && g.batSwinger)
    && (g.landed ==> g.contact)
    && |g.bodies| <= 2
    && 0 <= g.camera.selection <= 2
    && |g.camera.cameras| <= 3
  }

  lemma InitialInv()
    ensures Inv(Initial())
  {
  }

  // ---------------------------------------------------------------- key handlers

  /** "Begin Game". */
  function BeginGame(g: Game): (r: Game)
    ensures r.phase == Started
    ensures r.(phase := g.phase) == g
    ensures Inv(g) ==> Inv(r)
  {
    g.(phase := Started)
  }

  /** "Restart Game": from any phase back to a fresh round. */
  function RestartGame(g: Game): (r: Game)
    ensures r.phase == Started && r.score == 0 && r.pitchCounter == InitialPitches
    ensures r.target == WinningScore
    ensures r.(phase := g.phase, score := g.score, pitchCounter := g.pitchCounter, target := g.target) == g
    ensures Inv(g) ==> Inv(r)
  {
    g.(phase := Started, target := WinningScore, score := 0, pitchCounter := InitialPitches)
  }

  /** "Change day/night time". */
  function ToggleNight(g: Game): (r: Game)
    ensures r.night != g.night
    ensures r.(night := g.night) == g
    ensures Inv(g) ==> Inv(r)
  {
    g.(night := !g.night)
  }

  /** "Move Left": half a unit left, stopping at -6. */
  function MoveLeft(g: Game): (r: Game)
    ensures r.(battingX := g.battingX) == g
    ensures g.battingX >= LeftmostX ==> r.battingX == g.battingX - 1 || r.battingX == g.battingX
    ensures g.battingX >= LeftmostX ==> (r.battingX == g.battingX <==> g.battingX == LeftmostX)
    ensures Inv(g) ==> Inv(r)
  {
    g.(battingX := if g.battingX - 1 > LeftmostX then g.battingX - 1 else LeftmostX)
  }

  /** "Move Right": half a unit right, stopping at -2. */
  function MoveRight(g: Game): (r: Game)
    ensures r.(battingX := g.battingX) == g
    ensures g.battingX <= RightmostX ==> r.battingX == g.battingX + 1 || r.battingX == g.battingX
    ensures g.battingX <= RightmostX ==> (r.battingX == g.battingX <==> g.battingX == RightmostX)
    ensures Inv(g) ==> Inv(r)
  {
    g.(battingX := if g.battingX + 1 < RightmostX then g.battingX + 1 else RightmostX)
  }

  /** "Swing": records a press unless a swing is already in progress. */
  function PressSwing(g: Game): (r: Game)
    ensures g.batSwinger ==> r == g
    ensures !g.batSwinger ==> r == g.(swingToggler := true)
    ensures Inv(g) ==> Inv(r)
  {
    if !g.batSwinger then g.(swingToggler := true) else g
  }

  /** "Home Run": the debugging key that marks the ball as hit. */
  function ForceContact(g: Game): (r: Game)
    ensures r.contact && r.(contact := g.contact) == g
    ensures Inv(g) ==> Inv(r)
  {
    g.(contact := true)
  }

  /** The teleporter's "Enable" ("e") and "Disable" (Shift+E): only its flag changes. */
  function SetCameraEnabled(g: Game, on: bool): (r: Game)
    ensures r.camera.enabled == on
    ensures r.camera.cameras == g.camera.cameras && r.camera.selection == g.camera.selection
    ensures r.(camera := g.camera) == g
    ensures Inv(g) ==> Inv(r)
  {
    g.(camera := g.camera.(enabled := on))
  }

  /** The teleporter's "Previous location" ("g") and "Next" ("h"): only its selection moves. */
  function MoveCamera(g: Game, next: bool): (r: Game)
    ensures r.camera == if next then Increased(g.camera) else Decreased(g.camera)
    ensures r.(camera := g.camera) == g
    ensures Inv(g) ==> Inv(r)
  {
    g.(camera := if next then Increased(g.camera) else Decreased(g.camera))
  }

  // ---------------------------------------------------------------- display

  /** Every frame first empties the teleporter's list and saves the batting
      view in it; the selection is left as it was. */
  function ResetCameras(g: Game): (r: Game)
    ensures r.camera.cameras == [HomePose]
    ensures r.camera.selection == g.camera.selection && r.camera.enabled == g.camera.enabled
    ensures r.(camera := g.camera) == g
    ensures Inv(g) ==> Inv(r)
  {
    g.(camera := g.camera.(cameras := [HomePose]))
  }

  /** The end-of-game test run at the start of every frame. */
  function EndCheck(g: Game): (r: Game)
    ensures g.pitchCounter == -1 ==> r.phase == if g.score < 3 then GameOver else YouWin
    ensures g.pitchCounter != -1 ==> r == g
    ensures r.(phase := g.phase) == g
    ensures Inv(g) ==> Inv(r)
  {
    var g1 := if g.score < 3 && g.pitchCounter == -1 then g.(phase := GameOver) else g;
    if g1.score >= 3 && g1.pitchCounter == -1 then g1.(phase := YouWin) else g1
  }

  /** A pending Swing press starts the swing at time `t`. */
  function ConsumeSwing(g: Game, t: real): (r: Game)
    ensures g.swingToggler ==> r.batSwinger && !r.swingToggler && r.swingTimer == t
    ensures !g.swingToggler ==> r == g
    ensures r.(batSwinger := g.batSwinger, swingToggler := g.swingToggler, swingTimer := g.swingTimer) == g
    ensures Inv(g) ==> Inv(r)
  {
    if g.swingToggler then g.(swingTimer := t, batSwinger := true, swingToggler := false) else g
  }

  /** The swing ends once its window (a quarter of pi seconds) has passed:
      `windowOver` stands for `t - swingTimer >= PI / 4`. */
  function EndSwing(g: Game, windowOver: bool): (r: Game)
    ensures g.batSwinger && windowOver ==> !r.batSwinger
    ensures !(g.batSwinger && windowOver) ==> r == g
    ensures r.(batSwinger := g.batSwinger) == g
    ensures Inv(g) ==> Inv(r)
  {
    if g.batSwinger && windowOver then g.(batSwinger := false) else g
  }

  /** The bat proxy is created when no body exists. */
  function SpawnBat(g: Game): (r: Game)
    ensures g.bodies == [] ==> r.bodies == [Bat]
    ensures g.bodies != [] ==> r == g
    ensures r.(bodies := g.bodies) == g
    ensures Inv(g) ==> Inv(r)
  {
    if |g.bodies| < 1 then g.(bodies := g.bodies + [Bat]) else g
  }

  /** Once a hit ball has been cleared, the pitch cooldown starts at `t`. */
  function ArmPitch(g: Game, t: real): (r: Game)
    ensures g.pitchTime && |g.bodies| < 2 ==> r.pitchTimer == t && !r.pitchTime
    ensures !(g.pitchTime && |g.bodies| < 2) ==> r == g
    ensures r.(pitchTimer := g.pitchTimer, pitchTime := g.pitchTime) == g
    ensures Inv(g) ==> Inv(r)
  {
    if g.pitchTime && |g.bodies| < 2 then g.(pitchTimer := t, pitchTime := false) else g
  }

  /** The guard under which a new ball is pitched. */
  predicate CanPitch(g: Game, t: real)
  {
    t > g.pitchTimer + PitchCooldown && |g.bodies| < 2 && g.pitchCounter > -1 && g.phase == Started
  }

  /** A pitch: the counter drops by one and a ball of the chosen kind joins
      the bodies. */
  function Pitch(g: Game, t: real, kind: BallKind): (r: Game)
    ensures r.pitchCounter < g.pitchCounter <==> CanPitch(g, t)
    ensures CanPitch(g, t) ==>
      r.pitchCounter == g.pitchCounter - 1 && r.bodies == g.bodies + [Projectile] && r.kind == kind && !r.pitchTime
    ensures !CanPitch(g, t) ==> r == g
    ensures r.(pitchTime := g.pitchTime, pitchCounter := g.pitchCounter, bodies := g.bodies, kind := g.kind) == g
    ensures g.pitchCounter >= -1 ==> r.pitchCounter >= -1
    ensures Inv(g) ==> Inv(r)
  {
    if CanPitch(g, t) then
      g.(pitchTime := false, pitchCounter := g.pitchCounter - 1,
         bodies := g.bodies + [Projectile], kind := kind)
    else g
  }

  /** The swing part of a frame: a pending press starts the swing, and a
      swing whose window is over ends. A swing started in this frame has
      `t - swingTimer == 0`, so its window is not over yet and `swingWindowOver`
      only applies to a swing already under way. */
  function SwingFrame(g: Game, t: real, swingWindowOver: bool): (r: Game)
    ensures Inv(g) ==> Inv(r)
    ensures g.swingToggler ==> r.batSwinger && !r.swingToggler && r.swingTimer == t
    ensures !g.swingToggler ==> r.swingToggler == g.swingToggler && r.swingTimer == g.swingTimer
    ensures !g.swingToggler ==> (r.batSwinger <==> g.batSwinger && !swingWindowOver)
    ensures r.(batSwinger := g.batSwinger, swingToggler := g.swingToggler, swingTimer := g.swingTimer) == g
  {
    EndSwing(ConsumeSwing(g, t), swingWindowOver && !g.swingToggler)
  }

  /** The body part of a frame: the bat appears, the cooldown is armed and a
      ball may be pitched. */
  function PitchFrame(g: Game, t: real, kind: BallKind): (r: Game)
    ensures Inv(g) ==> Inv(r)
    ensures r.battingX == g.battingX && r.score == g.score && r.camera == g.camera
  {
    Pitch(ArmPitch(SpawnBat(g), t), t, kind)
  }

  /** The part of `display` before the physics runs. */
  function FrameStart(g: Game, t: real, swingWindowOver: bool, kind: BallKind): (r: Game)
    ensures Inv(g) ==> Inv(r)
    ensures r.battingX == g.battingX && r.score == g.score
    ensures r.camera == ResetCameras(g).camera
  {
    PitchFrame(SwingFrame(EndCheck(ResetCameras(g)), t, swingWindowOver), t, kind)
  }

  // ---------------------------------------------------------------- update_state

  /** Which bodies a pruning keeps: after a hit, those within 300; otherwise
      those within 40. */
  datatype Radius = HitRadius | IdleRadius

  predicate Keeps(radius: Radius, b: Band)
  {
    match radius
    case HitRadius => b != Beyond300
    case IdleRadius => b == Within40
  }

  /** The bodies that a pruning keeps, in order (`Array.filter`), where
      `band(i)` is the band of the i-th body. */
  function Kept(bodies: seq<Body>, band: nat -> Band, radius: Radius): (r: seq<Body>)
    ensures |r| <= |bodies|
    decreases |bodies|
  {
    if bodies == [] then []
    else
      var n := |bodies| - 1;
      Kept(bodies[..n], band, radius) + if Keeps(radius, band(n)) then [bodies[n]] else []
  }

  /** The filter keeps every body exactly when every body passes its test. */
  lemma {:induction false} KeptAll(bodies: seq<Body>, band: nat -> Band, radius: Radius)
    ensures |Kept(bodies, band, radius)| == |bodies| <==> forall i :: 0 <= i < |bodies| ==> Keeps(radius, band(i))
    decreases |bodies|
  {
    if bodies != [] {
      KeptAll(bodies[..|bodies| - 1], band, radius);
    }
  }

  /** A body within 90 moves the camera selection back once. */
  predicate Near(b: Band) { b == Within40 || b == Within90 }

  /** The number of bodies among the first `n` that are within 90. */
  function CountNear(n: nat, band: nat -> Band): (c: nat)
    ensures c <= n
  {
    if n == 0 then 0 else CountNear(n - 1, band) + if Near(band(n - 1)) then 1 else 0
  }

  /** Every body within 90 passes the filter after a hit. */
  lemma NearKept(b: Band)
    ensures Near(b) ==> Keeps(HitRadius, b)
  {
  }

  /** The number of bodies among the first `n` that the filter with `radius`
      keeps and that are within 90: the bodies the camera loop visits and
      decreases for when it runs over the filtered list. */
  function KeptNear(n: nat, band: nat -> Band, radius: Radius): (c: nat)
    ensures c <= CountNear(n, band)
  {
    if n == 0 then 0
    else KeptNear(n - 1, band, radius) + if Keeps(radius, band(n - 1)) && Near(band(n - 1)) then 1 else 0
  }

  /** Counting the nearby bodies before the filter after a hit gives the
      count taken over the bodies the filter keeps. */
  lemma {:induction false} CountNearKept(n: nat, band: nat -> Band)
    ensures CountNear(n, band) == KeptNear(n, band, HitRadius)
  {
    if n > 0 {
      CountNearKept(n - 1, band);
      NearKept(band(n - 1));
    }
  }

  /** The first landing of a hit ball: the latch is set, the score rises by
      one, a basketball ends the game. */
  function Land(g: Game, homeRun: bool): (r: Game)
    ensures r.landed && r.score == g.score + 1
    ensures r.sounds == g.sounds + if homeRun then [HomerunCheer] else [Booing, Booing2]
    ensures r.phase == if g.kind == Basketball then GameOver else g.phase
    ensures r.(landed := g.landed, phase := g.phase, score := g.score, sounds := g.sounds) == g
    ensures Inv(g) && g.contact ==> Inv(r)
  {
    g.(landed := true,
       phase := if g.kind == Basketball then GameOver else g.phase,
       score := g.score + 1,
       sounds := g.sounds + if homeRun then [HomerunCheer] else [Booing, Booing2])
  }

  /** The pruning after a hit: bodies at 300 or more are dropped, any body
      left re-arms the pitch timer, and each body within 90 moves the camera
      selection back once. */
  function PruneAfterHit(g: Game, band: nat -> Band): (r: Game)
    ensures r.bodies == Kept(g.bodies, band, HitRadius)
    ensures r.camera.cameras == g.camera.cameras
    ensures g.camera.selection >= 0 ==> 0 <= r.camera.selection <= g.camera.selection
    ensures r.(bodies := g.bodies, pitchTime := g.pitchTime, camera := g.camera) == g
    ensures Inv(g) ==> Inv(r)
  {
    var kept := Kept(g.bodies, band, HitRadius);
    g.(bodies := kept,
       pitchTime := g.pitchTime || |kept| > 0,
       camera := DecreasedTimes(g.camera, CountNear(|g.bodies|, band)))
  }

  /** The pruning while no hit is being played: only bodies within 40 stay. */
  function PruneIdle(g: Game, band: nat -> Band): (r: Game)
    ensures r.bodies == Kept(g.bodies, band, IdleRadius)
    ensures r.(bodies := g.bodies) == g
    ensures Inv(g) ==> Inv(r)
  {
    g.(bodies := Kept(g.bodies, band, IdleRadius))
  }

  /** The end of a tick: with fewer than two bodies left, or with the ball at
      rest (which is then removed), both latches are released; a ball still
      in flight keeps them. */
  function Settle(g: Game, stopped: bool): (r: Game)
    ensures |r.bodies| <= |g.bodies|
    ensures |g.bodies| < 2 || stopped ==> !r.contact && !r.landed
    ensures |g.bodies| >= 2 && stopped ==> r.bodies == g.bodies[..|g.bodies| - 1]
    ensures |g.bodies| >= 2 && !stopped ==> r == g
    ensures r.landed ==> r == g
    ensures r.(contact := g.contact, landed := g.landed, bodies := g.bodies) == g
    ensures Inv(g) ==> Inv(r)
  {
    if |g.bodies| < 2 then g.(contact := false, landed := false)
    else if stopped then g.(contact := false, landed := false, bodies := g.bodies[..|g.bodies| - 1])
    else g
  }

  /** Whether this tick makes the first landing of a hit ball count. */
  predicate Scores(g: Game, input: TickInput)
  {
    |g.bodies| > 1 && (g.contact || input.collides) && input.landed && !g.landed
  }

  /** The part of a tick that runs when at least two bodies exist. */
  function TickBall(g: Game, input: TickInput): (r: Game)
    requires |g.bodies| > 1
    ensures r.score == g.score + if g.contact && input.landed && !g.landed then 1 else 0
    ensures |r.bodies| <= |g.bodies|
    ensures r.pitchCounter == g.pitchCounter && r.battingX == g.battingX
    ensures r.camera.cameras == g.camera.cameras
    ensures Inv(g) ==> Inv(r)
  {
    var g2 := if g.contact && input.landed && !g.landed then Land(g, input.homeRunZone) else g;
    var g3 := if g.contact then PruneAfterHit(g2, input.band) else PruneIdle(g2, input.band);
    Settle(g3, input.stopped)
  }

  /** One physics tick of `update_state`. */
  function Tick(g: Game, input: TickInput): (r: Game)
    ensures r.score == g.score + if Scores(g, input) then 1 else 0
    ensures |r.bodies| <= |g.bodies|
    ensures r.pitchCounter == g.pitchCounter && r.battingX == g.battingX
    ensures r.camera.cameras == g.camera.cameras
  {
    var g1 := g.(contact := g.contact || (input.collides && |g.bodies| >= 2));
    if |g1.bodies| <= 1 then g1 else TickBall(g1, input)
  }

  /** A scoring tick plays the cheer or the boos, and a basketball ends the
      game; any other tick leaves the sounds and the phase alone. */
  lemma TickSounds(g: Game, input: TickInput)
    ensures var r := Tick(g, input);
      && (Scores(g, input) ==> r.sounds == g.sounds + if input.homeRunZone then [HomerunCheer] else [Booing, Booing2])
      && (!Scores(g, input) ==> r.sounds == g.sounds)
      && (Scores(g, input) && g.kind == Basketball ==> r.phase == GameOver)
      && (!(Scores(g, input) && g.kind == Basketball) ==> r.phase == g.phase)
  {
  }

  /** A tick keeps the invariant. */
  lemma TickInv(g: Game, input: TickInput)
    ensures Inv(g) ==> Inv(Tick(g, input))
  {
    var g1 := g.(contact := g.contact || (input.collides && |g.bodies| >= 2));
    assert Inv(g) ==> Inv(g1);
  }

  /** A tick releases the landing latch only by removing a body. */
  lemma TickReleases(g: Game, input: TickInput)
    ensures var r := Tick(g, input);
      g.landed && !r.landed ==> |r.bodies| < |g.bodies|
  {
  }

  /** Ticks run one after the other. */
  function Ticks(g: Game, inputs: seq<TickInput>): (r: Game)
    ensures r.pitchCounter == g.pitchCounter && r.battingX == g.battingX && r.score >= g.score
    ensures r.camera.cameras == g.camera.cameras
    decreases |inputs|
  {
    if inputs == [] then g else Ticks(Tick(g, inputs[0]), inputs[1..])
  }

  lemma {:induction false} TicksInv(g: Game, inputs: seq<TickInput>)
    ensures Inv(g) ==> Inv(Ticks(g, inputs))
    decreases |inputs|
  {
    if inputs != [] {
      TickInv(g, inputs[0]);
      TicksInv(Tick(g, inputs[0]), inputs[1..]);
    }
  }

  /** The number of projectiles among the bodies. */
  function Projectiles(bodies: seq<Body>): (n: nat)
    ensures n <= |bodies|
    decreases |bodies|
  {
    if bodies == [] then 0
    else Projectiles(bodies[..|bodies| - 1]) + if bodies[|bodies| - 1] == Projectile then 1 else 0
  }

  /** `n` poses saved and followed, one after the other. */
  function FollowTimes(v: View, n: nat, pose: Pose): (r: View)
    ensures |r.cameras| == |v.cameras| + n
    ensures n > 0 ==> r.enabled
    ensures InRange(v) ==> InRange(r)
    ensures |v.cameras| == 1 && v.selection >= 0 && n > 0 ==> r.selection == n && r.cameras[n] == pose
    decreases n
  {
    if n == 0 then v else Follow(FollowTimes(v, n - 1, pose), pose)
  }

  /** After the physics: while a hit is being played, every ball gets a
      camera that follows it. */
  function FollowBall(g: Game, pose: Pose): (r: Game)
    ensures Inv(g) && |g.camera.cameras| == 1 ==> Inv(r)
    ensures r.(camera := g.camera) == g
  {
    if g.phase == Started && g.contact then g.(camera := FollowTimes(g.camera, Projectiles(g.bodies), pose))
    else g
  }

  /** One whole frame of `display`: its logic before the physics, the physics
      ticks the time accumulator runs, and the ball-following camera. */
  function Display(g: Game, t: real, swingWindowOver: bool, kind: BallKind,
                   ticks: seq<TickInput>, pose: Pose): (r: Game)
    ensures Inv(g) ==> Inv(r)
    ensures r.battingX == g.battingX && r.score >= g.score
  {
    TicksInv(FrameStart(g, t, swingWindowOver, kind), ticks);
    FollowBall(Ticks(FrameStart(g, t, swingWindowOver, kind), ticks), pose)
  }

  // ---------------------------------------------------------------- runs of events

  /** What can happen between two states: one of the scene's key presses,
      one of the teleporter's keys ("e", Shift+E, "g" and "h"), or a frame. */
  datatype Event =
    | Begin
    | Restart
    | DayNight
    | Left
    | Right
    | Swing
    | HomeRunKey
    | CameraOn
    | CameraOff
    | PreviousCamera
    | NextCamera
    | Frame(t: real, swingWindowOver: bool, kind: BallKind, ticks: seq<TickInput>, pose: Pose)

  function Step(g: Game, e: Event): (r: Game)
    ensures Inv(g) ==> Inv(r)
    ensures Inv(g) ==> -1 <= r.battingX - g.battingX <= 1
    ensures e.CameraOn? || e.CameraOff? || e.PreviousCamera? || e.NextCamera? ==>
      r.(camera := g.camera) == g && r.camera.cameras == g.camera.cameras
  {
    match e
    case Begin => BeginGame(g)
    case Restart => RestartGame(g)
    case DayNight => ToggleNight(g)
    case Left => MoveLeft(g)
    case Right => MoveRight(g)
    case Swing => PressSwing(g)
    case HomeRunKey => ForceContact(g)
    case CameraOn => SetCameraEnabled(g, true)
    case CameraOff => SetCameraEnabled(g, false)
    case PreviousCamera => MoveCamera(g, false)
    case NextCamera => MoveCamera(g, true)
    case Frame(t, w, k, ticks, pose) => Display(g, t, w, k, ticks, pose)
  }

  function Run(g: Game, events: seq<Event>): (r: Game)
    decreases |events|
  {
    if events == [] then g else Run(Step(g, events[0]), events[1..])
  }
}
