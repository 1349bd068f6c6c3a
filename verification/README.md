# Ball Don't Lie: a Dafny model of the game logic and mesh generators

"Ball Don't Lie" is a browser baseball game. The player moves a batter, swings at pitched
baseballs and basketballs, and needs three hits that land before the pitches run out. A
basketball that is hit and lands ends the game. This project models two discrete parts of
the game and proves properties about them.

1. **The game session** (`main-scene.js`):
   - `Final_Project`'s counters, its key handlers and the logic that `display` runs each frame.
   - `Baseball.update_state`'s collision latch, landing latch and body pruning.
   - The `Camera_Teleporter`.

   The session is modelled twice:
   - `Session` is a value (`Game`) with one function per event.
   - `Scene.Baseball` and `Cameras.CameraTeleporter` are classes whose fields their methods
     update in place. Each method ensures that the new state equals the matching `Session`
     function applied to the old state, so every lemma about `Session` also holds of the
     objects.

2. **The shape generators** (`resources.js`):
   - The Wavefront OBJ loader `Shape_From_File.parse_into_mesh`. `ObjText` holds the
     JavaScript string operations it relies on.
   - The `Grid_Patch` position and index loops.
   - `Subdivision_Sphere.subdivide_triangle`.
   - `Text_Line` and its `set_string`.

   `Labels` holds the scoreboard strings built in `display`.

The floating-point parts of the game are not computed. They enter as inputs of the events:
- collision tests;
- the landing height and the home-run zone;
- distances of bodies from the origin, given per body as a distance band;
- a ball at rest;
- the swing window;
- the random ball kind.

Vertex coordinates, camera matrices and grid points stay symbolic. A point is known by where
it came from: the token it was looked up for, the two points it is the midpoint of, or its
row and column.

A few modelling choices follow the code:

- **`battingX` in half units.** It is kept as an integer count of half units: -8 at the start,
  clamped to [-12, -4]. This stands for the source's -4.0, clamped to [-6.0, -2.0] in steps
  of 0.5. Every such value is exact in binary floating point, so the scaling is faithful.
- **Twenty-one pitches, not twenty.** The pitch counter starts at 20, and the guard lets a
  pitch through while the counter is above -1. So a session throws 21 balls, not 20 as the
  written description of the game says; the model follows the code.
  `SessionProperties.TwentyOneMissedPitchesLose` states this run.
- **The end check runs every frame.** Once the counter is -1, every frame re-tests the score,
  whatever the phase. The physics ticks and the landing that adds a point also run in every
  phase. So a GAME OVER shown while the last ball is still in flight becomes YOU WIN if that
  ball is hit and lands for the third point (`SessionProperties.LateLandingWins`).
- **Camera selection range.** Every frame, `display` empties the teleporter's list and saves
  only the batting view, but leaves `selection` as it was. So the selection range
  `0 <= selection <= max(cameras.length - 1, 0)` is kept by "Next" and "Previous location"
  (`Cameras.Increased`, `Cameras.Decreased`). It does not hold between frames: after a
  followed hit the selection is 1 while the list is reset to one pose. What every reachable
  session does keep is a selection in {0, 1, 2} (`SessionProperties.Reachable`). During a
  hit, the teleporter ends each frame looking through the pose that follows the ball
  (`SessionProperties.DisplayFollowsBall`).
- **Nearby-body count.** After a hit, the source counts the bodies within 90 among the bodies
  the filter kept. The model counts them among all bodies before the filter. The two counts
  are equal, because the filter keeps every body within 300 (`Session.NearKept`,
  `Session.CountNearKept`).

## Model

| member | source | states |
|---|---|---|
| Cameras.Empty | ball-dont-lie-final-project/main-scene.js:2074-2078 | a new teleporter has no poses, selection 0, and is in range |
| Cameras.Increased | ball-dont-lie-final-project/main-scene.js:2095-2100 | "Next" moves the selection up by one below the top and leaves it at the top; the range `0..max(len-1,0)` is preserved; poses and the enabled flag are unchanged |
| Cameras.Decreased | ball-dont-lie-final-project/main-scene.js:2101-2103 | "Previous location" moves the selection down by one, never below 0; the range is preserved; poses and the enabled flag are unchanged |
| Cameras.DecreasedTimes | ball-dont-lie-final-project/main-scene.js:2196-2198 | n decreases bring the selection to max(selection - n, 0) and keep the range |
| Cameras.Follow | ball-dont-lie-final-project/main-scene.js:2033-2046 | following a ball appends its pose, enables the teleporter and, on a non-empty list, moves the selection up by one, keeping the range |
| Cameras.DesiredCamera | ball-dont-lie-final-project/main-scene.js:2104-2106 | the teleporter looks through a pose exactly when it is enabled and its selection is within the list, and then through the selected pose; otherwise it leaves the camera alone |
| Cameras.CameraTeleporter.constructor | ball-dont-lie-final-project/main-scene.js:2074-2078 | the object starts in the `Empty` state |
| Cameras.CameraTeleporter.Enable | ball-dont-lie-final-project/main-scene.js:2081 | sets only `enabled` |
| Cameras.CameraTeleporter.Disable | ball-dont-lie-final-project/main-scene.js:2082-2086 | clears only `enabled` |
| Cameras.CameraTeleporter.Increase | ball-dont-lie-final-project/main-scene.js:2095-2100 | leaves the object in the `Increased` state |
| Cameras.CameraTeleporter.Decrease | ball-dont-lie-final-project/main-scene.js:2101-2103 | leaves the object in the `Decreased` state |
| Cameras.CameraTeleporter.Push | ball-dont-lie-final-project/main-scene.js:2034 | appends one pose and changes nothing else |
| Session.Initial | ball-dont-lie-final-project/main-scene.js:263-305 | definition: the session the constructor builds, NOT STARTED with score 0, target 3, 20 pitches and the batter at -4 |
| Session.InitialInv | ball-dont-lie-final-project/main-scene.js:263-305 | the session the constructor builds (score 0, target 3, 20 pitches, batter at -4) satisfies the session invariant |
| Session.BeginGame | ball-dont-lie-final-project/main-scene.js:322-324 | "Begin Game" sets the state to STARTED and changes nothing else |
| Session.RestartGame | ball-dont-lie-final-project/main-scene.js:325-332 | "Restart Game", from any state, sets STARTED, score 0, 20 pitches and target 3, and changes nothing else |
| Session.ToggleNight | ball-dont-lie-final-project/main-scene.js:333-339 | flips day and night only |
| Session.MoveLeft | ball-dont-lie-final-project/main-scene.js:340-342 | the batter moves half a unit left or, exactly when already at -6, stays; nothing else changes |
| Session.MoveRight | ball-dont-lie-final-project/main-scene.js:343-345 | the batter moves half a unit right or, exactly when already at -2, stays; nothing else changes |
| Session.PressSwing | ball-dont-lie-final-project/main-scene.js:346-348 | a press during a swing has no effect; otherwise it records a pending swing |
| Session.ForceContact | ball-dont-lie-final-project/main-scene.js:349-351 | the "Home Run" key sets the contact latch only |
| Session.SetCameraEnabled | ball-dont-lie-final-project/main-scene.js:2081-2086 | "Enable" and "Disable" set the teleporter's flag and change nothing else; the invariant is kept |
| Session.MoveCamera | ball-dont-lie-final-project/main-scene.js:2088-2089 | "Previous location" and "Next" move the selection as `Cameras.Decreased` and `Cameras.Increased` and change nothing else; the invariant is kept |
| Session.ResetCameras | ball-dont-lie-final-project/main-scene.js:412-421 | each frame the teleporter's list becomes the batting view alone; selection and enabled flag are kept |
| Session.EndCheck | ball-dont-lie-final-project/main-scene.js:1116-1130 | with the counter at -1, score < 3 gives GAME OVER and score >= 3 gives YOU WIN; otherwise nothing changes |
| Session.ConsumeSwing | ball-dont-lie-final-project/main-scene.js:1611-1615 | a pending press starts the swing at time t and is cleared; without one nothing changes |
| Session.EndSwing | ball-dont-lie-final-project/main-scene.js:1896-1898 | a swing whose window has passed ends; otherwise nothing changes |
| Session.SpawnBat | ball-dont-lie-final-project/main-scene.js:1958-1972 | the bat is added exactly when there are no bodies |
| Session.ArmPitch | ball-dont-lie-final-project/main-scene.js:1973-1976 | once the hit ball is cleared, the pitch cooldown starts at t |
| Session.CanPitch | ball-dont-lie-final-project/main-scene.js:1977-1982 | definition: the pitch guard, cooldown of 2 passed, fewer than two bodies, counter above -1 and STARTED |
| Session.Pitch | ball-dont-lie-final-project/main-scene.js:1977-2014 | the counter drops, by exactly one, if and only if the cooldown has passed, fewer than 2 bodies exist, the counter is above -1 and the game is STARTED; then a ball of the given kind is added; the counter never goes below -1 |
| Session.SwingFrame | ball-dont-lie-final-project/main-scene.js:1611-1898 | a pending press starts a swing that survives its first frame (its window cannot be over at zero elapsed time); otherwise a swing under way ends exactly when its window is over; only the swing state changes and the invariant is kept |
| Session.PitchFrame | ball-dont-lie-final-project/main-scene.js:1958-2014 | adding the bat, arming and throwing a pitch keep the invariant, the batter, the score and the teleporter |
| Session.FrameStart | ball-dont-lie-final-project/main-scene.js:412-421 | the frame logic before the physics keeps the invariant, the batter and the score, and leaves only the batting view saved |
| Session.Kept | ball-dont-lie-final-project/main-scene.js:2190-2195 | the filter keeps at most the bodies it had |
| Session.KeptAll | ball-dont-lie-final-project/main-scene.js:2190-2195 | the filter keeps every body exactly when every body passes the distance test |
| Session.CountNear | ball-dont-lie-final-project/main-scene.js:2196-2198 | at most one decrease per body |
| Session.NearKept | ball-dont-lie-final-project/main-scene.js:2190-2198 | a body within 90 passes the filter's test after a hit (within 300) |
| Session.KeptNear | ball-dont-lie-final-project/main-scene.js:2190-2198 | the nearby bodies that the filter also keeps are at most all the nearby bodies |
| Session.CountNearKept | ball-dont-lie-final-project/main-scene.js:2190-2198 | after a hit, the nearby bodies counted before the filter are exactly the nearby bodies the filter keeps, so the model's count equals the source's count over the filtered list |
| Session.Land | ball-dont-lie-final-project/main-scene.js:2160-2178 | the first landing sets the latch and adds exactly one point in both the home-run and the other branch, plays the cheer or the two boos, and a basketball forces GAME OVER; nothing else changes, and after a contact the invariant is kept |
| Session.PruneAfterHit | ball-dont-lie-final-project/main-scene.js:2189-2198 | after a hit, bodies at 300 or more are dropped, the pitch timer is re-armed when any body is left, and the selection only moves down, staying >= 0 |
| Session.PruneIdle | ball-dont-lie-final-project/main-scene.js:2199-2201 | without a hit only bodies within 40 stay |
| Session.Settle | ball-dont-lie-final-project/main-scene.js:2203-2212 | with fewer than two bodies, or a ball at rest (which is popped), both latches are released; with two or more bodies and a ball still moving nothing changes, so the contact latch survives a ball in flight |
| Session.TickBall | ball-dont-lie-final-project/main-scene.js:2145-2212 | with a ball present, the score rises by one exactly on the first landing after contact; bodies are never added; counter, batter and saved poses are untouched; the invariant is kept |
| Session.Tick | ball-dont-lie-final-project/main-scene.js:2126-2212 | one physics tick scores exactly once on the first landing after contact, never adds bodies, and leaves the counter, the batter and the saved poses alone |
| Session.TickSounds | ball-dont-lie-final-project/main-scene.js:2160-2178 | a scoring tick plays the cheer on a home run and the two boos otherwise, and a scoring basketball ends the game; a tick that does not score plays nothing and keeps the phase |
| Session.TickInv | ball-dont-lie-final-project/main-scene.js:2126-2212 | one physics tick keeps the session invariant |
| Session.TickReleases | ball-dont-lie-final-project/main-scene.js:2203-2212 | a released landing latch means a body was removed |
| Session.Ticks | ball-dont-lie-final-project/main-scene.js:306-319 | the ticks of one frame keep the counter, the batter and the saved poses, and never lower the score |
| Session.TicksInv | ball-dont-lie-final-project/main-scene.js:306-319 | the ticks of one frame keep the session invariant |
| Session.Projectiles | ball-dont-lie-final-project/main-scene.js:2032-2033 | the number of balls is at most the number of bodies |
| Session.FollowTimes | ball-dont-lie-final-project/main-scene.js:2031-2046 | following n balls from the reset list appends n poses, enables the teleporter and selects the last pose |
| Session.FollowBall | ball-dont-lie-final-project/main-scene.js:2029-2050 | the ball camera changes only the teleporter and keeps the invariant after the per-frame reset |
| Session.Display | ball-dont-lie-final-project/main-scene.js:409-2050 | a whole frame keeps the invariant and the batter and never lowers the score |
| Session.Step | ball-dont-lie-final-project/main-scene.js:322-351 | every event (the scene's keys, the teleporter's "e", Shift+E, "g" and "h" at main-scene.js:2081-2089, and a frame) keeps the invariant and moves the batter by at most half a unit; the teleporter's keys change only the teleporter's flag and selection |
| SessionProperties.RunKeepsInv | ball-dont-lie-final-project/main-scene.js:322-351 | any run of events, the teleporter keys of main-scene.js:2081-2089 included, keeps the session invariant |
| SessionProperties.Reachable | ball-dont-lie-final-project/main-scene.js:290 | in every reachable session: batter in [-6, -2], counter in [-1, 20], at most two bodies, selection in {0, 1, 2}, score >= 0 |
| SessionProperties.DisplayFollowsBall | ball-dont-lie-final-project/main-scene.js:2029-2050 | at the end of a frame that plays a hit, the teleporter looks through the ball's pose |
| SessionProperties.DisplayKeepsHomeView | ball-dont-lie-final-project/main-scene.js:412-421 | in a frame with no hit played, the batting view is the only saved pose |
| SessionProperties.SwingConsumedOnce | ball-dont-lie-final-project/main-scene.js:1611-1615 | a pending press is consumed once: a second consumption changes nothing |
| SessionProperties.OneScorePerContact | ball-dont-lie-final-project/main-scene.js:2160-2178 | while the landing latch holds, a contact scores at most once, and nothing once landed |
| SessionProperties.PitchFromWaiting | ball-dont-lie-final-project/main-scene.js:1977-2014 | between pitches, with pitches left and the cooldown over, the frame pitches a ball and lowers the counter by one |
| SessionProperties.MissedBallDropped | ball-dont-lie-final-project/main-scene.js:2199-2212 | a ball that is not hit and leaves the 40 radius is dropped and both latches stay clear |
| SessionProperties.KeptFirst | ball-dont-lie-final-project/main-scene.js:2190-2195 | with the bat inside the radius and the ball outside, the filter keeps the bat alone |
| SessionProperties.KeptBoth | ball-dont-lie-final-project/main-scene.js:2190-2195 | with both inside the radius, the filter keeps both, in order |
| SessionProperties.MissFrameStep | ball-dont-lie-final-project/main-scene.js:1977-2014 | a missed pitch costs one pitch and no score |
| SessionProperties.MissFramesStep | ball-dont-lie-final-project/main-scene.js:1977-2014 | n missed pitches cost n pitches and no score |
| SessionProperties.PlayedMisses | ball-dont-lie-final-project/main-scene.js:1977-2014 | any frame that misses every ready pitch, played n times, costs n pitches and no score and keeps the pitch timer |
| SessionProperties.HitLands | ball-dont-lie-final-project/main-scene.js:2160-2178 | a hit landing beyond the fence scores one point and sets both latches |
| SessionProperties.LandedBallRemoved | ball-dont-lie-final-project/main-scene.js:2203-2212 | a landed ball at rest is popped and both latches are released |
| SessionProperties.CooldownStarts | ball-dont-lie-final-project/main-scene.js:1973-1976 | the frame after a hit ball is cleared starts the cooldown without pitching |
| SessionProperties.HitFramesStep | ball-dont-lie-final-project/main-scene.js:2126-2212 | a hit pitch costs one pitch and adds one point |
| SessionProperties.HitFrameScores | ball-dont-lie-final-project/main-scene.js:2126-2212 | a pitch that is hit, lands and comes to rest leaves one more point, one pitch fewer, the bat alone and every latch clear |
| SessionProperties.PlayedHits | ball-dont-lie-final-project/main-scene.js:2126-2212 | hit frames played at spaced times each cost one pitch and add one point |
| SessionProperties.HitFramesAlways | ball-dont-lie-final-project/main-scene.js:2126-2212 | from every waiting session with a pitch left and the cooldown over, a home-run frame and the frame after it add one point, cost one pitch and leave the bat alone |
| SessionProperties.LastFrameDecides | ball-dont-lie-final-project/main-scene.js:1116-1130 | once the counter is -1, the next frame ends the round as lost below 3 points and won otherwise |
| SessionProperties.LateLandingWins | ball-dont-lie-final-project/main-scene.js:1116-1130 | from score 2 with one pitch left, the last ball is pitched, the next frame shows GAME OVER with the ball still in flight, a hit landing then makes the score 3, and the frame after that shows YOU WIN |
| SessionProperties.TwentyOneMissedPitchesLose | ball-dont-lie-final-project/main-scene.js:290 | after twenty missed pitches the game still runs with the counter at 0; a 21st pitch is thrown and the round is then lost |
| SessionProperties.BeginIsFresh | ball-dont-lie-final-project/main-scene.js:322-324 | "Begin Game" on the constructed scene gives a fresh session |
| SessionProperties.ThreeHomeRuns | ball-dont-lie-final-project/main-scene.js:2160-2178 | three hit pitches from a fresh session leave 3 points and 17 pitches |
| SessionProperties.WinAfterHomeRuns | ball-dont-lie-final-project/main-scene.js:1116-1130 | with 3 points and 17 pitches, missing the rest wins the round |
| SessionProperties.ThreeHomeRunsWin | ball-dont-lie-final-project/main-scene.js:1116-1130 | three home runs followed by misses win the round |
| Scene.Baseball.constructor | ball-dont-lie-final-project/main-scene.js:263-305 | the scene starts in `Session.Initial` |
| Scene.Baseball.BeginGame | ball-dont-lie-final-project/main-scene.js:322-324 | the fields change as `Session.BeginGame` says |
| Scene.Baseball.RestartGame | ball-dont-lie-final-project/main-scene.js:325-332 | the fields change as `Session.RestartGame` says |
| Scene.Baseball.ToggleNight | ball-dont-lie-final-project/main-scene.js:333-339 | the fields change as `Session.ToggleNight` says |
| Scene.Baseball.MoveLeft | ball-dont-lie-final-project/main-scene.js:340-342 | the fields change as `Session.MoveLeft` says |
| Scene.Baseball.MoveRight | ball-dont-lie-final-project/main-scene.js:343-345 | the fields change as `Session.MoveRight` says |
| Scene.Baseball.Swing | ball-dont-lie-final-project/main-scene.js:346-348 | the fields change as `Session.PressSwing` says |
| Scene.Baseball.HomeRun | ball-dont-lie-final-project/main-scene.js:349-351 | the fields change as `Session.ForceContact` says |
| Scene.Baseball.UpdateState | ball-dont-lie-final-project/main-scene.js:2126-2212 | the fields and the teleporter change as `Session.Tick` says |
| Scene.Baseball.TickBall | ball-dont-lie-final-project/main-scene.js:2145-2212 | the fields change as `Session.TickBall` says |
| Scene.Baseball.Land | ball-dont-lie-final-project/main-scene.js:2160-2178 | the fields change as `Session.Land` says |
| Scene.Baseball.Settle | ball-dont-lie-final-project/main-scene.js:2203-2212 | the fields change as `Session.Settle` says |
| Scene.Baseball.PruneAfterHit | ball-dont-lie-final-project/main-scene.js:2189-2198 | the bodies and the teleporter change as `Session.PruneAfterHit` says, one decrease per nearby body |
| Scene.Baseball.DecreaseNear | ball-dont-lie-final-project/main-scene.js:2196-2198 | one "Previous location" per nearby body, as `Session.CountNear` counts them |
| Scene.Baseball.PruneIdle | ball-dont-lie-final-project/main-scene.js:2199-2201 | the bodies change as `Session.PruneIdle` says |
| Scene.Baseball.Filter | ball-dont-lie-final-project/main-scene.js:2190-2195 | the filter loop returns exactly the bodies `Session.Kept` keeps, in order |
| Scene.Baseball.FrameStart | ball-dont-lie-final-project/main-scene.js:412-421 | the fields change as `Session.FrameStart` says |
| Scene.Baseball.EndCheck | ball-dont-lie-final-project/main-scene.js:1116-1130 | the fields change as `Session.EndCheck` says |
| Scene.Baseball.ConsumeSwing | ball-dont-lie-final-project/main-scene.js:1611-1615 | the fields change as `Session.ConsumeSwing` says |
| Scene.Baseball.EndSwing | ball-dont-lie-final-project/main-scene.js:1896-1898 | the fields change as `Session.EndSwing` says |
| Scene.Baseball.SwingFrame | ball-dont-lie-final-project/main-scene.js:1611-1898 | the fields change as `Session.SwingFrame` says |
| Scene.Baseball.SpawnBat | ball-dont-lie-final-project/main-scene.js:1958-1972 | the fields change as `Session.SpawnBat` says |
| Scene.Baseball.ArmPitch | ball-dont-lie-final-project/main-scene.js:1973-1976 | the fields change as `Session.ArmPitch` says |
| Scene.Baseball.Pitch | ball-dont-lie-final-project/main-scene.js:1977-2014 | the fields change as `Session.Pitch` says |
| Scene.Baseball.PitchFrame | ball-dont-lie-final-project/main-scene.js:1958-2014 | the fields change as `Session.PitchFrame` says |
| Scene.Baseball.Display | ball-dont-lie-final-project/main-scene.js:409-2050 | the fields change as `Session.Display` says |
| Scene.Baseball.Simulate | ball-dont-lie-final-project/main-scene.js:306-319 | one `UpdateState` per tick, in order, as `Session.Ticks` says |
| Scene.Baseball.FollowBall | ball-dont-lie-final-project/main-scene.js:2029-2050 | one pose, enable and increase per ball, as `Session.FollowBall` says |
| Labels.Decimal | ball-dont-lie-final-project/main-scene.js:1139-1153 | a non-negative integer is written as at least one decimal digit, with no leading zero |
| Labels.ParseDecimalOfDecimal | ball-dont-lie-final-project/main-scene.js:1139-1153 | reading the written digits back gives the number |
| Labels.DecimalInjective | ball-dont-lie-final-project/main-scene.js:1139-1153 | different numbers are written differently |
| Labels.ShortDecimal | ball-dont-lie-final-project/main-scene.js:1139-1153 | numbers below 100 take at most two digits |
| Labels.PitchLabel | ball-dont-lie-final-project/main-scene.js:1138-1153 | definition: the three branches of the pitch-count label |
| Labels.PitchLabelShows | ball-dont-lie-final-project/main-scene.js:1138-1153 | for every counter >= -1 the label is the count, with -1 shown as 0, then "Pitch Left!" for 1 and "Pitches Left!" otherwise; no minus sign appears |
| Labels.PitchLabelRecoversCount | ball-dont-lie-final-project/main-scene.js:1138-1153 | two counters with the same label show the same count |
| Labels.PitchLabelFits | ball-dont-lie-final-project/main-scene.js:1138-1153 | every label a session can show fits the 30-place text line |
| Labels.ScoreLabel | ball-dont-lie-final-project/main-scene.js:1186-1189 | definition: "Score: " followed by the score |
| Labels.TargetLabel | ball-dont-lie-final-project/main-scene.js:1204 | definition: "Target: " followed by the target |
| Labels.LabelsReadBack | ball-dont-lie-final-project/main-scene.js:1186-1204 | the score and target are read back from their labels |
| ObjText.NextNewline | ball-dont-lie-final-project/resources.js:824 | finds the first newline at or after i, or the end |
| ObjText.SplitLines | ball-dont-lie-final-project/resources.js:824 | `split('\n')` gives at least one piece, none holding a newline |
| ObjText.JoinSplit | ball-dont-lie-final-project/resources.js:824 | joining the pieces with newlines gives the text back |
| ObjText.SplitJoin | ball-dont-lie-final-project/resources.js:824 | splitting newline-free lines joined with newlines gives the lines back |
| ObjText.SkipSpacesBack | ball-dont-lie-final-project/resources.js:830 | scanning back skips only whitespace and stops after the last other character |
| ObjText.Trim | ball-dont-lie-final-project/resources.js:830 | definition: `trim()` as the slice between the leading and the trailing whitespace |
| ObjText.TrimSlice | ball-dont-lie-final-project/resources.js:830 | `trim()` returns the slice with no whitespace at either end, and everything around it is whitespace |
| ObjText.TrimTrimmed | ball-dont-lie-final-project/resources.js:830 | trimming a trimmed line changes nothing |
| ObjText.NextSpace | ball-dont-lie-final-project/resources.js:831 | finds the first whitespace at or after i, or the end |
| ObjText.SkipSpaces | ball-dont-lie-final-project/resources.js:831 | skips a maximal run of whitespace |
| ObjText.SplitWords | ball-dont-lie-final-project/resources.js:831 | `split(/\s+/)` gives at least one piece, none holding whitespace; what the pieces are is stated by `JoinSplitWords` and `SplitJoinWords` |
| ObjText.JoinSplitWords | ball-dont-lie-final-project/resources.js:831 | the pieces are the maximal runs of non-whitespace of the text, in order: none is empty except the leading or trailing one, and with the whitespace runs between them they give the text back |
| ObjText.SplitJoinWords | ball-dont-lie-final-project/resources.js:831 | pieces without whitespace, empty only at the ends, joined by whitespace runs split back into exactly those pieces and runs |
| ObjText.SplitCons | ball-dont-lie-final-project/resources.js:831 | a piece, a whitespace run and a rest that does not start with whitespace split into the piece followed by the split of the rest |
| ObjText.WordsNonEmpty | ball-dont-lie-final-project/resources.js:830-831 | on a trimmed non-empty line no piece is empty |
| ObjText.HasTag | ball-dont-lie-final-project/resources.js:826-827 | definition: `/^tag\s/.test(t)`, the tag followed by one whitespace character |
| ObjFile.Classify | ball-dont-lie-final-project/resources.js:834-837 | a classified line has a tag and a whitespace character |
| ObjFile.AddToken | ball-dont-lie-final-project/resources.js:842-862 | one face token: the dictionary only grows and holds the token |
| ObjFile.AddTokenEmits | ball-dont-lie-final-project/resources.js:842-862 | one token keeps every old entry and emits exactly one index, the token's own |
| ObjFile.FirstSight | ball-dont-lie-final-project/resources.js:844-862 | a new token gets the next index, three position and three normal coordinates of its own, and two texture coordinates when `vt` lines came first |
| ObjFile.Repeat | ball-dont-lie-final-project/resources.js:842-843 | a token seen before only repeats its stored index and adds no vertex data |
| ObjFile.AddTokenValid | ball-dont-lie-final-project/resources.js:842-862 | one token keeps the unpacked record valid: 3 coordinates per index, one entry per index, indices below `index`, each token's coordinates at its index |
| ObjFile.Visit | ball-dont-lie-final-project/resources.js:841-864 | after any pass the first token of the face is known |
| ObjFile.VisitKeys | ball-dont-lie-final-project/resources.js:841-864 | one pass adds exactly the current token as a key |
| ObjFile.VisitValid | ball-dont-lie-final-project/resources.js:841-864 | one pass keeps the record valid |
| ObjFile.FaceFrom | ball-dont-lie-final-project/resources.js:838-865 | definition: the face loop from position j, with the rewind at j = 3 and the repeat of the first token after the fourth |
| ObjFile.FaceFromStep | ball-dont-lie-final-project/resources.js:840-841 | one turn of the face loop, with the `j === 3` rewind |
| ObjFile.FaceFromKeeps | ball-dont-lie-final-project/resources.js:838-865 | whatever each pass keeps, the whole face loop keeps |
| ObjFile.FaceFromAppends | ball-dont-lie-final-project/resources.js:838-865 | the face loop only appends indices |
| ObjFile.FaceFromCovers | ball-dont-lie-final-project/resources.js:838-865 | after the face loop every token of the face is a key |
| ObjFile.FaceFromValid | ball-dont-lie-final-project/resources.js:838-865 | a whole face keeps the record valid |
| ObjFile.RepeatFirstValid | ball-dont-lie-final-project/resources.js:864 | repeating the first token's index keeps the record valid |
| ObjFile.ParseLine | ball-dont-lie-final-project/resources.js:830-866 | definition: trim, split, drop the tag, then append to the list the tag selects or unpack a face |
| ObjFile.ParseLines | ball-dont-lie-final-project/resources.js:829-867 | definition: the line loop, one line after another |
| ObjFile.ParseLineValid | ball-dont-lie-final-project/resources.js:829-867 | one line keeps the record valid |
| ObjFile.ParseLinesValid | ball-dont-lie-final-project/resources.js:829-867 | every prefix of the file leaves a valid record |
| ObjFile.ParseLinesStep | ball-dont-lie-final-project/resources.js:829-867 | the line loop handles the lines one at a time, in order |
| ObjFile.Unpack | ball-dont-lie-final-project/resources.js:817-867 | definition: the unpacked record after all lines of a file |
| ObjFile.ParsedCounts | ball-dont-lie-final-project/resources.js:870-875 | after parsing, verts and norms hold three coordinates per index |
| ObjFile.Positions | ball-dont-lie-final-project/resources.js:872 | one position per three coordinates |
| ObjFile.Normals | ball-dont-lie-final-project/resources.js:873 | one normal per three coordinates |
| ObjFile.TexCoords | ball-dont-lie-final-project/resources.js:874 | one texture coordinate per index |
| ObjFile.FirstThree | ball-dont-lie-final-project/resources.js:840-862 | the first three passes make the first three tokens known |
| ObjFile.FirstThreeLoop | ball-dont-lie-final-project/resources.js:840-841 | the face loop starts with those three passes |
| ObjFile.FirstThreeIndices | ball-dont-lie-final-project/resources.js:840-862 | they emit the indices of tokens 0, 1, 2 |
| ObjFile.TriangleFace | ball-dont-lie-final-project/resources.js:838-865 | a three-token face appends the indices of e0, e1, e2 |
| ObjFile.QuadFace | ball-dont-lie-final-project/resources.js:838-865 | a four-token face appends e0, e1, e2, e2, e3, e0 |
| ObjFile.VisitIndices | ball-dont-lie-final-project/resources.js:842-864 | one pass emits the token's index, then the first token's index after the fourth token of a quad |
| ObjFile.FaceFromKeys | ball-dont-lie-final-project/resources.js:838-865 | after a face the dictionary's keys are the old keys plus the face's tokens, and nothing else |
| ObjFile.KeysAfterToken | ball-dont-lie-final-project/resources.js:842-860 | one token adds itself as the only new key |
| ObjFile.ParsedTokens | ball-dont-lie-final-project/resources.js:829-867 | after a file the dictionary's keys are exactly the distinct face tokens, and `index` is their number |
| ObjFile.LineKeys | ball-dont-lie-final-project/resources.js:829-867 | one line adds the tokens of a face line as keys, and nothing for other lines |
| ObjFile.PositionsAt | ball-dont-lie-final-project/resources.js:872 | position i is made of coordinates 3i, 3i+1 and 3i+2 |
| ObjFile.ParsedMesh | ball-dont-lie-final-project/resources.js:817-876 | in the finished mesh every index names a position, there is one position per distinct token, and the position at a token's index holds that token's coordinates |
| ObjFile.OtherLinesIgnored | ball-dont-lie-final-project/resources.js:833-837 | lines that are not `v`, `vn`, `vt` or `f` lines leave the loader's state alone |
| ObjFile.TagsDistinct | ball-dont-lie-final-project/resources.js:826-827 | the four tags exclude each other on every line: a `v` line is not a `vn`, `vt` or `f` line, and so on |
| ObjFile.ClassifyByTag | ball-dont-lie-final-project/resources.js:834-837 | each kind of line is exactly the line with that tag, and the other lines have none of the four, so the order of the tests does not matter |
| ObjFile.ShapeFromFile.constructor | ball-dont-lie-final-project/resources.js:817-880 | the shape starts with empty arrays and not ready |
| ObjFile.ShapeFromFile.UnpackFace | ball-dont-lie-final-project/resources.js:838-865 | the face loop, rewind included, computes `FaceFrom` |
| ObjFile.ShapeFromFile.ParseLineInto | ball-dont-lie-final-project/resources.js:830-866 | the body of the line loop computes `ParseLine` |
| ObjFile.ShapeFromFile.ParseText | ball-dont-lie-final-project/resources.js:829-867 | the line loop computes `ParseLines` |
| ObjFile.ShapeFromFile.Assemble | ball-dont-lie-final-project/resources.js:868-876 | one position, normal and texture coordinate per unpacked index are appended |
| ObjFile.ShapeFromFile.ParseIntoMesh | ball-dont-lie-final-project/resources.js:817-880 | the shape's arrays gain the parsed mesh, its indices become the emitted indices, and it is ready |
| GridPatch.RowPoints | ball-dont-lie-final-project/resources.js:187-191 | one point per column place |
| GridPatch.GridPoints | ball-dont-lie-final-project/resources.js:186-191 | (rows+1)(columns+1) positions |
| GridPatch.GridIndex | ball-dont-lie-final-project/resources.js:214-215 | definition: the index formula, with `~~` as division on naturals |
| GridPatch.Triangle | ball-dont-lie-final-project/resources.js:213-215 | three indices per triangle |
| GridPatch.StripIndices | ball-dont-lie-final-project/resources.js:212-215 | three indices per triangle of a strip |
| GridPatch.GridIndices | ball-dont-lie-final-project/resources.js:211-215 | definition: the indices of the first m strips, strip after strip |
| GridPatch.GridIndicesLength | ball-dont-lie-final-project/resources.js:211-215 | 6 * rows * columns indices |
| GridPatch.RowPointsAt | ball-dont-lie-final-project/resources.js:187-191 | place c of a row holds the point of column c |
| GridPatch.GridPointsAt | ball-dont-lie-final-project/resources.js:186-191 | point (r, c) sits at r(columns+1)+c |
| GridPatch.CellTriangles | ball-dont-lie-final-project/resources.js:214-215 | triangle 2k of strip h is (h,k+1),(h+1,k),(h,k) and triangle 2k+1 is (h+1,k),(h,k+1),(h+1,k+1) |
| GridPatch.CellCorner | ball-dont-lie-final-project/resources.js:214-215 | each corner is a corner of its cell |
| GridPatch.CornerInCell | ball-dont-lie-final-project/resources.js:214-215 | the index formula names corner `CellCorner(i, j)` of cell (h, i/2) |
| GridPatch.PointBound | ball-dont-lie-final-project/resources.js:186-191 | a grid point's place is below (rows+1)(columns+1) |
| GridPatch.CornerBound | ball-dont-lie-final-project/resources.js:213-215 | each corner index of a strip below `rows` is below (rows+1)(columns+1) |
| GridPatch.IndexNamesCellCorner | ball-dont-lie-final-project/resources.js:211-215 | every index is below (rows+1)(columns+1) and names a corner of its triangle's cell |
| GridPatch.StripBound | ball-dont-lie-final-project/resources.js:212-215 | every index of a strip is below (rows+1)(columns+1) |
| GridPatch.IndicesBound | ball-dont-lie-final-project/resources.js:211-215 | every index of the patch is below (rows+1)(columns+1) |
| GridPatch.Patch.constructor | ball-dont-lie-final-project/resources.js:179-216 | the shape holds `GridPoints` and `GridIndices` |
| GridPatch.Patch.PushPositions | ball-dont-lie-final-project/resources.js:186-191 | the nested loops push all (rows+1)(columns+1) points, row by row |
| GridPatch.Patch.PushIndices | ball-dont-lie-final-project/resources.js:211-215 | the triple loop pushes 6 * rows * columns indices, each below (rows+1)(columns+1) |
| GridPatch.Patch.PushStrip | ball-dont-lie-final-project/resources.js:212-215 | the middle loop appends the indices of one strip |
| GridPatch.Patch.PushTriangle | ball-dont-lie-final-project/resources.js:213-215 | the inner loop appends the three indices of one triangle |
| SubdivisionSphere.Pow4 | ball-dont-lie-final-project/resources.js:154-172 | 4^n is at least 1 |
| SubdivisionSphere.Subdivide | ball-dont-lie-final-project/resources.js:154-172 | `subdivide_triangle(a,b,c,n)` appends 4^n - 1 positions and 3 * 4^n indices |
| SubdivisionSphere.Quarters | ball-dont-lie-final-project/resources.js:168-171 | the four sub-triangles use only existing points and the three new midpoints |
| SubdivisionSphere.SubdivideAll | ball-dont-lie-final-project/resources.js:168-171 | k triangles append k(4^n - 1) positions and 3k * 4^n indices |
| SubdivisionSphere.SubdivideFacts | ball-dont-lie-final-project/resources.js:154-172 | what was there is kept, the new positions are all midpoints, and every new index names an existing position |
| SubdivisionSphere.SubdivideAllFacts | ball-dont-lie-final-project/resources.js:168-171 | the same for a sequence of triangles |
| SubdivisionSphere.SphereMesh | ball-dont-lie-final-project/resources.js:116-122 | definition: the tetrahedron followed by its four faces subdivided n times, before the seam fix |
| SubdivisionSphere.SphereCounts | ball-dont-lie-final-project/resources.js:114-123 | a sphere of n subdivisions has 4^(n+1) positions and 3 * 4^(n+1) indices, every one naming a position, and everything past the tetrahedron is a midpoint, before the seam fix |
| SubdivisionSphere.OneLevel | ball-dont-lie-final-project/resources.js:160-171 | one split adds three midpoints and the triangles (a,ab,ac), (ab,b,bc), (ac,bc,c), (ab,bc,ac) |
| SubdivisionSphere.NoSplit | ball-dont-lie-final-project/resources.js:156-159 | with count <= 0 exactly (a, b, c) is appended and no position |
| SubdivisionSphere.Four | ball-dont-lie-final-project/resources.js:168-171 | the four recursive calls in a row |
| SubdivisionSphere.FirstOf | ball-dont-lie-final-project/resources.js:168-171 | subdividing a list of triangles is subdividing the first, then the rest |
| SubdivisionSphere.Sphere.constructor | ball-dont-lie-final-project/resources.js:114-123 | the tetrahedron and its four subdivided faces give `SphereMesh`, before the seam fix |
| SubdivisionSphere.Sphere.SubdivideTriangle | ball-dont-lie-final-project/resources.js:154-172 | the recursive method appends exactly what `Subdivide` says |
| TextLine.GlyphQuad | ball-dont-lie-final-project/resources.js:905-914 | four corners per glyph |
| TextLine.CodeAt | ball-dont-lie-final-project/resources.js:906-907 | definition: the character code of place i, or the code of a space past the end of the line |
| TextLine.TexCoords | ball-dont-lie-final-project/resources.js:901-915 | four coordinates per place |
| TextLine.TexCoordsAt | ball-dont-lie-final-project/resources.js:903-914 | place i uses the glyph of row code/16 and column code%16 of its character, or of a space past the end |
| TextLine.SameCodes | ball-dont-lie-final-project/resources.js:903-914 | the coordinates depend only on the codes of the first max_size places |
| TextLine.Truncates | ball-dont-lie-final-project/resources.js:903 | characters past max_size are ignored |
| TextLine.PadsWithSpaces | ball-dont-lie-final-project/resources.js:905-906 | a short line shows as if padded with spaces |
| TextLine.GlyphInjective | ball-dont-lie-final-project/resources.js:905-914 | different codes show different glyphs |
| TextLine.GlyphInTexture | ball-dont-lie-final-project/resources.js:908-914 | glyphs of rows 0 to 14 lie inside the texture, upright and left to right |
| TextLine.LastRowOverhang | ball-dont-lie-final-project/resources.js:908-911 | glyphs of row 15 reach 2 pixels below the texture |
| TextLine.Line.constructor | ball-dont-lie-final-project/resources.js:891-899 | max_size squares, the i-th at offset 1.5 i |
| TextLine.Line.SetString | ball-dont-lie-final-project/resources.js:901-915 | the texture coordinates become `TexCoords(line, max_size)`, 4 * max_size of them |

## Left out

- Rendering: draw calls, materials, shaders, lights, the title screen and its bouncing balls, and the hand-built transforms of `display`.
- Floating-point physics. This covers `Body.advance`, `blend_state`, the collision tests, the hit trajectory, gravity, bounce damping and the distances from the origin. Their outcomes enter as `TickInput` and the `swingWindowOver` flag.
- The time accumulator of `simulate`. A frame takes the sequence of ticks that the accumulator runs as input.
- Randomness. The ball kind, the pitch speed and the aim are parameters of the frame, or are left out.
- Audio play and pause calls. The sounds played on a landing are kept as an append-only log (`sounds`).
- `currentLevel`, `gameBegan` and `gameEnded`. The level always compares equal to level one (`"1" == 1`), and the other two counters only drive the title screen.
- The teleporter's camera blending (`mix` on the camera matrix) and the "Selected camera location" read-out of its control panel. Its four keys are events of the session (`Session.Step`).
- OBJ loader, raw coordinate lookup: the numeric conversion (`+verts[...]`) is not modelled. Neither is the lookup of a face token's coordinates in the raw `v`/`vt`/`vn` lists by the numbers inside the token. Each unpacked coordinate is recorded as the token and the place it was looked up for.
- OBJ loader, other parts: `normalize_positions`, the asynchronous `fetch` of `load_file`, and the upload to the graphics card.
- OBJ loader, dictionary keys: `hashindices` is a plain object in the source. A token such as `__proto__` or `constructor` would hit an inherited property there. The model's dictionary is a true map.
- `Subdivision_Sphere`: the normals and texture coordinates, and the texture-seam fix (`resources.js:126-152`). The seam fix chooses triangles by a floating-point test on texture coordinates, but what it does is discrete: it redirects some entries of `indices` to copies of their positions appended at the end, so the finished shape has more than 4^(n+1) positions. The model stops before that step: `SphereMesh`, `SphereCounts` and `Sphere.constructor` describe the mesh before the seam fix.
- `Grid_Patch`: normals, texture coordinates and `sample_array`. The caller's row and column functions are not modelled; their points are known by their grid place.
- `Text_Line`: the square geometry that tiny-graphics copies in is not part of this model. Each square is represented by its horizontal offset. Nor is the upload to the graphics card.
- TextLine.Line.SetString uses a character's code point where the source uses `charCodeAt`, a UTF-16 code unit. The two agree on every character below U+10000.
- `Scene.Baseball.constructor` creates the teleporter; the source creates it in the first `display` call (`main-scene.js:370`). Until then the source has no teleporter, and the model has an empty one.
- Cameras.Pose: camera matrices are opaque identifiers. `Session.FollowBall` gives every followed ball the same pose. A session never has more than one ball, so this loses nothing.
- The tiny-graphics `Vector`/`Mat4` library is not part of this model.
