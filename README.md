# FreshFuryGame: the fruit-slicing bookkeeping, in Dafny

A webcam demo shows a fruit sprite on the video frame and counts a "cut" when the
index fingertip touches it. This project models the game logic of its two entry
points and proves properties of that model.

- `MediapipeLandmarksTest/game.py` runs one loop over module-level variables.
  Each captured frame goes through four phases in this order:
  1. spawn a fruit at a random position once a second has passed and no fruit is spawned;
  2. show it; if it is off the frame, put it back at (600, 300) and unspawn it;
     if it has been shown for more than two seconds, expire it and load a new sprite;
  3. record the fingertip in a 7-entry track;
  4. if the fingertip lies in the fruit's rectangle, count a cut, move the fruit and load a new sprite.

  Module `Game` gives each phase as a function on a state record (`Spawn`, `Display`,
  `Track`, `Cut`), a frame as their composition `Step` and the loop as `Run`. Class
  `Game.Game` holds the same variables as fields and updates them in place.
  Its methods are proved equal to those functions.
- `app.py` keeps the fruit at (500, 500) for the whole session. A fingertip on the
  fruit, or the `r` key, replaces it with a new random pick from a nine-name catalog.
  Module `App` gives one pass of its loop (`AppStep`), the loop (`Session`) and `main`
  (`Program`), with the loop written out as method `RunMain`.
- Shared helpers: `HitTester.Hit` (inclusive rectangle containment),
  `FingertipTrack.Push` (bounded FIFO of capacity 7), `Catalog.GetRandomFruit`, and
  `Randomness` (Python's `random.randint` and `random.choice`, driven by a draw).

Environment inputs are parameters:
- Clock: `now`, in integer milliseconds. The thresholds of 1 s and 2 s become 1000 and 2000.
- Frame: its width and height.
- Fingertip: an `Option<Point>` pixel, present when a hand was found.
- Random calls: a `nat` draw for each call. `RandInt(lo, hi, d)` is `lo + d % (hi - lo + 1)`,
  and every value in the range is reachable (`RandIntReaches`).
- Loaded sprites: each one is given as a positive width and height.
- Keys: the integers returned by `waitKey`.

`random.randint` raises `ValueError` on an empty range. The model keeps this error path.
- At start-up the ranges are `[w, 1280 - w]` and `[h, 720 - h]`. The first spawn raises when the sprite is wider than 640 or taller than 360 pixels.
- After an expiry the ranges are `[w/2, 1280 - w/2]` and `[h/2, 720 - h/2]`. These are empty from a width of 1282 or a height of 722 pixels (`EmptyRangeThresholds`).
- `Outcome.raised` reports the raise. The state is what had been assigned before it (`Spawn`, `Cut`), and the loop ends with `Exit.Raised`.

Behaviour of the code worth knowing:
- A spawned fruit can lie off the frame. `fruit_x` is drawn from a range suited to a centre point but checked as a top-left corner. Such a fruit is reset to (600, 300) and unspawned in the frame that spawned it (`SpawnCanLeaveFrame`). What holds is weaker: a fruit still spawned after the display phase is in bounds and at most two seconds old (`Display`).
- In `game.py` the hit test runs on every frame with a fingertip, spawned or not, against whatever rectangle is current (`CutWhileNotSpawned`, `CutIgnoresSpawnFlag`).
- In `game.py` a failed capture does not end the loop; it goes round again (`Run`). `app.py` breaks.
- The start-up viable range is `[w, 1280 - w]`, but after an expiry it is `[w/2, 1280 - w/2]`. A cut does not recompute it.

## Model

| member | source | states |
|---|---|---|
| Randomness.RandInt | MediapipeLandmarksTest/game.py:72-73 | `randint` yields a value of `[lo, hi]` with both ends included, and fails exactly when the range is empty |
| Randomness.RandIntReaches | MediapipeLandmarksTest/game.py:72-73 | every value of a non-empty range is produced by some draw |
| Randomness.Choice | app.py:12 | `random.choice` yields an element of the list |
| Randomness.ChoiceReaches | app.py:12 | every element of the list is produced by some draw |
| Catalog.GetRandomFruit | app.py:9-12 | the pick is always one of the nine listed names |
| Catalog.EveryFruitReachable | app.py:9-12 | every listed name can be picked, including the previous pick, so picks may repeat |
| HitTester.Hit | MediapipeLandmarksTest/game.py:148 | the inclusive containment test; its edges are stated by `EdgesInclusive` and its use in `app.py` by `App.NearFruitIsHit` |
| HitTester.EdgesInclusive | MediapipeLandmarksTest/game.py:148 | all four corners are hits; one pixel beyond any edge is not |
| HitTester.BoundaryExample | MediapipeLandmarksTest/game.py:148 | for rectangle (100,100,50,50): (100,100) and (150,150) hit; (151,150) and (100,99) miss |
| FingertipTrack.Last | MediapipeLandmarksTest/game.py:130-134 | the reference for the track: the last `n` elements, in order; `Push` and `PushAllKeepsMostRecent` are stated against it |
| FingertipTrack.PushAll | MediapipeLandmarksTest/game.py:130-134 | repeated pushes, one per frame with a fingertip; `PushAllKeepsMostRecent` states the result |
| FingertipTrack.Push | MediapipeLandmarksTest/game.py:130-134 | a push keeps the last 7 of old track plus new point, newest last; only one entry is dropped if the track was already full |
| FingertipTrack.PushBounded | MediapipeLandmarksTest/game.py:130-134 | a track within capacity stays within 7 entries after a push |
| FingertipTrack.PushAllKeepsMostRecent | MediapipeLandmarksTest/game.py:130-134 | after any number of pushes the track is the most recent ≤7 positions, oldest first |
| FingertipTrack.TenPushes | MediapipeLandmarksTest/game.py:18-19 | ten pushes onto an empty track leave exactly the last seven |
| Game.Initial | MediapipeLandmarksTest/game.py:31-46 | the state before the loop; `InitialInv` states its properties |
| Game.InBounds | MediapipeLandmarksTest/game.py:79 | the bounds check, reading the position as the top-left corner; used by `Display` and `SpawnCanLeaveFrame` |
| Game.IsCut | MediapipeLandmarksTest/game.py:148 | a fingertip present and inside the rectangle, without regard to the spawn flag; `CutIgnoresSpawnFlag`, `Cut` and `StepScore` state its role |
| Game.Step | MediapipeLandmarksTest/game.py:63-159 | the four phases in source order, stopping at a raise in the spawn phase; `StepScore`, `StepInv` and `FreshSpawnNotExpired` state its properties |
| Game.Run | MediapipeLandmarksTest/game.py:47-172 | the loop: skip a failed capture, stop on a raise or on `q`; `RunScore` and `RunInv` state its properties |
| Game.EmptyRangeThresholds | MediapipeLandmarksTest/game.py:43-44 | `randint` has an empty range at start-up iff width > 640 or height > 360, and after an expiry iff width ≥ 1282 or height ≥ 722 |
| Game.Spawn | MediapipeLandmarksTest/game.py:66-73 | spawns iff ≥1 s has passed since the last spawn and no fruit is spawned; then the flag is set, both timestamps become `now`, and the position is drawn inside the viable ranges; it raises iff a range is empty, leaving the fields assigned before the raise and nothing else changed; sizes, ranges, score and track are unchanged |
| Game.DisplayOrExpiry | MediapipeLandmarksTest/game.py:77-101 | a spawned fruit takes exactly one of the display branch (elapsed ≤ 2 s) or the expiry branch (elapsed > 2 s) |
| Game.Display | MediapipeLandmarksTest/game.py:77-110 | a shown fruit in bounds leaves the state alone; a shown fruit out of bounds goes to (600,300) and is unspawned, nothing else changes; expiry unspawns, loads the new size and sets the viable ranges to `[w/2, 1280-w/2]` and `[h/2, 720-h/2]`; a fruit still spawned afterwards is in bounds and at most 2 s old |
| Game.Track | MediapipeLandmarksTest/game.py:129-134 | a fingertip is appended to the track, keeping the last 7 entries; without a fingertip nothing changes |
| Game.Cut | MediapipeLandmarksTest/game.py:147-159 | the score rises by exactly 1 on a hit and is otherwise unchanged; the new position is drawn from the unchanged viable ranges, and the new size is loaded; on a raise only the score and the fields assigned before it have changed; spawn flag, timestamps and track are untouched |
| Game.CutIgnoresSpawnFlag | MediapipeLandmarksTest/game.py:148 | whether a fruit is spawned does not affect hit detection or the score |
| Game.FreshSpawnNotExpired | MediapipeLandmarksTest/game.py:66-77 | a fruit spawned in a frame takes the display branch, never expiry, in that frame |
| Game.StepScore | MediapipeLandmarksTest/game.py:148-150 | a whole frame raises the score by exactly 1 iff the spawn phase did not raise and the fingertip lies in the rectangle left by the first three phases; otherwise the score is unchanged |
| Game.InitialInv | MediapipeLandmarksTest/game.py:31-46 | the start state is not spawned, has score 0 and an empty track, and satisfies `Inv` (equal timestamps, viable ranges symmetric about the screen centre) |
| Game.StepInv | MediapipeLandmarksTest/game.py:63-159 | a frame preserves the bound on the track, equal timestamps and symmetric viable ranges |
| Game.RunScore | MediapipeLandmarksTest/game.py:47-172 | over any run the score never decreases and rises at most once per frame |
| Game.RunInv | MediapipeLandmarksTest/game.py:47-172 | every state a run reaches satisfies the invariant |
| Game.SpawnCanLeaveFrame | MediapipeLandmarksTest/game.py:72-99 | a position drawn inside the viable range can fail the top-left bounds check; that fruit is reset to (600,300) and unspawned in its own spawn frame |
| Game.CutWhileNotSpawned | MediapipeLandmarksTest/game.py:148-150 | a cut is counted while no fruit is spawned |
| Game.SpawnShowExpire | MediapipeLandmarksTest/game.py:66-110 | scenario: spawn at 1 s, unchanged at 1.5 s, expired at 3.6 s with the new size's half-size ranges |
| Game.Game.constructor | MediapipeLandmarksTest/game.py:31-46 | the start state: not spawned, timestamps 0, position (600,300), ranges `[w, 1280-w]` and `[h, 720-h]`, score 0, empty track |
| Game.Game.SpawnPhase | MediapipeLandmarksTest/game.py:66-73 | the in-place spawn phase gives exactly `Spawn` |
| Game.Game.DisplayPhase | MediapipeLandmarksTest/game.py:77-110 | the in-place display/reset/expiry phase gives exactly `Display` |
| Game.Game.TrackPhase | MediapipeLandmarksTest/game.py:129-134 | `append`, then `pop(0)` past capacity, gives exactly `Track` |
| Game.Game.CutPhase | MediapipeLandmarksTest/game.py:147-159 | the in-place hit phase gives exactly `Cut` |
| Game.Game.Tick | MediapipeLandmarksTest/game.py:63-159 | one captured frame gives exactly `Step` and preserves the invariant |
| Game.Game.Play | MediapipeLandmarksTest/game.py:47-172 | the loop gives exactly `Run`: it ends on `q`, on an exception or when frames run out, and the score rises at most once per frame |
| App.NearFruit | app.py:69-70 | the inline hit test as chained comparisons; `NearFruitIsHit` ties it to `HitTester.Hit` |
| App.AppStep | app.py:59-101 | one pass: replace on a hit, then replace on `r`; `CutReplacesFruit`, `ResetReplacesFruit`, `IdlePassChangesNothing` and `AppStepChangesOnlyFruit` state it |
| App.Session | app.py:45-102 | the loop: stop on a failed read or after a pass whose second key is ESC; `SessionKeepsPosition` states its properties |
| App.Program | app.py:15-102 | `main`: no session when the camera or the first sprite fails, otherwise the session from (500,500); `RunMain` computes it and states its properties |
| App.NearFruitIsHit | app.py:69-70 | the inline test is the shared inclusive hit test, with width from `shape[1]` for x and height from `shape[0]` for y |
| App.LowByte | app.py:96-101 | `waitKey(1) & 0xFF` is the residue of the key code in `[0, 256)` |
| App.NoKeyIsNeither | app.py:96-101 | "no key" (-1) triggers neither `r` nor ESC |
| App.NewFruit | app.py:73-74 | a replacement picks a catalog name and its sprite, and leaves the position alone |
| App.AppStepChangesOnlyFruit | app.py:62-98 | a pass reassigns only the fruit and its image, and any new fruit is a catalog entry |
| App.CutReplacesFruit | app.py:69-74 | a fingertip on the fruit replaces it with a new pick; no score is kept |
| App.ResetReplacesFruit | app.py:96-98 | `r` replaces the fruit unconditionally, with or without a hit |
| App.IdlePassChangesNothing | app.py:62-98 | with no hit and no `r`, a pass changes nothing |
| App.SessionKeepsPosition | app.py:28-102 | the fruit stays at its start position for the whole session and is always a catalog entry |
| App.RunMain | app.py:15-102 | `main` returns early iff the camera or the first sprite fails; otherwise its loop ends at (500,500) with a catalog fruit, exactly as `Program` says |

## Left out

- Camera capture, mirroring, colour conversion, window display, text and trail drawing: these are I/O and rendering. Frames enter only as their size and a success flag.
- Hand detection by MediaPipe, in both its per-frame and VIDEO-mode APIs: this is foreign inference. Its result is an optional fingertip pixel.
- The conversion of normalised landmark coordinates to pixels (`int(tip.x * width)`): this is floating point. The pixel is an integer input.
- Alpha blending into the region of interest, and the check of that region's shape: these are float numerics over image arrays. In the model, drawing never changes the game state.
- `cv2.imread` and the asset paths: sprites are given as positive sizes. An image that fails to load mid-session, which would crash the Python program, is not modelled. `app.py` also crashes if a sprite lies partly off the frame; that is not modelled either.
- The start-up exit of `game.py` when the first sprite fails to load: `cv2.imread` is not modelled, so the `Game.Game` constructor takes the first sprite's size. The `app.py` counterpart is modelled (`Program`).
- `fruit_utils` (used by `game.py`) is not part of this model. In `game.py` only the sizes of the sprites are tracked, not their names.
- `time.time()` floats: time is integer milliseconds. Sub-millisecond differences are not modelled.
- `random` as a seeded generator: each call's result is a function of its own draw. The correlation between successive draws is not modelled.
- The unused centred-corner computations in the `game.py` loop: they have no effect on the state.
- The single-fruit invariant holds by construction: the state has one fruit and one boolean. No lemma states it.
