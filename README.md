# Memespin wheel arithmetic, in Dafny

This project models the wheel-resolution arithmetic of the Memespin browser
spin game and proves its properties. It covers three parts of the game client:

- **The spin resolver** (`src/utils/spinningLogic.ts`). A static three-sector
  map sends an angle to a colour: GREEN `[0,120]`, PINK `[121,240]`, ORANGE
  `[241,360]`. The first matching sector wins, and ORANGE is the fallback.
  `calculateSpin` takes the caller's wheel state (cumulative rotation, resting
  angle, colour) and an authoritative target colour. It returns a new
  cumulative CSS rotation, a resting angle inside the target sector and the
  colour decoded there. `updateStateAfterSpin` folds that result back into the
  state.
- **The older helpers** (`src/utils/gameLogic.ts`). These are the game
  constants and the random spin parameters. They also hold a second,
  half-open sector map: PINK `[0,120)`, GREEN `[120,240)`, ORANGE
  `[240,360)`. `calculateFinalPosition` reflects a rotation into a pointer
  position, and `checkWin` is the win test.
- **The game hook** (`src/hooks/useGame.ts`). This is the spin state machine
  behind the `isSpinning` guard: start a spin, finish its animation, reset,
  and add points.

Files:

- `angles.dfy` defines `Angles`: JavaScript's truncating `%`, the normalisation
  `((a % 360) + 360) % 360`, and `Wrap`, the mathematical floor-mod into
  `[0,360)` that they are proved equal to.
- `colors.dfy`, `wrappers.dfy`, `draws.dfy` and `game_types.dfy` hold the colour
  datatype, `Option`, the random-draw predicate and the records of
  `src/types/game.ts`.
- `spinning_logic.dfy`, `game_logic.dfy` and `use_game.dfy` each model one
  core file.

Degrees are exact `real`s. Each `Math.random()` call is a parameter `r` with
`0 <= r < 1`, passed in the order the source makes the calls. The resolver and
the helpers are pure, so they are modelled as functions and lemmas. The hook
overwrites a single record in place, so it is modelled as the class
`UseGame.Game`, with one method per transition.

Behaviour of the code that the model keeps as written:

- `calculateSpin` computes a clamped target at
  `src/utils/spinningLogic.ts:91`. The clamped value is scoped to the `if` and
  never used: the path and the resting angle use the unclamped
  `centre + offset`. The model does the same. `ClampIsNoOp` proves that the
  clamp would not have changed the value anyway.
- In the resolver's map, the open gaps `(120,121)` and `(240,241)` belong to
  no sector. Angles there fall through to ORANGE. `ColorAtAngle` states this
  exactly. The resolver never lands there, because its resting angle keeps
  five degrees from every bound.
- The two sector maps disagree, for example at 60 and 240 degrees
  (`SectorMapsDisagree`). They are modelled separately and not unified.
- `handleAnimationComplete` tests `chosenColor` for JavaScript truthiness. A
  spin started with the empty string as its colour therefore never completes:
  the guard of `spinWheel` then rejects every later spin until `resetGame`.
  `IsChosen` models that test.
- The "throw" in `getColorSectorCenter` cannot happen. The target colour has
  the closed type `Color`, and every colour has a sector. `SectorOf` proves the
  search always succeeds.

## Model

| member | source | states |
|---|---|---|
| `Angles.Trunc` | src/utils/spinningLogic.ts:33 | truncation toward zero: the integer part of a non-negative real is below it by less than 1, and that of a negative real is above it by less than 1 |
| `Angles.JsRem360` | src/utils/gameLogic.ts:67 | JavaScript `a % 360` lies in (-360, 360), is never positive for negative `a`, equals the floor-mod for non-negative `a`, and keeps `a`'s residue |
| `Angles.Normalize` | src/utils/spinningLogic.ts:33 | `((a % 360) + 360) % 360` equals the floor-mod `Wrap(a)` for every real, negative ones included |
| `Angles.WrapShift` | src/utils/gameLogic.ts:53 | adding whole turns does not change the floor-mod |
| `Angles.WrapNeg` | src/utils/gameLogic.ts:69 | the residue of `-a` depends only on the residue of `a` |
| `SpinningLogic.ColorSectorsLayout` | src/utils/spinningLogic.ts:25-29 | `ColorSectors` transcribes `COLOR_SECTORS`: GREEN [0,120], PINK [121,240], ORANGE [241,360] in that order; each colour has one sector and the sectors do not overlap |
| `SpinningLogic.FirstMatch` | src/utils/spinningLogic.ts:35-39 | the sector search yields a colour iff some sector contains the angle, and then the colour of the first one that does |
| `SpinningLogic.ColorAtAngle` | src/utils/spinningLogic.ts:32-43 | after normalising: GREEN iff in [0,120], PINK iff in [121,240], ORANGE iff in (120,121), (240,241) or beyond 240 |
| `SpinningLogic.ColorAtAnglePeriodic` | src/utils/spinningLogic.ts:33 | decoding is 360-periodic in both directions |
| `SpinningLogic.FindSector` | src/utils/spinningLogic.ts:47 | `find` returns nothing iff no sector has the colour, and otherwise the first sector that does |
| `SpinningLogic.SectorOf` | src/utils/spinningLogic.ts:47-48 | every colour has a sector of that colour in the map, so the "Invalid color" throw is never reached |
| `SpinningLogic.SectorCenter` | src/utils/spinningLogic.ts:46-51 | the centre is equally far from both bounds of the colour's sector and decodes back to that colour |
| `SpinningLogic.SectorCenterValues` | src/utils/spinningLogic.ts:25-29 | the centres are 60, 180.5 and 300.5 degrees |
| `SpinningLogic.ClockwisePath` | src/utils/spinningLogic.ts:54-63 | `current + path` always has the target's residue; the path is in (0,360] whenever `target - current` is in (-360,360] |
| `SpinningLogic.ClockwisePathOnDial` | src/utils/spinningLogic.ts:58-60 | for angles in [0,360), the path is in (0,360], is 360 exactly when target equals current, and lands exactly on the target |
| `SpinningLogic.ClockwisePathIsShortest` | src/utils/spinningLogic.ts:53-63 | no positive rotation shorter than the path reaches the target's residue |
| `SpinningLogic.RandomOffset` | src/utils/spinningLogic.ts:83 | the jitter lies in [-10, 10) |
| `SpinningLogic.FullRotations` | src/utils/spinningLogic.ts:108 | the whole-turn count is 6, 7 or 8 |
| `SpinningLogic.ClampToSector` | src/utils/spinningLogic.ts:91 | on a sector wider than ten degrees, the clamp lands in [start+5, end-5], leaves `x` unchanged iff `x` is already there, sends `x` below the band to start+5 and `x` above it to end-5 |
| `SpinningLogic.JitterKeepsMargin` | src/utils/spinningLogic.ts:84 | the jittered centre stays in [start+5, end-5] of the colour's sector, lies in [0,360) and decodes to the colour |
| `SpinningLogic.ClampIsNoOp` | src/utils/spinningLogic.ts:89-97 | the unused clamp would return the unclamped target unchanged |
| `SpinningLogic.CalculateSpin` | src/utils/spinningLogic.ts:66-158 | the decoded colour equals the target (so the CRITICAL ERROR branch at 147-149 is unreachable); the resting angle is the jittered centre, keeps 5 degrees from the sector bounds and lies in [0,360); 6 to 8 whole turns; the rotation grows by whole turns plus the clockwise path, so it has the same residue as the move from the old to the new resting angle |
| `SpinningLogic.SpinResidue` | src/utils/spinningLogic.ts:100-116 | whole turns plus the clockwise path have the residue of `target - current` |
| `SpinningLogic.SpinAdvance` | src/utils/spinningLogic.ts:100-127 | from a resting angle in [0,360), the CSS rotation exceeds the old total by more than 2160 and at most 3240 degrees |
| `SpinningLogic.UpdateStateAfterSpin` | src/utils/spinningLogic.ts:161-169 | the folded state satisfies the wheel invariant iff the result is self-consistent (resting angle on the dial, rotation ending there, colour decoded there) |
| `SpinningLogic.FoldResidue` | src/utils/spinningLogic.ts:164-167 | if the rotation advances by the residue between the resting angles, the new rotation's residue is the new resting angle |
| `SpinningLogic.SpinThenFoldKeepsInvariant` | src/utils/spinningLogic.ts:131-169 | a spin followed by the fold keeps `totalRotation ≡ currentVisualPosition (mod 360)`, the position in [0,360) and the colour decoded there; the colour is the target, and the rotation grew by more than 2160 |
| `SpinningLogic.RunSpinsKeepsInvariant` | src/utils/spinningLogic.ts:161-169 | any chain of spins and folds keeps the invariant, ends on the last target, and grows the rotation by at least 2160 degrees per spin |
| `GameLogic.GameConfigValues` | src/utils/gameLogic.ts:4-27 | the constants transcribe `GAME_CONFIG`: colour names ORANGE, PINK, GREEN (the names of the three colours), duration 2.5 to 6.5 with variation 1.5, spin count 2 to 8, multiplier 0.8 to 2.2, 10 points for a win and 0 for a loss |
| `GameLogic.GenerateRandomSpin` | src/utils/gameLogic.ts:30-49 | spins in [2,8]; target in [0,360); total is spins whole turns plus the target, so it lies in [720, 3240) and ends on the target; duration in [1.75, 7.25) |
| `GameLogic.GetColorAtPosition` | src/utils/gameLogic.ts:52-63 | total and half-open after floor-mod: PINK iff in [0,120), GREEN iff in [120,240), ORANGE iff in [240,360) |
| `GameLogic.GetColorAtPositionPeriodic` | src/utils/gameLogic.ts:53 | `GetColorAtPosition(d + 360k) == GetColorAtPosition(d)` for every integer k, negative `d` included |
| `GameLogic.CalculateFinalPosition` | src/utils/gameLogic.ts:66-70 | the result is the reflection `Wrap(-rotation)`: it lies in [0,360), adds to the rotation to give whole turns, and is 0 for a whole number of turns |
| `GameLogic.ReflectionFacts` | src/utils/gameLogic.ts:67-69 | the sign-corrected remainder is the floor-mod, and `(360 - it) % 360` is the floor-mod of the negated rotation |
| `GameLogic.CheckWin` | src/utils/gameLogic.ts:73-76 | a win implies the chosen string is one of the configured colour names, so any other string never wins |
| `GameLogic.CheckWinByName` | src/utils/gameLogic.ts:74-75 | choosing a colour by its name wins iff that colour is decoded at the position |
| `GameLogic.SectorMapsDisagree` | src/utils/gameLogic.ts:55-62 | at 60 degrees the two maps give GREEN and PINK, at 240 degrees PINK and ORANGE |
| `UseGame.ResultOf` | src/hooks/useGame.ts:47-51 | the result is WIN iff the spin won, worth 10 points on a win and 0 on a loss |
| `UseGame.ChosenGuard` | src/hooks/useGame.ts:43 | `IsChosen` is the JavaScript truthiness of `chosenColor`: it holds for every non-empty string, in particular every colour name, and fails for `null` and the empty string |
| `UseGame.Game.constructor` | src/hooks/useGame.ts:10-20 | the hook starts from `initialState`: not spinning, 0 points, no result, hidden, rotation 0, no colour |
| `UseGame.Game.SpinWheel` | src/hooks/useGame.ts:22-40 | no-op while spinning; otherwise it sets spinning, the chosen colour, no result and hidden, keeps the points, and adds the random spin's total rotation (at least 720) to the wheel rotation |
| `UseGame.Game.HandleAnimationComplete` | src/hooks/useGame.ts:42-60 | no-op unless spinning with a truthy colour; otherwise it stops spinning and shows a result that is WIN iff `checkWin(colour, calculateFinalPosition(rotation))`, adds 10 points on a win and none on a loss, and keeps the rotation and the colour |
| `UseGame.Game.HideResult` | src/hooks/useGame.ts:62-67 | hides the result and changes no other field |
| `UseGame.Game.ResetGame` | src/hooks/useGame.ts:71-73 | restores `initialState` exactly |
| `UseGame.Game.AddPoints` | src/hooks/useGame.ts:75-80 | adds `n` to the points and changes no other field |

## Left out

- Floating point: degrees and durations are exact reals. IEEE-754 rounding and
  drift over many spins are not modelled.
- `Math.random()` is replaced by parameters in `[0,1)`. Uniformity is not
  modelled.
- The `console.log`/`console.error` diagnostics of `calculateSpin` are left
  out. Only the correctness of the colour they report is modelled.
- The `setTimeout` in `handleAnimationComplete` is not modelled as a timer.
  What it does when it fires is the explicit step `HideResult`.
- React semantics are left out: batching of the two `setGameState` calls in
  `spinWheel`, and stale `useCallback` closures. Updates are sequential.
- UseGame.Game.AddPoints: points are integers here. The source accepts any
  JavaScript number.
- `src/utils/blockchainLogic.ts`, `src/hooks/useBlockchain.ts`, the ABI and
  chain configuration, the sound manager, confetti, layout and the other UI
  components are not part of this model. They are I/O, wallet and contract
  wrappers or presentation code.
- The caller that owns the resolver's wheel state is not part of this model.
  That state's initial value is therefore not modelled. The invariant is
  proved for any state that satisfies it.
