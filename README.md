# rubiks-timer core, modelled in Dafny

This project models the logic at the centre of rubiks-timer, a speed-cubing
web app. It has four parts:

- **The facelet cube engine.** A cube state is six faces of nine colour
  symbols. `applyMove` turns a deep copy of it in place. `generateRandomMoves`
  writes a scramble of face letters with `'`/`2` modifiers under an
  anti-repetition rule.
- **The solve timer.** Six statuses (idle, inspecting, holding, ready,
  running, finished) are driven by two hotkeys, a hold timeout and
  animation-frame sampling. Inspection lasts 15 seconds. Overrunning it by
  more than 2 seconds records a DNS.
- **Small pure helpers.** These are `formatTime`, `calculateStats`, the
  companion's stage thresholds and piece rotations, and the sidebar's
  `formatKey`.
- **The companion ("Cublet").** A wallet pays for food. Food gives
  experience and at most one level per feeding. A level-up that grows the
  cube passes through the evolution phases. The companion's name can be
  edited and the companion can be reset.

Layout:

| file | module | what it holds |
|---|---|---|
| `wrappers.dfy` | `Wrappers` | `Option` |
| `iteration.dfy` | `Iteration` | n-fold application of a step function and how repeat counts add |
| `cube_state.dfy` | `CubeState` | cube values (`Facelets`), sticker counting |
| `constants.dfy` | `Constants` | `COLORS`, `MODIFIERS`, `STD_SOLVED` |
| `cube_moves.dfy` | `CubeMoves` | the value-level specification of turns and moves, with conservation, order-four and inverse laws |
| `cube_logic.dfy` | `CubeLogic` | the engine as it runs: class `Cube` over six arrays; `Cycle`, `RotateFaceClockwise`, `ApplyMove` and `GenerateRandomMoves` are methods proved against `CubeMoves` |
| `scramble.dfy` | `Scramble` | the scramble rule, `join(" ")` and `split(' ')` |
| `app.dfy` | `App` | the timer transitions as functions, and class `Timer` whose handlers are proved against them |
| `helpers.dfy` | `Helpers` | `formatTime`, and a reader for its output |
| `stats_logic.dfy` | `StatsLogic` | `calculateStats` |
| `cublet_utils.dfy` | `CubletUtils` | constants, `getCubletStage`, `generatePieceRotation` |
| `cublet.dfy` | `Cublet` | the feeding updater, `trim`, and class `Companion` |
| `sidebar.dfy` | `Sidebar` | `formatKey` |

Modelling conventions:

- **Randomness.** Each `Math.random()` draw in `generateRandomMoves` becomes
  a choice (`:|`) among the values that the resampling loop would accept.
- **Timer scheduling.** Three pieces of browser scheduling become explicit
  inputs:
  - `Date.now()` is the `now` argument of each timer event.
  - The animation-frame loop is the `sampling` field; only one loop is
    scheduled at a time, which matches the single `requestRef`.
  - The hold timeout is the `holdPending` flag.

  The callbacks themselves become the events `Tick(now)` and
  `HoldExpired()`.
- **Companion timeout.** The 2.5-second timeout of the companion is the
  flag `solveTimerPending` plus the method `SolveTimerFired`.
- **Wallet and confirmation.** The shared wallet is the field
  `walletCubes`. `window.confirm` becomes the `confirmed` argument of
  `HandleReset`.
- **Dates.** `statsLogic` takes the start of today as an integer
  timestamp. A solve date that does not parse is `None`.

Where the code and its description disagree, the model follows the code:

- A DNS is recorded only by an inspection tick once the countdown is below
  -2000 ms. A hold timeout still fires after that and makes the timer
  ready.
- `formatKey` removes only the first `Digit` and then only the first
  `Key`.
- `getCubletStage` gives size 2 to negative levels.

Two further paths that the code allows are reproduced as they are:

- During inspection, the timer hotkey may be pressed and released while the
  countdown reads exactly -2000. The release then returns the timer to idle,
  because the grace test is strict, but the inspection sampler keeps running.
  Its next frame records a DNS from idle.
- The new-scramble button in `CubeTimer` is hidden during a solve but can
  still be clicked. `handleNewScramble` sets the status to idle without
  cancelling the solve sampler, so frames go on updating the shown time.
  This is why the sampler invariant holds for the key and frame events but
  is not kept by the `Timer` class as a whole.

## Model

| member | source | states |
|---|---|---|
| Constants.StdSolvedShape | src/utils/constants.js:4-8 | the solved cube has six nine-sticker faces; each face is uniform in its own symbol; the six symbols are pairwise distinct |
| Constants.ModifiersExact | src/utils/constants.js:2 | the modifiers are exactly `""`, `"'"`, `"2"`, in that order |
| Constants.ColorsCoverSolved | src/utils/constants.js:1-8 | every symbol of the solved cube, and every one of its 54 stickers, has a display colour |
| Constants.SolvedColourCounts | src/utils/constants.js:5-8 | on the solved cube each palette symbol appears exactly 9 times and no other symbol appears |
| CubeLogic.Cube.constructor | src/utils/cubeLogic.js:3 | a cube object holding a given value in six new, pairwise distinct arrays |
| CubeLogic.CloneCube | src/utils/cubeLogic.js:3 | the deep copy has the same contents and shares no face array with the original (all arrays fresh) |
| CubeLogic.Cycle | src/utils/cubeLogic.js:5-9 | the slot at each index receives the old value of the previous index; the first receives the old value of the last; every other slot is unchanged |
| CubeLogic.RotateFaceClockwise | src/utils/cubeLogic.js:11-14 | corners 0→2→8→6→0 and edges 1→5→7→3→1 move; the centre 4 stays; the result equals `CubeMoves.RotatedCW` of the old face |
| CubeLogic.TurnFace | src/utils/cubeLogic.js:24-79 | one in-place pass of the switch leaves the cube's contents equal to `CubeMoves.QuarterTurn` of the old contents for that face |
| CubeLogic.TurnU | src/utils/cubeLogic.js:25-33 | the U case in place: the contents become `QuarterTurn(old, U)` |
| CubeLogic.TurnD | src/utils/cubeLogic.js:34-42 | the D case in place: the contents become `QuarterTurn(old, D)` |
| CubeLogic.TurnL | src/utils/cubeLogic.js:43-51 | the L case in place: the contents become `QuarterTurn(old, L)` |
| CubeLogic.TurnR | src/utils/cubeLogic.js:52-60 | the R case in place: the contents become `QuarterTurn(old, R)` |
| CubeLogic.TurnF | src/utils/cubeLogic.js:61-69 | the F case in place: the contents become `QuarterTurn(old, F)` |
| CubeLogic.TurnB | src/utils/cubeLogic.js:70-78 | the B case in place: the contents become `QuarterTurn(old, B)` |
| CubeLogic.TurnRepeatedly | src/utils/cubeLogic.js:23-80 | the turning loop: after `n` passes the contents are `TurnTimes(old, x, n)` |
| CubeLogic.ApplyMove | src/utils/cubeLogic.js:16-82 | the empty move returns the input object itself; any other move returns a fresh cube with fresh arrays whose contents are `CubeMoves.ApplyMove` of the input's; the input is never modified (no `modifies` clause) |
| CubeLogic.GenerateRandomMoves | src/utils/cubeLogic.js:84-94 | length 0 gives `""`; otherwise splitting the result on spaces gives exactly `len` tokens; each is a face letter plus a modifier, no face repeats the previous one, and a face equal to the one two back is followed only across a different axis |
| CubeMoves.ApplyMove | src/utils/cubeLogic.js:17-21 | a move is 3 quarter turns with a `'` anywhere in it, else 2 with a `2`, else 1, of the face its first letter names; the result is a well-formed cube |
| CubeMoves.TurnTimesConserves | src/utils/cubeLogic.js:23-80 | any number of quarter turns of any face keeps the count of every colour |
| CubeMoves.QuarterTurnConserves | src/utils/cubeLogic.js:24-79 | one quarter turn of any face keeps the count of every colour (it permutes the 54 stickers) |
| CubeMoves.RotatedCWPermutes | src/utils/cubeLogic.js:11-14 | rotating a face keeps the count of every colour on that face |
| CubeMoves.ApplyMoveConserves | src/utils/cubeLogic.js:16-82 | every move, including the empty move and unknown letters, keeps every colour count |
| CubeMoves.FoldMovesConserves | src/App.jsx:64-66 | folding any sequence of moves keeps every colour count |
| CubeMoves.FoldMovesPermutes | src/App.jsx:64-66 | after any sequence of moves the 54 stickers are a permutation (equal multisets) of the starting ones |
| CubeMoves.ScrambledColourCounts | src/App.jsx:61-67 | from the solved cube, after any sequence of moves, each palette colour appears exactly 9 times and no other symbol appears |
| CubeMoves.QuarterTurnOrderFour | src/utils/cubeLogic.js:24-79 | four clockwise quarter turns of the same face give back the original cube |
| CubeMoves.TurnTimesFour | src/utils/cubeLogic.js:21-23 | turning a face `4` times is the identity |
| CubeMoves.TurnTimesAdd | src/utils/cubeLogic.js:21-23 | `m` turns followed by `n` turns of one face equal `m + n` turns |
| CubeMoves.FullTurn | src/utils/cubeLogic.js:21-23 | `m` turns and then `n` turns with `m + n == 4` give back the cube |
| CubeMoves.InverseMoves | src/utils/cubeLogic.js:17-79 | `X` then `X'` and `X'` then `X` are the identity, and `X2` twice is the identity, for every face |
| CubeMoves.MoveIsTurns | src/utils/cubeLogic.js:18-21 | a move starting with a face letter is the turn count of its modifier applied to that face |
| CubeMoves.ModifierTurns | src/utils/cubeLogic.js:19-21 | no modifier is 1 turn, `'` is 3 and `2` is 2 |
| CubeMoves.UnknownFaceIsNoOp | src/utils/cubeLogic.js:24-79 | a move whose first letter is not U/D/L/R/F/B leaves the cube unchanged and raises no error |
| CubeMoves.FoldMovesPrefix | src/App.jsx:66 | extending the applied prefix by one move applies that move to the cube so far |
| Iteration.IterateAdd | src/utils/cubeLogic.js:23 | `m` iterations and then `n` more equal `m + n` iterations |
| Scramble.FaceIndex | src/utils/cubeLogic.js:85 | a character has a generator index exactly when it is one of `UDLRFB`, and that index points back to the character |
| Scramble.ValidScrambleSnoc | src/utils/cubeLogic.js:89-91 | appending a token keeps a scramble valid if and only if the token differs from the last face and does not return to the face two back along the last face's axis |
| Scramble.SnocMisfits | src/utils/cubeLogic.js:89 | a token that the resampling loop would reject makes the scramble invalid |
| Scramble.Split | src/App.jsx:65 | `split(' ')` always gives at least one piece |
| Scramble.SplitJoin | src/utils/cubeLogic.js:93 | splitting the space-join of space-free tokens gives back exactly those tokens |
| Scramble.TokenShape | src/utils/cubeLogic.js:90 | a token is one face letter plus at most one modifier character, with no space |
| Scramble.TokenTurns | src/utils/cubeLogic.js:90 | a token's face is one the engine knows, and its modifier selects 1, 3 or 2 turns |
| App.InspectionHotkeyOnlyToggles | src/App.jsx:128-132 | with inspection on, the inspection hotkey in idle starts a 15000 ms countdown anchored at `now` with no penalty; in inspecting it returns to idle with the countdown reset; in any other status it changes nothing |
| App.TimerHotkeyPress | src/App.jsx:135-152 | timer-hotkey press: running becomes finished with sampling stopped; idle (inspection off), inspecting and finished become holding with a hold armed; every other press changes nothing |
| App.TimerHotkeyRelease | src/App.jsx:160-173 | timer-hotkey release: ready starts the solve at `now` from 0 with only the solve sampler; holding disarms the hold and goes to inspecting if and only if inspection is on and the countdown is above -2000, else idle; finished goes to idle without penalty; other keys change nothing |
| App.HoldExpiryIgnoresStatus | src/App.jsx:142-150 | an armed hold timeout makes the status ready from any status and keeps the penalty |
| App.OnlyReleaseDisarms | src/App.jsx:166 | the only event other than the timeout itself that disarms a pending hold is a timer-hotkey release while holding |
| App.DnsThreshold | src/App.jsx:99-111 | an inspection tick shows `15000 - elapsed`; it ends the attempt (finished, DNS, sampling stopped) if and only if more than 17000 ms have elapsed; otherwise the status is kept |
| App.TimeFrozenWhenFinished | src/App.jsx:87-90 | once finished, no event changes the recorded time |
| App.RunningTicksMeasureFromAnchor | src/App.jsx:79-84 | while the solve runs, after any ticks the time shown is the last tick's time minus the anchor, and the anchor is unchanged |
| App.StepPreservesConsistent | src/App.jsx:75-173 | every event keeps the invariant: the solve sampler runs exactly while running, and no hold is pending when ready or running |
| App.RunPreservesConsistent | src/App.jsx:75-173 | the invariant holds after any sequence of events |
| App.SolveScenario | src/App.jsx:135-173 | press at 1000, hold expiry, release at 2000, frame at 3234, press at 3500: finished with time 1234, no penalty, and later frames do not change the time |
| App.ReleaseAtGraceKeepsSampler | src/App.jsx:165-168 | with inspection on, releasing the timer hotkey while holding at a countdown of -2000 or less gives idle with the inspection sampler still scheduled, and a later frame past 17 seconds gives finished with DNS |
| App.ReleaseAtGraceScenario | src/App.jsx:99-168 | inspection at 0, a frame at 17000, press and release at 17000: idle, countdown -2000, inspection sampler running; the frame at 17001 then gives finished with DNS |
| App.NewScrambleMidSolve | src/App.jsx:61-70 | a new scramble during a solve gives idle with the solve sampler still scheduled, breaking the sampler invariant, and the next frame still updates the shown time |
| App.DnsScenario | src/App.jsx:99-111 | inspection started at 0: a frame at 17000 still shows -2000 and keeps inspecting; a frame at 17001 gives finished with DNS and sampling stopped |
| App.Timer.constructor | src/App.jsx:38-72 | initial state followed by a first scramble: idle, no penalty, a valid 20-token scramble, and the cube equal to that scramble folded over the solved cube |
| App.Timer.NewScramble | src/App.jsx:61-70 | a valid 20-token scramble; the cube is `applyMove` folded over its split tokens starting from the solved cube; each colour appears 9 times; status idle and no penalty; nothing else changes |
| App.Timer.StartSolve | src/App.jsx:75-85 | running, no penalty, time 0, anchor `now`, solve sampler scheduled |
| App.Timer.StopSolve | src/App.jsx:87-90 | sampler cancelled and status finished, nothing else changed |
| App.Timer.StartInspection | src/App.jsx:93-114 | inspecting, countdown 15000, no penalty, anchor `now`, inspection sampler scheduled |
| App.Timer.CancelInspection | src/App.jsx:116-120 | sampler cancelled, idle, countdown reset to 15000 |
| App.Timer.KeyDown | src/App.jsx:126-158 | the new timer state is `OnKeyDown` of the old one; the settings, scramble and cube are unchanged |
| App.Timer.KeyUp | src/App.jsx:160-173 | the new timer state is `OnKeyUp` of the old one; a timer-hotkey release while finished also installs a new valid 20-token scramble and its cube, with each colour 9 times; otherwise scramble and cube are unchanged |
| App.Timer.HoldExpired | src/App.jsx:142 | the new state is `OnHoldExpired` of the old one |
| App.Timer.Tick | src/App.jsx:80-83 | the new state is `OnTick` of the old one: the solve sampler shows elapsed time and the inspection sampler counts down, finishing with DNS below -2000 |
| Helpers.FormatTime | src/utils/helpers.js:1-12 | `Infinity` and `null` give exactly `0.00`; the text always ends with `.` and two digits; under a minute (mod 60) the rest is digits with no leading zero unless it is one digit; with minutes the rest is digits with no leading zero, `:`, then exactly two digits |
| Helpers.FormatTimeFields | src/utils/helpers.js:3-9 | each field reads as its value: the digits after `.` are the centiseconds; under a minute the digits before `.` are the seconds; with minutes the digits before `:` are the minutes (below 60) and the two after it the seconds (below 60) |
| Helpers.TwoDigits | src/utils/helpers.js:9 | the centiseconds field is always exactly two decimal digits |
| Helpers.TwoDigitsValue | src/utils/helpers.js:8-9 | the zero-padded field reads back as the number it shows |
| Helpers.NatToString | src/utils/helpers.js:7-9 | a template literal's numeral is non-empty decimal digits, one digit exactly below ten, with no leading zero for a positive number |
| Helpers.DecimalRoundTrip | src/utils/helpers.js:7-9 | reading the numeral of `n` back gives `n` |
| Helpers.FormatTimeReadsBack | src/utils/helpers.js:1-12 | reading back what `formatTime` shows gives the duration modulo one hour, truncated to centiseconds; `Infinity` and `null` read as 0 (`0.00`) |
| Helpers.ClockArithmetic | src/utils/helpers.js:3-5 | minutes (mod 60), seconds (mod 60) and centiseconds recombine to the duration modulo an hour, in centiseconds |
| Helpers.MinutesPrefix | src/utils/helpers.js:5-7 | a `:` appears in the output if and only if the minutes field (mod 60) is positive |
| StatsLogic.ValidTimes | src/utils/statsLogic.js:6-10 | a time is among the competing times if and only if some solve with a numeric time and no DNF/DNS penalty has it |
| StatsLogic.MinOf | src/utils/statsLogic.js:8-10 | `Math.min` is `Infinity` exactly for no times; otherwise it is one of the times and at most every time |
| StatsLogic.CalculateStats | src/utils/statsLogic.js:1-26 | a missing or empty list gives `Infinity` and 0; the today count is at most the number of solves; the best single is finite if and only if some solve competes |
| StatsLogic.BestSingleIsLeast | src/utils/statsLogic.js:8-11 | when a solve competes, the best single is no slower than any competing solve and equals one of them |
| StatsLogic.PenaltyKeepsBest | src/utils/statsLogic.js:6-11 | appending a DNF or DNS solve never changes the best single |
| StatsLogic.TodayCountAppend | src/utils/statsLogic.js:17-20 | appending a solve to any list, the empty one included, raises the today count by one exactly when it is dated at or after the start of today |
| StatsLogic.CountTodayAppend | src/utils/statsLogic.js:17-20 | the today count of a concatenation is the sum of the counts |
| CubletUtils.GetCubletStage | src/pages/Cublet/CubletUtils.js:19-24 | size 1 if and only if level 0; size 2 if and only if another level below 8 (negatives included); 3 if and only if 8..26; 4 if and only if 27 or more |
| CubletUtils.StageMonotone | src/pages/Cublet/CubletUtils.js:19-24 | from level 0 up, the stage size never decreases |
| CubletUtils.JsRem | src/pages/Cublet/CubletUtils.js:29-35 | JavaScript `%`: agrees with the mathematical remainder for non-negative dividends, is smaller than the divisor in magnitude, and takes the dividend's sign |
| CubletUtils.JsRemTruncates | src/pages/Cublet/CubletUtils.js:29-35 | the dividend is a whole multiple of the divisor, by a quotient with the dividend's sign, plus `JsRem`: the remainder of division truncated toward zero |
| CubletUtils.JsRemOdd | src/pages/Cublet/CubletUtils.js:29-35 | negating the dividend negates the remainder, so the negative case is the mirror of the mathematical remainder |
| CubletUtils.RotationClosedForm | src/pages/Cublet/CubletUtils.js:27-37 | for a seed of 0 or more, every angle is a quarter turn: X is `90*((seed+1) mod 4)`, Y is `90*((3*seed+2) mod 4)`, Z is always 270 |
| CubletUtils.NegativeSeedUndefined | src/pages/Cublet/CubletUtils.js:29-33 | a negative seed can index the angle table below 0 and read `undefined` (seed -7 for X) |
| Cublet.XpRequired | src/pages/Cublet/Cublet.jsx:40 | the requirement is 100 times the least integer at least 1.2·(level+1), so at least 200 and a multiple of 100 |
| Cublet.Fed | src/pages/Cublet/Cublet.jsx:162-185 | the name is kept; the total fed grows by the multiplier; the level rises by one exactly when the experience reaches the requirement, never by more; experience is conserved (new xp plus spent requirement equals old xp plus gain) |
| Cublet.OneLevelPerFeed | src/pages/Cublet/Cublet.jsx:167-169 | a 10x feed of a new companion gains one level even though the leftover already exceeds the next requirement |
| Cublet.Trim | src/pages/Cublet/Cublet.jsx:77-78 | `trim` returns a contiguous part of the input with no whitespace at either end, and everything cut off before and after it is whitespace |
| Cublet.TrimIdempotent | src/pages/Cublet/Cublet.jsx:77-78 | trimming twice is trimming once |
| Cublet.TrimKeepsClean | src/pages/Cublet/Cublet.jsx:77-78 | a non-empty name without surrounding whitespace is its own trim |
| Cublet.Companion.constructor | src/pages/Cublet/Cublet.jsx:15-35 | the page loads with the stored record, the stored level shown, phase idle, no food, multiplier 1 and no editing |
| Cublet.Companion.XpNeeded | src/pages/Cublet/Cublet.jsx:40 | the requirement comes from the level on record at render time |
| Cublet.Companion.HandleMainAction | src/pages/Cublet/Cublet.jsx:84-108 | idle: dispensing is refused with no change when the wallet is short or food is out, else exactly the cost is debited and food appears; ready-to-solve becomes solving with the timeout armed; ready-to-upgrade becomes idle showing one more level; solving does nothing; the wallet never goes negative |
| Cublet.Companion.SolveTimerFired | src/pages/Cublet/Cublet.jsx:96-98 | the armed timeout sets ready-to-upgrade; nothing else changes |
| Cublet.Companion.ConsumeFood | src/pages/Cublet/Cublet.jsx:157-186 | the food is gone and the record is `Fed` of the old one with the render-time requirement; a level-up into a bigger stage waits in ready-to-solve with the old level shown, otherwise the new level is shown |
| Cublet.Companion.StartEditing | src/pages/Cublet/Cublet.jsx:71-74 | the edit box starts from the current name and editing begins |
| Cublet.Companion.SetTempName | src/pages/Cublet/Cublet.jsx:271 | typing replaces the edit text |
| Cublet.Companion.CancelEditing | src/pages/Cublet/Cublet.jsx:276 | editing ends and the name is kept |
| Cublet.Companion.SaveName | src/pages/Cublet/Cublet.jsx:76-81 | a non-blank entry becomes the name, trimmed; a blank one changes nothing; editing always ends |
| Cublet.Companion.SetFeedMultiplier | src/pages/Cublet/Cublet.jsx:372-375 | the multiplier becomes one of 1, 5 or 10 |
| Cublet.Companion.HandleReset | src/pages/Cublet/Cublet.jsx:45-52 | confirmed: a fresh "Cubie" at level 0 with no xp or feedings, level 0 shown, phase idle, 100 cubes; unconfirmed: nothing changes |
| Sidebar.IndexOf | src/components/Sidebar.jsx:18 | the position found is an occurrence and no earlier position is; none means no occurrence anywhere |
| Sidebar.RemoveFirstRestores | src/components/Sidebar.jsx:18 | string-pattern `replace` with `''` removes exactly one occurrence: putting the pattern back at the first occurrence restores the input |
| Sidebar.FormatKey | src/components/Sidebar.jsx:16-19 | a missing code gives `''`; the label is never longer than the code |
| Sidebar.FormatKeyStripsPrefix | src/components/Sidebar.jsx:18 | `KeyX` and `DigitX` both show `X` whenever `X` contains neither `Digit` nor `Key` |
| Sidebar.FormatKeyExamples | src/components/Sidebar.jsx:18 | `KeyI` shows `I`, `Digit1` shows `1`, `Space` is unchanged |
| Sidebar.FormatKeyPlain | src/components/Sidebar.jsx:18 | a code containing neither `Digit` nor `Key` is shown unchanged |
| Sidebar.OnlyFirstOccurrence | src/components/Sidebar.jsx:18 | only the first `Key` goes: `KeyKey` shows `Key` |

## Left out

- Browser scheduling is not modelled as such: `requestAnimationFrame`,
  `cancelAnimationFrame`, `setTimeout`, `clearTimeout` and `Date.now`. The
  callbacks are explicit events and the clock is an argument. When several
  animation loops or hold timeouts could overlap, the model keeps only the
  one that the single `requestRef` or `holdTimeoutRef` would reach. The
  configurable `holdDuration` therefore plays no part. The source does not
  cancel a hold timeout that the ref no longer holds. A second press can arm
  a second timeout while the first is still pending, for example a key
  repeat after a DNS reached finished during a hold. The first timeout then
  makes the timer ready, and the second can make it ready again while the
  solve runs. That ready-while-running path is not modelled.
- `Math.random` is not modelled. Each draw is an arbitrary choice among the
  values that the resampling loop accepts. The `do`/`while` retry itself is
  not modelled, and its termination is not claimed.
- The `generateRandomMoves` default argument (`len = 20`) is not modelled:
  the caller always passes 20.
- The `s` settings shortcut and the `view` gating of the key handlers are
  out (navigation). The settings page is out as well, so a `Timer` keeps
  the `Config` it was created with.
- `window` listener wiring and React re-rendering are out. Each handler is
  modelled as seeing the state left by the previous event.
- Persistence (`useLocalStorage`), rendering, `CubletAvatar`, drag-and-drop
  hit testing, `progressPercent`, the `scrambleMap` layout, and the
  `isEating`/`levelUpType` animation flags are out.
- `Cublet.XpRequired` does not use the source's floating-point product
  `Math.ceil((level + 1) * 1.2)`. It uses the exact integer ceiling of
  `6 * (level + 1) / 5`, the value the expression is meant to compute.
  Floating point is not modelled.
- `Helpers.FormatTime` takes only non-negative whole milliseconds, `Infinity`
  and `null`. Negative, fractional and other non-finite inputs are not
  modelled.
- `StatsLogic.CalculateStats` takes the start of today as an integer
  timestamp. `new Date` parsing and the local time zone are not modelled.
  A time is a number or "not a number"; `NaN` and the infinities are not
  distinguished.
- `CubeLogic.Cycle` requires its indices to be distinct and within the
  array. Repeated indices are never passed by the engine, and the model does
  not describe what `cycle` does with them.
- `CubeLogic.ApplyMove` takes the move as a string. JavaScript's other falsy
  values (`undefined`, `null`) are not modelled. The empty string is the one
  falsy value a split scramble can contain.
- `CubeLogic.TurnRepeatedly` takes the face's `switch` out of the loop. A
  letter that names no face turns nothing on every pass of the source's
  loop, so `ApplyMove` does not call the loop for it. The result is the
  same.
- `Sidebar.FormatKey`'s own contract states only the length bound and the
  missing-code case. The exact result is stated by `FormatKeyStripsPrefix`,
  `FormatKeyPlain`, `RemoveFirstRestores` and the example lemmas.
