# Solar-lamp town and climate quiz — a Dafny model

This project models two interactive pieces of a climate-education web app.

**The solar-lamp town mini-game** (`client/components/game/GameModal.tsx`).
A 6×6 grid of 36 lamp sites, five townspeople (NPCs), twenty obstacles and a
player avatar. The placement handler `handleLampPlace` places or removes a
lamp while the game is playing. The scene hands it to every lamp component,
but the lamp component binds it to no event, so in the shipped UI no click
reaches it (see "## Findings"). `PlaceLamp` models the handler as written,
and `ClickLamp` models the click as wired. Each placement recomputes the town
gauges from an energy figure:
- happiness is `min(50 + energy/10, 100)`;
- environment is `energy × 0.5`;
- economy is `energy × 0.1`.

Each NPC is then marked in light, with a mood. NPCs pick a new random target
every five seconds once they have reached their old one. The player moves with
WASD/arrow keys, in a top-down or a first-person mode. Collision against the
obstacles uses radius 0.5 + 1.0. A 300-second countdown completes the round.
Placing a lamp sends out a short-lived burst of particles.

**The quiz** (`client/components/quiz/QuizModal.tsx`). A five-question bank
worth 65 points, with answer selection locked while a result is shown. Each
submission scores the answer and records it. Two seconds later a callback
moves on or completes the quiz. A 300-second countdown completes the quiz as
well. The rest:
- an `m:ss` time display;
- a three-band verdict on the percentage `score / 75 × 100`;
- a restart.

Layout:
- `town.dfy` (module `Town`) holds the values and pure formulas of the game:
  the lamp grid, energy and gauges, light and mood, NPC retargeting,
  collision, key mapping and movement, and particle batches with their expiry.
- `game.dfy` (module `TownGame`) holds the component as a class `GameModal`.
  Its fields are the component's state, with one method per event handler and
  effect. Each method states the whole new state in terms of the `Town`
  functions. `Valid()` ties the gauges to the energy figure and bounds the
  clock and the energy.
- `quiz.dfy` (module `Quiz`) holds the bank, scoring, `formatTime` and the
  bands, and a class `QuizModal` for the component. `QuizModal.Valid()` keeps:
  - the question index inside the bank;
  - the score equal to the score of the recorded answers;
  - the clock inside [0, 300].

External inputs are method parameters:
- random numbers, each in [0, 1);
- `Date.now()`, as one particle-id stamp per batch;
- the sine and cosine of the player's heading.

The game's distances are compared squared, so there is no square root.

Behaviour modelled as the code has it:
- **Placement energy.** The energy figure is the sum over the lamps before the
  click, plus 50 when placing. A removal therefore reports 50 × the lamps
  placed before it, one lamp more than remain. Right after a placement, a
  removal of the same lamp repeats the figure. Each removal after that lowers
  it by 50, still one lamp too many (`Town.PlacementEnergyCounts`,
  `Town.PlaceThenRemoveShowsStaleEnergy`). The light test for NPCs also uses
  the lamps before the click.
- **Start.** `startGame` keeps the countdown and the score. It does not reset
  them.
- **Reset.** `resetGame` resets score, clock and state. It leaves the lamps,
  gauges, NPCs and player unchanged.
- **Pause.** The five-second retarget interval is gated on "playing" only,
  so it keeps running while paused.
- **Happiness.** Happiness never drops below 50.
- **Collision.** Collision is checked only for moves: a blocked move still
  writes the rotation.
- **Rotation write.** The handler compares a fresh array with `!==`. That
  test is always true, so the rotation (and in first-person mode the camera
  rotation) is written on every key press.

## Model

| member | source | states |
|---|---|---|
| Town.GridPosition | client/components/game/GameModal.tsx:552-558 | every site lies on the ground, within ±6.25 on both axes |
| Town.GridNeighbours | client/components/game/GameModal.tsx:552-558 | neighbouring sites of a row are 2.5 apart along x; neighbouring rows are 2.5 apart along z |
| Town.GridPositionsDistinct | client/components/game/GameModal.tsx:552-558 | two different lamp indices never share a site |
| Town.PlacedCount | client/components/game/GameModal.tsx:837 | the number of placed lamps never exceeds the number of lamps |
| Town.NothingPlacedCountsZero | client/components/game/GameModal.tsx:837 | with no lamp placed the "first placement" count is zero |
| Town.AllPlacedCountsAll | client/components/game/GameModal.tsx:858-860 | with every lamp placed, the count is the whole list |
| Town.EnergyOf | client/components/game/GameModal.tsx:858-860 | no placed lamp sums to 0; non-negative outputs sum to a non-negative figure |
| Town.EnergyIsFiftyPerLamp | client/components/game/GameModal.tsx:852-860 | on well-formed lamps, the summed output of the placed lamps is 50 per placed lamp |
| Town.InitialLamps | client/components/game/GameModal.tsx:552-564 | 36 lamps on the grid with ids 0..35, radius 3, none placed, placed count and energy zero |
| Town.Toggle | client/components/game/GameModal.tsx:850-856 | the list keeps its length and grid; only the clicked lamp changes: placed flips, powered equals placed, output becomes 50 or 0 |
| Town.ToggleTwiceRestores | client/components/game/GameModal.tsx:850-856 | clicking the same lamp twice restores the lamp list |
| Town.CountAfterUpdate | client/components/game/GameModal.tsx:850-856 | changing one slot changes the placed count by the difference at that slot only |
| Town.ToggleCount | client/components/game/GameModal.tsx:850-856 | a placement adds one to the placed count, a removal takes one away |
| Town.PlacementEnergy | client/components/game/GameModal.tsx:858-860 | on the lamp grid the figure is 50 × (lamps placed before the click, plus one when placing) |
| Town.PlacementEnergyCounts | client/components/game/GameModal.tsx:858-860 | after a placement, energy is 50 × the new count; after a removal, it is 50 × the old count (one lamp too many); always in (0, 1800] |
| Town.PlaceThenRemoveShowsStaleEnergy | client/components/game/GameModal.tsx:858-860 | placing then removing a lamp reports the same energy both times although the count went back |
| Town.Metrics | client/components/game/GameModal.tsx:862-871 | energy is reported as is; for non-negative energy happiness lies in [50, 100]; it is 100 exactly when energy ≥ 500, else 50 + energy/10; environment is energy × 0.5 and economy energy × 0.1 |
| Town.MetricsScenarios | client/components/game/GameModal.tsx:858-865 | no energy gives happiness 50; one lamp gives 55; all 36 lamps give 1800 and happiness 100 |
| Town.MoodFor | client/components/game/GameModal.tsx:887 | happy exactly in light; otherwise neutral exactly above 70 happiness, sad at or below |
| Town.Relit | client/components/game/GameModal.tsx:876-888 | only the light flag, mood and activity change; the flag is "some lamp lights the NPC", the mood follows MoodFor, celebrating exactly in light |
| Town.Relight | client/components/game/GameModal.tsx:873-890 | each NPC keeps its identity and position; in light exactly when some placed, powered lamp is within its radius; happy iff in light, else neutral iff happiness > 70, else sad; celebrating iff in light, else walking |
| Town.LitNpcIsHappy | client/components/game/GameModal.tsx:875-887 | an NPC within reach of a placed, powered lamp becomes happy |
| Town.UnlitNpcMood | client/components/game/GameModal.tsx:884-887 | an NPC lit by no lamp is never happy, and is neutral exactly when happiness exceeds 70 |
| Town.RandomTarget | client/components/game/GameModal.tsx:596-600 | a new target lies on the ground in [-5, 5) on both axes |
| Town.StartWalking | client/components/game/GameModal.tsx:836-848 | on the first placement every NPC gets a fresh in-bounds target and starts walking, all else unchanged |
| Town.Retarget | client/components/game/GameModal.tsx:588-609 | an NPC within 0.5 of its target gets a new in-bounds target and walks; any other NPC is unchanged |
| Town.InitialNpcs | client/components/game/GameModal.tsx:567-574 | the five-person roster, all sad, idle, not in light, each standing on its own target |
| Town.FirstRetargetMovesEveryone | client/components/game/GameModal.tsx:590-606 | the first retarget cycle sets every NPC of the initial roster walking |
| Town.RetargetStarted | client/components/game/GameModal.tsx:901-906 | the intended retarget step: idle NPCs stay as they are, the others retarget as before |
| Town.RetargetStartedKeepsRosterIdle | client/components/game/GameModal.tsx:901-906 | the intended step leaves the initial roster idle, and equals the written step once nobody is idle |
| Town.CollisionBoundary | client/components/game/GameModal.tsx:525-539 | the test is strict: exactly 1.5 away is free, just inside is blocked, just outside is free; no obstacles never block |
| Town.BuildingPosition | client/components/game/GameModal.tsx:413-418 | an obstacle sits at height 1 within [-7.5, 7.5) on both axes |
| Town.Lower | client/components/game/GameModal.tsx:703 | lower-casing keeps the length and maps each character |
| Town.LowerIdempotent | client/components/game/GameModal.tsx:703 | lower-casing twice is lower-casing once |
| Town.CommandOf | client/components/game/GameModal.tsx:703-775 | a key moves exactly when its lower-cased name is one of w, s, a, d and the four arrows (the list the key-up handler tests at :813); it turns left exactly for q and right exactly for e |
| Town.CommandIgnoresCase | client/components/game/GameModal.tsx:703 | a key and its lower-cased name give the same command |
| Town.KeyNames | client/components/game/GameModal.tsx:703-775 | w/ArrowUp, s/ArrowDown, a/ArrowLeft, d/ArrowRight, q and e are recognised in any case; other keys do nothing |
| Town.Proposed | client/components/game/GameModal.tsx:701-775 | the height never changes; non-move keys keep the position; top-down W/S change only z, A/D only x |
| Town.Turn | client/components/game/GameModal.tsx:736-743 | the yaw change is 0 or ±0.05, and non-zero exactly for q/e in first person |
| Town.MovementShape | client/components/game/GameModal.tsx:701-775 | top-down moves go 0.1 along one axis; non-move keys keep the position; only q/e turn, by ∓0.05 and only in first person; forward undoes backward, left undoes right, q undoes e |
| Town.FirstPersonStepLength | client/components/game/GameModal.tsx:704-735 | a first-person step along the heading or across it has length 0.1 |
| Town.Palette | client/components/game/GameModal.tsx:644-648 | every particle kind has a non-empty palette |
| Town.Pick | client/components/game/GameModal.tsx:655 | the colour index drawn from a random number is inside the palette |
| Town.Batch | client/components/game/GameModal.tsx:650-657 | 25 confetti or 15 other particles, ids stamp-i, the requested kind, life 1, palette colours, each within ±10 of the origin |
| Town.IdsOf | client/components/game/GameModal.tsx:662-664 | every particle's id is in the batch's id set |
| Town.Without | client/components/game/GameModal.tsx:662-664 | the filtered list is no longer than the original, and no record left has an id in the set |
| Town.WithoutMembers | client/components/game/GameModal.tsx:662-664 | filtering keeps exactly the particles whose id is not in the set |
| Town.WithoutAppend | client/components/game/GameModal.tsx:662-664 | filtering distributes over concatenation |
| Town.WithoutUntouched | client/components/game/GameModal.tsx:662-664 | particles with no id in the set are all kept, in order |
| Town.WithoutAll | client/components/game/GameModal.tsx:662-664 | a batch filtered by its own ids disappears |
| Town.WithoutShrinks | client/components/game/GameModal.tsx:662-664 | removing more ids from an already-empty result leaves it empty |
| Town.ExpireRemovesOnlyBatch | client/components/game/GameModal.tsx:659-664 | expiring a batch removes it and leaves the particles around it unchanged and in order |
| Town.LaterStampIsFresh | client/components/game/GameModal.tsx:651 | a batch stamped later than every existing particle shares no id with them |
| TownGame.GameModal.constructor | client/components/game/GameModal.tsx:484-546 | the mount values: intro, unpaused, 300 s, score 0, empty lists, player at the origin, gauges of zero energy, camera at eye height 1.6 |
| TownGame.GameModal.Open | client/components/game/GameModal.tsx:549-581 | opening on a mission builds the grid and the roster and sets intro, score 0, 300 s and zero-energy gauges |
| TownGame.GameModal.ReportBuildings | client/components/game/GameModal.tsx:413-426 | the scene hands over twenty obstacles placed from its random numbers |
| TownGame.GameModal.CheckCollision | client/components/game/GameModal.tsx:525-539 | the loop reports a hit exactly when some obstacle is closer than 1.5, and no hit exactly when all are at least 1.5 away |
| TownGame.GameModal.CreateParticles | client/components/game/GameModal.tsx:643-660 | appends exactly the described batch to the particles and returns it |
| TownGame.GameModal.ExpireBatch | client/components/game/GameModal.tsx:662-664 | keeps exactly the particles whose id is not in the batch |
| TownGame.GameModal.PlaceLamp | client/components/game/GameModal.tsx:831-899 | ignored unless playing; otherwise the clicked lamp toggles, gauges and score follow the placement energy, the first placement starts everyone walking, NPC light and mood follow the pre-click lamps, and a placement adds a sparkle batch at (x·10+50, z·10+50) |
| TownGame.GameModal.ClickLamp | client/components/game/GameModal.tsx:184-222 | a click on a lamp, as wired, changes no state |
| TownGame.GameModal.ClickLampWired | client/components/game/GameModal.tsx:1104-1110 | a click with the handler bound: ignored unless playing, when lamps, NPCs, gauges, score and particles all stay as they were; otherwise the same new state as `PlaceLamp`: lamp toggled, gauges and score from the placement energy, NPCs relit (sent walking on the first placement), and a sparkle batch on a placement |
| TownGame.GameModal.Settle | client/components/game/GameModal.tsx:636-640 | playing with the clock at 0 becomes completed and raises the confetti flag |
| TownGame.GameModal.TickSecond | client/components/game/GameModal.tsx:626-640 | the clock drops by one only while playing, unpaused and above 0, never below 0, and reaching 0 completes the round |
| TownGame.GameModal.RetargetTick | client/components/game/GameModal.tsx:584-613 | while playing (paused or not) the NPCs are retargeted; otherwise nothing changes |
| TownGame.GameModal.Start | client/components/game/GameModal.tsx:901-906 | playing and unpaused with clock and score kept, completed at once if the clock is already 0 |
| TownGame.GameModal.TogglePause | client/components/game/GameModal.tsx:908-910 | the pause flag flips in every state |
| TownGame.GameModal.Reset | client/components/game/GameModal.tsx:912-917 | score 0, 300 s, intro; lamps, gauges, NPCs and player unchanged |
| TownGame.GameModal.ToggleViewMode | client/components/game/GameModal.tsx:1205 | first-person and top-down swap |
| TownGame.GameModal.KeyDown | client/components/game/GameModal.tsx:686-810 | not playing: nothing changes; playing: a move key commits the proposed step and sets moving only when no obstacle blocks it, the camera follows in first person, the rotation is always written; a changed position is never blocked |
| TownGame.GameModal.KeyUp | client/components/game/GameModal.tsx:812-819 | while playing a movement key clears the moving flag; other keys change nothing |
| Quiz.Questions | client/components/quiz/QuizModal.tsx:27-93 | five questions of four options each, every correct index among the options |
| Quiz.BankIsWorth65 | client/components/quiz/QuizModal.tsx:27-93 | the bank's points add up to 65 |
| Quiz.PointsGrow | client/components/quiz/QuizModal.tsx:27-93 | the points of any prefix of the bank are at most its total |
| Quiz.Award | client/components/quiz/QuizModal.tsx:131-132 | an answer earns at most its question's points, and something exactly when it is right |
| Quiz.Scored | client/components/quiz/QuizModal.tsx:128-136 | the score of n answers is at most the points of the first n questions |
| Quiz.ScoredBounds | client/components/quiz/QuizModal.tsx:128-137 | the score of answers is at most the points of the questions answered, and at most 65 |
| Quiz.AllRightEarnsAll | client/components/quiz/QuizModal.tsx:131-132 | all answers right earns every point of the questions answered |
| Quiz.Decimal | client/components/quiz/QuizModal.tsx:168 | a number prints as one or more digits, one digit exactly below 10 |
| Quiz.DecimalValue | client/components/quiz/QuizModal.tsx:168 | the printed digits are worth the number |
| Quiz.Pad2 | client/components/quiz/QuizModal.tsx:167-168 | the seconds part is always two digits |
| Quiz.Pad2Value | client/components/quiz/QuizModal.tsx:167-168 | the two digits are worth the seconds |
| Quiz.FormatTime | client/components/quiz/QuizModal.tsx:165-169 | the display ends in a colon and two digits, and is four characters below ten minutes |
| Quiz.FormatTimeRoundTrip | client/components/quiz/QuizModal.tsx:165-169 | the display is minutes, a colon, then two digits; the digits are worth seconds mod 60 (below 60) and the minutes seconds div 60; reading it back gives the seconds |
| Quiz.ScoreColor | client/components/quiz/QuizModal.tsx:171-176 | one of the three classes: green exactly from 80 %, red exactly below 60 % |
| Quiz.ScoreMessage | client/components/quiz/QuizModal.tsx:178-183 | one of the three messages: "Excellent" exactly from 80 %, "Keep learning" exactly below 60 % |
| Quiz.BandsAgree | client/components/quiz/QuizModal.tsx:171-183 | green and "Excellent" exactly when score ≥ 60, yellow and "Good job" exactly when 45 ≤ score < 60, red and "Keep learning" exactly below 45; colour and message always agree |
| Quiz.FullMarksBelowHundred | client/components/quiz/QuizModal.tsx:171-172 | no score the bank can give reaches 100 % |
| Quiz.QuizModal.constructor | client/components/quiz/QuizModal.tsx:96-102 | question 0, no selection, no result, score 0, no answers, 300 s, not completed |
| Quiz.QuizModal.Reopen | client/components/quiz/QuizModal.tsx:107-121 | reopening re-creates the countdown, which captures the current score; validity is kept |
| Quiz.QuizModal.SelectAnswer | client/components/quiz/QuizModal.tsx:123-126 | a no-op while a result is shown, otherwise the selection becomes the index |
| Quiz.QuizModal.SubmitAnswer | client/components/quiz/QuizModal.tsx:128-138 | no selection: nothing changes; otherwise score grows by the question's points iff right, one answer is recorded, the result shows, and a callback is scheduled; validity is kept |
| Quiz.QuizModal.ResultTimeout | client/components/quiz/QuizModal.tsx:139-153 | the oldest callback advances with selection cleared and result hidden, or at the last question completes and reports the score it captured; validity is kept |
| Quiz.QuizModal.ResultTimeoutReportingFinalScore | client/components/quiz/QuizModal.tsx:139-153 | the same callback reporting, on completion, the score of all five answers |
| Quiz.QuizModal.TickSecond | client/components/quiz/QuizModal.tsx:110-121 | at 1 or below the clock pins to 0 and completes, else drops by one; it never goes negative; each completion reports the score captured at opening |
| Quiz.QuizModal.TickSecondReportingOnce | client/components/quiz/QuizModal.tsx:110-121 | the same countdown, but a completion is reported exactly when the clock runs out on a quiz not yet completed |
| Quiz.QuizModal.Restart | client/components/quiz/QuizModal.tsx:155-163 | every field back to its initial value; a pending result callback survives |
| Quiz.QuizModal.RestartCancellingTimers | client/components/quiz/QuizModal.tsx:155-163 | the initial state with no pending callback, which is valid |
| Quiz.ValidScoreBounds | client/components/quiz/QuizModal.tsx:128-137 | in a valid quiz the score lies in [0, 65] |
| Quiz.AnswerThenFire | client/components/quiz/QuizModal.tsx:123-147 | select, submit and the oldest callback, composed |
| Quiz.RestartDuringResultOverrunsBank | client/components/quiz/QuizModal.tsx:139-163 | a restart during a shown result lets the question index reach 5 while the quiz runs |
| Quiz.AllRightReportsWithoutLastAnswer | client/components/quiz/QuizModal.tsx:139-153 | five right answers show 65 but report 45 |
| TownGame.ClickingNeverPlacesALamp | client/components/game/GameModal.tsx:184-222 | as wired, clicking any lamp of a fresh round places nothing: energy 0, happiness 50 |
| Quiz.ExpireAfterFirstAnswer | client/components/quiz/QuizModal.tsx:107-147 | one right answer, a reopen and the clock run down leave a valid, completed quiz whose countdown holds the first question's points |
| Quiz.ExpiredClockReportsEverySecond | client/components/quiz/QuizModal.tsx:107-121 | with the clock at 0, two more seconds report the same non-zero score twice more |
| Quiz.ExpiredClockReportsOnce | client/components/quiz/QuizModal.tsx:107-121 | with the completion reported once, the seconds after it report nothing |
| TownGame.WiredClickPlacesLamp | client/components/game/GameModal.tsx:831-899 | with the handler bound, one click places a lamp: 50 energy, happiness 55, 15 sparkles |

## Left out

- Rendering: three.js scenes, animation, the per-frame NPC walk and avatar poses, HUD markup, the globe, and the quiz markup. This is presentation only, and the per-frame NPC position is component-local and never written back to the NPC list.
- `Math.random`, `Date.now()` and `Math.sin`/`Math.cos` are not computed. They arrive as method parameters (random numbers in [0, 1), a stamp, the heading's sine and cosine).
- The fifty staggered confetti bursts scheduled on completion are not modelled. `Settle` raises the confetti flag; each burst is a `CreateParticles` call.
- Timers are not modelled as a scheduler. The one-second, two-second and five-second callbacks appear as methods the environment calls, in an order it chooses.
- `TownGame.GameModal.KeyDown`: checks collision against the current obstacle list. The source's handler closes over the list without listing it among the effect's dependencies, so it may see an older list until the effect re-registers.
- DOM concerns are not modelled: `preventDefault`/`stopPropagation`, capture-phase listeners, input-field filtering, and the body scroll lock.
- State that is never updated or read is not modelled: `selectedLamp`, `isNight`, `solarPanels` (cleared by reset, otherwise unused), `cityBuildings`, `citizens`, the revenue/satisfaction counters, and `createEnergyFlow`, which is never called.
- Floating point: numbers are exact reals, and distances are compared squared instead of through `Math.sqrt`.
- `onComplete`/`onClose` are not modelled beyond their payload: what the parent page does with a completion is outside this model. The quiz's reported score is modelled as the `reported` result.
- `Town.Batch`: one stamp per batch; the source reads `Date.now()` once per record, so one batch may carry consecutive stamps. Ids within a batch stay distinct through their index either way.
- Closing the quiz modal is not modelled: it clears the countdown interval, and the environment then simply stops calling `TickSecond`. Reopening is `Reopen`.
- `TownGame.GameModal.RetargetTick`: follows the retarget step as written; the intended step `Town.RetargetStarted` stands beside it (see "## Findings").
- The quiz's question text and explanations are not modelled: only ids, option counts, correct indices and points matter to the logic.

## Findings

| source | as written | input that shows it | evidently intended | confidence | as-written member | corrected member |
|---|---|---|---|---|---|---|
| client/components/quiz/QuizModal.tsx:139-163 | restart does not cancel the scheduled result callback; that callback tests the index it captured and advances from the current one | answer questions 1 and 2; submit question 3 with 2 s or less on the clock, so the clock runs out while its result shows; restart at once; then answer five times, each submitted before the previous callback fires: every advance is driven by a callback one submission old, and the index reaches 5, past the bank (without that race the stale callback only skips question 1) | a restart starts a clean quiz whose index stays within the five questions | not executed | Quiz.RestartDuringResultOverrunsBank | Quiz.QuizModal.RestartCancellingTimers |
| client/components/quiz/QuizModal.tsx:139-153 | the completing callback reports the score captured in the render where the last answer was submitted, before that answer's points | answer all five questions right: the results screen shows 65 but 45 is reported | the reported score is the final score, the last answer included | not executed | Quiz.AllRightReportsWithoutLastAnswer | Quiz.QuizModal.ResultTimeoutReportingFinalScore |
| client/components/quiz/QuizModal.tsx:107-121 | the countdown interval is cleared only when the modal closes, so once the clock is at 0 every further second completes the quiz again and reports the score once more; the page adds each report to its total | answer the first question right, close and reopen the modal, let the clock run out and keep the modal open: the first question's points are reported every second | the quiz reports its completion once | not executed | Quiz.ExpiredClockReportsEverySecond | Quiz.QuizModal.TickSecondReportingOnce |
| client/components/game/GameModal.tsx:184-222 | the lamp component receives the placement handler (:1108) but binds it to no event, so no click ever places a lamp | open a mission, start, click any lamp: nothing is placed, energy stays 0 and happiness 50 for the whole round | clicking a lamp calls the placement handler for it | not executed | TownGame.ClickingNeverPlacesALamp | TownGame.GameModal.ClickLampWired |
| client/components/game/GameModal.tsx:584-609 | the retarget interval moves every NPC within 0.5 of its target, and the initial roster stands on its targets, so within five seconds of the start every NPC walks, although the start handler's comment (:905) says they stay idle until the first placement | start a round and place no lamp: after the first five-second tick all five NPCs are walking | idle NPCs keep standing until the first placement starts them | not executed | Town.FirstRetargetMovesEveryone | Town.RetargetStarted |
