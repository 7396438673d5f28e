# Element quiz engine, modelled in Dafny

The app is a single-page quiz on element symbols (noizumi/element-quiz, `app/src/App.jsx`).
A main run asks the twenty atomic numbers 1–20 in a shuffled order in one of three modes:
- atomic number → symbol;
- Japanese name → symbol;
- atomic number → cell of a compact periodic table.

The first two modes show eight symbol buttons. The third shows the board: periods 1–4 in the
eight main-group columns. A wrong tap is counted, disables that button or cell, and marks the
question. A question marked before its right tap goes into the missed set. A main run is
timed: its time is clamped to [0, 9999] seconds, graded S/A/B/C and compared with the best
stored on the device for that mode. A review run then repeats exactly the missed questions.

The project models this engine:

| file | module | what it holds |
|---|---|---|
| util.dfy | `Util` | `Option`, `Distinct`, `clamp`, `Set.add` on an insertion-ordered set, sequence lemmas |
| decimal.dfy | `Decimal` | `String(n)` for integers and its inverse |
| random.dfy | `Random` | `shuffle`: the Fisher–Yates loop on an array copy, its specification and permutation proof |
| elements.dfy | `Elements` | the 118 symbols, the Japanese names of 1–20, `nameJaForZ`, `sampleDistinctSymbols` |
| board.dfy | `Board` | `PT_GROUP_COLUMNS`, `PT_POS_1_20`, `ptColForGroup`, the loop building `PT_CELL_BY_POS`, `ptZAt`, `ptHasCell` |
| grading.dfy | `Grading` | `gradeForSeconds` |
| beststore.dfy | `BestStore` | the modes, the storage key, the per-mode best as a map |
| rules.dfy | `Rules` | question orders, drawing the answer buttons, timing and recording a finished main run |
| session.dfy | `Session` | the session controller: class `QuizApp`, its invariant and one method per handler and timer |
| findings.dfy | `Findings` | the finish path as the app runs it, next to the corrected one |

How the model is arranged:
- **Component state.** The component's state hooks are the fields of one `QuizState` record, the
  `state` field of `QuizApp`. Each handler replaces it in place, as a React state update does.
  The device storage is the `store` field. The ghost field `mistaken` holds the questions of
  the current run that had a wrong tap.
- **Timers.** The three `setTimeout` callbacks are methods run atomically: `WrongTimeout` (420 ms),
  `CorrectTimeout` (650 ms) and `FinishTimeout` (900 ms). The countdown's last step together
  with the quiz-start effect is `CountdownDone`.
- **Randomness and clocks.** `Math.random()` is an oracle: a sequence `picks`, where `picks[k]`
  is the index `Math.floor(Math.random() * (i + 1))` that shuffle step `k` swaps with.
  `performance.now()` and `Date.now()` are parameters (`nowMs`, `wallMs`).

## Model

| member | source | states |
|---|---|---|
| Util.Clamp | app/src/App.jsx:18-20 | the result lies in [lo, hi] whenever lo ≤ hi; it is `n` when `n` is inside, `lo` below, `hi` above, and `lo` when the bounds are crossed |
| Util.ClampSelfTests | app/src/App.jsx:877-879 | clamp(5,0,10)=5, clamp(-1,0,10)=0, clamp(99,0,10)=10 |
| Util.AddToSet | app/src/App.jsx:1359-1363 | adding to an insertion-ordered set keeps it duplicate-free, contains the new value and every old one, adds nothing else, and grows by one exactly when the value is new |
| Random.Shuffle | app/src/App.jsx:22-31 | the loop over an array copy returns `FisherYates(input, picks)`; the argument is a value and is not changed |
| Random.Swap | app/src/App.jsx:26-28 | the two positions are exchanged and the length is kept |
| Random.SwapKeepsOthers | app/src/App.jsx:26-28 | every position other than the two exchanged ones keeps its value |
| Random.SwapPermutes | app/src/App.jsx:26-28 | a swap keeps the multiset |
| Random.ShuffleStepsPermute | app/src/App.jsx:24-29 | after any number of loop steps the sequence is a permutation of the input |
| Random.FisherYatesPermutes | app/src/App.jsx:22-31 | `shuffle` returns the same length and the same multiset as its input |
| Decimal.IntToString | app/src/App.jsx:344-346 | `String(n)` is non-empty, starts with '-' exactly for negative `n`, and has digits after that |
| Decimal.ParseIntToString | app/src/App.jsx:344-346 | `String(n)` reads back to `n` |
| Decimal.IntToStringInjective | app/src/App.jsx:187-190 | different integers give different strings |
| Elements.AllSymbols | app/src/App.jsx:42-161 | 118 symbols; the one at index `k` belongs to atomic number `k + 1` |
| Elements.SymbolRoundTrip | app/src/App.jsx:42-161 | the symbol at index `k` is looked up again as atomic number `k + 1` |
| Elements.AllSymbolsDistinct | app/src/App.jsx:42-161 | no two elements share a symbol |
| Elements.SymbolOfIsSymbol | app/src/App.jsx:42-161 | the symbol of each of the 118 atomic numbers is in the symbol list |
| Elements.Without | app/src/App.jsx:306-308 | the filter removes every copy of the excluded symbol and keeps everything else; its length drops by the number of copies; a duplicate-free list stays duplicate-free |
| Elements.SliceTo | app/src/App.jsx:309 | `slice(0, count)` is a prefix of length min(count, n), with a negative count counting back from the end |
| Elements.PoolSize | app/src/App.jsx:303-308 | the pool is duplicate-free, holds only symbols, and has 117 entries when a symbol is excluded and 118 otherwise |
| Elements.ShuffledPoolSize | app/src/App.jsx:303-309 | the shuffled pool keeps its size, at least 117 |
| Elements.ShuffledPoolDistinct | app/src/App.jsx:303-309 | the shuffled pool is duplicate-free |
| Elements.ShuffledPoolMembers | app/src/App.jsx:303-309 | the shuffled pool holds only symbols other than the excluded one |
| Elements.PrefixKeeps | app/src/App.jsx:309 | a prefix keeps distinctness and the absence of the excluded symbol |
| Elements.SampleDistinctSymbols | app/src/App.jsx:302-310 | pairwise distinct symbols, none equal to the excluded one, at most `count`, and exactly `count` whenever 0 ≤ count ≤ 117 |
| Elements.DistractorsSelfTest | app/src/App.jsx:894-897 | seven distractors for "H" are seven distinct symbols without "H", for every shuffle |
| Elements.NameJaForZ | app/src/App.jsx:187-190 | the table name for 1–20, the label `元素（z）` otherwise |
| Elements.NameJaRoundTrip | app/src/App.jsx:164-185 | every name of 1–20 is non-empty, reads back to its atomic number, and cannot be mistaken for a fallback label |
| Elements.NameJaForZInjective | app/src/App.jsx:164-190 | different atomic numbers get different labels |
| Board.IndexOf | app/src/App.jsx:340 | `indexOf` returns the first index holding the value, or -1 exactly when no index does |
| Board.ColForGroup | app/src/App.jsx:339-342 | a column exists exactly for the eight drawn groups, lies in 1–8, and shows that group |
| Board.ColumnOfIndex | app/src/App.jsx:339-342 | the k-th drawn group is in column k + 1 |
| Board.CellFromPosition | app/src/App.jsx:316-342 | an element positioned in the k-th drawn group sits in column k + 1 of its period |
| Board.CellOfPeriodOne | app/src/App.jsx:317-318 | H and He sit at columns 1 and 8 of period 1 |
| Board.CellOfPeriodTwo | app/src/App.jsx:319-326 | Li–Ne fill columns 1–8 of period 2 |
| Board.CellOfPeriodThree | app/src/App.jsx:327-334 | Na–Ar fill columns 1–8 of period 3 |
| Board.CellOfPeriodFour | app/src/App.jsx:335-336 | K and Ca sit at columns 1 and 2 of period 4 |
| Board.CellOfInShape | app/src/App.jsx:316-342 | every element 1–20 has a cell of the compact shape, numbered row by row |
| Board.ShapeCellOf | app/src/App.jsx:316-342 | every cell of the shape is the cell of exactly its row-by-row number |
| Board.CellKeyRoundTrip | app/src/App.jsx:344-346 | the `"period-col"` key reads back to its pair, so different cells never share a key |
| Board.KeysDistinct | app/src/App.jsx:316-346 | no two atomic numbers share a cell key |
| Board.MapUpToContents | app/src/App.jsx:348-358 | when no two numbers share a key, the map the loop builds sends each key to its number and holds nothing else |
| Board.BuildCellByPos | app/src/App.jsx:348-358 | the loop, with both `continue` guards, builds exactly the specified table |
| Board.CellByPosContents | app/src/App.jsx:348-358 | the table maps each element's key to it and holds nothing else |
| Board.ZAtIff | app/src/App.jsx:360-363 | `ptZAt(p, c)` answers `z` exactly when (p, c) is the cell of `z`, for 1 ≤ z ≤ 20 |
| Board.HasCellIff | app/src/App.jsx:365-367 | a cell is drawn exactly when it lies in the compact shape |
| Board.SelfTestCells | app/src/App.jsx:888-891 | ptZAt(1,1)=1, ptZAt(1,8)=2, ptZAt(2,1)=3, ptZAt(4,2)=20 |
| Grading.GradeForSeconds | app/src/App.jsx:220-248 | S exactly for ≤ 60 s, A for (60, 90], B for (90, 120], C above 120 |
| Grading.GradeMonotone | app/src/App.jsx:220-248 | a slower time never earns a better grade |
| Grading.GradeTitlesDistinct | app/src/App.jsx:220-248 | the four grades carry four different titles |
| BestStore.BestStorageKey | app/src/App.jsx:251-253 | the key starts with `elemquiz_best_v1_` |
| BestStore.StorageKeysDistinct | app/src/App.jsx:251-253 | each mode has its own key |
| BestStore.ReadBest | app/src/App.jsx:255-271 | a record exactly when one is stored, and then the stored one |
| BestStore.WriteBest | app/src/App.jsx:273-286 | the mode's best becomes the new time stamped with the wall clock; no other mode changes |
| BestStore.ClearAll | app/src/App.jsx:288-300 | no mode has a best afterwards |
| Rules.OneToTwenty | app/src/App.jsx:1129-1133 | twenty entries, the k-th being k + 1 |
| Rules.ShuffledOrder | app/src/App.jsx:1129-1134 | shuffling a question order gives a question order with the same questions |
| Rules.ShuffleQuestions | app/src/App.jsx:1129-1134 | the shuffled order is duplicate-free, within 1–20, and a permutation of its input |
| Rules.QuestionOptionsValid | app/src/App.jsx:1102-1103 | a symbol question shows eight distinct symbols, one of them the answer |
| Rules.DrawOptions | app/src/App.jsx:1102-1103 | the buttons drawn are eight distinct symbols including the answer |
| Rules.FinalizeMain | app/src/App.jsx:1320-1344 | the time is in [0, 9999]: the measured time when that is in range, 9999 above it and 0 below it or without a start; the previous best is reported; a new best exactly when there was none or the time is smaller; the store is written exactly then |
| Rules.FinalizeKeepsMinimum | app/src/App.jsx:1325-1334 | after a run the stored best is the smaller of the old best and the run's time, and no other mode's best moves |
| Rules.ThreeSessionsScenario | app/src/App.jsx:1325-1334 | runs of 80, 65 and 70 s: the first two are new bests, the third is not, and 65 s stays stored |
| Session.CountdownKeepsInvariant | app/src/App.jsx:1123-1153 | a fresh run over a valid order satisfies the controller invariant |
| Session.HomeKeepsInvariant | app/src/App.jsx:1155-1168 | leaving for home keeps the invariant |
| Session.QuizOpensKeepsInvariant | app/src/App.jsx:1306-1317 | opening the quiz on question 0 keeps the invariant |
| Session.WrongPickKeepsInvariant | app/src/App.jsx:1411-1424 | a wrong tap keeps the invariant and flags the current question |
| Session.SolveKeepsInvariant | app/src/App.jsx:1357-1367 | a right tap keeps the invariant |
| Session.OverlayClearKeepsInvariant | app/src/App.jsx:1422-1424 | clearing the overlay keeps the invariant |
| Session.FinishOverlayKeepsInvariant | app/src/App.jsx:1371-1376 | the finish overlay after the last question keeps the invariant |
| Session.AdvanceKeepsInvariant | app/src/App.jsx:1381-1384 | moving to the next question keeps the invariant; the new question is neither missed nor flagged |
| Session.MissedIsMistaken | app/src/App.jsx:1319-1364 | after the last answer the missed set is exactly the set of questions with a wrong tap, lists distinct atomic numbers 1–20, and is no larger than the wrong count |
| Session.ResultScreenKeepsInvariant | app/src/App.jsx:1319-1355 | recording the run and showing the result keeps the invariant |
| Session.QuizApp.constructor | app/src/App.jsx:906-934 | the home screen, atomic-number mode, an empty run, no results, and the stored bests |
| Session.QuizApp.ResetSessionCommon | app/src/App.jsx:1110-1121 | question index, wrong count, missed set, mistake flag, buttons, disabled set, overlay and clock are cleared; nothing else changes |
| Session.QuizApp.StartMain | app/src/App.jsx:1123-1139 | the order is a permutation of 1–20; the mode is set, the phase is main, the review summary is dropped, the run is reset and the countdown shows; the invariant holds |
| Session.QuizApp.StartReview | app/src/App.jsx:1141-1153 | nothing changes without a result or with no missed questions; otherwise the order is a permutation of the missed list, the result's mode and the review phase are set, and the run is reset |
| Session.QuizApp.BackHome | app/src/App.jsx:1155-1168 | the home screen with an empty order and a reset run; results and store are kept |
| Session.QuizApp.BuildQuestion | app/src/App.jsx:1088-1108 | no buttons on the board; otherwise eight distinct symbols including the answer; the disabled set and mistake flag are cleared; nothing else changes |
| Session.QuizApp.CountdownDone | app/src/App.jsx:1276-1317 | a countdown already left changes nothing; otherwise the quiz opens on question 0, a main run's clock starts at `nowMs`, and a review run has none |
| Session.QuizApp.MarkIfMissedOnSolve | app/src/App.jsx:1357-1364 | the current question joins the missed set exactly when it had a wrong tap |
| Session.QuizApp.HandleCorrectAdvance | app/src/App.jsx:1366-1367 | the correct overlay shows; nothing else changes |
| Session.QuizApp.SolveCurrent | app/src/App.jsx:1408-1410 | a right tap (symbol or cell, lines 1443-1445 alike) records the question as missed exactly when it had a wrong tap and shows the correct overlay; the invariant holds |
| Session.QuizApp.RecordWrongPick | app/src/App.jsx:1411-1421 | a wrong tap (symbol or cell, lines 1446-1456 alike) adds exactly 1 to the wrong count, sets the mistake flag, disables the candidate, shows the wrong overlay and leaves the question index alone |
| Session.QuizApp.HandlePickSymbol | app/src/App.jsx:1393-1426 | a no-op off the quiz screen, under an overlay or on a disabled button; otherwise the right-tap or wrong-tap update according to the answer |
| Session.QuizApp.HandlePickCell | app/src/App.jsx:1428-1461 | the same for a board cell, compared with the current atomic number |
| Session.QuizApp.WrongTimeout | app/src/App.jsx:1422-1424 | the overlay is cleared; nothing else changes |
| Session.QuizApp.CorrectTimeout | app/src/App.jsx:1368-1385 | before the last question: the next index, a rebuilt question, cleared overlay, disabled set and flag; after the last: the finish overlay |
| Session.QuizApp.FinalizeSession | app/src/App.jsx:1319-1355 | a main run is recorded through `FinalizeMain` and the store follows it; a review run is summarised; the result screen shows; the recorded missed list is exactly the questions with a wrong tap |
| Session.QuizApp.FinishTimeout | app/src/App.jsx:1377-1380 | with the finish overlay, the whole new state: the overlay is cleared and the result screen shows; a main run stores `FinalizeMain`'s record and store, its missed list is exactly the questions with a wrong tap and it is timed from a real start; a review run stores its summary and leaves the stored bests alone; every other field is kept; without the overlay nothing changes |
| Findings.FinishFromTapRender | app/src/App.jsx:1319-1380 | the record built from the tap's render omits the last question unless it was already missed, and counts 0 s once the start ref is cleared |
| Findings.LastQuestionAfterMistake | app/src/App.jsx:1408-1421 | the last question of a board run after one wrong tap |
| Findings.LastMistakeDropped | app/src/App.jsx:1357-1380 | in a valid state where question 20 had a wrong tap, the record built by the finish callback lists no missed question |
| Findings.StaleFinishStoresZeroBest | app/src/App.jsx:1319-1380 | a finish callback that fires after going home records 0 s and overwrites a stored best of 65 s |
| Findings.FinishLastQuestion | app/src/App.jsx:1357-1380 | corrected path: after the right tap and both timers, the last question is in the missed list when it had a wrong tap, and the list is exactly the questions with a wrong tap |
| Findings.LeaveThenTimersFire | app/src/App.jsx:1155-1168 | corrected path: after going home, the pending callbacks of lines 1368-1385 leave the home screen and the stored bests as they are |

## Left out

- Rendering, JSX components, framer-motion animation, the tap flashes (`symFlash`, `cellFlash`), `blurActiveElement`, the help and periodic-table modals, `modeMeta` texts, `formatSeconds`, `ptBorderClasses`, layout measurement and viewport effects: presentation and DOM I/O.
- The countdown's intermediate steps (`countdownStep` 0–3 and their 1000 ms timers): only the last step, which opens the quiz, changes session state; it is `CountdownDone`.
- `Math.random`, `performance.now()` and `Date.now()`: the random choices are the `picks` oracle and the clocks are parameters, so nothing here says the shuffle is uniform.
- localStorage, `JSON.parse`/`JSON.stringify`, the `try`/`catch` blocks, a missing `window` and a stored value whose `sec` is not a finite number: the storage is a map from mode to record, and an unreadable entry is modelled as absent. `bestByMode` and `refreshBestFromStorage` only mirror that map for display.
- NaN and floating point: times are exact reals.
- The guards `!order.length` (quiz-start effect), `!correctSymbol` and `!currentZ` (tap handlers), and the effect's `startMsRef.current == null` test: under the controller invariant the quiz screen always has a current question in 1–20 and the effect runs once per countdown, so these branches cannot be taken and the methods do not repeat them.
- Session.QuizApp.StartMain: ensures a permutation of 1–20 rather than the exact shuffled sequence, because the order comes from `ShuffleQuestions`, whose own contract is the permutation.
- Session.QuizApp.StartReview: ensures a permutation of the missed list rather than the exact shuffled sequence, for the same reason.
- Session.QuizApp.CorrectTimeout: the source's 650 ms callback has no guard; the model acts only while the correct overlay shows, which is the correction described under Findings.
- Session.QuizApp.FinishTimeout: the source's 900 ms callback has no guard and reads state captured at the last tap; the model acts only while the finish overlay shows and reads the current state, which is the correction described under Findings.
- The state hooks are grouped into one record. The model therefore does not capture the render-by-render batching of React updates, except where Findings spells it out.

## Findings

| source | as written | input that shows it | evidently intended | confidence | as-written member | corrected member |
|---|---|---|---|---|---|---|
| app/src/App.jsx:1359, 1368-1380 | the 900 ms callback calls the `finalizeSession` of the render in which the last right tap happened, so it reads the missed set from before that tap's `markIfMissedOnSolve` update | last question 20 of a main run, one wrong tap, then the right tap: the recorded `missedZs` is `[]` although question 20 had a mistake, so no review of it is offered | every question with a wrong tap before its right tap is in `missedZs`, the last one included | not executed | Findings.LastMistakeDropped | Findings.FinishLastQuestion |
| app/src/App.jsx:1155-1168, 1368-1385 | the 650 ms and 900 ms callbacks are not cancelled by `backHome`; the finish callback then finalizes with `startMsRef.current` already null | right tap on the last question, then Home within 1.55 s, reached from the keyboard (Tab to the Home button, then Enter), since the full-screen overlay of line 495 covers it for touch and pointer, with 65 s stored as the mode's best: the run is recorded as 0 s, the best becomes 0 s and the result screen replaces home | leaving a run discards it: no result and no stored best | not executed | Findings.StaleFinishStoresZeroBest | Findings.LeaveThenTimersFire |
