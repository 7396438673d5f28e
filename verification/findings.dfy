/** The finish path of the quiz as the app's code runs it, next to the corrected path the
    `Session` model follows.

    The 650 ms and 900 ms callbacks scheduled by a right tap are closures of the render in
    which that tap happened. They therefore see that render's state values, not the ones
    the tap itself queued, while the start time lives in a ref and is read live. Nothing
    cancels them when the player leaves for the home screen. */
module Findings {
  import opened Util
  import opened BestStore
  import opened Rules
  import opened Session

  /** The record a main run gets when the 900 ms callback finalizes it as written: mode,
      wrong count and missed set come from the render `tap` of the last right tap, taken
      before that tap's own addition to the missed set; `liveStartMs` is the ref's value
      when the callback runs. */
  function FinishFromTapRender(tap: QuizState, liveStartMs: Option<real>, nowMs: real, wallMs: int,
                               store: Store): (f: Finished)
    requires tap.qIndex < |tap.order|
    ensures tap.order[tap.qIndex] !in tap.missed ==> tap.order[tap.qIndex] !in f.result.missedZs
    ensures liveStartMs.None? ==> f.result.elapsedSec == 0.0
  {
    FinalizeMain(tap.mode, liveStartMs, nowMs, wallMs, tap.wrongCount, tap.missed, store)
  }

  /** The last question of a board run, answered after one wrong tap on the cell of 19. */
  function LastQuestionAfterMistake(): (s: QuizState)
    ensures s.order == OneToTwenty() && s.qIndex == 19 && s.madeMistake && s.missed == []
  {
    QuizState(Quiz, PeriodicTable, MainPhase, OneToTwenty(), 19, [], {CellTap(19)}, None, 1, [],
              true, Some(0.0), None, None)
  }

  /** The stale missed set, shown on a reachable state: question 20 had a wrong tap, yet the
      record built by the finish callback misses nothing, so the review run that should
      repeat question 20 is never offered. */
  lemma LastMistakeDropped(nowMs: real, wallMs: int, store: Store)
    ensures Invariant(LastQuestionAfterMistake(), {20})
    ensures var s := LastQuestionAfterMistake();
            FinishFromTapRender(s, s.startMs, nowMs, wallMs, store).result.missedZs == []
    ensures LastQuestionAfterMistake().order[19] == 20
  {
    var s := LastQuestionAfterMistake();
    var order := OneToTwenty();
    assert IsQuestionOrder(order);
    forall x | x in {20}
      ensures x in order[..20]
    {
      assert order[19] == 20;
    }
  }

  /** A stale finish callback after the player has gone home, shown on a concrete store: the
      ref's start time has been cleared, so the run counts as taking 0 seconds and replaces
      a stored best of 65 seconds. */
  lemma StaleFinishStoresZeroBest(tap: QuizState, nowMs: real, wallMs: int)
    requires tap.qIndex < |tap.order|
    ensures var store := map[tap.mode := BestRecord(65.0, Some(1))];
            var f := FinishFromTapRender(tap, None, nowMs, wallMs, store);
            f.result.elapsedSec == 0.0 && f.result.isNewBest && f.result.prevBestSec == Some(65.0)
            && ReadBest(f.store, tap.mode) == Some(BestRecord(0.0, Some(wallMs)))
  {
  }

  /** The corrected path of the last question: after the right tap and both timers, the
      recorded missed list holds exactly the questions that had a wrong tap, the last one
      included. */
  method FinishLastQuestion(app: QuizApp, poolPicks: seq<nat>, optionPicks: seq<nat>, nowMs: real, wallMs: int)
    requires app.Valid() && app.state.screen == Quiz && app.state.overlay.None?
    requires app.state.phase == MainPhase && app.state.qIndex == |app.state.order| - 1
    requires QuestionPicksFit(poolPicks, optionPicks)
    modifies app
    ensures app.Valid() && app.state.screen == Result && app.state.lastResult.Some?
    ensures Elems(app.state.lastResult.value.missedZs) == app.mistaken
    ensures old(app.state).madeMistake ==>
              old(app.state).order[old(app.state).qIndex] in app.state.lastResult.value.missedZs
  {
    app.SolveCurrent();
    app.CorrectTimeout(poolPicks, optionPicks);
    assert app.state.overlay == Some(FinishOverlay) && app.state.phase == MainPhase;
    app.FinishTimeout(nowMs, wallMs);
  }

  /** The corrected timers: once the player has gone home, callbacks still pending from the
      run change neither the screen nor the stored bests. */
  method LeaveThenTimersFire(app: QuizApp, poolPicks: seq<nat>, optionPicks: seq<nat>, nowMs: real, wallMs: int)
    requires app.Valid() && QuestionPicksFit(poolPicks, optionPicks)
    modifies app
    ensures app.Valid()
    ensures app.state == ResetRun(old(app.state).(screen := Home, order := []))
    ensures app.store == old(app.store)
  {
    app.BackHome();
    app.WrongTimeout();
    app.CorrectTimeout(poolPicks, optionPicks);
    app.FinishTimeout(nowMs, wallMs);
  }
}
