/** The quiz session controller of the app: screens home → countdown → quiz → result, a main
    run over atomic numbers 1–20 or a review run over the questions missed in the last main
    run, and the per-question bookkeeping of wrong taps and missed questions.

    The component's state hooks are the fields of one `QuizState` record, which every
    handler replaces in place the way a React state update does; the device's stored bests
    are a second field. The app schedules three timer callbacks: clearing the "wrong"
    overlay (420 ms), advancing after a correct answer (650 ms), and finishing after the
    last answer (900 ms). Each is one atomic method here. The clocks (`performance.now()`
    and `Date.now()`) are parameters, and `Math.random` is an oracle supplying the index
    picked at each shuffle step. */
module Session {
  import opened Util
  import opened Random
  import opened Elements
  import opened BestStore
  import opened Rules

  datatype Screen = Home | Countdown | Quiz | Result

  datatype Phase = MainPhase | ReviewPhase

  datatype OverlayKind = CorrectOverlay | WrongOverlay | FinishOverlay

  /** What a tap names: a symbol button, or a board cell by the atomic number drawn in it.
      Both kinds share the one set of disabled candidates. */
  datatype Candidate = SymbolTap(sym: string) | CellTap(z: int)

  /** The component's state. `missed` is the missed set in insertion order; `startMs` is
      the monotonic time at which a main run's clock started. */
  datatype QuizState = QuizState(
    screen: Screen,
    mode: Mode,
    phase: Phase,
    order: seq<int>,
    qIndex: nat,
    options: seq<string>,
    disabled: set<Candidate>,
    overlay: Option<OverlayKind>,
    wrongCount: nat,
    missed: seq<int>,
    madeMistake: bool,
    startMs: Option<real>,
    lastResult: Option<MainResult>,
    lastReview: Option<ReviewSummary>)

  /** The members of a sequence. */
  ghost function Elems(s: seq<int>): set<int> {
    set x | x in s
  }

  /** `order` holds distinct atomic numbers 1–20: all twenty in a main run, exactly the
      previous run's missed questions in a review run. */
  ghost predicate OrderValid(s: QuizState) {
    IsQuestionOrder(s.order)
    && (s.screen != Home ==> |s.order| > 0)
    && (s.screen != Home && s.phase == MainPhase ==> multiset(s.order) == multiset(OneToTwenty()))
    && (s.screen != Home && s.phase == ReviewPhase ==>
          s.lastResult.Some? && multiset(s.order) == multiset(s.lastResult.value.missedZs))
    && (s.screen == Quiz ==> s.qIndex < |s.order|)
    && (s.overlay.Some? ==> s.screen == Quiz)
    && (s.overlay == Some(FinishOverlay) ==> s.qIndex == |s.order| - 1)
  }

  /** Before the quiz starts nothing has been answered and the clock has not started. */
  ghost predicate FreshBeforeQuiz(s: QuizState, mistaken: set<int>) {
    (s.screen == Home || s.screen == Countdown) ==>
      s.qIndex == 0 && s.wrongCount == 0 && s.missed == [] && mistaken == {} && !s.madeMistake
      && s.disabled == {} && s.startMs.None?
  }

  /** `mistaken` holds the questions of this run on which a wrong candidate was tapped. The
      missed set records exactly the answered ones among them, and the current question's
      answer is never disabled. */
  ghost predicate MistakesValid(s: QuizState, mistaken: set<int>) {
    Distinct(s.missed)
    && (forall k :: 0 <= k < |s.missed| ==> s.missed[k] in mistaken)
    && |mistaken| <= s.wrongCount
    && (s.madeMistake <==> s.disabled != {})
    && (s.screen == Quiz && s.qIndex < |s.order| ==>
          var z := s.order[s.qIndex];
          (forall x :: x in mistaken ==> x in s.order[..s.qIndex + 1])
          && (forall k :: 0 <= k < s.qIndex && s.order[k] in mistaken ==> s.order[k] in s.missed)
          && (s.madeMistake <==> z in mistaken)
          && (s.overlay.Some? && s.overlay.value != WrongOverlay && z in mistaken ==> z in s.missed)
          && (1 <= z <= 20 ==> SymbolTap(SymbolOf(z)) !in s.disabled)
          && CellTap(z) !in s.disabled)
  }

  /** The buttons of question `z` in `mode`: none for a board question, otherwise eight
      distinct symbols including the answer. */
  ghost predicate QuestionOptionsShown(mode: Mode, z: int, options: seq<string>)
    requires 1 <= z <= 20
  {
    if mode == PeriodicTable then options == []
    else |options| == 8 && Distinct(options) && SymbolOf(z) in options
  }

  ghost predicate OptionsValid(s: QuizState) {
    s.screen == Quiz && s.qIndex < |s.order| && 1 <= s.order[s.qIndex] <= 20 ==>
      QuestionOptionsShown(s.mode, s.order[s.qIndex], s.options)
  }

  /** A recorded main result lists distinct atomic numbers 1–20 and a time in [0, 9999]. */
  ghost predicate ResultValid(s: QuizState) {
    s.lastResult.Some? ==>
      IsQuestionOrder(s.lastResult.value.missedZs)
      && 0.0 <= s.lastResult.value.elapsedSec <= MaxElapsedSec
  }

  /** A main run's clock is running for as long as its quiz screen shows. */
  ghost predicate ClockValid(s: QuizState) {
    s.screen == Quiz && s.phase == MainPhase ==> s.startMs.Some?
  }

  ghost predicate Invariant(s: QuizState, mistaken: set<int>) {
    OrderValid(s) && FreshBeforeQuiz(s, mistaken) && MistakesValid(s, mistaken)
    && OptionsValid(s) && ResultValid(s) && ClockValid(s)
  }

  /** The state `s` with the per-run fields cleared, as both kinds of start and leaving for
      home clear them. */
  ghost function ResetRun(s: QuizState): QuizState {
    s.(qIndex := 0, wrongCount := 0, missed := [], madeMistake := false, options := [],
       disabled := {}, overlay := None, startMs := None)
  }

  /** A run about to be counted down: a fresh run over a valid question order. */
  lemma CountdownKeepsInvariant(s: QuizState, t: QuizState)
    requires ResultValid(s)
    requires t == ResetRun(t) && t.screen == Countdown && t.lastResult == s.lastResult
    requires IsQuestionOrder(t.order) && |t.order| > 0
    requires t.phase == MainPhase ==> multiset(t.order) == multiset(OneToTwenty())
    requires t.phase == ReviewPhase ==>
               t.lastResult.Some? && multiset(t.order) == multiset(t.lastResult.value.missedZs)
    ensures Invariant(t, {})
  {
  }

  /** Leaving for the home screen drops the run and keeps the last result. */
  lemma HomeKeepsInvariant(s: QuizState, mistaken: set<int>)
    requires Invariant(s, mistaken)
    ensures Invariant(ResetRun(s.(screen := Home, order := [])), {})
  {
  }

  /** The end of the countdown opens question 0 with its buttons and nothing answered yet. */
  lemma QuizOpensKeepsInvariant(s: QuizState, mistaken: set<int>, startMs: Option<real>, options: seq<string>)
    requires Invariant(s, mistaken) && s.screen == Countdown
    requires s.phase == MainPhase ==> startMs.Some?
    requires QuestionOptionsShown(s.mode, s.order[0], options)
    ensures Invariant(s.(screen := Quiz, startMs := startMs, options := options), mistaken)
  {
  }

  /** A wrong tap counts, flags the question and disables the tapped candidate, which is
      never the answer. */
  lemma WrongPickKeepsInvariant(s: QuizState, mistaken: set<int>, c: Candidate)
    requires Invariant(s, mistaken) && s.screen == Quiz && s.overlay.None?
    requires c != SymbolTap(SymbolOf(s.order[s.qIndex])) && c != CellTap(s.order[s.qIndex])
    ensures Invariant(s.(wrongCount := s.wrongCount + 1, madeMistake := true,
                         overlay := Some(WrongOverlay), disabled := s.disabled + {c}),
                      mistaken + {s.order[s.qIndex]})
  {
  }

  /** A right tap records the question as missed exactly when it had a wrong tap. */
  lemma SolveKeepsInvariant(s: QuizState, mistaken: set<int>)
    requires Invariant(s, mistaken) && s.screen == Quiz && s.overlay.None?
    ensures Invariant(s.(missed := if s.madeMistake then AddToSet(s.missed, s.order[s.qIndex]) else s.missed,
                         overlay := Some(CorrectOverlay)), mistaken)
  {
  }

  /** The "wrong" overlay going away. */
  lemma OverlayClearKeepsInvariant(s: QuizState, mistaken: set<int>)
    requires Invariant(s, mistaken)
    ensures Invariant(s.(overlay := None), mistaken)
  {
  }

  /** After the last question's right tap the "finish" overlay shows. */
  lemma FinishOverlayKeepsInvariant(s: QuizState, mistaken: set<int>)
    requires Invariant(s, mistaken) && s.overlay == Some(CorrectOverlay) && s.qIndex + 1 >= |s.order|
    ensures Invariant(s.(overlay := Some(FinishOverlay)), mistaken)
  {
  }

  /** Moving on to the next question: it has not been answered, so it is in neither the
      missed set nor the flagged questions. */
  lemma AdvanceKeepsInvariant(s: QuizState, mistaken: set<int>, options: seq<string>)
    requires Invariant(s, mistaken) && s.overlay == Some(CorrectOverlay) && s.qIndex + 1 < |s.order|
    requires QuestionOptionsShown(s.mode, s.order[s.qIndex + 1], options)
    ensures Invariant(s.(overlay := None, qIndex := s.qIndex + 1, options := options, disabled := {},
                         madeMistake := false), mistaken)
  {
    var next := s.qIndex + 1;
    assert s.order[..next + 1] == s.order[..next] + [s.order[next]];
    assert s.order[next] !in s.order[..next];
  }

  /** With the last question answered, the missed set is exactly the set of questions that
      had a wrong tap, it lists distinct atomic numbers 1–20, and it is no longer than the
      count of wrong taps. */
  lemma MissedIsMistaken(s: QuizState, mistaken: set<int>)
    requires Invariant(s, mistaken) && s.screen == Quiz && s.qIndex == |s.order| - 1
    requires s.order[s.qIndex] in mistaken ==> s.order[s.qIndex] in s.missed
    ensures Elems(s.missed) == mistaken
    ensures IsQuestionOrder(s.missed)
    ensures |s.missed| <= s.wrongCount
  {
    forall x | x in mistaken
      ensures x in s.missed
    {
      assert x in s.order[..s.qIndex + 1];
      var k :| 0 <= k < s.qIndex + 1 && s.order[k] == x;
    }
    forall k | 0 <= k < |s.missed|
      ensures 1 <= s.missed[k] <= 20
    {
      var x := s.missed[k];
      assert x in mistaken;
      assert x in s.order[..s.qIndex + 1];
      var j :| 0 <= j < s.qIndex + 1 && s.order[j] == x;
    }
    DistinctSubsetSize(s.missed, mistaken);
  }

  /** Recording a finished run and showing the result screen. */
  lemma ResultScreenKeepsInvariant(s: QuizState, mistaken: set<int>, t: QuizState)
    requires Invariant(s, mistaken) && s.screen == Quiz && s.overlay.None?
    requires t == s.(screen := Result, lastResult := t.lastResult, lastReview := t.lastReview)
    requires s.phase == ReviewPhase ==> t.lastResult == s.lastResult
    requires t.lastResult.Some? ==>
               IsQuestionOrder(t.lastResult.value.missedZs)
               && 0.0 <= t.lastResult.value.elapsedSec <= MaxElapsedSec
    ensures Invariant(t, mistaken)
  {
  }

  class QuizApp {
    var state: QuizState
    /** The device-local best of each mode. */
    var store: Store
    /** The questions of this run on which a wrong candidate was tapped. */
    ghost var mistaken: set<int>

    ghost predicate Valid()
      reads this
    {
      Invariant(state, mistaken)
    }

    /** The app on first load, with whatever bests the device has stored. */
    constructor (saved: Store)
      ensures Valid()
      ensures state == QuizState(Home, AtomicNumber, MainPhase, [], 0, [], {}, None, 0, [], false,
                                 None, None, None)
      ensures store == saved
    {
      state := QuizState(Home, AtomicNumber, MainPhase, [], 0, [], {}, None, 0, [], false,
                         None, None, None);
      store := saved;
      mistaken := {};
    }

    /** Clears the per-run state shared by both kinds of run. */
    method ResetSessionCommon()
      modifies this
      ensures state == ResetRun(old(state)) && mistaken == {} && store == old(store)
    {
      state := state.(qIndex := 0, wrongCount := 0, missed := [], madeMistake := false, options := [],
                      disabled := {}, overlay := None, startMs := None);
      mistaken := {};
    }

    /** Starts a main run of `m`: the twenty questions in shuffled order, a fresh run, and
        the countdown. */
    method StartMain(m: Mode, picks: seq<nat>)
      requires Valid() && PicksFit(picks, 20)
      modifies this
      ensures Valid()
      ensures multiset(state.order) == multiset(OneToTwenty())
      ensures state == ResetRun(old(state).(screen := Countdown, mode := m, phase := MainPhase,
                                            lastReview := None, order := state.order))
      ensures store == old(store)
    {
      ghost var s := state;
      state := state.(mode := m, phase := MainPhase, lastReview := None);
      var o := ShuffleQuestions(OneToTwenty(), picks);
      state := state.(order := o);
      ResetSessionCommon();
      state := state.(screen := Countdown);
      CountdownKeepsInvariant(s, state);
    }

    /** Starts a review of the last main run's missed questions; does nothing when there is
        no result or it missed nothing. */
    method StartReview(picks: seq<nat>)
      requires Valid()
      requires state.lastResult.Some? ==> PicksFit(picks, |state.lastResult.value.missedZs|)
      modifies this
      ensures Valid()
      ensures old(state).lastResult.None? || |old(state).lastResult.value.missedZs| == 0 ==> unchanged(this)
      ensures old(state).lastResult.Some? && |old(state).lastResult.value.missedZs| > 0 ==>
                multiset(state.order) == multiset(old(state).lastResult.value.missedZs)
                && state == ResetRun(old(state).(screen := Countdown, mode := old(state).lastResult.value.mode,
                                                 phase := ReviewPhase, order := state.order))
                && store == old(store)
    {
      if state.lastResult.None? || |state.lastResult.value.missedZs| == 0 {
        return;
      }
      ghost var s := state;
      var last := state.lastResult.value;
      state := state.(mode := last.mode, phase := ReviewPhase);
      var o := ShuffleQuestions(last.missedZs, picks);
      state := state.(order := o);
      ResetSessionCommon();
      state := state.(screen := Countdown);
      CountdownKeepsInvariant(s, state);
    }

    /** Leaves the run for the home screen, dropping it. */
    method BackHome()
      requires Valid()
      modifies this
      ensures Valid()
      ensures state == ResetRun(old(state).(screen := Home, order := [])) && store == old(store)
    {
      HomeKeepsInvariant(state, mistaken);
      state := state.(screen := Home, order := []);
      ResetSessionCommon();
    }

    /** Sets up question `nextIndex`: fresh buttons for a symbol question, none for a board
        question, and no disabled candidates or mistake yet. */
    method BuildQuestion(nextIndex: nat, poolPicks: seq<nat>, optionPicks: seq<nat>)
      requires nextIndex < |state.order| && 1 <= state.order[nextIndex] <= 20
      requires QuestionPicksFit(poolPicks, optionPicks)
      modifies this
      ensures state == old(state).(options := state.options, disabled := {}, madeMistake := false)
      ensures QuestionOptionsShown(state.mode, state.order[nextIndex], state.options)
      ensures state.mode != PeriodicTable ==> forall k :: 0 <= k < 8 ==> IsSymbol(state.options[k])
      ensures mistaken == old(mistaken) && store == old(store)
    {
      var z := state.order[nextIndex];
      if state.mode == PeriodicTable {
        state := state.(options := [], disabled := {}, madeMistake := false);
        return;
      }
      SymbolOfIsSymbol(z);
      var opts := DrawOptions(SymbolOf(z), poolPicks, optionPicks);
      state := state.(options := opts, disabled := {}, madeMistake := false);
    }

    /** The end of the countdown: the quiz screen opens, a main run's clock starts, and the
        first question is built. A countdown already left is cancelled. */
    method CountdownDone(nowMs: real, poolPicks: seq<nat>, optionPicks: seq<nat>)
      requires Valid() && QuestionPicksFit(poolPicks, optionPicks)
      modifies this
      ensures Valid()
      ensures old(state).screen != Countdown ==> unchanged(this)
      ensures old(state).screen == Countdown ==>
                state == old(state).(screen := Quiz, options := state.options,
                                     startMs := if state.phase == MainPhase then Some(nowMs) else None)
                && QuestionOptionsShown(state.mode, state.order[0], state.options)
                && store == old(store)
    {
      if state.screen != Countdown {
        return;
      }
      ghost var s := state;
      state := state.(screen := Quiz, startMs := if state.phase == MainPhase then Some(nowMs) else None);
      BuildQuestion(0, poolPicks, optionPicks);
      QuizOpensKeepsInvariant(s, mistaken, state.startMs, state.options);
    }

    /** Adds the current question to the missed set when a wrong tap came before the right one. */
    method MarkIfMissedOnSolve()
      requires state.qIndex < |state.order|
      modifies this
      ensures state == old(state).(missed := if old(state).madeMistake
                                             then AddToSet(old(state).missed, old(state).order[old(state).qIndex])
                                             else old(state).missed)
      ensures mistaken == old(mistaken) && store == old(store)
    {
      if state.madeMistake {
        state := state.(missed := AddToSet(state.missed, state.order[state.qIndex]));
      }
    }

    /** Shows the "correct" overlay; the advance follows in `CorrectTimeout`. */
    method HandleCorrectAdvance()
      modifies this
      ensures state == old(state).(overlay := Some(CorrectOverlay))
      ensures mistaken == old(mistaken) && store == old(store)
    {
      state := state.(overlay := Some(CorrectOverlay));
    }

    /** The right candidate was tapped: the question joins the missed set when it had a
        wrong tap, and the "correct" overlay shows. */
    method SolveCurrent()
      requires Valid() && state.screen == Quiz && state.overlay.None?
      modifies this
      ensures Valid()
      ensures var s := old(state);
              state == s.(missed := if s.madeMistake then AddToSet(s.missed, s.order[s.qIndex]) else s.missed,
                          overlay := Some(CorrectOverlay))
      ensures mistaken == old(mistaken) && store == old(store)
    {
      SolveKeepsInvariant(state, mistaken);
      MarkIfMissedOnSolve();
      HandleCorrectAdvance();
    }

    /** A wrong candidate `c` was tapped: it is counted and disabled, the question is
        flagged, and the "wrong" overlay shows. */
    method RecordWrongPick(c: Candidate)
      requires Valid() && state.screen == Quiz && state.overlay.None?
      requires c != SymbolTap(SymbolOf(state.order[state.qIndex])) && c != CellTap(state.order[state.qIndex])
      modifies this
      ensures Valid()
      ensures var s := old(state);
              state == s.(wrongCount := s.wrongCount + 1, madeMistake := true,
                          overlay := Some(WrongOverlay), disabled := s.disabled + {c})
      ensures mistaken == old(mistaken) + {old(state).order[old(state).qIndex]} && store == old(store)
    {
      WrongPickKeepsInvariant(state, mistaken, c);
      mistaken := mistaken + {state.order[state.qIndex]};
      state := state.(wrongCount := state.wrongCount + 1, madeMistake := true,
                      overlay := Some(WrongOverlay), disabled := state.disabled + {c});
    }

    /** A tap on the symbol button `sym`. It is ignored off the quiz screen, while an overlay
        shows, and on a disabled button. */
    method HandlePickSymbol(sym: string)
      requires Valid()
      modifies this
      ensures Valid()
      ensures var s := old(state);
              s.screen != Quiz || s.overlay.Some? || SymbolTap(sym) in s.disabled ==> unchanged(this)
      ensures var s := old(state);
              s.screen == Quiz && s.overlay.None? && SymbolTap(sym) !in s.disabled ==>
                var z := s.order[s.qIndex];
                (sym == SymbolOf(z) ==>
                   state == s.(missed := if s.madeMistake then AddToSet(s.missed, z) else s.missed,
                               overlay := Some(CorrectOverlay)))
                && (sym != SymbolOf(z) ==>
                   state == s.(wrongCount := s.wrongCount + 1, madeMistake := true,
                               overlay := Some(WrongOverlay), disabled := s.disabled + {SymbolTap(sym)}))
    {
      if state.screen != Quiz || state.overlay.Some? || SymbolTap(sym) in state.disabled {
        return;
      }
      if sym == SymbolOf(state.order[state.qIndex]) {
        SolveCurrent();
      } else {
        RecordWrongPick(SymbolTap(sym));
      }
    }

    /** A tap on the board cell holding `zPicked`, with the same guards as a symbol tap. */
    method HandlePickCell(zPicked: int)
      requires Valid()
      modifies this
      ensures Valid()
      ensures var s := old(state);
              s.screen != Quiz || s.overlay.Some? || CellTap(zPicked) in s.disabled ==> unchanged(this)
      ensures var s := old(state);
              s.screen == Quiz && s.overlay.None? && CellTap(zPicked) !in s.disabled ==>
                var z := s.order[s.qIndex];
                (zPicked == z ==>
                   state == s.(missed := if s.madeMistake then AddToSet(s.missed, z) else s.missed,
                               overlay := Some(CorrectOverlay)))
                && (zPicked != z ==>
                   state == s.(wrongCount := s.wrongCount + 1, madeMistake := true,
                               overlay := Some(WrongOverlay), disabled := s.disabled + {CellTap(zPicked)}))
    {
      if state.screen != Quiz || state.overlay.Some? || CellTap(zPicked) in state.disabled {
        return;
      }
      if zPicked == state.order[state.qIndex] {
        SolveCurrent();
      } else {
        RecordWrongPick(CellTap(zPicked));
      }
    }

    /** The 420 ms timer after a wrong tap: the overlay goes away. */
    method WrongTimeout()
      requires Valid()
      modifies this
      ensures Valid()
      ensures state == old(state).(overlay := None) && mistaken == old(mistaken) && store == old(store)
    {
      OverlayClearKeepsInvariant(state, mistaken);
      state := state.(overlay := None);
    }

    /** The 650 ms timer after a correct tap: on to the next question, or the "finish"
        overlay after the last one. It does nothing once the run has been left. */
    method CorrectTimeout(poolPicks: seq<nat>, optionPicks: seq<nat>)
      requires Valid() && QuestionPicksFit(poolPicks, optionPicks)
      modifies this
      ensures Valid()
      ensures old(state).overlay != Some(CorrectOverlay) ==> unchanged(this)
      ensures var s := old(state);
              s.overlay == Some(CorrectOverlay) && s.qIndex + 1 < |s.order| ==>
                state == s.(overlay := None, qIndex := s.qIndex + 1, options := state.options,
                            disabled := {}, madeMistake := false)
                && QuestionOptionsShown(state.mode, state.order[state.qIndex], state.options)
      ensures var s := old(state);
              s.overlay == Some(CorrectOverlay) && s.qIndex + 1 >= |s.order| ==>
                state == s.(overlay := Some(FinishOverlay))
      ensures mistaken == old(mistaken) && store == old(store)
    {
      if state.overlay != Some(CorrectOverlay) {
        return;
      }
      ghost var s := state;
      var next := state.qIndex + 1;
      if next >= |state.order| {
        FinishOverlayKeepsInvariant(s, mistaken);
        state := state.(overlay := Some(FinishOverlay));
      } else {
        state := state.(overlay := None, qIndex := next);
        BuildQuestion(next, poolPicks, optionPicks);
        assert state.mode == s.mode && state.order == s.order && mistaken == old(mistaken);
        assert QuestionOptionsShown(state.mode, state.order[next], state.options);
        assert state.order[next] == s.order[s.qIndex + 1];
        AdvanceKeepsInvariant(s, mistaken, state.options);
      }
    }

    /** Records the finished run and shows the result screen: a main run is timed, compared
        with the stored best and stored when it is a new best; a review run is summarised.
        The recorded missed list holds exactly the questions that had a wrong tap. */
    method FinalizeSession(nowMs: real, wallMs: int)
      requires Valid() && state.screen == Quiz && state.overlay.None? && state.qIndex == |state.order| - 1
      requires state.order[state.qIndex] in mistaken ==> state.order[state.qIndex] in state.missed
      modifies this
      ensures Valid()
      ensures var s := old(state);
              s.phase == MainPhase ==>
                var f := FinalizeMain(s.mode, s.startMs, nowMs, wallMs, s.wrongCount, s.missed, old(store));
                state == s.(screen := Result, lastResult := Some(f.result)) && store == f.store
      ensures var s := old(state);
              s.phase == ReviewPhase ==>
                state == s.(screen := Result, lastReview := Some(ReviewSummary(s.mode, s.wrongCount, s.missed)))
                && store == old(store)
      ensures Elems(old(state).missed) == old(mistaken) && mistaken == old(mistaken)
      ensures old(state).phase == MainPhase ==> old(state).startMs.Some?
    {
      ghost var s := state;
      MissedIsMistaken(state, mistaken);
      if state.phase == MainPhase {
        var f := FinalizeMain(state.mode, state.startMs, nowMs, wallMs, state.wrongCount, state.missed, store);
        store := f.store;
        state := state.(screen := Result, lastResult := Some(f.result));
      } else {
        state := state.(screen := Result,
                        lastReview := Some(ReviewSummary(state.mode, state.wrongCount, state.missed)));
      }
      ResultScreenKeepsInvariant(s, mistaken, state);
    }

    /** The 900 ms timer after the last answer: the run is finalized. It does nothing once
        the run has been left. */
    method FinishTimeout(nowMs: real, wallMs: int)
      requires Valid()
      modifies this
      ensures Valid()
      ensures old(state).overlay != Some(FinishOverlay) ==> unchanged(this)
      ensures var s := old(state);
              s.overlay == Some(FinishOverlay) && s.phase == MainPhase ==>
                var f := FinalizeMain(s.mode, s.startMs, nowMs, wallMs, s.wrongCount, s.missed, old(store));
                state == s.(overlay := None, screen := Result, lastResult := Some(f.result))
                && store == f.store
                && Elems(f.result.missedZs) == old(mistaken) && s.startMs.Some?
      ensures var s := old(state);
              s.overlay == Some(FinishOverlay) && s.phase == ReviewPhase ==>
                state == s.(overlay := None, screen := Result,
                            lastReview := Some(ReviewSummary(s.mode, s.wrongCount, s.missed)))
                && store == old(store)
                && Elems(s.missed) == old(mistaken)
      ensures mistaken == old(mistaken)
    {
      if state.overlay != Some(FinishOverlay) {
        return;
      }
      OverlayClearKeepsInvariant(state, mistaken);
      state := state.(overlay := None);
      FinalizeSession(nowMs, wallMs);
    }
  }
}
