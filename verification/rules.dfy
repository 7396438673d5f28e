/** The pure rules of a quiz session: how the answer buttons of a question are drawn, and how
    a finished main session is timed, compared with the stored best and recorded. */
module Rules {
  import opened Util
  import opened Random
  import opened Elements
  import opened BestStore

  /** The questions of a main session, atomic numbers 1 to 20 in order, before shuffling. */
  function OneToTwenty(): (r: seq<int>)
    ensures |r| == 20 && forall k :: 0 <= k < 20 ==> r[k] == k + 1
  {
    seq(20, k => k + 1)
  }

  /** A question order: distinct atomic numbers 1–20. */
  predicate IsQuestionOrder(s: seq<int>) {
    Distinct(s) && forall k :: 0 <= k < |s| ==> 1 <= s[k] <= 20
  }

  /** Shuffling a question order gives a question order with the same questions. */
  lemma ShuffledOrder(s: seq<int>, picks: seq<nat>)
    requires IsQuestionOrder(s) && |picks| >= |s| - 1
    ensures IsQuestionOrder(FisherYates(s, picks))
    ensures |FisherYates(s, picks)| == |s| && multiset(FisherYates(s, picks)) == multiset(s)
  {
    var o := FisherYates(s, picks);
    FisherYatesPermutes(s, picks);
    DistinctPermutation(s, o);
    forall k | 0 <= k < |o|
      ensures 1 <= o[k] <= 20
    {
      assert o[k] in multiset(s);
    }
  }

  /** Shuffles a question order with the oracle's picks. */
  method ShuffleQuestions(s: seq<int>, picks: seq<nat>) returns (o: seq<int>)
    requires IsQuestionOrder(s) && PicksFit(picks, |s|)
    ensures IsQuestionOrder(o) && |o| == |s| && multiset(o) == multiset(s)
  {
    o := Shuffle(s, picks);
    ShuffledOrder(s, picks);
  }

  /** Index picks for one question: 116 for the distractor pool, 7 for the final eight buttons. */
  predicate QuestionPicksFit(poolPicks: seq<nat>, optionPicks: seq<nat>) {
    PicksFit(poolPicks, 117) && PicksFit(optionPicks, 8)
  }

  /** The answer buttons of a symbol question: the correct symbol and seven distractors,
      shuffled together. */
  function QuestionOptions(correct: string, poolPicks: seq<nat>, optionPicks: seq<nat>): seq<string>
    requires IsSymbol(correct) && QuestionPicksFit(poolPicks, optionPicks)
  {
    PoolSize(correct);
    FisherYates([correct] + SampleDistinctSymbols(7, correct, poolPicks), optionPicks)
  }

  /** Every symbol question shows eight different symbols, one of which is the answer. */
  lemma QuestionOptionsValid(correct: string, poolPicks: seq<nat>, optionPicks: seq<nat>)
    requires IsSymbol(correct) && QuestionPicksFit(poolPicks, optionPicks)
    ensures |QuestionOptions(correct, poolPicks, optionPicks)| == 8
    ensures Distinct(QuestionOptions(correct, poolPicks, optionPicks))
    ensures correct in QuestionOptions(correct, poolPicks, optionPicks)
    ensures forall k :: 0 <= k < 8 ==> IsSymbol(QuestionOptions(correct, poolPicks, optionPicks)[k])
  {
    PoolSize(correct);
    var d := SampleDistinctSymbols(7, correct, poolPicks);
    var s := [correct] + d;
    ConsDistinct(correct, d);
    var r := FisherYates(s, optionPicks);
    FisherYatesPermutes(s, optionPicks);
    DistinctPermutation(s, r);
    assert correct in multiset(s);
    forall k | 0 <= k < |r|
      ensures IsSymbol(r[k])
    {
      assert r[k] in multiset(s);
      assert r[k] in s;
      if r[k] != correct {
        assert r[k] in d;
      }
    }
  }

  /** Draws the answer buttons of a symbol question: seven distinct distractors other than
      the answer, then the eight buttons shuffled. */
  method DrawOptions(correct: string, poolPicks: seq<nat>, optionPicks: seq<nat>) returns (opts: seq<string>)
    requires IsSymbol(correct) && QuestionPicksFit(poolPicks, optionPicks)
    ensures |opts| == 8 && Distinct(opts) && correct in opts
    ensures forall k :: 0 <= k < 8 ==> IsSymbol(opts[k])
  {
    PoolSize(correct);
    var distractors := SampleDistinctSymbols(7, correct, poolPicks);
    opts := Shuffle([correct] + distractors, optionPicks);
    QuestionOptionsValid(correct, poolPicks, optionPicks);
  }

  /** The record of a finished main session. */
  datatype MainResult = MainResult(
    mode: Mode,
    elapsedSec: real,
    wrongCount: nat,
    missedZs: seq<int>,
    isNewBest: bool,
    prevBestSec: Option<real>)

  /** The record of a finished review session. */
  datatype ReviewSummary = ReviewSummary(mode: Mode, wrongCount: nat, missedZs: seq<int>)

  datatype Finished = Finished(result: MainResult, store: Store)

  const MaxElapsedSec: real := 9999.0

  /** Finishing a main session at monotonic time `endMs`: the elapsed seconds since `startMs`
      (none when the clock never started, which counts as zero), clamped to [0, 9999],
      compared with the stored best of `mode`; the store is written, stamped `wallMs`, only
      for a new best. */
  function FinalizeMain(mode: Mode, startMs: Option<real>, endMs: real, wallMs: int,
                        wrongCount: nat, missed: seq<int>, store: Store): (f: Finished)
    ensures 0.0 <= f.result.elapsedSec <= MaxElapsedSec
    ensures startMs.None? ==> f.result.elapsedSec == 0.0
    ensures startMs.Some? && 0.0 <= endMs - startMs.value <= 1000.0 * MaxElapsedSec ==>
              f.result.elapsedSec == (endMs - startMs.value) / 1000.0
    ensures startMs.Some? && endMs - startMs.value > 1000.0 * MaxElapsedSec ==>
              f.result.elapsedSec == MaxElapsedSec
    ensures startMs.Some? && endMs - startMs.value < 0.0 ==> f.result.elapsedSec == 0.0
    ensures f.result.prevBestSec == if mode in store then Some(store[mode].sec) else None
    ensures f.result.isNewBest <==> mode !in store || f.result.elapsedSec < store[mode].sec
    ensures f.result.isNewBest ==> f.store == WriteBest(store, mode, f.result.elapsedSec, wallMs)
    ensures !f.result.isNewBest ==> f.store == store
    ensures f.result.mode == mode && f.result.wrongCount == wrongCount && f.result.missedZs == missed
  {
    var start := if startMs.None? then endMs else startMs.value;
    var safe := Clamp((endMs - start) / 1000.0, 0.0, MaxElapsedSec);
    var prev := ReadBest(store, mode);
    var prevSec := if prev.Some? then Some(prev.value.sec) else None;
    var isNewBest := prevSec.None? || safe < prevSec.value;
    Finished(MainResult(mode, safe, wrongCount, missed, isNewBest, prevSec),
             if isNewBest then WriteBest(store, mode, safe, wallMs) else store)
  }

  function Min(a: real, b: real): real {
    if a <= b then a else b
  }

  /** After a main session the stored best of its mode is the smaller of the previous best
      and this session's time, and no other mode's best moves: a best never gets worse. */
  lemma FinalizeKeepsMinimum(mode: Mode, startMs: Option<real>, endMs: real, wallMs: int,
                             wrongCount: nat, missed: seq<int>, store: Store)
    ensures var f := FinalizeMain(mode, startMs, endMs, wallMs, wrongCount, missed, store);
            ReadBest(f.store, mode).Some?
            && ReadBest(f.store, mode).value.sec ==
               (if mode in store then Min(store[mode].sec, f.result.elapsedSec) else f.result.elapsedSec)
            && forall other :: other != mode ==> ReadBest(f.store, other) == ReadBest(store, other)
  {
    var f := FinalizeMain(mode, startMs, endMs, wallMs, wrongCount, missed, store);
    if !f.result.isNewBest {
      assert mode in store && store[mode].sec <= f.result.elapsedSec;
    }
  }

  /** Three main sessions in one mode taking 80, 65 and 70 seconds: the first two set a new
      best, the third does not, and 65 seconds stays stored. */
  lemma ThreeSessionsScenario(mode: Mode, store: Store)
    requires mode !in store
    ensures var f1 := FinalizeMain(mode, Some(0.0), 80000.0, 1, 0, [], store);
            var f2 := FinalizeMain(mode, Some(0.0), 65000.0, 2, 0, [], f1.store);
            var f3 := FinalizeMain(mode, Some(0.0), 70000.0, 3, 0, [], f2.store);
            f1.result.isNewBest && f2.result.isNewBest && !f3.result.isNewBest
            && f3.result.prevBestSec == Some(65.0)
            && ReadBest(f3.store, mode) == Some(BestRecord(65.0, Some(2)))
  {
    var f1 := FinalizeMain(mode, Some(0.0), 80000.0, 1, 0, [], store);
    assert f1.result.elapsedSec == 80.0;
    var f2 := FinalizeMain(mode, Some(0.0), 65000.0, 2, 0, [], f1.store);
    assert f2.result.elapsedSec == 65.0;
    var f3 := FinalizeMain(mode, Some(0.0), 70000.0, 3, 0, [], f2.store);
    assert f3.result.elapsedSec == 70.0;
  }
}
