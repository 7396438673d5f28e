/** The Fisher-Yates `shuffle`. `Math.floor(Math.random() * (i + 1))` is an oracle:
    the caller supplies, step by step, the index each swap uses. */
module Random {

  /** `picks` can drive a shuffle of `n` values: the k-th step (index `i = n - 1 - k`)
      swaps with a position in [0, i], as the floor of `random() * (i + 1)` always is. */
  predicate PicksFit(picks: seq<nat>, n: int) {
    |picks| >= n - 1 && forall k :: 0 <= k < n - 1 ==> picks[k] <= n - 1 - k
  }

  /** The sequence with positions `i` and `j` exchanged. */
  function Swap<T>(s: seq<T>, i: nat, j: nat): (r: seq<T>)
    requires i < |s| && j < |s|
    ensures |r| == |s| && r[i] == s[j] && r[j] == s[i]
  {
    s[i := s[j]][j := s[i]]
  }

  /** The index step `k` swaps with index `i`: the pick, or `i` itself for a pick above it. */
  function PickFor(picks: seq<nat>, k: nat, i: nat): (j: nat)
    requires k < |picks|
    ensures j <= i
  {
    if picks[k] <= i then picks[k] else i
  }

  /** The sequence after the first `m` steps of the descending loop: step `k` swaps
      index `|s| - 1 - k` with `picks[k]`. (A pick above the index, which `PicksFit`
      rules out, would be read as the index itself.) */
  function ShuffleSteps<T>(s: seq<T>, picks: seq<nat>, m: nat): (r: seq<T>)
    requires (m == 0 || m < |s|) && |picks| >= m
    ensures |r| == |s|
    decreases m
  {
    if m == 0 then s
    else
      var i := |s| - m;
      Swap(ShuffleSteps(s, picks, m - 1), i, PickFor(picks, m - 1, i))
  }

  /** What `shuffle` returns: the sequence after all `|s| - 1` steps. */
  function FisherYates<T>(s: seq<T>, picks: seq<nat>): (r: seq<T>)
    requires |picks| >= |s| - 1
  {
    ShuffleSteps(s, picks, if |s| == 0 then 0 else |s| - 1)
  }

  /** A swap leaves every position other than the two exchanged ones as it was. */
  lemma SwapKeepsOthers<T>(s: seq<T>, i: nat, j: nat)
    requires i < |s| && j < |s|
    ensures forall k :: 0 <= k < |s| && k != i && k != j ==> Swap(s, i, j)[k] == s[k]
  {
  }

  /** A swap only reorders. */
  lemma SwapPermutes<T>(s: seq<T>, i: nat, j: nat)
    requires i < |s| && j < |s|
    ensures multiset(Swap(s, i, j)) == multiset(s)
  {
  }

  /** Every prefix of the loop only reorders. */
  lemma {:induction false} ShuffleStepsPermute<T>(s: seq<T>, picks: seq<nat>, m: nat)
    requires (m == 0 || m < |s|) && |picks| >= m
    ensures multiset(ShuffleSteps(s, picks, m)) == multiset(s)
    decreases m
  {
    if m > 0 {
      var i := |s| - m;
      var j := PickFor(picks, m - 1, i);
      var prev := ShuffleSteps(s, picks, m - 1);
      var next := ShuffleSteps(s, picks, m);
      assert multiset(next) == multiset(prev) by {
        assert next == Swap(prev, i, j);
        SwapPermutes(prev, i, j);
      }
      ShuffleStepsPermute(s, picks, m - 1);
      assert multiset(next) == multiset(s);
    }
  }

  /** The shuffle loses and duplicates nothing: the result is a permutation. */
  lemma FisherYatesPermutes<T>(s: seq<T>, picks: seq<nat>)
    requires |picks| >= |s| - 1
    ensures |FisherYates(s, picks)| == |s|
    ensures multiset(FisherYates(s, picks)) == multiset(s)
  {
    ShuffleStepsPermute(s, picks, if |s| == 0 then 0 else |s| - 1);
  }

  /** `shuffle(array)`: copies the input (`array.slice()`), then for `i` from the last
      index down to 1 swaps `a[i]` with `a[j]`. The argument is a value and is left as
      it was. */
  method Shuffle<T>(input: seq<T>, picks: seq<nat>) returns (r: seq<T>)
    requires PicksFit(picks, |input|)
    ensures r == FisherYates(input, picks)
  {
    var a := new T[|input|](k requires 0 <= k < |input| => input[k]);
    var n := a.Length;
    var i := n - 1;
    assert a[..] == input;
    while i > 0
      invariant -1 <= i < n && (n > 0 ==> i >= 0)
      invariant a[..] == ShuffleSteps(input, picks, n - 1 - i)
    {
      var j := picks[n - 1 - i];
      ghost var before := a[..];
      a[i], a[j] := a[j], a[i];
      assert a[..] == Swap(before, i, j);
      assert PickFor(picks, n - 1 - i, i) == j;
      assert ShuffleSteps(input, picks, n - i) == Swap(before, i, j);
      i := i - 1;
    }
    r := a[..];
  }
}
