/**
 * The in-place Fisher-Yates shuffle `shuffleArray` (script.js:111-119).
 *
 * The random index `Math.floor(Math.random() * (i + 1))` is replaced by an
 * injected sequence `draws`: `draws[k]` is the index picked at the k-th pass
 * of the loop, the pass with `i == n - 1 - k`, and must lie in `[0, i]`.
 */
module Shuffle {

  /** `draws` supplies an index in `[0, i]` for every pass `i = n - 1, ..., 1`. */
  predicate ValidDraws(draws: seq<nat>, n: nat) {
    |draws| >= n - 1 && forall k :: 0 <= k < n - 1 ==> draws[k] <= n - 1 - k
  }

  /** Exchanges the elements at `i` and `j`. */
  function Swap<T>(s: seq<T>, i: nat, j: nat): (r: seq<T>)
    requires i < |s| && j < |s|
    ensures |r| == |s|
  {
    seq(|s|, x requires 0 <= x < |s| => if x == i then s[j] else if x == j then s[i] else s[x])
  }

  lemma SwapPermutes<T>(s: seq<T>, i: nat, j: nat)
    requires i < |s| && j < |s|
    ensures multiset(Swap(s, i, j)) == multiset(s)
  {
    assert Swap(s, i, j) == s[i := s[j]][j := s[i]];
  }

  /** The sequence after the first `k` passes of the loop. */
  function ShuffleSteps<T>(s: seq<T>, draws: seq<nat>, k: nat): (r: seq<T>)
    requires ValidDraws(draws, |s|)
    requires k == 0 || k < |s|
    ensures |r| == |s|
  {
    if k == 0 then s
    else Swap(ShuffleSteps(s, draws, k - 1), |s| - k, draws[k - 1])
  }

  /** Every pass only exchanges two elements, so the contents are kept. */
  lemma {:induction false} ShuffleStepsPermutes<T>(s: seq<T>, draws: seq<nat>, k: nat)
    requires ValidDraws(draws, |s|)
    requires k == 0 || k < |s|
    ensures multiset(ShuffleSteps(s, draws, k)) == multiset(s)
  {
    if k > 0 {
      var prev := ShuffleSteps(s, draws, k - 1);
      var next := Swap(prev, |s| - k, draws[k - 1]);
      assert ShuffleSteps(s, draws, k) == next;
      SwapPermutes(prev, |s| - k, draws[k - 1]);
      ShuffleStepsPermutes(s, draws, k - 1);
    }
  }

  /** The sequence after the whole loop, which makes `|s| - 1` passes. */
  function Shuffled<T>(s: seq<T>, draws: seq<nat>): (r: seq<T>)
    requires ValidDraws(draws, |s|)
    ensures |r| == |s|
    ensures |s| <= 1 ==> r == s
  {
    ShuffleSteps(s, draws, if |s| == 0 then 0 else |s| - 1)
  }

  /** Whatever the draws, the shuffle is a permutation. */
  lemma ShuffledPermutes<T>(s: seq<T>, draws: seq<nat>)
    requires ValidDraws(draws, |s|)
    ensures multiset(Shuffled(s, draws)) == multiset(s)
  {
    ShuffleStepsPermutes(s, draws, if |s| == 0 then 0 else |s| - 1);
  }

  /** Pass `k` exchanges the element at `|s| - 1 - k` with the one at `draws[k]`. */
  lemma ShuffleStep<T>(s: seq<T>, draws: seq<nat>, k: nat)
    requires ValidDraws(draws, |s|)
    requires k + 1 < |s|
    ensures ShuffleSteps(s, draws, k + 1) == Swap(ShuffleSteps(s, draws, k), |s| - 1 - k, draws[k])
  {
  }

  /** Shuffles `a` in place, for i from the last index down to 1 swapping a[i] with a[j]. */
  method ShuffleArray<T>(a: array<T>, draws: seq<nat>)
    requires ValidDraws(draws, a.Length)
    modifies a
    ensures a[..] == Shuffled(old(a[..]), draws)
    ensures multiset(a[..]) == multiset(old(a[..]))
  {
    ghost var s := a[..];
    ghost var k := 0;
    var i := a.Length - 1;
    while i > 0
      invariant i == a.Length - 1 - k && (k == 0 || k < a.Length)
      invariant a[..] == ShuffleSteps(s, draws, k)
    {
      var j := draws[a.Length - 1 - i];
      Exchange(a, i, j);
      assert i == |s| - 1 - k && j == draws[k];
      ShuffleStep(s, draws, k);
      i := i - 1;
      k := k + 1;
    }
    assert k == if a.Length == 0 then 0 else a.Length - 1;
    assert a[..] == Shuffled(s, draws);
    ShuffledPermutes(s, draws);
  }

  /** `[array[i], array[j]] = [array[j], array[i]]`. */
  method Exchange<T>(a: array<T>, i: nat, j: nat)
    requires i < a.Length && j < a.Length
    modifies a
    ensures a[..] == Swap(old(a[..]), i, j)
  {
    ghost var before := a[..];
    a[i], a[j] := a[j], a[i];
    assert a[..] == Swap(before, i, j);
  }
}
