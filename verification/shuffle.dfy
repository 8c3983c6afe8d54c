/**
 The answer shuffle of the quiz: a Fisher–Yates pass that walks the positions
 from the last one down to 1 and swaps position `i` with a position `j` drawn
 from `0..i`. The draws are supplied by the caller, so the shuffle is a pure
 function of the input and the draws.
 */
module FisherYates {

  /** `js` is a legal set of draws for shuffling `n` elements: `js[i]` is the
      partner of position `i`, at most `i`. The pass never reads `js[0]`. */
  predicate ValidSwaps(js: seq<int>, n: nat) {
    && |js| == n
    && forall i :: 0 < i < n ==> 0 <= js[i] <= i
  }

  /** Exchanges the elements at positions `i` and `j`. */
  function Swap<T>(a: seq<T>, i: nat, j: nat): (r: seq<T>)
    requires i < |a| && j < |a|
    ensures |r| == |a|
    ensures r[i] == a[j] && r[j] == a[i]
  {
    a[i := a[j]][j := a[i]]
  }

  /** An exchange leaves every other position alone. */
  lemma SwapKeepsOthers<T>(a: seq<T>, i: nat, j: nat, k: nat)
    requires i < |a| && j < |a| && k < |a| && k != i && k != j
    ensures Swap(a, i, j)[k] == a[k]
  {
  }

  /** An exchange keeps the multiset of elements. */
  lemma SwapPermutes<T>(a: seq<T>, i: nat, j: nat)
    requires i < |a| && j < |a|
    ensures multiset(Swap(a, i, j)) == multiset(a)
  {
  }

  /** The remaining iterations of the pass, for positions `i` down to 1. */
  function ShuffleDown<T>(a: seq<T>, js: seq<int>, i: nat): (r: seq<T>)
    requires ValidSwaps(js, |a|) && i < |a|
    ensures |r| == |a|
    decreases i
  {
    if i == 0 then a else ShuffleDown(Swap(a, i, js[i]), js, i - 1)
  }

  /** The remaining swaps of the pass keep the multiset of elements. */
  lemma {:induction false} ShuffleDownPermutes<T>(a: seq<T>, js: seq<int>, i: nat)
    requires ValidSwaps(js, |a|) && i < |a|
    ensures multiset(ShuffleDown(a, js, i)) == multiset(a)
    decreases i
  {
    if i > 0 {
      SwapPermutes(a, i, js[i]);
      ShuffleDownPermutes(Swap(a, i, js[i]), js, i - 1);
    }
  }

  /** The whole pass over `a`. */
  function Shuffle<T>(a: seq<T>, js: seq<int>): (r: seq<T>)
    requires ValidSwaps(js, |a|)
    ensures |r| == |a|
    ensures multiset(r) == multiset(a)
  {
    if |a| == 0 then a
    else
      ShuffleDownPermutes(a, js, |a| - 1);
      ShuffleDown(a, js, |a| - 1)
  }

  /** The in-place loop of `shuffleArray`, over a sequence value. */
  method ShuffleArray<T>(a: seq<T>, js: seq<int>) returns (r: seq<T>)
    requires ValidSwaps(js, |a|)
    ensures r == Shuffle(a, js)
    ensures multiset(r) == multiset(a)
  {
    r := a;
    if |a| == 0 {
      return;
    }
    var i := |a| - 1;
    while i > 0
      invariant 0 <= i < |a|
      invariant |r| == |a|
      invariant ShuffleDown(r, js, i) == Shuffle(a, js)
      decreases i
    {
      r := Swap(r, i, js[i]);
      i := i - 1;
    }
  }

  /** Positions above the cursor `i` are settled: later steps never touch them. */
  lemma {:induction false} ShuffleDownKeepsSettled<T>(a: seq<T>, js: seq<int>, i: nat, k: nat)
    requires ValidSwaps(js, |a|) && i < k < |a|
    ensures ShuffleDown(a, js, i)[k] == a[k]
    decreases i
  {
    if i > 0 {
      ShuffleDownKeepsSettled(Swap(a, i, js[i]), js, i - 1, k);
    }
  }

  /** The first step decides the last position: it ends up holding the
      element the first draw picked. */
  lemma LastPositionIsFirstDraw<T>(a: seq<T>, js: seq<int>)
    requires ValidSwaps(js, |a|) && |a| > 1
    ensures Shuffle(a, js)[|a| - 1] == a[js[|a| - 1]]
  {
    var n := |a|;
    var b := Swap(a, n - 1, js[n - 1]);
    ShuffleDownKeepsSettled(b, js, n - 2, n - 1);
  }

  /** Swapping a position with itself changes nothing. */
  lemma SelfSwap<T>(a: seq<T>, i: nat)
    requires i < |a|
    ensures Swap(a, i, i) == a
  {
    assert forall k :: 0 <= k < |a| ==> Swap(a, i, i)[k] == a[k];
  }

  /** One step whose draw is the position itself can be skipped. */
  lemma SelfSwapStep<T>(a: seq<T>, js: seq<int>, i: nat)
    requires ValidSwaps(js, |a|) && 0 < i < |a| && js[i] == i
    ensures ShuffleDown(a, js, i) == ShuffleDown(a, js, i - 1)
  {
    SelfSwap(a, i);
  }

  /** Steps whose draw is the position itself change nothing. */
  lemma {:induction false} SelfSwapsKeep<T>(a: seq<T>, js: seq<int>, i: nat)
    requires ValidSwaps(js, |a|) && i < |a|
    requires forall k :: 0 < k <= i ==> js[k] == k
    ensures ShuffleDown(a, js, i) == a
    decreases i
  {
    if i > 0 {
      SelfSwapStep(a, js, i);
      SelfSwapsKeep(a, js, i - 1);
    }
  }

  /** Self-swaps above position `m` can be skipped. */
  lemma {:induction false} SkipSelfSwaps<T>(a: seq<T>, js: seq<int>, i: nat, m: nat)
    requires ValidSwaps(js, |a|) && m <= i < |a|
    requires forall k :: m < k <= i ==> js[k] == k
    ensures ShuffleDown(a, js, i) == ShuffleDown(a, js, m)
    decreases i
  {
    if i > m {
      SelfSwapStep(a, js, i);
      SkipSelfSwaps(a, js, i - 1, m);
    }
  }

  /** Draws that are self-swaps except at position `m`, which swaps with `lo`. */
  function SingleSwap(n: nat, m: nat, lo: nat): (js: seq<int>)
    requires lo <= m < n
    ensures ValidSwaps(js, n)
    ensures js[m] == lo
    ensures forall k :: 0 <= k < n && k != m ==> js[k] == k
  {
    seq(n, k requires 0 <= k < n => if k == m then lo else k)
  }

  /** With `SingleSwap` draws the steps from `m` down are one exchange of `m` and `lo`. */
  lemma SingleSwapFrom<T>(a: seq<T>, m: nat, lo: nat)
    requires lo <= m < |a|
    ensures ShuffleDown(a, SingleSwap(|a|, m, lo), m) == Swap(a, m, lo)
  {
    var js := SingleSwap(|a|, m, lo);
    if m == 0 {
      SelfSwap(a, 0);
    } else {
      SelfSwapsKeep(Swap(a, m, lo), js, m - 1);
    }
  }

  /** With `SingleSwap` draws the shuffle is exactly one exchange of `m` and `lo`. */
  lemma SingleSwapShuffle<T>(a: seq<T>, m: nat, lo: nat)
    requires lo <= m < |a|
    ensures Shuffle(a, SingleSwap(|a|, m, lo)) == Swap(a, m, lo)
  {
    var js := SingleSwap(|a|, m, lo);
    SkipSelfSwaps(a, js, |a| - 1, m);
    SingleSwapFrom(a, m, lo);
  }

  /** Every element can end at every position: for any source index `e` and
      target position `p` some legal draws move `a[e]` to `p`. */
  lemma EveryPositionReachable<T>(a: seq<T>, e: nat, p: nat)
    requires e < |a| && p < |a|
    ensures exists js :: ValidSwaps(js, |a|) && Shuffle(a, js)[p] == a[e]
  {
    var m := if p < e then e else p;
    var lo := if p < e then p else e;
    var js := SingleSwap(|a|, m, lo);
    SingleSwapShuffle(a, m, lo);
    assert Shuffle(a, js)[p] == a[e];
  }
}
