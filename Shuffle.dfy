/** The Fisher–Yates shuffle that chooses the lanes of a spawned row. */
module Shuffle {

  /** The lane indices before shuffling. */
  const Unshuffled: seq<int> := [0, 1, 2, 3, 4]

  /**
   * The random indices the shuffle draws, in the order it draws them:
   * the loop runs i = 4, 3, 2, 1 and draws choices[4 - i], an index in 0..i.
   */
  predicate ValidChoices(choices: seq<int>) {
    && |choices| == |Unshuffled| - 1
    && forall k :: 0 <= k < |choices| ==> 0 <= choices[k] <= |Unshuffled| - 1 - k
  }

  predicate Distinct(s: seq<int>) {
    forall p, q :: 0 <= p < q < |s| ==> s[p] != s[q]
  }

  /** `s` holds each lane index exactly once. */
  predicate IsLaneOrder(s: seq<int>) {
    && |s| == |Unshuffled|
    && multiset(s) == multiset(Unshuffled)
    && Distinct(s)
    && forall k :: 0 <= k < |s| ==> 0 <= s[k] < |Unshuffled|
  }

  /** `s` with the entries at `i` and `j` exchanged. */
  function Swap(s: seq<int>, i: nat, j: nat): seq<int>
    requires i < |s| && j < |s|
  {
    s[i := s[j]][j := s[i]]
  }

  /**
   * The lane indices after the first `n` steps of the shuffle. Step n (counting from 1)
   * is the one for loop index i = 5 - n: it exchanges position i with choices[n - 1].
   */
  function ShuffledPrefix(choices: seq<int>, n: nat): (s: seq<int>)
    requires ValidChoices(choices) && n <= |choices|
    ensures |s| == |Unshuffled|
  {
    if n == 0 then Unshuffled
    else Swap(ShuffledPrefix(choices, n - 1), |choices| - (n - 1), choices[n - 1])
  }

  /** The whole shuffle of the lane indices under the given draws. */
  function FisherYates(choices: seq<int>): seq<int>
    requires ValidChoices(choices)
  {
    ShuffledPrefix(choices, |choices|)
  }

  /** Exchanging two entries keeps the multiset of entries. */
  lemma SwapKeepsMultiset(s: seq<int>, i: nat, j: nat)
    requires i < |s| && j < |s|
    ensures |Swap(s, i, j)| == |s|
    ensures multiset(Swap(s, i, j)) == multiset(s)
  {
    var u := s[i := s[j]];
    assert multiset(u) == multiset(s) - multiset{s[i]} + multiset{s[j]};
    assert multiset(u[j := s[i]]) == multiset(u) - multiset{u[j]} + multiset{s[i]};
  }

  /** Exchanging two entries keeps distinct entries distinct. */
  lemma SwapKeepsDistinct(s: seq<int>, i: nat, j: nat)
    requires i < |s| && j < |s|
    requires Distinct(s)
    ensures Distinct(Swap(s, i, j))
  {
    var t := Swap(s, i, j);
    forall p, q | 0 <= p < q < |t| ensures t[p] != t[q] {
      var p' := if p == i then j else if p == j then i else p;
      var q' := if q == i then j else if q == j then i else q;
      assert t[p] == s[p'] && t[q] == s[q'] && p' != q';
    }
  }

  /** One step of the shuffle keeps the multiset of entries. */
  lemma ShuffleStepKeepsMultiset(choices: seq<int>, n: nat)
    requires ValidChoices(choices) && 0 < n <= |choices|
    ensures multiset(ShuffledPrefix(choices, n)) == multiset(ShuffledPrefix(choices, n - 1))
  {
    var s := ShuffledPrefix(choices, n - 1);
    var i, j := |choices| - (n - 1), choices[n - 1];
    assert ShuffledPrefix(choices, n) == Swap(s, i, j);
    SwapKeepsMultiset(s, i, j);
  }

  /** Every prefix of the shuffle has the multiset of the unshuffled lane indices. */
  lemma {:induction false} ShuffledPrefixPermutes(choices: seq<int>, n: nat)
    requires ValidChoices(choices) && n <= |choices|
    ensures multiset(ShuffledPrefix(choices, n)) == multiset(Unshuffled)
  {
    if n > 0 {
      ShuffledPrefixPermutes(choices, n - 1);
      ShuffleStepKeepsMultiset(choices, n);
    }
  }

  /** Every prefix of the shuffle has pairwise distinct entries. */
  lemma {:induction false} ShuffledPrefixDistinct(choices: seq<int>, n: nat)
    requires ValidChoices(choices) && n <= |choices|
    ensures Distinct(ShuffledPrefix(choices, n))
  {
    if n == 0 {
      UnshuffledIsDistinct();
    } else {
      var s := ShuffledPrefix(choices, n - 1);
      var i, j := |choices| - (n - 1), choices[n - 1];
      assert ShuffledPrefix(choices, n) == Swap(s, i, j);
      ShuffledPrefixDistinct(choices, n - 1);
      SwapKeepsDistinct(s, i, j);
    }
  }

  lemma UnshuffledIsDistinct()
    ensures Distinct(Unshuffled)
  {
  }

  /** A sequence with the multiset of the lane indices holds only lane indices. */
  lemma LanesOfPermutation(r: seq<int>)
    requires multiset(r) == multiset(Unshuffled)
    ensures forall k :: 0 <= k < |r| ==> 0 <= r[k] < |Unshuffled|
  {
    forall k | 0 <= k < |r| ensures 0 <= r[k] < |Unshuffled| {
      assert r[k] in multiset(r);
      assert r[k] in Unshuffled;
    }
  }

  /**
   * Whatever the draws, the shuffle yields the five lane indices, each exactly once:
   * a permutation of 0..4 whose entries are pairwise distinct lanes.
   */
  lemma FisherYatesIsPermutation(choices: seq<int>)
    requires ValidChoices(choices)
    ensures IsLaneOrder(FisherYates(choices))
  {
    ShuffledPrefixPermutes(choices, |choices|);
    ShuffledPrefixDistinct(choices, |choices|);
    LanesOfPermutation(FisherYates(choices));
  }

  /** Exchanges two entries of an array in place. */
  method SwapInPlace(a: array<int>, i: nat, j: nat)
    requires i < a.Length && j < a.Length
    modifies a
    ensures a[..] == Swap(old(a[..]), i, j)
  {
    var t := a[i];
    a[i] := a[j];
    a[j] := t;
  }

  /**
   * The shuffle loop: exchanges the entries of `a` in place from the last position
   * down to the second, position i with the drawn position choices[4 - i].
   */
  method ShuffleInPlace(a: array<int>, choices: seq<int>)
    requires ValidChoices(choices) && a[..] == Unshuffled
    modifies a
    ensures a[..] == FisherYates(choices)
  {
    var i := a.Length - 1;
    while i > 0
      invariant 0 <= i < a.Length
      invariant a[..] == ShuffledPrefix(choices, |choices| - i)
    {
      SwapInPlace(a, i, choices[a.Length - 1 - i]);
      i := i - 1;
    }
  }

  /**
   * The lanes of a row as the game chooses them: a fresh array of the lane indices,
   * shuffled in place. The result holds every lane exactly once.
   */
  method ShuffleLanes(choices: seq<int>) returns (lanes: seq<int>)
    requires ValidChoices(choices)
    ensures lanes == FisherYates(choices)
    ensures IsLaneOrder(lanes)
  {
    var a := new int[5];
    a[0], a[1], a[2], a[3], a[4] := 0, 1, 2, 3, 4;
    assert a[..] == Unshuffled;
    ShuffleInPlace(a, choices);
    lanes := a[..];
    FisherYatesIsPermutation(choices);
  }
}
