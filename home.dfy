/** pages/Home: a few random results, the first votable matches, and the outcome labels. */
module Home {
  import opened JsValues
  import opened Records
  import opened Ordering
  import MatchResults

  /** `s` with positions `i` and `j` exchanged. */
  function Swap<T>(s: seq<T>, i: nat, j: nat): (r: seq<T>)
    requires i < |s| && j < |s|
    ensures |r| == |s| && r[i] == s[j] && r[j] == s[i]
    ensures forall k :: 0 <= k < |s| && k != i && k != j ==> r[k] == s[k]
  {
    s[i := s[j]][j := s[i]]
  }

  lemma SwapPermutes<T>(s: seq<T>, i: nat, j: nat)
    requires i < |s| && j < |s|
    ensures multiset(Swap(s, i, j)) == multiset(s)
  {
    var t := s[i := s[j]];
    assert multiset(t) == multiset(s) - multiset{s[i]} + multiset{s[j]};
    assert multiset(t[j := s[i]]) == multiset(t) - multiset{t[j]} + multiset{s[i]};
  }

  /** The steps of the shuffle from position `i` down to 1: position `i` is exchanged with
      `choice(i)`, then the loop goes on below it. */
  function ShuffleFrom<T>(s: seq<T>, i: int, choice: nat -> nat): (r: seq<T>)
    requires i < |s|
    requires forall k :: 0 <= k ==> choice(k) <= k
    ensures |r| == |s|
    decreases i
  {
    if i <= 0 then s else ShuffleFrom(Swap(s, i, choice(i)), i - 1, choice)
  }

  /** The shuffle only reorders: every element stays, as often as it was there. */
  lemma {:induction false} ShufflePermutes<T>(s: seq<T>, i: int, choice: nat -> nat)
    requires i < |s|
    requires forall k :: 0 <= k ==> choice(k) <= k
    ensures multiset(ShuffleFrom(s, i, choice)) == multiset(s)
    decreases i
  {
    if i > 0 {
      SwapPermutes(s, i, choice(i));
      ShufflePermutes(Swap(s, i, choice(i)), i - 1, choice);
    }
  }

  /** `pickRandom(items, n)`: shuffle a copy in place (Fisher–Yates, from the last position
      down, each position exchanged with one at or below it; `choice(i)` stands for
      `Math.floor(Math.random() * (i + 1))`) and keep the first `n`. */
  method PickRandom<T>(items: seq<T>, n: nat, choice: nat -> nat) returns (r: seq<T>)
    requires forall k :: 0 <= k ==> choice(k) <= k
    ensures r == Take(ShuffleFrom(items, |items| - 1, choice), n)
    ensures |r| == if n < |items| then n else |items|
    ensures multiset(r) <= multiset(items)
  {
    var arr := new T[|items|](k requires 0 <= k < |items| => items[k]);
    assert arr[..] == items;
    var i := arr.Length - 1;
    while i > 0
      invariant -1 <= i < |items| && arr.Length == |items|
      invariant ShuffleFrom(arr[..], i, choice) == ShuffleFrom(items, |items| - 1, choice)
      decreases i
    {
      var j := choice(i);
      arr[i], arr[j] := arr[j], arr[i];
      i := i - 1;
    }
    r := Take(arr[..], n);
    ShufflePermutes(items, |items| - 1, choice);
    assert multiset(r) <= multiset(arr[..]) by {
      assert arr[..] == r + arr[..][|r|..];
    }
  }

  /** `topVotables`: the first six votable matches, in their order. */
  function TopVotables(votables: seq<MatchSummary>): (r: seq<MatchSummary>)
    ensures |r| == if |votables| < 6 then |votables| else 6
    ensures forall i :: 0 <= i < |r| ==> r[i] == votables[i]
  {
    Take(votables, 6)
  }

  /** The featured results: four picked from the results. */
  method FeaturedResults(results: Option<seq<MatchSummary>>, choice: nat -> nat) returns (r: seq<MatchSummary>)
    requires forall k :: 0 <= k ==> choice(k) <= k
    ensures |r| <= 4 && multiset(r) <= multiset(ArrayOrEmpty(results))
    ensures results.None? ==> r == []
  {
    r := PickRandom(ArrayOrEmpty(results), 4, choice);
  }

  /** The outcome shown on a featured card: the draw label, else the winner or a dash. */
  function FeaturedLabel(m: MatchSummary): (r: string)
    ensures m.isDraw ==> r == "Pareggio"
    ensures !m.isDraw && m.winnerUsername.Some? ==> r == m.winnerUsername.value
    ensures !m.isDraw && m.winnerUsername.None? ==> r == "—"
  {
    if m.isDraw then "Pareggio"
    else match m.winnerUsername
      case Some(w) => w
      case None => "—"
  }

  /** A featured card and the results page label every match the same way. */
  lemma FeaturedLabelAgreesWithResults(m: MatchSummary)
    ensures FeaturedLabel(m) == MatchResults.WinnerLabel(m)
  {
  }
}
