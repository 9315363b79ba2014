/** pages/MatchResults: the list of results, newest first, with a votes switch and a search. */
module MatchResults {
  import opened JsValues
  import opened Text
  import opened Records
  import opened Ordering
  import MatchPhaseBadge
  import PublicMatches

  /** `(m.totalVotes ?? 0) > 0` */
  predicate HasVotes(m: MatchSummary) {
    (if m.totalVotes.Some? then m.totalVotes.value else 0) > 0
  }

  /** The search over the title, the winner, and the word "pareggio" for a draw. */
  predicate SearchMatches(m: MatchSummary, q: string) {
    Includes(Lower(if m.debateTitle.Some? then m.debateTitle.value else ""), q)
    || Includes(Lower(if m.winnerUsername.Some? then m.winnerUsername.value else ""), q)
    || Includes(if m.isDraw then "pareggio" else "", q)
  }

  predicate Passes(m: MatchSummary, onlyWithVotes: bool, q: string) {
    (!onlyWithVotes || HasVotes(m)) && (q == "" || SearchMatches(m, q))
  }

  /** Newest first. */
  function RecencyKey(m: MatchSummary): Key {
    Key(-CreatedTime(m), 0)
  }

  /** The comparator `db - da` orders as the key does. */
  lemma CompareAgreesWithKey(a: MatchSummary, b: MatchSummary)
    ensures CreatedTime(b) - CreatedTime(a) <= 0 <==> KeyLe(RecencyKey(a), RecencyKey(b))
  {
  }

  /** `filtered`: a copy sorted newest first, then the votes filter, then the search. */
  function Filtered(items: seq<MatchSummary>, onlyWithVotes: bool, q: string): (r: seq<MatchSummary>)
    ensures forall x :: multiset(r)[x] == if Passes(x, onlyWithVotes, PublicMatches.NormalizeQuery(q)) then multiset(items)[x] else 0
  {
    var query := PublicMatches.NormalizeQuery(q);
    var sorted := SortBy(items, RecencyKey);
    var voted := if onlyWithVotes then Filter(sorted, HasVotes) else sorted;
    if query != "" then Filter(voted, m => SearchMatches(m, query)) else voted
  }

  /** The filters keep the recency order, keep only what passes, and add nothing. */
  lemma {:induction false} FilteredProperties(items: seq<MatchSummary>, onlyWithVotes: bool, q: string)
    ensures var r := Filtered(items, onlyWithVotes, q);
      SortedBy(r, RecencyKey) && multiset(r) <= multiset(items) &&
      forall i :: 0 <= i < |r| ==> Passes(r[i], onlyWithVotes, PublicMatches.NormalizeQuery(q))
  {
    var query := PublicMatches.NormalizeQuery(q);
    var sorted := SortBy(items, RecencyKey);
    var voted := if onlyWithVotes then Filter(sorted, HasVotes) else sorted;
    if onlyWithVotes { FilterKeepsSorted(sorted, HasVotes, RecencyKey); }
    if query != "" { FilterKeepsSorted(voted, m => SearchMatches(m, query), RecencyKey); }
    var r := Filtered(items, onlyWithVotes, q);
    forall i | 0 <= i < |r| ensures Passes(r[i], onlyWithVotes, query) {
      assert multiset(r)[r[i]] > 0;
    }
  }

  /** A draw is found by searching for the word "pareggio". */
  lemma DrawFoundByPareggio(m: MatchSummary)
    requires m.isDraw
    ensures SearchMatches(m, "pareggio")
  {
    assert OccursAt("pareggio", "pareggio", 0);
  }

  /** The outcome shown for a result: a draw, the winner, or a dash. */
  function WinnerLabel(m: MatchSummary): (r: string)
    ensures m.isDraw ==> r == "Pareggio"
    ensures !m.isDraw && m.winnerUsername.Some? ==> r == m.winnerUsername.value
    ensures !m.isDraw && m.winnerUsername.None? ==> r == "—"
  {
    if m.isDraw then "Pareggio" else if m.winnerUsername.Some? then m.winnerUsername.value else "—"
  }

  /** The vote count shown: missing as 0. */
  function VotesShown(m: MatchSummary): (v: int)
    ensures m.totalVotes.None? ==> v == 0
    ensures m.totalVotes.Some? ==> v == m.totalVotes.value
  {
    if m.totalVotes.Some? then m.totalVotes.value else 0
  }

  /** The badge for a result: a missing phase is shown as Closed. */
  function ResultBadge(m: MatchSummary): (b: MatchPhaseBadge.Badge)
    ensures m.phase.None? ==> b == MatchPhaseBadge.Badge("Closed", "bg-dark")
    ensures m.phase.Some? ==> b == MatchPhaseBadge.PhaseBadge(Num(m.phase.value))
  {
    MatchPhaseBadge.PhaseBadge(Num(if m.phase.Some? then m.phase.value else 4))
  }
}
