/** pages/PublicMatches: the public list of matches, filtered and with voting ones first. */
module PublicMatches {
  import opened JsValues
  import opened Text
  import opened Records
  import opened Ordering

  /** `query.trim().toLowerCase()` */
  function NormalizeQuery(query: string): string {
    Lower(Trim(query))
  }

  /** `(m.phase ?? 0) === 3` */
  predicate IsVoting(m: MatchSummary) {
    (if m.phase.Some? then m.phase.value else 0) == 3
  }

  /** `String(m.debateTitle ?? "").toLowerCase().includes(q)` */
  predicate TitleMatches(m: MatchSummary, q: string) {
    Includes(Lower(if m.debateTitle.Some? then m.debateTitle.value else ""), q)
  }

  /** What a match must pass to be listed. */
  predicate Passes(m: MatchSummary, onlyVoting: bool, q: string) {
    (!onlyVoting || IsVoting(m)) && (q == "" || TitleMatches(m, q))
  }

  /** The comparator: voting matches before the others, then newest first. */
  function Compare(a: MatchSummary, b: MatchSummary): int {
    if IsVoting(a) != IsVoting(b) then (if IsVoting(a) then -1 else 1)
    else CreatedTime(b) - CreatedTime(a)
  }

  function SortKey(m: MatchSummary): Key {
    Key(if IsVoting(m) then 0 else 1, -CreatedTime(m))
  }

  lemma CompareAgreesWithKey(a: MatchSummary, b: MatchSummary)
    ensures Compare(a, b) <= 0 <==> KeyLe(SortKey(a), SortKey(b))
    ensures Compare(a, b) == 0 <==> SortKey(a) == SortKey(b)
  {
  }

  /** `view`: filter a copy by the voting switch and the query, then sort it. Exactly the
      matches that pass are kept, as often as they occur; the state list is not touched. */
  function View(matches: seq<MatchSummary>, onlyVoting: bool, query: string): (r: seq<MatchSummary>)
    ensures SortedBy(r, SortKey)
    ensures forall x :: multiset(r)[x] == if Passes(x, onlyVoting, NormalizeQuery(query)) then multiset(matches)[x] else 0
  {
    var q := NormalizeQuery(query);
    var voting := if onlyVoting then Filter(matches, IsVoting) else matches;
    var searched := if q != "" then Filter(voting, m => TitleMatches(m, q)) else voting;
    SortBy(searched, SortKey)
  }

  /** Every listed match passes the filters, the list holds no more than the matches, and
      all voting matches come before all others, newest first within each group. */
  lemma ViewProperties(matches: seq<MatchSummary>, onlyVoting: bool, query: string)
    ensures var r := View(matches, onlyVoting, query);
      multiset(r) <= multiset(matches) &&
      (forall i :: 0 <= i < |r| ==> Passes(r[i], onlyVoting, NormalizeQuery(query))) &&
      (forall i, j :: 0 <= i < j < |r| && !IsVoting(r[i]) ==> !IsVoting(r[j])) &&
      (forall i, j :: 0 <= i < j < |r| && IsVoting(r[i]) == IsVoting(r[j]) ==> CreatedTime(r[i]) >= CreatedTime(r[j]))
  {
    var r := View(matches, onlyVoting, query);
    forall i | 0 <= i < |r| ensures Passes(r[i], onlyVoting, NormalizeQuery(query)) {
      assert multiset(r)[r[i]] > 0;
    }
    forall i, j | 0 <= i < j < |r| ensures !IsVoting(r[i]) ==> !IsVoting(r[j]) {
      assert KeyLe(SortKey(r[i]), SortKey(r[j]));
    }
    forall i, j | 0 <= i < j < |r| && IsVoting(r[i]) == IsVoting(r[j]) ensures CreatedTime(r[i]) >= CreatedTime(r[j]) {
      assert KeyLe(SortKey(r[i]), SortKey(r[j]));
    }
  }

  /** A query of only whitespace filters nothing. */
  lemma BlankQueryFiltersNothing(m: MatchSummary, onlyVoting: bool, query: string)
    requires AllSpace(query)
    ensures Passes(m, onlyVoting, NormalizeQuery(query)) <==> !onlyVoting || IsVoting(m)
  {
  }
}
