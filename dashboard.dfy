/** pages/Dashboard: the signed-in user's matches, titled, sorted and split into active and
    closed ones, beside their queue. */
module Dashboard {
  import opened JsValues
  import opened Records
  import opened Ordering

  /** The distinct elements of `xs`, in order of first occurrence (`Array.from(new Set(xs))`). */
  function Dedup(xs: seq<Js>): (r: seq<Js>)
    ensures forall x :: x in r <==> x in xs
    ensures forall i, j :: 0 <= i < j < |r| ==> r[i] != r[j]
  {
    if xs == [] then []
    else
      var rest := Dedup(xs[..|xs| - 1]);
      assert xs == xs[..|xs| - 1] + [xs[|xs| - 1]];
      if xs[|xs| - 1] in rest then rest else rest + [xs[|xs| - 1]]
  }

  function DebateIds(ms: seq<MatchSummary>): (ids: seq<Js>)
    ensures |ids| == |ms| && forall i :: 0 <= i < |ms| ==> ids[i] == ms[i].debateId
  {
    seq(|ms|, i requires 0 <= i < |ms| => ms[i].debateId)
  }

  /** `uniqueDebateIds`: each truthy debate id of the matches, once. */
  function UniqueDebateIds(ms: seq<MatchSummary>): (r: seq<Js>)
    ensures forall x :: x in r <==> Truthy(x) && exists i :: 0 <= i < |ms| && ms[i].debateId == x
    ensures forall i, j :: 0 <= i < j < |r| ==> r[i] != r[j]
  {
    var ids := DebateIds(ms);
    var kept := Filter(ids, x => Truthy(x));
    assert forall x :: x in kept <==> Truthy(x) && x in ids by {
      forall x ensures x in kept <==> Truthy(x) && x in ids {
        assert x in kept <==> multiset(kept)[x] > 0;
        assert x in ids <==> multiset(ids)[x] > 0;
      }
    }
    Dedup(kept)
  }

  /** One settled title lookup (`Promise.allSettled`): fulfilled with the id asked for and
      the debate's title (`null` when it has none), or rejected. */
  datatype Settled = Fulfilled(debateId: Js, title: Option<string>) | Rejected

  /** `results.reduce(...)`: object keys are `String(debateId)`; later results overwrite
      earlier ones. */
  function TitleMapOf(rs: seq<Settled>): (m: map<string, Option<string>>)
  {
    if rs == [] then map[]
    else
      var acc := TitleMapOf(rs[..|rs| - 1]);
      var r := rs[|rs| - 1];
      if r.Fulfilled? && Truthy(r.debateId) then acc[ToStr(r.debateId) := r.title] else acc
  }

  /** A key is in the map exactly when some fulfilled lookup with a truthy id produced it:
      rejected lookups add nothing. */
  lemma {:induction false} TitleMapKeys(rs: seq<Settled>, k: string)
    ensures k in TitleMapOf(rs) <==>
      exists i :: 0 <= i < |rs| && rs[i].Fulfilled? && Truthy(rs[i].debateId) && ToStr(rs[i].debateId) == k
  {
    if rs != [] {
      var init := rs[..|rs| - 1];
      TitleMapKeys(init, k);
      assert forall i :: 0 <= i < |init| ==> init[i] == rs[i];
    }
  }

  /** With no two lookups for the same key, each fulfilled lookup's title is the one kept. */
  lemma {:induction false} TitleMapValues(rs: seq<Settled>, i: int)
    requires 0 <= i < |rs| && rs[i].Fulfilled? && Truthy(rs[i].debateId)
    requires forall a, b :: 0 <= a < b < |rs| && rs[a].Fulfilled? && rs[b].Fulfilled? ==> ToStr(rs[a].debateId) != ToStr(rs[b].debateId)
    ensures ToStr(rs[i].debateId) in TitleMapOf(rs)
    ensures TitleMapOf(rs)[ToStr(rs[i].debateId)] == rs[i].title
  {
    var init := rs[..|rs| - 1];
    if i < |rs| - 1 {
      TitleMapValues(init, i);
    }
  }

  /** The `titleMap` accumulator, folded left to right as `reduce` does. */
  method BuildTitleMap(results: seq<Settled>) returns (acc: map<string, Option<string>>)
    ensures acc == TitleMapOf(results)
  {
    acc := map[];
    var i := 0;
    while i < |results|
      invariant 0 <= i <= |results|
      invariant acc == TitleMapOf(results[..i])
    {
      var r := results[i];
      assert results[..i + 1][..i] == results[..i];
      if r.Fulfilled? && Truthy(r.debateId) {
        acc := acc[ToStr(r.debateId) := r.title];
      }
      i := i + 1;
    }
    assert results[..i] == results;
  }

  /** `m.debateTitle ?? titleMap[m.debateId] ?? null`; every other field is kept. */
  function Enrich(m: MatchSummary, titles: map<string, Option<string>>): (r: MatchSummary)
    ensures r == m.(debateTitle := r.debateTitle)
    ensures m.debateTitle.Some? ==> r.debateTitle == m.debateTitle
    ensures m.debateTitle.None? && ToStr(m.debateId) in titles ==> r.debateTitle == titles[ToStr(m.debateId)]
    ensures m.debateTitle.None? && ToStr(m.debateId) !in titles ==> r.debateTitle == None
  {
    var t := if m.debateTitle.Some? then m.debateTitle
      else if ToStr(m.debateId) in titles then titles[ToStr(m.debateId)]
      else None;
    m.(debateTitle := t)
  }

  function EnrichAll(ms: seq<MatchSummary>, titles: map<string, Option<string>>): (r: seq<MatchSummary>)
    ensures |r| == |ms| && forall i :: 0 <= i < |ms| ==> r[i] == Enrich(ms[i], titles)
  {
    seq(|ms|, i requires 0 <= i < |ms| => Enrich(ms[i], titles))
  }

  /** The comparator: phase ascending (missing as 999), then newest first (missing date as 0). */
  function Compare(a: MatchSummary, b: MatchSummary): int {
    var pa := if a.phase.Some? then a.phase.value else 999;
    var pb := if b.phase.Some? then b.phase.value else 999;
    if pa != pb then pa - pb else CreatedTime(b) - CreatedTime(a)
  }

  function SortKey(m: MatchSummary): Key {
    Key(if m.phase.Some? then m.phase.value else 999, -CreatedTime(m))
  }

  /** The comparator orders two matches exactly as their keys do. */
  lemma CompareAgreesWithKey(a: MatchSummary, b: MatchSummary)
    ensures Compare(a, b) <= 0 <==> KeyLe(SortKey(a), SortKey(b))
    ensures Compare(a, b) == 0 <==> SortKey(a) == SortKey(b)
  {
  }

  /** `sortedMatches`: a sorted copy; the state list itself is not touched. */
  function Sorted(ms: seq<MatchSummary>): (r: seq<MatchSummary>)
    ensures SortedBy(r, SortKey) && multiset(r) == multiset(ms)
  {
    SortBy(ms, SortKey)
  }

  predicate IsClosed(m: MatchSummary) {
    (if m.phase.Some? then m.phase.value else 0) == 4
  }

  predicate IsActive(m: MatchSummary) {
    (if m.phase.Some? then m.phase.value else 0) != 4
  }

  function Active(ms: seq<MatchSummary>): seq<MatchSummary> {
    Filter(Sorted(ms), IsActive)
  }

  function Closed(ms: seq<MatchSummary>): seq<MatchSummary> {
    Filter(Sorted(ms), IsClosed)
  }

  /** Active and closed split the sorted matches between them, each in sorted order. */
  lemma ActiveClosedPartition(ms: seq<MatchSummary>)
    ensures multiset(Active(ms)) + multiset(Closed(ms)) == multiset(ms)
    ensures SortedBy(Active(ms), SortKey) && SortedBy(Closed(ms), SortKey)
    ensures forall i :: 0 <= i < |Closed(ms)| ==> Closed(ms)[i].phase == Some(4)
    ensures forall i :: 0 <= i < |Active(ms)| ==> Active(ms)[i].phase != Some(4)
  {
    var sorted := Sorted(ms);
    var active, closed := Filter(sorted, IsActive), Filter(sorted, IsClosed);
    FilterPartition(sorted, IsActive, IsClosed);
    FilterKeepsSorted(sorted, IsActive, SortKey);
    FilterKeepsSorted(sorted, IsClosed, SortKey);
    forall i | 0 <= i < |closed| ensures closed[i].phase == Some(4) {
      assert IsClosed(closed[i]);
    }
    forall i | 0 <= i < |active| ensures active[i].phase != Some(4) {
      assert IsActive(active[i]);
    }
  }

  class DashboardPage {
    var matches: seq<MatchSummary>
    var queue: seq<Js>
    var loading: bool
    var error: Option<string>

    constructor ()
      ensures matches == [] && queue == [] && loading && error == None
    {
      matches := [];
      queue := [];
      loading := true;
      error := None;
    }

    /** The load effect once matches and queue have arrived: non-lists become empty, the
        missing titles are looked up one per distinct debate id (`lookup` gives each
        lookup's outcome: `None` when it is rejected), and the matches are titled. A failed
        first fetch shows its message or a default. */
    method CompleteLoad(fetched: Throws<(Option<seq<MatchSummary>>, Option<seq<Js>>)>, lookup: Js -> Option<Option<string>>)
      modifies this
      ensures !loading
      ensures fetched.Threw? ==>
        matches == old(matches) && queue == old(queue)
        && error == Some(if fetched.message != "" then fetched.message else "Errore nel caricamento della dashboard.")
      ensures fetched.Returned? ==> error == old(error) && queue == ArrayOrEmpty(fetched.value.1)
      ensures fetched.Returned? ==>
        var raw := ArrayOrEmpty(fetched.value.0);
        var ids := UniqueDebateIds(raw);
        var results := seq(|ids|, i requires 0 <= i < |ids| => if lookup(ids[i]).Some? then Fulfilled(ids[i], lookup(ids[i]).value) else Rejected);
        matches == EnrichAll(raw, TitleMapOf(results))
    {
      if fetched.Threw? {
        error := Some(if fetched.message != "" then fetched.message else "Errore nel caricamento della dashboard.");
      } else {
        var raw := ArrayOrEmpty(fetched.value.0);
        var ids := UniqueDebateIds(raw);
        var results := seq(|ids|, i requires 0 <= i < |ids| => if lookup(ids[i]).Some? then Fulfilled(ids[i], lookup(ids[i]).value) else Rejected);
        var titles := BuildTitleMap(results);
        matches := EnrichAll(raw, titles);
        queue := ArrayOrEmpty(fetched.value.1);
      }
      loading := false;
    }

    function ActiveMatches(): seq<MatchSummary>
      reads this
    {
      Active(matches)
    }

    function ClosedMatches(): seq<MatchSummary>
      reads this
    {
      Closed(matches)
    }
  }
}
