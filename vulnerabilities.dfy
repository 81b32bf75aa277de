/** The vulnerabilities dashboard (`app/dashboard/vulnerabilities/page.tsx`):
    the component-name lookup, the search, severity and status filter, and
    the severity counts, over the report the SonarQube route returned
    (`None` before it arrives or after a failure). Fetching and retrying are
    outside. */
module Vulnerabilities {
  import opened Wrappers
  import opened Seqs
  import opened JsText
  import opened Search
  import opened SonarQube

  /** Position `i` holds the first component with key `key`. */
  predicate FirstWithKey(cs: seq<ComponentRef>, key: string, i: int)
  {
    0 <= i < |cs| && cs[i].key == key && forall j :: 0 <= j < i ==> cs[j].key != key
  }

  /** `getComponentName`: the path of the first component with that key;
      the key itself when there is no report, no such component, or its
      path is empty. */
  function ComponentName(data: Option<Report>, key: string): (n: string)
    ensures data.None? ==> n == key
    ensures data.Some? && (forall i :: 0 <= i < |data.value.components| ==> data.value.components[i].key != key) ==>
      n == key
    ensures data.Some? ==> forall i :: FirstWithKey(data.value.components, key, i) ==>
      n == (if data.value.components[i].path != "" then data.value.components[i].path else key)
  {
    match data
    case None => key
    case Some(d) =>
      match FindFirst(d.components, (c: ComponentRef) => c.key == key)
      case None => key
      case Some(i) =>
        assert forall j :: FirstWithKey(d.components, key, j) ==> j == i;
        OrDefault(Some(d.components[i].path), key)
  }

  /** A hotspot passes the search when its message or its component's name
      mentions the query. */
  predicate MatchesSearch(data: Option<Report>, query: string, h: Hotspot)
  {
    Mentions(h.details.message, query) || Mentions(ComponentName(data, h.details.component), query)
  }

  /** The three tests of the filter callback. */
  predicate Matches(data: Option<Report>, query: string, severity: string, status: string, h: Hotspot)
  {
    MatchesSearch(data, query, h) &&
    Selected(severity, LevelName(h.vulnerabilityProbability)) &&
    Selected(status, h.status)
  }

  /** `filteredVulnerabilities`: the hotspots that pass, in their order; none
      without a report. */
  function FilteredVulnerabilities(data: Option<Report>, query: string, severity: string, status: string): (r: seq<Hotspot>)
    ensures data.None? ==> r == []
    ensures data.Some? ==> IsSubsequence(r, data.value.hotspots)
    ensures data.Some? ==> forall h :: h in r <==> h in data.value.hotspots && Matches(data, query, severity, status, h)
  {
    match data
    case None => []
    case Some(d) => Filter(d.hotspots, (h: Hotspot) => Matches(data, query, severity, status, h))
  }

  /** With an empty query and both selects on "all", every hotspot is shown. */
  lemma NoFilterShowsAll(d: Report)
    ensures FilteredVulnerabilities(Some(d), "", All, All) == d.hotspots
  {
    forall i | 0 <= i < |d.hotspots| ensures Matches(Some(d), "", All, All, d.hotspots[i]) {
      MentionsEmpty(d.hotspots[i].details.message);
    }
    FilterAll(d.hotspots, (h: Hotspot) => Matches(Some(d), "", All, All, h));
  }

  /** The query's case does not matter. */
  lemma SearchIgnoresCase(data: Option<Report>, query: string, severity: string, status: string)
    ensures FilteredVulnerabilities(data, ToUpper(query), severity, status) ==
      FilteredVulnerabilities(data, query, severity, status)
  {
    if data.Some? {
      var hs := data.value.hotspots;
      forall i | 0 <= i < |hs|
        ensures Matches(data, ToUpper(query), severity, status, hs[i]) == Matches(data, query, severity, status, hs[i])
      {
        MentionsIgnoresCase(hs[i].details.message, query);
        MentionsIgnoresCase(ComponentName(data, hs[i].details.component), query);
      }
      FilterExt(hs, (h: Hotspot) => Matches(data, ToUpper(query), severity, status, h),
                (h: Hotspot) => Matches(data, query, severity, status, h));
    }
  }

  /** Choosing a severity shows exactly the hotspots of that level among
      those the other two tests pass. */
  lemma SeverityFilterExact(data: Option<Report>, query: string, l: Level, status: string, h: Hotspot)
    ensures h in FilteredVulnerabilities(data, query, LevelName(l), status) <==>
      h in FilteredVulnerabilities(data, query, All, status) && h.vulnerabilityProbability == l
  {
    assert LevelName(l) != All;
    assert LevelName(h.vulnerabilityProbability) == LevelName(l) <==> h.vulnerabilityProbability == l;
  }

  datatype SeverityCounts = SeverityCounts(high: nat, medium: nat, low: nat)

  function CountLevel(hs: seq<Hotspot>, l: Level): nat
  {
    Count(hs, (h: Hotspot) => h.vulnerabilityProbability == l)
  }

  /** Each hotspot has exactly one level, so the three counts add up. */
  lemma {:induction false} LevelCountsAddUp(hs: seq<Hotspot>)
    ensures CountLevel(hs, High) + CountLevel(hs, Medium) + CountLevel(hs, Low) == |hs|
  {
    if hs != [] {
      LevelCountsAddUp(hs[1..]);
    }
  }

  /** `severityCounts`, taken over the filtered list. */
  function Counts(data: Option<Report>, query: string, severity: string, status: string): (c: SeverityCounts)
    ensures var fs := FilteredVulnerabilities(data, query, severity, status);
      c.high == CountLevel(fs, High) && c.medium == CountLevel(fs, Medium) && c.low == CountLevel(fs, Low)
    ensures c.high + c.medium + c.low == |FilteredVulnerabilities(data, query, severity, status)|
    ensures data.None? ==> c == SeverityCounts(0, 0, 0)
  {
    var fs := FilteredVulnerabilities(data, query, severity, status);
    LevelCountsAddUp(fs);
    SeverityCounts(CountLevel(fs, High), CountLevel(fs, Medium), CountLevel(fs, Low))
  }
}
