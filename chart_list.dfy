/** The search/category filter and the keyword badges of the chart listing (src/components/ChartList.tsx). */
module ChartList {
  import opened Wrappers
  import opened Types
  import opened Strings

  datatype ViewMode = Grid | List

  /** What the listing shows, in the order the component decides it. */
  datatype ListingView = LoadingCharts | NoChartsFound | ChartCards(mode: ViewMode, charts: seq<HelmChart>)

  /** The text search: an empty term matches; otherwise a case-insensitive substring of name, description or a keyword. */
  predicate MatchesSearch(chart: HelmChart, searchTerm: string) {
    var term := Lower(searchTerm);
    || searchTerm == ""
    || Contains(Lower(chart.name), term)
    || Contains(Lower(chart.description), term)
    || exists k :: k in chart.keywords && Contains(Lower(k), term)
  }

  /** The category filter: `'all'` passes everything, any other value must equal the chart's category. */
  predicate MatchesCategory(chart: HelmChart, selectedCategory: string) {
    selectedCategory == "all" || chart.category == selectedCategory
  }

  predicate Shown(chart: HelmChart, searchTerm: string, selectedCategory: string) {
    MatchesSearch(chart, searchTerm) && MatchesCategory(chart, selectedCategory)
  }

  /** `filteredCharts`: exactly the charts passing both filters, each as often as in the input. */
  function FilterCharts(charts: seq<HelmChart>, searchTerm: string, selectedCategory: string): (r: seq<HelmChart>)
    ensures |r| <= |charts|
    ensures forall c :: c in r ==> c in charts && Shown(c, searchTerm, selectedCategory)
    ensures forall c :: c in charts && Shown(c, searchTerm, selectedCategory) ==> c in r
    ensures forall c :: multiset(r)[c] == if Shown(c, searchTerm, selectedCategory) then multiset(charts)[c] else 0
  {
    if charts == [] then []
    else
      assert charts == [charts[0]] + charts[1..];
      var rest := FilterCharts(charts[1..], searchTerm, selectedCategory);
      if Shown(charts[0], searchTerm, selectedCategory) then [charts[0]] + rest else rest
  }

  /** `a` is obtained from `b` by deleting elements, keeping the order of the rest. */
  predicate IsSubsequence<T(==)>(a: seq<T>, b: seq<T>)
    decreases |b|
  {
    || a == []
    || (b != [] && ((a[0] == b[0] && IsSubsequence(a[1..], b[1..])) || IsSubsequence(a, b[1..])))
  }

  /** The filter keeps the listing order. */
  lemma {:induction false} FilterIsSubsequence(charts: seq<HelmChart>, searchTerm: string, selectedCategory: string)
    ensures IsSubsequence(FilterCharts(charts, searchTerm, selectedCategory), charts)
  {
    if charts != [] {
      FilterIsSubsequence(charts[1..], searchTerm, selectedCategory);
      var r := FilterCharts(charts, searchTerm, selectedCategory);
      if Shown(charts[0], searchTerm, selectedCategory) {
        assert r[1..] == FilterCharts(charts[1..], searchTerm, selectedCategory);
      }
    }
  }

  /** With no search term and the `'all'` category the listing is shown unfiltered. */
  lemma {:induction false} EmptyFilterKeepsAll(charts: seq<HelmChart>)
    ensures FilterCharts(charts, "", "all") == charts
  {
    if charts != [] {
      EmptyFilterKeepsAll(charts[1..]);
      assert Shown(charts[0], "", "all");
      assert [charts[0]] + charts[1..] == charts;
    }
  }

  lemma LowerCharIdempotent(c: char)
    ensures LowerChar(LowerChar(c)) == LowerChar(c)
  {
  }

  lemma LowerIdempotent(s: string)
    ensures Lower(Lower(s)) == Lower(s)
  {
    forall i | 0 <= i < |s| ensures Lower(Lower(s))[i] == Lower(s)[i] {
      LowerCharIdempotent(s[i]);
    }
  }

  /** The search ignores the case of the term: a term and its lower-cased form select the same charts. */
  lemma SearchIgnoresCase(chart: HelmChart, searchTerm: string)
    ensures MatchesSearch(chart, searchTerm) <==> MatchesSearch(chart, Lower(searchTerm))
  {
    LowerIdempotent(searchTerm);
  }

  /** A term matches when it is part of the chart's name, whatever the case of either. */
  lemma NameMatchCaseInsensitive(chart: HelmChart, searchTerm: string, i: nat)
    requires OccursAt(Lower(chart.name), Lower(searchTerm), i)
    ensures MatchesSearch(chart, searchTerm)
  {
    ContainsIff(Lower(chart.name), Lower(searchTerm));
  }

  /** The keyword badges of a grid card: the first three, then a `+n` badge for the rest. */
  datatype GridBadges = GridBadges(shown: seq<string>, more: Option<nat>)

  function Min(a: nat, b: nat): nat {
    if a < b then a else b
  }

  function GridKeywordBadges(keywords: seq<string>): (b: GridBadges)
    ensures |b.shown| == Min(3, |keywords|) && b.shown == keywords[..|b.shown|]
    ensures b.more.Some? <==> |keywords| > 3
    ensures b.more.Some? ==> b.more.value > 0 && |b.shown| + b.more.value == |keywords|
  {
    var shown := keywords[..Min(3, |keywords|)];
    GridBadges(shown, if |keywords| > 3 then Some(|keywords| - 3) else None)
  }

  /** The keyword badges of a list row: at most the first five, with no overflow badge. */
  function ListKeywordBadges(keywords: seq<string>): (shown: seq<string>)
    ensures |shown| == Min(5, |keywords|) && shown == keywords[..|shown|]
  {
    keywords[..Min(5, |keywords|)]
  }

  /** Every keyword is either shown or counted in the overflow badge. */
  lemma GridBadgesAccountForAll(keywords: seq<string>)
    ensures var b := GridKeywordBadges(keywords);
      |b.shown| + b.more.GetOr(0) == |keywords|
  {
  }

  /** The listing's render decision: loading first, then the empty state, then the cards. */
  function RenderListing(charts: seq<HelmChart>, searchTerm: string, selectedCategory: string,
                         mode: ViewMode, loading: bool): (v: ListingView)
    ensures loading ==> v == LoadingCharts
    ensures !loading ==> (v == NoChartsFound <==> forall c :: c in charts ==> !Shown(c, searchTerm, selectedCategory))
    ensures v.ChartCards? ==> v.mode == mode && v.charts == FilterCharts(charts, searchTerm, selectedCategory)
  {
    var filtered := FilterCharts(charts, searchTerm, selectedCategory);
    if loading then LoadingCharts
    else if |filtered| == 0 then NoChartsFound
    else ChartCards(mode, filtered)
  }
}
