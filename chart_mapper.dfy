/** Normalisation of raw catalog entries into display records (src/utils/chartMapper.ts). */
module ChartMapper {
  import opened Wrappers
  import opened Types
  import opened Strings

  const DescriptionPlaceholder: string := "No description available"

  const DatabaseKeywords: set<string> := {"database", "sql", "nosql", "redis", "postgres", "mysql", "mongodb"}
  const MonitoringKeywords: set<string> := {"monitoring", "metrics", "prometheus", "grafana", "observability"}
  const SecurityKeywords: set<string> := {"security", "auth", "authentication", "authorization"}
  const StorageKeywords: set<string> := {"storage", "volume", "persistent"}
  const NetworkingKeywords: set<string> := {"network", "ingress", "nginx", "proxy", "load-balancer"}
  const AiMlKeywords: set<string> := {"ai", "ml", "machine-learning", "tensorflow", "pytorch"}
  const DevtoolsKeywords: set<string> := {"dev", "development", "ci", "cd", "build", "deploy"}

  const OthersLabel: string := "others"

  /** The categories in the order they are tried, each with its keyword set. */
  const CategoryTable: seq<(string, set<string>)> := [
    ("database", DatabaseKeywords),
    ("monitoring", MonitoringKeywords),
    ("security", SecurityKeywords),
    ("storage", StorageKeywords),
    ("networking", NetworkingKeywords),
    ("ai-ml", AiMlKeywords),
    ("devtools", DevtoolsKeywords)
  ]

  /** Every label the classifier can produce. */
  const Labels: set<string> := {"database", "monitoring", "security", "storage", "networking", "ai-ml", "devtools", OthersLabel}

  function LowerAll(keywords: seq<string>): (r: seq<string>)
    ensures |r| == |keywords|
    ensures forall i :: 0 <= i < |keywords| ==> r[i] == Lower(keywords[i])
  {
    seq(|keywords|, i requires 0 <= i < |keywords| => Lower(keywords[i]))
  }

  /** `keywordLower.some(k => words.includes(k))`: exact membership, not substring. */
  predicate SomeIn(keywordLower: seq<string>, words: set<string>) {
    exists k :: k in keywordLower && k in words
  }

  /** `categorizeChart`: the first category, in table order, one of whose words is a lower-cased keyword. */
  function CategorizeChart(keywords: seq<string>): (category: string)
    ensures category in Labels
  {
    var keywordLower := LowerAll(keywords);
    if SomeIn(keywordLower, DatabaseKeywords) then "database"
    else if SomeIn(keywordLower, MonitoringKeywords) then "monitoring"
    else if SomeIn(keywordLower, SecurityKeywords) then "security"
    else if SomeIn(keywordLower, StorageKeywords) then "storage"
    else if SomeIn(keywordLower, NetworkingKeywords) then "networking"
    else if SomeIn(keywordLower, AiMlKeywords) then "ai-ml"
    else if SomeIn(keywordLower, DevtoolsKeywords) then "devtools"
    else OthersLabel
  }

  /** The fallback label is produced exactly when no lower-cased keyword is in any category's set. */
  lemma CategorizeOthersIff(keywords: seq<string>)
    ensures CategorizeChart(keywords) == OthersLabel <==>
      forall c :: 0 <= c < |CategoryTable| ==> !SomeIn(LowerAll(keywords), CategoryTable[c].1)
  {
    var kl := LowerAll(keywords);
    assert CategoryTable[0].1 == DatabaseKeywords && CategoryTable[1].1 == MonitoringKeywords;
    assert CategoryTable[2].1 == SecurityKeywords && CategoryTable[3].1 == StorageKeywords;
    assert CategoryTable[4].1 == NetworkingKeywords && CategoryTable[5].1 == AiMlKeywords;
    assert CategoryTable[6].1 == DevtoolsKeywords;
  }

  /** Priority: the label is that of the first matching category, whatever later ones also match. */
  lemma CategorizeFirstMatch(keywords: seq<string>, c: nat)
    requires c < |CategoryTable|
    requires SomeIn(LowerAll(keywords), CategoryTable[c].1)
    requires forall d :: 0 <= d < c ==> !SomeIn(LowerAll(keywords), CategoryTable[d].1)
    ensures CategorizeChart(keywords) == CategoryTable[c].0
  {
    var kl := LowerAll(keywords);
    if c > 0 { assert !SomeIn(kl, CategoryTable[0].1); }
    if c > 1 { assert !SomeIn(kl, CategoryTable[1].1); }
    if c > 2 { assert !SomeIn(kl, CategoryTable[2].1); }
    if c > 3 { assert !SomeIn(kl, CategoryTable[3].1); }
    if c > 4 { assert !SomeIn(kl, CategoryTable[4].1); }
    if c > 5 { assert !SomeIn(kl, CategoryTable[5].1); }
  }

  /** The classification depends only on which keywords occur, not on their order or repetition. */
  lemma CategorizeOrderIndependent(keywords1: seq<string>, keywords2: seq<string>)
    requires forall k :: k in keywords1 <==> k in keywords2
    ensures CategorizeChart(keywords1) == CategorizeChart(keywords2)
  {
    forall words: set<string>
      ensures SomeIn(LowerAll(keywords1), words) <==> SomeIn(LowerAll(keywords2), words)
    {
      if SomeIn(LowerAll(keywords1), words) {
        SomeInSameKeywords(keywords1, keywords2, words);
      }
      if SomeIn(LowerAll(keywords2), words) {
        SomeInSameKeywords(keywords2, keywords1, words);
      }
    }
  }

  lemma SomeInSameKeywords(keywords1: seq<string>, keywords2: seq<string>, words: set<string>)
    requires forall k :: k in keywords1 ==> k in keywords2
    requires SomeIn(LowerAll(keywords1), words)
    ensures SomeIn(LowerAll(keywords2), words)
  {
    var kl1, kl2 := LowerAll(keywords1), LowerAll(keywords2);
    var k :| k in kl1 && k in words;
    var i :| 0 <= i < |kl1| && kl1[i] == k;
    assert keywords1[i] in keywords2;
    var j :| 0 <= j < |keywords2| && keywords2[j] == keywords1[i];
    assert kl2[j] == k;
  }

  /** Matching is exact after lower-casing: case is ignored, but a longer word does not match. */
  lemma CategorizeExactWords()
    ensures CategorizeChart(["MySQL"]) == "database"
    ensures CategorizeChart(["PostgreSQL"]) == OthersLabel
    ensures CategorizeChart(["Ingress", "Prometheus"]) == "monitoring"
  {
    LowerWord("MySQL", "mysql");
    assert LowerAll(["MySQL"]) == ["mysql"];
    assert SomeIn(["mysql"], DatabaseKeywords);
    LowerWord("PostgreSQL", "postgresql");
    assert LowerAll(["PostgreSQL"]) == ["postgresql"];
    LowerWord("Ingress", "ingress");
    LowerWord("Prometheus", "prometheus");
    var both := LowerAll(["Ingress", "Prometheus"]);
    assert both == ["ingress", "prometheus"];
    assert SomeIn(both, MonitoringKeywords);
    assert !SomeIn(both, DatabaseKeywords);
  }

  lemma LowerWord(s: string, t: string)
    requires |s| == |t|
    requires forall i :: 0 <= i < |s| ==> LowerChar(s[i]) == t[i]
    ensures Lower(s) == t
  {
  }

  /** `extractRepository`: the template string is never empty, so the `unknown/` fallback is dead. */
  function ExtractRepository(repositoryName: string, chartName: string): (r: string)
    ensures r == repositoryName + "/" + chartName
  {
    var joined := repositoryName + "/" + chartName;
    if joined != "" then joined else "unknown/" + chartName
  }

  /** The synthesised identifier `chart-<index>-<name>`; it does not mention the repository. */
  function ChartId(index: nat, name: string): string {
    "chart-" + NatToString(index) + "-" + name
  }

  /** Reads the index back out of an identifier built by `ChartId`. */
  function IndexOfId(id: string): Option<nat> {
    if |id| < 6 || id[..6] != "chart-" then None
    else
      var digits := Before(id[6..], '-');
      if digits == [] || |digits| == |id[6..]| || exists c :: c in digits && !IsDigit(c) then None
      else Some(ParseDigits(digits))
  }

  lemma {:induction false} IdIndexRoundTrip(index: nat, name: string)
    ensures IndexOfId(ChartId(index, name)) == Some(index)
  {
    var id := ChartId(index, name);
    var digits := NatToString(index);
    assert id[..6] == "chart-";
    assert id[6..] == digits + ['-'] + name;
    BeforeSplit(digits, '-', name);
    ParseNatToString(index);
  }

  /** `mapChartToHelmChart`, with the clock reading `now` passed in. */
  function MapChartToHelmChart(chart: Chart, index: nat, repositoryName: string, now: string): (h: HelmChart)
    ensures h.category in Labels
    ensures h.repositoryName == Some(repositoryName)
    ensures h.createdAt == h.updatedAt == OrText(chart.created, now)
  {
    HelmChart(
      id := ChartId(index, chart.name),
      name := chart.name,
      version := chart.version,
      description := OrText(chart.description, DescriptionPlaceholder),
      appVersion := chart.appVersion,
      created := chart.created,
      digest := chart.digest,
      urls := chart.urls,
      icon := chart.icon,
      home := chart.home,
      sources := chart.sources,
      maintainers := OrEmpty(chart.maintainers),
      keywords := OrEmpty(chart.keywords),
      dependencies := chart.dependencies,
      repository := ExtractRepository(repositoryName, chart.name),
      repositoryName := Some(repositoryName),
      createdAt := OrText(chart.created, now),
      updatedAt := OrText(chart.created, now),
      category := CategorizeChart(OrEmpty(chart.keywords)),
      versionHistory := OrEmpty(chart.versionHistory))
  }

  /** The raw fields a display record carries, read back as a `Chart`. */
  function RawView(h: HelmChart): Chart {
    Chart(h.name, h.version, Some(h.description), h.appVersion, h.created, h.digest, h.urls,
          h.icon, h.home, h.sources, Some(h.maintainers), Some(h.keywords), h.dependencies,
          Some(h.versionHistory))
  }

  /** The raw chart with the mapper's defaults filled in. */
  function WithDefaults(chart: Chart): Chart {
    chart.(description := Some(OrText(chart.description, DescriptionPlaceholder)),
           maintainers := Some(OrEmpty(chart.maintainers)),
           keywords := Some(OrEmpty(chart.keywords)),
           versionHistory := Some(OrEmpty(chart.versionHistory)))
  }

  /** A chart none of whose defaulted fields is missing. */
  predicate Complete(chart: Chart) {
    Truthy(chart.description) && chart.maintainers.Some? && chart.keywords.Some? && chart.versionHistory.Some?
  }

  /** Mapping copies every raw field, filling only the defaults; a complete chart comes back unchanged. */
  lemma MapKeepsRawFields(chart: Chart, index: nat, repositoryName: string, now: string)
    ensures RawView(MapChartToHelmChart(chart, index, repositoryName, now)) == WithDefaults(chart)
    ensures Complete(WithDefaults(chart))
    ensures Complete(chart) ==> WithDefaults(chart) == chart
  {
  }

  /** The normalised record is keyed, labelled and stamped as the mapper promises. */
  lemma MapSynthesisedFields(chart: Chart, index: nat, repositoryName: string, now: string)
    ensures var h := MapChartToHelmChart(chart, index, repositoryName, now);
      && IndexOfId(h.id) == Some(index)
      && h.repository == repositoryName + "/" + chart.name
      && h.category == CategorizeChart(h.keywords)
      && (Truthy(chart.created) ==> h.createdAt == chart.created.value)
      && (!Truthy(chart.created) ==> h.createdAt == now)
  {
    IdIndexRoundTrip(index, chart.name);
  }

  /** `mapChartsToHelmCharts`: one record per input chart, in order, numbered by position. */
  function MapChartsToHelmCharts(charts: seq<Chart>, repositoryName: string, now: string): (r: seq<HelmChart>)
    ensures |r| == |charts|
    ensures forall i :: 0 <= i < |charts| ==> r[i] == MapChartToHelmChart(charts[i], i, repositoryName, now)
  {
    seq(|charts|, i requires 0 <= i < |charts| => MapChartToHelmChart(charts[i], i, repositoryName, now))
  }

  /** Within one mapping call identifiers are pairwise distinct. */
  lemma MapChartsDistinctIds(charts: seq<Chart>, repositoryName: string, now: string)
    ensures var r := MapChartsToHelmCharts(charts, repositoryName, now);
      forall i, j :: 0 <= i < j < |r| ==> r[i].id != r[j].id
  {
    var r := MapChartsToHelmCharts(charts, repositoryName, now);
    forall i, j | 0 <= i < j < |r| ensures r[i].id != r[j].id {
      IdIndexRoundTrip(i, charts[i].name);
      IdIndexRoundTrip(j, charts[j].name);
    }
  }

  /**
   * Across two repositories the identifiers collide: the same chart name at the same position
   * gets the same id although the records belong to different repositories.
   */
  lemma IdsCollideAcrossRepositories(chart: Chart, repo1: string, repo2: string, now: string)
    requires repo1 != repo2
    ensures var h1 := MapChartsToHelmCharts([chart], repo1, now)[0];
      var h2 := MapChartsToHelmCharts([chart], repo2, now)[0];
      h1.id == h2.id && h1.repository != h2.repository
  {
    var h1 := MapChartsToHelmCharts([chart], repo1, now)[0];
    var h2 := MapChartsToHelmCharts([chart], repo2, now)[0];
    if h1.repository == h2.repository {
      assert (repo1 + "/") + chart.name == repo1 + ("/" + chart.name);
      assert (repo2 + "/") + chart.name == repo2 + ("/" + chart.name);
      CancelSuffix(repo1, repo2, "/" + chart.name);
    }
  }
}
