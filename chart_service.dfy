/** The request paths of the chart endpoints (src/services/chartService.ts); the HTTP call itself is not modelled. */
module ChartService {
  import opened Wrappers
  import opened Strings

  /** The optional `?version=` query: present exactly when the version is a non-empty string. */
  function VersionQuery(version: Option<string>): (q: string)
    ensures q == "" <==> !Truthy(version)
    ensures Truthy(version) ==> q == "?version=" + version.value
  {
    if Truthy(version) then "?version=" + version.value else ""
  }

  /** `getChartList`. */
  function ListPath(repo: string): string {
    "/charts?repo=" + repo
  }

  /** `/charts/{repo}/{chart}/{action}{query}`, names inserted verbatim. */
  function ChartPath(repoName: string, chartName: string, action: string, query: string): string {
    "/charts/" + repoName + "/" + chartName + "/" + action + query
  }

  /** `getChartDetail`: takes no version. */
  function DetailPath(repoName: string, chartName: string): string {
    ChartPath(repoName, chartName, "detail", "")
  }

  /** `getChartValues`. */
  function ValuesPath(repoName: string, chartName: string, version: Option<string>): string {
    ChartPath(repoName, chartName, "values", VersionQuery(version))
  }

  /** `getChartReadme`. */
  function ReadmePath(repoName: string, chartName: string, version: Option<string>): string {
    ChartPath(repoName, chartName, "readme", VersionQuery(version))
  }

  /** `deployChart` (a POST). */
  function DeployPath(repoName: string, chartName: string): string {
    ChartPath(repoName, chartName, "deploy", "")
  }

  /** What a path asks for, as the backend would route it. */
  datatype Route =
    | ListRoute(repo: string)
    | ChartRoute(repo: string, chart: string, action: string, version: Option<string>)

  const ListPrefix: string := "/charts?repo="
  const ChartsPrefix: string := "/charts/"
  const VersionPrefix: string := "?version="

  /** Splits a request path back into its route. */
  function ParsePath(path: string): Option<Route> {
    if IsPrefix(ListPrefix, path) then Some(ListRoute(path[|ListPrefix|..]))
    else if IsPrefix(ChartsPrefix, path) then ParseChartRoute(path[|ChartsPrefix|..])
    else None
  }

  /** `<repo>/<chart>/<action>[?version=<v>]`, after the `/charts/` prefix. */
  function ParseChartRoute(rest: string): Option<Route> {
    var repo := Before(rest, '/');
    if |repo| == |rest| then None
    else
      var rest2 := rest[|repo| + 1..];
      var chart := Before(rest2, '/');
      if |chart| == |rest2| then None
      else
        match ParseAction(rest2[|chart| + 1..])
        case None => None
        case Some((action, version)) => Some(ChartRoute(repo, chart, action, version))
  }

  /** `<action>[?version=<v>]`. */
  function ParseAction(tail: string): Option<(string, Option<string>)> {
    var action := Before(tail, '?');
    var query := tail[|action|..];
    if query == "" then Some((action, None))
    else if IsPrefix(VersionPrefix, query) then Some((action, Some(query[|VersionPrefix|..])))
    else None
  }

  /** The version a path carries: the given one when it is truthy, none otherwise. */
  function SentVersion(version: Option<string>): Option<string> {
    if Truthy(version) then version else None
  }

  lemma ParseActionQuery(action: string, version: Option<string>)
    requires '?' !in action
    ensures ParseAction(action + VersionQuery(version)) == Some((action, SentVersion(version)))
  {
    var q := VersionQuery(version);
    if q == "" {
      assert action + q == action;
      BeforeWhole(action, '?');
    } else {
      assert action + q == action + ['?'] + ("version=" + version.value);
      BeforeSplit(action, '?', "version=" + version.value);
      assert (action + q)[|action|..] == q;
    }
  }

  lemma ParseChartSegments(repo: string, chart: string, tail: string)
    requires '/' !in repo && '/' !in chart
    ensures ParseChartRoute(repo + "/" + chart + "/" + tail) ==
      match ParseAction(tail)
      case None => None
      case Some((action, version)) => Some(ChartRoute(repo, chart, action, version))
  {
    var rest := repo + "/" + chart + "/" + tail;
    assert rest == repo + ['/'] + (chart + "/" + tail);
    BeforeSplit(repo, '/', chart + "/" + tail);
    var rest2 := rest[|repo| + 1..];
    assert rest2 == chart + ['/'] + tail;
    BeforeSplit(chart, '/', tail);
    assert rest2[|chart| + 1..] == tail;
  }

  lemma ParseChartsPrefix(rest: string)
    ensures ParsePath(ChartsPrefix + rest) == ParseChartRoute(rest)
  {
    var path := ChartsPrefix + rest;
    assert path[7] == '/' != ListPrefix[7];
    assert path[..|ChartsPrefix|] == ChartsPrefix;
    assert path[|ChartsPrefix|..] == rest;
  }

  lemma ChartPathShape(repo: string, chart: string, action: string, query: string)
    ensures ChartPath(repo, chart, action, query) == ChartsPrefix + (repo + "/" + chart + "/" + (action + query))
  {
  }

  lemma ParseChartPath(repo: string, chart: string, action: string, version: Option<string>)
    requires '/' !in repo && '/' !in chart && '?' !in action
    ensures ParsePath(ChartPath(repo, chart, action, VersionQuery(version)))
         == Some(ChartRoute(repo, chart, action, SentVersion(version)))
  {
    ChartPathShape(repo, chart, action, VersionQuery(version));
    ParseChartsPrefix(repo + "/" + chart + "/" + (action + VersionQuery(version)));
    ParseChartSegments(repo, chart, action + VersionQuery(version));
    ParseActionQuery(action, version);
  }

  /** A values path names its repository, chart and (truthy) version, and nothing else. */
  lemma ValuesPathRoundTrip(repoName: string, chartName: string, version: Option<string>)
    requires '/' !in repoName && '/' !in chartName
    ensures ParsePath(ValuesPath(repoName, chartName, version))
         == Some(ChartRoute(repoName, chartName, "values", SentVersion(version)))
  {
    ParseChartPath(repoName, chartName, "values", version);
  }

  lemma ReadmePathRoundTrip(repoName: string, chartName: string, version: Option<string>)
    requires '/' !in repoName && '/' !in chartName
    ensures ParsePath(ReadmePath(repoName, chartName, version))
         == Some(ChartRoute(repoName, chartName, "readme", SentVersion(version)))
  {
    ParseChartPath(repoName, chartName, "readme", version);
  }

  /** A detail path never carries a version. */
  lemma DetailPathRoundTrip(repoName: string, chartName: string)
    requires '/' !in repoName && '/' !in chartName
    ensures ParsePath(DetailPath(repoName, chartName)) == Some(ChartRoute(repoName, chartName, "detail", None))
  {
    ParseChartPath(repoName, chartName, "detail", None);
  }

  lemma DeployPathRoundTrip(repoName: string, chartName: string)
    requires '/' !in repoName && '/' !in chartName
    ensures ParsePath(DeployPath(repoName, chartName)) == Some(ChartRoute(repoName, chartName, "deploy", None))
  {
    ParseChartPath(repoName, chartName, "deploy", None);
  }

  lemma ListPathRoundTrip(repo: string)
    ensures ParsePath(ListPath(repo)) == Some(ListRoute(repo))
  {
    assert ListPath(repo)[..|ListPrefix|] == ListPrefix;
  }

  /** Names are interpolated without escaping: a `/` inside a name makes two requests indistinguishable. */
  lemma NamesNotEscaped()
    ensures DetailPath("a/b", "c") == DetailPath("a", "b/c")
  {
  }
}
