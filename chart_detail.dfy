/**
 * The chart-detail synchroniser (src/components/ChartDetail.tsx): repository-name resolution,
 * the initial fetch wave (readme, values, detail) and the version wave (readme, values).
 * Each awaited fetch is an explicit `Outcome`; a wave's settlement is one method call, so the
 * order in which settlements are applied is the order of the calls.
 */
module ChartDetail {
  import opened Wrappers
  import opened Types
  import opened Strings
  import ChartService

  const ReadmeLoading: string := "Loading README..."
  const ValuesLoading: string := "Loading values..."
  const ReadmeMissing: string := "No README available for this chart."
  const ValuesMissing: string := "No values.yaml available for this chart."
  const ReadmeVersionFailed: string := FailedMarker + " README from the repository."
  const ValuesVersionFailed: string := FailedMarker + " values.yaml from the repository."
  const ReadmeFailed: string := ReadmeVersionFailed + "\n\nThis might be because:\n- The chart does not have a README file\n- The repository is not accessible\n- Network connection issues"
  const ValuesFailed: string := ValuesVersionFailed + "\n\nThis might be because:\n- The chart does not have a values.yaml file\n- The repository is not accessible\n- Network connection issues"
  const ReadmeError: string := ErrorMarker + " README due to network or server issues."
  const ValuesError: string := ErrorMarker + " values.yaml due to network or server issues."
  const DetailsError: string := "Failed to fetch chart details. Please check your connection and try again."
  const VersionError: string := "Failed to load chart data for the selected version."

  const FailedMarker: string := "Failed to load"
  const ErrorMarker: string := "Error loading"

  /**
   * The repository a wave fetches from: the explicit `repositoryName` when it is non-empty,
   * otherwise the text of `repository` before its first `/`; `None` when that is empty too.
   */
  function ResolveRepoName(repositoryName: Option<string>, repository: string): (r: Option<string>)
    ensures r.Some? ==> r.value != ""
    ensures Truthy(repositoryName) ==> r == repositoryName
    ensures !Truthy(repositoryName) && r.Some? ==>
      IsPrefix(r.value, repository) && '/' !in r.value && (|r.value| < |repository| ==> repository[|r.value|] == '/')
    ensures !Truthy(repositoryName) && r.None? ==> repository == "" || repository[0] == '/'
  {
    var name :=
      if Truthy(repositoryName) then repositoryName.value
      else if repository != "" then FirstSegment(repository)
      else "";
    if name == "" then None else Some(name)
  }

  /** A composite `repository` without any `/` resolves to the whole string. */
  lemma ResolveWithoutSlash(repositoryName: Option<string>, repository: string)
    requires !Truthy(repositoryName) && repository != "" && '/' !in repository
    ensures ResolveRepoName(repositoryName, repository) == Some(repository)
  {
    BeforeWhole(repository, '/');
  }

  /** `owner/chart` resolves to `owner`. */
  lemma ResolveComposite(repositoryName: Option<string>, owner: string, rest: string)
    requires !Truthy(repositoryName) && owner != "" && '/' !in owner
    ensures ResolveRepoName(repositoryName, owner + "/" + rest) == Some(owner)
  {
    BeforeSplit(owner, '/', rest);
  }

  /** `extractRepoName`: the first segment of `repository`, or `'unknown'` when it is empty. */
  function ExtractRepoName(repository: string): (r: string)
    ensures r != ""
  {
    var first := FirstSegment(repository);
    if first != "" then first else "unknown"
  }

  /** The display helper and the wave's resolution agree whenever a chart has no explicit name. */
  lemma ExtractAgreesWithResolve(repository: string)
    ensures ResolveRepoName(None, repository).Some? ==> ResolveRepoName(None, repository) == Some(ExtractRepoName(repository))
    ensures ResolveRepoName(None, repository).None? <==> ExtractRepoName(repository) == "unknown" && FirstSegment(repository) == ""
  {
  }

  /** A fulfilled fetch whose body is null: reading a field of it throws inside the wave's `try`. */
  predicate NullPayload<T>(o: Outcome<Option<T>>) {
    o.Ok? && o.payload.None?
  }

  /** The text a settled readme fetch with a non-null body leaves in the readme field. */
  function ReadmeText(o: Outcome<Option<ChartReadmeDto>>, failed: string): string
    requires !NullPayload(o)
  {
    match o
    case Ok(dto) => OrText(dto.value.readmeContent, ReadmeMissing)
    case Fail => failed
  }

  /** The text a settled values fetch with a non-null body leaves in the values field. */
  function ValuesText(o: Outcome<Option<ChartValuesDto>>, failed: string): string
    requires !NullPayload(o)
  {
    match o
    case Ok(dto) => OrText(dto.value.valuesContent, ValuesMissing)
    case Fail => failed
  }

  /** The copy button's condition: non-empty text that mentions neither failure marker. */
  predicate CopyVisible(text: string) {
    text != "" && !Contains(text, FailedMarker) && !Contains(text, ErrorMarker)
  }

  lemma NotContainsChar(s: string, t: string, c: char)
    requires c in t && c !in s
    ensures !Contains(s, t)
  {
    ContainsIff(s, t);
  }

  lemma StartsWith(marker: string, rest: string)
    ensures Contains(marker + rest, marker)
  {
    assert (marker + rest)[..|marker|] == marker;
  }

  /** After any failure, of a single fetch or of the whole wave, the copy button is hidden. */
  lemma CopyHiddenAfterFailure()
    ensures !CopyVisible(ReadmeFailed) && !CopyVisible(ValuesFailed)
    ensures !CopyVisible(ReadmeVersionFailed) && !CopyVisible(ValuesVersionFailed)
    ensures !CopyVisible(ReadmeError) && !CopyVisible(ValuesError)
  {
    StartsWith(FailedMarker, " README from the repository.");
    StartsWith(FailedMarker, " values.yaml from the repository.");
    StartsWith(ErrorMarker, " README due to network or server issues.");
    StartsWith(ErrorMarker, " values.yaml due to network or server issues.");
    assert ReadmeFailed[..|FailedMarker|] == ReadmeVersionFailed[..|FailedMarker|];
    assert ValuesFailed[..|FailedMarker|] == ValuesVersionFailed[..|FailedMarker|];
    ContainsPrefix(ReadmeFailed, FailedMarker);
    ContainsPrefix(ValuesFailed, FailedMarker);
  }

  /** A fulfilled fetch with no content still offers the copy button on its "No ... available" text. */
  lemma CopyShownWhenMissing()
    ensures CopyVisible(ReadmeMissing) && CopyVisible(ValuesMissing)
  {
    assert forall i :: 0 <= i < |ReadmeMissing| ==> ReadmeMissing[i] != 'F' && ReadmeMissing[i] != 'g';
    assert forall i :: 0 <= i < |ValuesMissing| ==> ValuesMissing[i] != 'F' && ValuesMissing[i] != 'g';
    NotContainsChar(ReadmeMissing, FailedMarker, 'F');
    NotContainsChar(ReadmeMissing, ErrorMarker, 'g');
    NotContainsChar(ValuesMissing, FailedMarker, 'F');
    NotContainsChar(ValuesMissing, ErrorMarker, 'g');
  }

  /** A rejected fetch, in either wave, always hides the copy button for its field. */
  lemma CopyHiddenAfterRejection(failed: string)
    requires failed in {ReadmeFailed, ReadmeVersionFailed, ValuesFailed, ValuesVersionFailed}
    ensures !CopyVisible(ReadmeText(Fail, failed)) && !CopyVisible(ValuesText(Fail, failed))
  {
    CopyHiddenAfterFailure();
  }

  /** `versionHistory.find(v => v.version === version)`: the first entry with that version. */
  function FindVersion(history: seq<VersionHistory>, version: string): (r: Option<VersionHistory>)
    ensures r.None? <==> forall e :: e in history ==> e.version != version
    ensures r.Some? ==> exists i :: 0 <= i < |history| && history[i] == r.value && r.value.version == version &&
                          forall j :: 0 <= j < i ==> history[j].version != version
  {
    if history == [] then None
    else if history[0].version == version then Some(history[0])
    else
      var r := FindVersion(history[1..], version);
      assert forall e :: e in history ==> e == history[0] || e in history[1..];
      if r.Some? then
        var i :| 0 <= i < |history[1..]| && history[1..][i] == r.value && r.value.version == version &&
                 forall j :: 0 <= j < i ==> history[1..][j].version != version;
        assert history[i + 1] == r.value;
        r
      else r
  }

  /** The App Version shown: the selected version's entry when it has a non-empty one, else the chart's own. */
  function AppVersionFor(history: seq<VersionHistory>, selectedVersion: string, chartAppVersion: Option<string>): (r: Option<string>)
    ensures (forall e :: e in history ==> e.version != selectedVersion) ==> r == chartAppVersion
  {
    match FindVersion(history, selectedVersion)
    case Some(e) => if e.appVersion != "" then Some(e.appVersion) else chartAppVersion
    case None => chartAppVersion
  }

  /**
   * The first matching entry decides, even when a later entry has the same version: its app version
   * when non-empty, otherwise the chart's own, whatever later entries hold.
   */
  lemma AppVersionFirstEntry(history: seq<VersionHistory>, i: nat, chartAppVersion: Option<string>)
    requires i < |history|
    requires forall j :: 0 <= j < i ==> history[j].version != history[i].version
    ensures AppVersionFor(history, history[i].version, chartAppVersion) ==
            if history[i].appVersion != "" then Some(history[i].appVersion) else chartAppVersion
  {
    var v := history[i].version;
    var r := FindVersion(history, v);
    var k :| 0 <= k < |history| && history[k] == r.value && r.value.version == v &&
             forall j :: 0 <= j < k ==> history[j].version != v;
    if k < i {
      assert false;
    } else if k > i {
      assert false;
    }
  }

  /** An empty app version on the first matching entry falls back to the chart's, although a later duplicate has one. */
  lemma AppVersionEmptyFirstEntry()
    ensures AppVersionFor([VersionHistory("1.0.0", "", "t0"), VersionHistory("1.0.0", "2.0", "t1")], "1.0.0", Some("1.9")) == Some("1.9")
  {
    AppVersionFirstEntry([VersionHistory("1.0.0", "", "t0"), VersionHistory("1.0.0", "2.0", "t1")], 0, Some("1.9"));
  }

  datatype InstallCommand = InstallCommand(title: string, command: string, description: string)

  /** `getInstallCommands`: add the repository named by the first segment, update, install the selected version. */
  function InstallCommands(repository: string, chartName: string, selectedVersion: string): (cmds: seq<InstallCommand>)
    ensures |cmds| == 3
    ensures cmds[0].title == "Add Repository" && cmds[1].title == "Update Repository" && cmds[2].title == "Install Chart"
    ensures cmds[0].command == "helm repo add " + FirstSegment(repository) + " https://charts." + FirstSegment(repository) + ".io"
    ensures cmds[1].command == "helm repo update"
    ensures cmds[2].command == "helm install my-" + chartName + " " + repository + " --version " + selectedVersion
  {
    var alias := FirstSegment(repository);
    [ InstallCommand("Add Repository", "helm repo add " + alias + " https://charts." + alias + ".io",
                     "Add the Helm repository to your local setup"),
      InstallCommand("Update Repository", "helm repo update", "Update your local repository cache"),
      InstallCommand("Install Chart", "helm install my-" + chartName + " " + repository + " --version " + selectedVersion,
                     "Install the chart version " + selectedVersion + " with default values") ]
  }

  /** The alias added for `owner/chart` is `owner`, and the install line pins the selected version. */
  lemma InstallCommandsForComposite(owner: string, rest: string, chartName: string, selectedVersion: string)
    requires '/' !in owner
    ensures var cmds := InstallCommands(owner + "/" + rest, chartName, selectedVersion);
      && cmds[0].command == "helm repo add " + owner + " https://charts." + owner + ".io"
      && cmds[2].command == "helm install my-" + chartName + " " + owner + "/" + rest + " --version " + selectedVersion
  {
    BeforeSplit(owner, '/', rest);
  }

  /** A repository string without `/` is added whole as the alias, and installed from under that name. */
  lemma InstallCommandsWithoutSlash(repository: string, chartName: string, selectedVersion: string)
    requires '/' !in repository
    ensures var cmds := InstallCommands(repository, chartName, selectedVersion);
      && cmds[0].command == "helm repo add " + repository + " https://charts." + repository + ".io"
      && cmds[2].command == "helm install my-" + chartName + " " + repository + " --version " + selectedVersion
  {
    var alias := FirstSegment(repository);
    assert alias == repository[..|alias|];
  }

  /** The requests of an initial wave: readme and values at the chart's version, then the detail record. */
  function InitialRequests(repoName: string, chart: HelmChart): seq<string> {
    [ ChartService.ReadmePath(repoName, chart.name, Some(chart.version)),
      ChartService.ValuesPath(repoName, chart.name, Some(chart.version)),
      ChartService.DetailPath(repoName, chart.name) ]
  }

  /** The requests of a version wave: readme and values at the selected version only. */
  function VersionRequests(repoName: string, chart: HelmChart, version: string): seq<string> {
    [ ChartService.ReadmePath(repoName, chart.name, Some(version)),
      ChartService.ValuesPath(repoName, chart.name, Some(version)) ]
  }

  /** The chart record the view was opened on; a successful detail fetch overwrites its maintainers in place. */
  class ChartObject {
    const info: HelmChart
    var maintainers: seq<Maintainer>

    constructor (info: HelmChart)
      ensures this.info == info && maintainers == info.maintainers
    {
      this.info := info;
      maintainers := info.maintainers;
    }
  }

  /** A version wave whose fetches have been issued and not yet applied. */
  datatype VersionWave = VersionWave(repoName: string, version: string)

  /** Whether one of the initial wave's fulfilled fetches carries a null body, which throws before the wave completes. */
  predicate AnyNullPayload(readme: Outcome<Option<ChartReadmeDto>>, values: Outcome<Option<ChartValuesDto>>,
                           detail: Outcome<Option<ChartDetailDto>>) {
    NullPayload(readme) || NullPayload(values) || NullPayload(detail)
  }

  /** The readme text, values text and whether the `try` threw, after a version wave settles. */
  datatype Settlement = Settlement(readme: string, values: string, threw: bool)

  /**
   * A version wave's settlement, step by step as the `try` block runs: the readme text is set
   * unless its body is null, then the values text unless its body is null; the first null body
   * ends the block, leaving every later field as it was.
   */
  function VersionSettlement(readmeBefore: string, valuesBefore: string,
                             readme: Outcome<Option<ChartReadmeDto>>, values: Outcome<Option<ChartValuesDto>>): (s: Settlement)
    ensures s.threw <==> NullPayload(readme) || NullPayload(values)
    ensures NullPayload(readme) ==> s.readme == readmeBefore && s.values == valuesBefore
    ensures !NullPayload(readme) ==> s.readme == ReadmeText(readme, ReadmeVersionFailed)
    ensures !NullPayload(readme) && NullPayload(values) ==> s.values == valuesBefore
    ensures !NullPayload(readme) && !NullPayload(values) ==> s.values == ValuesText(values, ValuesVersionFailed)
  {
    if NullPayload(readme) then Settlement(readmeBefore, valuesBefore, true)
    else if NullPayload(values) then Settlement(ReadmeText(readme, ReadmeVersionFailed), valuesBefore, true)
    else Settlement(ReadmeText(readme, ReadmeVersionFailed), ValuesText(values, ValuesVersionFailed), false)
  }

  /** A rejected readme fetch in a version wave never changes the values text, and the reverse. */
  lemma VersionSettlementIndependent(readmeBefore: string, valuesBefore: string,
                                     readme: Outcome<Option<ChartReadmeDto>>, values: Outcome<Option<ChartValuesDto>>)
    requires !NullPayload(readme) && !NullPayload(values)
    ensures VersionSettlement(readmeBefore, valuesBefore, readme, values).values ==
            VersionSettlement(readmeBefore, valuesBefore, Fail, values).values
    ensures VersionSettlement(readmeBefore, valuesBefore, readme, values).readme ==
            VersionSettlement(readmeBefore, valuesBefore, readme, Fail).readme
    ensures !VersionSettlement(readmeBefore, valuesBefore, readme, values).threw
  {
  }

  /** The detail view's state, as the component keeps it. */
  class DetailView {
    const chart: ChartObject
    var readmeContent: string
    var valuesContent: string
    var versionHistory: seq<VersionHistory>
    var chartSources: string
    var loading: bool
    var versionLoading: bool
    var error: Option<string>
    var selectedVersion: string

    constructor (chart: ChartObject)
      ensures this.chart == chart
      ensures readmeContent == ReadmeLoading && valuesContent == ValuesLoading
      ensures versionHistory == [] && chartSources == ""
      ensures loading && !versionLoading && error == None
      ensures selectedVersion == chart.info.version
    {
      this.chart := chart;
      readmeContent := ReadmeLoading;
      valuesContent := ValuesLoading;
      versionHistory := [];
      chartSources := "";
      loading := true;
      versionLoading := false;
      error := None;
      selectedVersion := chart.info.version;
    }

    /** The initial wave's `catch` block: the error is reported and both texts become error placeholders. */
    method AbortInitialWave()
      modifies this`error, this`readmeContent, this`valuesContent
      ensures error == Some(DetailsError) && readmeContent == ReadmeError && valuesContent == ValuesError
    {
      error := Some(DetailsError);
      readmeContent := ReadmeError;
      valuesContent := ValuesError;
    }

    /**
     * `fetchChartDetails`: resolve the repository, then apply the three settled fetches, each to its
     * own fields. An unresolved repository issues no request, and a null body in any fulfilled fetch
     * throws; both end in the `catch` block, which sets the error placeholders and leaves the
     * history, sources and maintainers as they were.
     */
    method FetchChartDetails(readme: Outcome<Option<ChartReadmeDto>>, values: Outcome<Option<ChartValuesDto>>,
                             detail: Outcome<Option<ChartDetailDto>>)
      returns (requests: seq<string>)
      modifies this, chart
      ensures !loading
      ensures versionLoading == old(versionLoading) && selectedVersion == old(selectedVersion)
      ensures match ResolveRepoName(chart.info.repositoryName, chart.info.repository)
        case None => requests == []
        case Some(repoName) => requests == InitialRequests(repoName, chart.info)
      ensures ResolveRepoName(chart.info.repositoryName, chart.info.repository).None? || AnyNullPayload(readme, values, detail) ==>
        && error == Some(DetailsError)
        && readmeContent == ReadmeError && valuesContent == ValuesError
        && versionHistory == old(versionHistory) && chartSources == old(chartSources)
        && chart.maintainers == old(chart.maintainers)
      ensures ResolveRepoName(chart.info.repositoryName, chart.info.repository).Some? && !AnyNullPayload(readme, values, detail) ==>
        && error == None
        && readmeContent == ReadmeText(readme, ReadmeFailed)
        && valuesContent == ValuesText(values, ValuesFailed)
        && versionHistory == (if detail.Ok? then OrEmpty(detail.payload.value.versionHistory) else [])
        && chartSources == (if detail.Ok? then OrText(detail.payload.value.source, "") else "")
        && chart.maintainers == (if detail.Ok? then OrEmpty(detail.payload.value.maintainers) else old(chart.maintainers))
    {
      loading := true;
      error := None;
      var repo := ResolveRepoName(chart.info.repositoryName, chart.info.repository);
      if repo.None? {
        requests := [];
        AbortInitialWave();
      } else {
        requests := InitialRequests(repo.value, chart.info);
        if NullPayload(readme) {
          AbortInitialWave();
        } else {
          readmeContent := ReadmeText(readme, ReadmeFailed);
          if NullPayload(values) {
            AbortInitialWave();
          } else {
            valuesContent := ValuesText(values, ValuesFailed);
            match detail {
              case Ok(Some(dto)) =>
                versionHistory := OrEmpty(dto.versionHistory);
                chart.maintainers := OrEmpty(dto.maintainers);
                chartSources := OrText(dto.source, "");
              case Ok(None) =>
                AbortInitialWave();
              case Fail =>
                versionHistory := [];
                chartSources := "";
            }
          }
        }
      }
      loading := false;
    }

    /**
     * A change of the version selector, and the effect it triggers: a new value starts a version
     * wave unless the initial wave is still loading. The wave's synchronous part runs here: an
     * unresolved repository ends it at once with an error and leaves both texts as they were.
     */
    method SelectVersion(version: string) returns (wave: Option<VersionWave>, requests: seq<string>)
      modifies this
      ensures selectedVersion == version
      ensures loading == old(loading) && versionHistory == old(versionHistory) && chartSources == old(chartSources)
      ensures readmeContent == old(readmeContent) && valuesContent == old(valuesContent)
      ensures version == old(selectedVersion) || old(loading) ==>
        wave.None? && requests == [] && versionLoading == old(versionLoading) && error == old(error)
      ensures version != old(selectedVersion) && !old(loading) ==>
        match ResolveRepoName(chart.info.repositoryName, chart.info.repository)
        case None => wave.None? && requests == [] && !versionLoading && error == Some(VersionError)
        case Some(repoName) =>
          && wave == Some(VersionWave(repoName, version))
          && requests == VersionRequests(repoName, chart.info, version)
          && versionLoading && error == None
    {
      var changed := version != selectedVersion;
      selectedVersion := version;
      wave, requests := None, [];
      if changed && !loading {
        versionLoading := true;
        error := None;
        var repo := ResolveRepoName(chart.info.repositoryName, chart.info.repository);
        if repo.None? {
          error := Some(VersionError);
          versionLoading := false;
        } else {
          wave := Some(VersionWave(repo.value, version));
          requests := VersionRequests(repo.value, chart.info, version);
        }
      }
    }

    /**
     * The settlement of a version wave. Nothing compares the wave with the current selection:
     * whichever wave settles last decides the texts it reaches, and any settlement clears
     * `versionLoading`. A null body ends the `try` with the version error.
     */
    method SettleVersionWave(wave: VersionWave, readme: Outcome<Option<ChartReadmeDto>>, values: Outcome<Option<ChartValuesDto>>)
      modifies this
      ensures var s := VersionSettlement(old(readmeContent), old(valuesContent), readme, values);
        && readmeContent == s.readme && valuesContent == s.values
        && error == (if s.threw then Some(VersionError) else old(error))
      ensures !versionLoading
      ensures selectedVersion == old(selectedVersion) && loading == old(loading)
      ensures versionHistory == old(versionHistory) && chartSources == old(chartSources)
    {
      if NullPayload(readme) {
        error := Some(VersionError);
      } else {
        readmeContent := ReadmeText(readme, ReadmeVersionFailed);
        if NullPayload(values) {
          error := Some(VersionError);
        } else {
          valuesContent := ValuesText(values, ValuesVersionFailed);
        }
      }
      versionLoading := false;
    }
  }

  /** A version wave tagged with the generation it was started in. */
  datatype Ticket = Ticket(wave: VersionWave, token: nat)

  /**
   * A variant of the view that discards stale settlements: every change of the selection starts a
   * new generation, and a wave's settlement is applied only while its generation is current.
   */
  class GuardedDetailView {
    const view: DetailView
    var generation: nat
    ghost var issued: set<Ticket>

    ghost predicate Valid()
      reads this, view
    {
      forall t :: t in issued ==> t.token <= generation && (t.token == generation ==> t.wave.version == view.selectedVersion)
    }

    constructor (chart: ChartObject)
      ensures Valid() && fresh(view) && view.chart == chart
      ensures view.selectedVersion == chart.info.version && view.loading
      ensures generation == 0 && issued == {}
    {
      view := new DetailView(chart);
      generation := 0;
      issued := {};
    }

    /** The initial wave, exactly as in the plain view; it starts no generation. */
    method FetchChartDetails(readme: Outcome<Option<ChartReadmeDto>>, values: Outcome<Option<ChartValuesDto>>,
                             detail: Outcome<Option<ChartDetailDto>>)
      returns (requests: seq<string>)
      requires Valid()
      modifies view, view.chart
      ensures Valid() && generation == old(generation) && issued == old(issued)
      ensures !view.loading
      ensures view.versionLoading == old(view.versionLoading) && view.selectedVersion == old(view.selectedVersion)
      ensures match ResolveRepoName(view.chart.info.repositoryName, view.chart.info.repository)
        case None => requests == []
        case Some(repoName) => requests == InitialRequests(repoName, view.chart.info)
      ensures ResolveRepoName(view.chart.info.repositoryName, view.chart.info.repository).None? || AnyNullPayload(readme, values, detail) ==>
        && view.error == Some(DetailsError)
        && view.readmeContent == ReadmeError && view.valuesContent == ValuesError
        && view.versionHistory == old(view.versionHistory) && view.chartSources == old(view.chartSources)
        && view.chart.maintainers == old(view.chart.maintainers)
      ensures ResolveRepoName(view.chart.info.repositoryName, view.chart.info.repository).Some? && !AnyNullPayload(readme, values, detail) ==>
        && view.error == None
        && view.readmeContent == ReadmeText(readme, ReadmeFailed)
        && view.valuesContent == ValuesText(values, ValuesFailed)
        && view.versionHistory == (if detail.Ok? then OrEmpty(detail.payload.value.versionHistory) else [])
        && view.chartSources == (if detail.Ok? then OrText(detail.payload.value.source, "") else "")
        && view.chart.maintainers == (if detail.Ok? then OrEmpty(detail.payload.value.maintainers) else old(view.chart.maintainers))
    {
      requests := view.FetchChartDetails(readme, values, detail);
    }

    /** A change of the version selector, as in the plain view; a changed selection also starts a new generation. */
    method SelectVersion(version: string) returns (ticket: Option<Ticket>, requests: seq<string>)
      requires Valid()
      modifies this, view
      ensures Valid() && view.selectedVersion == version
      ensures generation == if version != old(view.selectedVersion) then old(generation) + 1 else old(generation)
      ensures issued == old(issued) + (if ticket.Some? then {ticket.value} else {})
      ensures view.loading == old(view.loading)
      ensures view.versionHistory == old(view.versionHistory) && view.chartSources == old(view.chartSources)
      ensures view.readmeContent == old(view.readmeContent) && view.valuesContent == old(view.valuesContent)
      ensures version == old(view.selectedVersion) || old(view.loading) ==>
        ticket.None? && requests == [] && view.versionLoading == old(view.versionLoading) && view.error == old(view.error)
      ensures version != old(view.selectedVersion) && !old(view.loading) ==>
        match ResolveRepoName(view.chart.info.repositoryName, view.chart.info.repository)
        case None => ticket.None? && requests == [] && !view.versionLoading && view.error == Some(VersionError)
        case Some(repoName) =>
          && ticket == Some(Ticket(VersionWave(repoName, version), generation))
          && requests == VersionRequests(repoName, view.chart.info, version)
          && view.versionLoading && view.error == None
    {
      if version != view.selectedVersion {
        generation := generation + 1;
      }
      var wave;
      wave, requests := view.SelectVersion(version);
      if wave.Some? {
        ticket := Some(Ticket(wave.value, generation));
        issued := issued + {ticket.value};
      } else {
        ticket := None;
      }
    }

    /** Applies a settlement only if no newer selection happened since its wave started. */
    method Settle(ticket: Ticket, readme: Outcome<Option<ChartReadmeDto>>, values: Outcome<Option<ChartValuesDto>>) returns (applied: bool)
      requires Valid() && ticket in issued
      modifies view
      ensures Valid()
      ensures applied == (ticket.token == generation)
      ensures applied ==>
        var s := VersionSettlement(old(view.readmeContent), old(view.valuesContent), readme, values);
        && ticket.wave.version == view.selectedVersion
        && view.readmeContent == s.readme && view.valuesContent == s.values
        && view.error == (if s.threw then Some(VersionError) else old(view.error))
        && !view.versionLoading
        && view.loading == old(view.loading) && view.selectedVersion == old(view.selectedVersion)
        && view.versionHistory == old(view.versionHistory) && view.chartSources == old(view.chartSources)
      ensures !applied ==> unchanged(view)
    {
      applied := ticket.token == generation;
      if applied {
        view.SettleVersionWave(ticket.wave, readme, values);
      }
    }
  }

  /** A chart with only the fields the scenarios below need. */
  function SampleChart(version: string): HelmChart {
    HelmChart("chart-0-nginx", "nginx", version, "web server", Some("1.25"), None, None, None, None, None, None,
              [], [], None, "demo/nginx", Some("demo"), "t", "t", "networking", [])
  }

  /**
   * The plain view under two quick version switches (1.1.0, then 1.0.0) whose waves settle out
   * of order: the superseded 1.1.0 wave settles last and its readme stays.
   */
  method PlainOutOfOrder() returns (selected: string, readme: string)
    ensures selected == "1.0.0" && readme == "readme 1.1.0"
  {
    var readme1 := Ok(Some(ChartReadmeDto(Some("readme 1.1.0"))));
    var readme2 := Ok(Some(ChartReadmeDto(Some("readme 1.0.0"))));
    var values := Ok(Some(ChartValuesDto(Some("replicas: 1"))));
    var chart := new ChartObject(SampleChart("1.2.0"));
    var plain := new DetailView(chart);
    var _ := plain.FetchChartDetails(readme1, values, Ok(Some(ChartDetailDto(None, None, None))));
    var w1, _ := plain.SelectVersion("1.1.0");
    var w2, _ := plain.SelectVersion("1.0.0");
    assert w1.Some? && w2.Some?;
    plain.SettleVersionWave(w2.value, readme2, values);
    plain.SettleVersionWave(w1.value, readme1, values);
    selected, readme := plain.selectedVersion, plain.readmeContent;
  }

  /** The same switches and settlements on the guarded view: the stale wave is refused. */
  method GuardedOutOfOrder() returns (selected: string, readme: string)
    ensures selected == "1.0.0" && readme == "readme 1.0.0"
  {
    var readme1 := Ok(Some(ChartReadmeDto(Some("readme 1.1.0"))));
    var readme2 := Ok(Some(ChartReadmeDto(Some("readme 1.0.0"))));
    var values := Ok(Some(ChartValuesDto(Some("replicas: 1"))));
    var chart := new ChartObject(SampleChart("1.2.0"));
    var guarded := new GuardedDetailView(chart);
    var _ := guarded.FetchChartDetails(readme1, values, Ok(Some(ChartDetailDto(None, None, None))));
    var t1, _ := guarded.SelectVersion("1.1.0");
    var t2, _ := guarded.SelectVersion("1.0.0");
    assert t1.Some? && t2.Some?;
    var applied2 := guarded.Settle(t2.value, readme2, values);
    var applied1 := guarded.Settle(t1.value, readme1, values);
    assert applied2 && !applied1;
    selected, readme := guarded.view.selectedVersion, guarded.view.readmeContent;
  }

  /**
   * Two quick version switches whose waves settle out of order: both views end on 1.0.0, but the
   * plain view shows the superseded version's readme and the guarded view the current one's.
   */
  method OutOfOrderSettlement() returns (plainReadme: string, guardedReadme: string)
    ensures plainReadme == "readme 1.1.0" && guardedReadme == "readme 1.0.0"
  {
    var plainSelected, guardedSelected;
    plainSelected, plainReadme := PlainOutOfOrder();
    guardedSelected, guardedReadme := GuardedOutOfOrder();
    assert plainSelected == guardedSelected;
  }

  /**
   * A fulfilled values fetch with a null body discards a readme that had loaded: the `catch`
   * block overwrites both texts with the error placeholders.
   */
  method NullValuesDiscardsReadme()
  {
    var chart := new ChartObject(SampleChart("1.2.0"));
    var view := new DetailView(chart);
    var _ := view.FetchChartDetails(Ok(Some(ChartReadmeDto(Some("# nginx")))), Ok(None), Fail);
    assert view.readmeContent == ReadmeError && view.error == Some(DetailsError);
  }
}
