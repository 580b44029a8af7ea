/**
 * The catalog hub (src/components/HelmHub.tsx): the repository directory, the listing fan-out
 * over every repository or one named repository, and the switch between listing and detail.
 * A repository's listing response is given as a function of its name.
 */
module HelmHub {
  import opened Wrappers
  import opened Types
  import opened ChartMapper

  const AllScope: string := "all"
  const ListingError: string := "Failed to fetch charts from the repository. Please check your connection and try again."

  /** One entry of the repository selector. */
  datatype SelectorEntry = SelectorEntry(value: string, caption: string)

  /** `repositoryCategories`: the "all" entry, then one entry per repository in directory order. */
  function RepositoryCategories(repositories: seq<HelmRepoEntity>): (r: seq<SelectorEntry>)
    ensures |r| == |repositories| + 1
    ensures r[0] == SelectorEntry(AllScope, "전체")
    ensures forall i :: 0 <= i < |repositories| ==> r[i + 1] == SelectorEntry(repositories[i].name, repositories[i].name)
  {
    [SelectorEntry(AllScope, "전체")] + seq(|repositories|, i requires 0 <= i < |repositories| => SelectorEntry(repositories[i].name, repositories[i].name))
  }

  /** Every scope the selector offers is "all" or the name of a listed repository, and every repository is offered. */
  lemma SelectorOffersExactlyTheRepositories(repositories: seq<HelmRepoEntity>, value: string)
    ensures (exists e :: e in RepositoryCategories(repositories) && e.value == value) <==>
            (value == AllScope || exists repo :: repo in repositories && repo.name == value)
  {
    var r := RepositoryCategories(repositories);
    if exists repo :: repo in repositories && repo.name == value {
      var repo :| repo in repositories && repo.name == value;
      var i :| 0 <= i < |repositories| && repositories[i] == repo;
      assert r[i + 1].value == value;
    }
    if exists e :: e in r && e.value == value {
      var e :| e in r && e.value == value;
      var k :| 0 <= k < |r| && r[k] == e;
      if k > 0 {
        assert repositories[k - 1] in repositories;
      }
    }
  }

  /** The effect's condition for fetching charts. */
  predicate ShouldFetchCharts(repositories: seq<HelmRepoEntity>, selectedRepo: string) {
    |repositories| > 0 || selectedRepo == AllScope
  }

  /** One repository's share of the "all" listing: its mapped charts, or nothing when its fetch failed. */
  function Contribution(repo: HelmRepoEntity, listing: string -> Outcome<seq<Chart>>, now: string): seq<HelmChart> {
    match listing(repo.name)
    case Ok(charts) => MapChartsToHelmCharts(charts, repo.name, now)
    case Fail => []
  }

  /** The flattened fan-out: contributions concatenated in directory order. */
  function MergeAll(repositories: seq<HelmRepoEntity>, listing: string -> Outcome<seq<Chart>>, now: string): seq<HelmChart> {
    if repositories == [] then []
    else Contribution(repositories[0], listing, now) + MergeAll(repositories[1..], listing, now)
  }

  /** Every merged chart is tagged with a repository of the directory whose own fetch succeeded. */
  lemma {:induction false} MergedChartsComeFromSucceedingRepositories(repositories: seq<HelmRepoEntity>,
                                                                     listing: string -> Outcome<seq<Chart>>, now: string, h: HelmChart)
    requires h in MergeAll(repositories, listing, now)
    ensures exists i :: 0 <= i < |repositories| && listing(repositories[i].name).Ok? && h.repositoryName == Some(repositories[i].name)
  {
    var first := Contribution(repositories[0], listing, now);
    if h in first {
      assert listing(repositories[0].name).Ok?;
      assert h.repositoryName == Some(repositories[0].name);
    } else {
      MergedChartsComeFromSucceedingRepositories(repositories[1..], listing, now, h);
      var j :| 0 <= j < |repositories[1..]| && listing(repositories[1..][j].name).Ok? && h.repositoryName == Some(repositories[1..][j].name);
      assert repositories[j + 1] == repositories[1..][j];
    }
  }

  /** The merge distributes over a split of the directory. */
  lemma {:induction false} MergeAllAppend(xs: seq<HelmRepoEntity>, ys: seq<HelmRepoEntity>, listing: string -> Outcome<seq<Chart>>, now: string)
    ensures MergeAll(xs + ys, listing, now) == MergeAll(xs, listing, now) + MergeAll(ys, listing, now)
  {
    if xs == [] {
      assert xs + ys == ys;
    } else {
      var zs := xs + ys;
      assert zs[0] == xs[0];
      assert zs[1..] == xs[1..] + ys;
      MergeAllAppend(xs[1..], ys, listing, now);
      calc {
        MergeAll(zs, listing, now);
        Contribution(xs[0], listing, now) + MergeAll(xs[1..] + ys, listing, now);
        Contribution(xs[0], listing, now) + (MergeAll(xs[1..], listing, now) + MergeAll(ys, listing, now));
        MergeAll(xs, listing, now) + MergeAll(ys, listing, now);
      }
    }
  }

  /** A failing repository contributes nothing: the merge is as if it were not in the directory. */
  lemma FailingRepositoryIgnored(before: seq<HelmRepoEntity>, repo: HelmRepoEntity, after: seq<HelmRepoEntity>,
                                 listing: string -> Outcome<seq<Chart>>, now: string)
    requires listing(repo.name).Fail?
    ensures MergeAll(before + [repo] + after, listing, now) == MergeAll(before + after, listing, now)
  {
    var single := [repo];
    assert single[1..] == [];
    assert Contribution(repo, listing, now) == [];
    assert MergeAll(single, listing, now) == [];
    MergeAllAppend(before + single, after, listing, now);
    MergeAllAppend(before, single, listing, now);
    MergeAllAppend(before, after, listing, now);
    assert MergeAll(before + single, listing, now) == MergeAll(before, listing, now);
  }

  /** A succeeding repository's whole mapped listing appears, at its place in directory order. */
  lemma SucceedingRepositoryIncluded(before: seq<HelmRepoEntity>, repo: HelmRepoEntity, after: seq<HelmRepoEntity>,
                                     listing: string -> Outcome<seq<Chart>>, now: string)
    requires listing(repo.name).Ok?
    ensures MergeAll(before + [repo] + after, listing, now) ==
      MergeAll(before, listing, now) + MapChartsToHelmCharts(listing(repo.name).payload, repo.name, now) + MergeAll(after, listing, now)
  {
    var single := [repo];
    assert single[1..] == [];
    assert MergeAll(single, listing, now) == MapChartsToHelmCharts(listing(repo.name).payload, repo.name, now) + [];
    MergeAllAppend(before + single, after, listing, now);
    MergeAllAppend(before, single, listing, now);
  }

  /** When every repository fails, the "all" listing is empty. */
  lemma {:induction false} AllFailingGivesEmpty(repositories: seq<HelmRepoEntity>, listing: string -> Outcome<seq<Chart>>, now: string)
    requires forall repo :: repo in repositories ==> listing(repo.name).Fail?
    ensures MergeAll(repositories, listing, now) == []
  {
    if repositories != [] {
      assert repositories[0] in repositories;
      AllFailingGivesEmpty(repositories[1..], listing, now);
    }
  }

  /**
   * The listing state a chart fetch for `scope` leaves: for "all" the merged fan-out and no error;
   * for a named repository its mapped listing, or the error message and no charts when its call fails.
   */
  predicate ListingAfterFetch(scope: string, repositories: seq<HelmRepoEntity>, listing: string -> Outcome<seq<Chart>>, now: string,
                              charts: seq<HelmChart>, error: Option<string>) {
    if scope == AllScope then error == None && charts == MergeAll(repositories, listing, now)
    else match listing(scope)
      case Ok(list) => error == None && charts == MapChartsToHelmCharts(list, scope, now)
      case Fail => error == Some(ListingError) && charts == []
  }

  /** The directory a repository fetch leaves: the returned list, or none when the call fails or its body is null. */
  function DirectoryAfterFetch(response: DirectoryResponse): seq<HelmRepoEntity> {
    match response
    case Ok(Some(repos)) => repos
    case _ => []
  }

  /** What the hub renders. */
  datatype HubView = Catalog | Detail(chart: HelmChart)

  /** The hub's state, as the component keeps it. */
  class Hub {
    var repositories: seq<HelmRepoEntity>
    var reposLoading: bool
    var selectedRepo: string
    var charts: seq<HelmChart>
    var loading: bool
    var error: Option<string>
    var selectedChart: Option<HelmChart>
    var showDeployModal: bool

    constructor ()
      ensures repositories == [] && !reposLoading && selectedRepo == AllScope
      ensures charts == [] && !loading && error == None
      ensures selectedChart == None && !showDeployModal
    {
      repositories := [];
      reposLoading := false;
      selectedRepo := AllScope;
      charts := [];
      loading := false;
      error := None;
      selectedChart := None;
      showDeployModal := false;
    }

    /** The detail view is shown exactly when a chart is selected and the deploy modal is closed. */
    function View(): (v: HubView)
      reads this
      ensures v.Detail? <==> selectedChart.Some? && !showDeployModal
    {
      if selectedChart.Some? && !showDeployModal then Detail(selectedChart.value) else Catalog
    }

    /**
     * `fetchRepositories`: the directory as returned; a failed call, or a null body (whose `length`
     * throws inside the `try`), leaves no repositories.
     */
    method FetchRepositories(response: DirectoryResponse)
      modifies this`repositories, this`reposLoading
      ensures !reposLoading
      ensures repositories == DirectoryAfterFetch(response)
    {
      reposLoading := true;
      match response {
        case Ok(Some(repos)) => repositories := repos;
        case Ok(None) => repositories := [];
        case Fail => repositories := [];
      }
      reposLoading := false;
    }

    /**
     * `fetchCharts`: for the "all" scope the merged fan-out, which never fails as a whole; for a
     * named repository its own listing, or an error and no charts when that call fails.
     */
    method FetchCharts(listing: string -> Outcome<seq<Chart>>, now: string)
      modifies this`charts, this`loading, this`error
      ensures !loading
      ensures ListingAfterFetch(selectedRepo, repositories, listing, now, charts, error)
    {
      loading := true;
      error := None;
      if selectedRepo == AllScope {
        if |repositories| > 0 {
          charts := MergeAll(repositories, listing, now);
        } else {
          charts := [];
        }
      } else {
        match listing(selectedRepo) {
          case Ok(list) =>
            charts := MapChartsToHelmCharts(list, selectedRepo, now);
          case Fail =>
            error := Some(ListingError);
            charts := [];
        }
      }
      loading := false;
    }

    /** A change of the repository selector and the effect it triggers. */
    method SelectRepository(repo: string, listing: string -> Outcome<seq<Chart>>, now: string) returns (fetched: bool)
      modifies this`selectedRepo, this`charts, this`loading, this`error
      ensures selectedRepo == repo
      ensures fetched == (repo != old(selectedRepo) && ShouldFetchCharts(repositories, repo))
      ensures !fetched ==> charts == old(charts) && loading == old(loading) && error == old(error)
      ensures fetched ==> !loading && ListingAfterFetch(repo, repositories, listing, now, charts, error)
    {
      var changed := repo != selectedRepo;
      selectedRepo := repo;
      fetched := changed && ShouldFetchCharts(repositories, repo);
      if fetched {
        FetchCharts(listing, now);
      }
    }

    /** Reloading the directory, and the effect that the new repository list triggers. */
    method LoadRepositories(response: DirectoryResponse, listing: string -> Outcome<seq<Chart>>, now: string) returns (fetched: bool)
      modifies this`repositories, this`reposLoading, this`charts, this`loading, this`error
      ensures !reposLoading && repositories == DirectoryAfterFetch(response)
      ensures fetched == ShouldFetchCharts(repositories, selectedRepo)
      ensures !fetched ==> charts == old(charts) && loading == old(loading) && error == old(error)
      ensures fetched ==> !loading && ListingAfterFetch(selectedRepo, repositories, listing, now, charts, error)
    {
      FetchRepositories(response);
      fetched := ShouldFetchCharts(repositories, selectedRepo);
      if fetched {
        FetchCharts(listing, now);
      }
    }

    /** `handleChartSelect`. */
    method SelectChart(chart: HelmChart)
      modifies this`selectedChart
      ensures selectedChart == Some(chart)
      ensures View() == if showDeployModal then Catalog else Detail(chart)
    {
      selectedChart := Some(chart);
    }

    /** `handleDeploy` from the listing: select the chart and open the deploy modal over the catalog. */
    method Deploy(chart: HelmChart)
      modifies this`selectedChart, this`showDeployModal
      ensures selectedChart == Some(chart) && showDeployModal
      ensures View() == Catalog
    {
      selectedChart := Some(chart);
      showDeployModal := true;
    }

    /** The detail view's Back button. */
    method Back()
      modifies this`selectedChart
      ensures selectedChart == None && View() == Catalog
    {
      selectedChart := None;
    }

    /** The detail view's Deploy button: the modal opens over the catalog. */
    method OpenDeployModal()
      modifies this`showDeployModal
      ensures showDeployModal && View() == Catalog
    {
      showDeployModal := true;
    }

    /** Closing the modal returns to the selected chart's detail view, if any. */
    method CloseDeployModal()
      modifies this`showDeployModal
      ensures !showDeployModal
      ensures View() == if selectedChart.Some? then Detail(selectedChart.value) else Catalog
    {
      showDeployModal := false;
    }
  }
}
