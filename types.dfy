/** The records exchanged with the catalog backend (src/services/types.ts). */
module Types {
  import opened Wrappers

  datatype Maintainer = Maintainer(name: string, email: Option<string>, url: Option<string>)

  datatype ChartDependency = ChartDependency(
    name: string,
    version: string,
    repository: Option<string>,
    condition: Option<string>,
    tags: Option<seq<string>>,
    enabled: Option<bool>,
    alias: Option<string>)

  /** One entry of a chart's version history, in the order the backend sends it. */
  datatype VersionHistory = VersionHistory(version: string, appVersion: string, created: string)

  /**
   * A raw catalog entry as one repository's listing returns it. `versionHistory`
   * is not declared on the interface but the mapper reads it when present.
   */
  datatype Chart = Chart(
    name: string,
    version: string,
    description: Option<string>,
    appVersion: Option<string>,
    created: Option<string>,
    digest: Option<string>,
    urls: Option<seq<string>>,
    icon: Option<string>,
    home: Option<string>,
    sources: Option<seq<string>>,
    maintainers: Option<seq<Maintainer>>,
    keywords: Option<seq<string>>,
    dependencies: Option<seq<ChartDependency>>,
    versionHistory: Option<seq<VersionHistory>>)

  /** A catalog entry after normalisation, as the listing and detail views use it. */
  datatype HelmChart = HelmChart(
    id: string,
    name: string,
    version: string,
    description: string,
    appVersion: Option<string>,
    created: Option<string>,
    digest: Option<string>,
    urls: Option<seq<string>>,
    icon: Option<string>,
    home: Option<string>,
    sources: Option<seq<string>>,
    maintainers: seq<Maintainer>,
    keywords: seq<string>,
    dependencies: Option<seq<ChartDependency>>,
    repository: string,
    repositoryName: Option<string>,
    createdAt: string,
    updatedAt: string,
    category: string,
    versionHistory: seq<VersionHistory>)

  /** A configured Helm repository as the `/helm-repos` directory returns it. */
  datatype HelmRepoEntity = HelmRepoEntity(
    id: string,
    name: string,
    url: string,
    insecureSkipTLSVerify: bool,
    username: Option<string>,
    password: Option<string>,
    createdAt: string,
    updatedAt: string)

  /** The body of a repository-creation request. */
  datatype CreateHelmRepoDto = CreateHelmRepoDto(
    name: string,
    url: string,
    username: Option<string>,
    password: Option<string>,
    token: Option<string>,
    insecureSkipTLSVerify: bool)

  /** Payload of the readme endpoint: only the field the detail view reads. */
  datatype ChartReadmeDto = ChartReadmeDto(readmeContent: Option<string>)

  /** Payload of the values endpoint: the field the detail view reads (`valuesContent`). */
  datatype ChartValuesDto = ChartValuesDto(valuesContent: Option<string>)

  /** Payload of the detail endpoint: the fields the detail view reads. */
  datatype ChartDetailDto = ChartDetailDto(
    versionHistory: Option<seq<VersionHistory>>,
    maintainers: Option<seq<Maintainer>>,
    source: Option<string>)

  /** Result of a `/helm-repos` call: rejected, or fulfilled with a possibly null body. */
  type DirectoryResponse = Outcome<Option<seq<HelmRepoEntity>>>
}
