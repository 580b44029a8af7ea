# Helm chart catalog client — a Dafny model

This project models the behaviour of a React client for a Helm chart catalog. The client has four parts:

- A **listing aggregator** fetches the chart listing of one named repository, or of every known repository (the "all" scope). It tags each chart with its repository and merges the results in directory order. A repository that fails contributes nothing.
- A **chart mapper** turns each raw listing entry into a display record. It synthesises an id, a `owner/chart` repository string, timestamps and a keyword-derived category.
- A **chart-detail synchroniser** resolves which repository a chart belongs to. It then fetches the chart's README, its values file and its detail record in parallel, and each one settles into its own fields. Selecting another version re-fetches only the README and the values.
- Three smaller screens: the listing filter, the registry settings panel (add, edit, delete and test a registry), and the deploy dialog's simulated five-step run.

Each awaited call is an explicit `Outcome` input (`Ok(payload)` or `Fail`), and the model returns the request paths a call would issue. State that the components keep is modelled as classes whose methods change exactly the fields the handlers set. Pure computations are functions, with lemmas relating them.

Modules, one per source file:

| module | source file |
|---|---|
| `Wrappers` | JavaScript truthiness and `x \|\| default` |
| `Types` | the records of `src/services/types.ts` |
| `Strings` | `toLowerCase`, `includes`, `split('/')[0]`, decimal rendering |
| `ChartMapper` | `src/utils/chartMapper.ts` |
| `ChartList` | `src/components/ChartList.tsx` |
| `ChartService` | `src/services/chartService.ts` |
| `ChartDetail` | `src/components/ChartDetail.tsx` |
| `HelmHub` | `src/components/HelmHub.tsx` |
| `RegistrySettings` | `src/components/RegistrySettings.tsx` |
| `DeployModal` | `src/components/DeployModal.tsx` |

### Where the design documentation and the code differ (the model follows the code)

- **Chart ids.** The documented identifier includes the repository and is unique across one aggregation pass. The code builds `chart-<index>-<name>` from the index within one repository's listing. So two repositories that each list the same chart at the same position produce the same id in the "all" listing (`ChartMapper.IdsCollideAcrossRepositories`).
- **Version switching.** The documentation requires stale version-wave results to be discarded. The code has no such guard: whichever wave settles last decides the README and values text. This is recorded under Findings.
- **Overlapping hub listings.** The documentation says an overlapping listing fetch should discard the older one's results. The code does not, and the model applies each listing fetch as one atomic step (see Left out).
- **Detail fetch succeeds without a history.** The documentation says a failed detail fetch empties the version history. The code also empties it when the fetch succeeds but the history is absent, so an empty history does not imply a failed fetch (`ChartDetail.DetailView.FetchChartDetails`).
- **A repository string without `/`.** The documentation treats a chart without a repository name whose repository string has no `/` as unresolved. The code takes `split('/')[0]`, which is the whole string, so such a chart resolves to it (`ChartDetail.ResolveWithoutSlash`).
- **Maintainers after a failed detail fetch.** The documentation says a failed detail fetch resets the detail fields. The code empties the history and the sources but leaves the chart's maintainers as they were (`ChartDetail.DetailView.FetchChartDetails`).
- **Independent artifacts and null bodies.** The documentation says the README, values and detail fetches settle independently. That holds for rejected requests. A request that is fulfilled with a null body throws inside the `try` block, and the `catch` block then overwrites both texts with the error placeholders, even a text that had already loaded (`ChartDetail.NullValuesDiscardsReadme`). In a version wave the throw stops the remaining assignments and sets the version error (`ChartDetail.VersionSettlement`).
- **The values payload field.** `src/services/types.ts:90-94` declares the values payload's field as `values`. `src/components/ChartDetail.tsx:82` and `:148` read `valuesContent`. The model's payload carries the field the component reads.
- **The first deploy step title.** In `src/components/DeployModal.tsx:115` the title contains two U+FFFD replacement characters where a Hangul syllable evidently stood. The model keeps the text as written (`DeployModal.ValidateTitle`).

## Model

| member | source | states |
|---|---|---|
| `Wrappers.OrText` | src/utils/chartMapper.ts:19 | `s \|\| fallback` on an optional string: the string when it is non-empty, otherwise the fallback |
| `Wrappers.OrEmpty` | src/utils/chartMapper.ts:20-22 | `xs \|\| []` on an optional array: any present array, even an empty one, is kept; otherwise `[]` |
| `Strings.Lower` | src/components/ChartList.tsx:30-32 | lower-casing keeps the length and maps each character independently |
| `Strings.ContainsIff` | src/components/ChartList.tsx:30-32 | `includes` holds exactly when the needle occurs at some position of the text |
| `Strings.FirstSegment` | src/components/ChartDetail.tsx:56 | `split('/')[0]` is the longest `/`-free prefix: it is a prefix, has no `/`, and is followed by `/` unless it is the whole string |
| `Strings.BeforeSplit` | src/components/ChartDetail.tsx:120 | for `a + "/" + b` with no `/` in `a`, the first segment is exactly `a` |
| `Strings.ParseNatToString` | src/utils/chartMapper.ts:11 | the decimal rendering of an index parses back to the same number |
| `Strings.NatToStringInjective` | src/utils/chartMapper.ts:11 | different indices render as different decimal texts |
| `ChartMapper.CategorizeChart` | src/utils/chartMapper.ts:54-80 | the category is always one of the eight labels |
| `ChartMapper.CategorizeOthersIff` | src/utils/chartMapper.ts:55-79 | the result is `others` exactly when no lower-cased keyword is in any of the seven keyword sets |
| `ChartMapper.CategorizeFirstMatch` | src/utils/chartMapper.ts:57-77 | when the first set hit, in the order database, monitoring, security, storage, networking, ai-ml, devtools, is set c, the result is c's label |
| `ChartMapper.CategorizeOrderIndependent` | src/utils/chartMapper.ts:55-77 | two keyword lists with the same members give the same category, whatever their order or repetitions |
| `ChartMapper.CategorizeExactWords` | src/utils/chartMapper.ts:55-60 | matching ignores case but needs whole words: `MySQL` is a database, `PostgreSQL` is not; a monitoring word beats a networking word |
| `ChartMapper.ExtractRepository` | src/utils/chartMapper.ts:36-49 | the repository string is always `repositoryName + "/" + name`; the `unknown/` fallback can never be chosen |
| `ChartMapper.IdIndexRoundTrip` | src/utils/chartMapper.ts:11 | the index can be read back from the id `chart-<index>-<name>` |
| `ChartMapper.MapChartToHelmChart` | src/utils/chartMapper.ts:6-24 | the record is tagged with its repository, has a valid category, and both timestamps equal `created` if present, otherwise the fetch time |
| `ChartMapper.MapKeepsRawFields` | src/utils/chartMapper.ts:10-22 | all input fields are copied; only a missing description, keyword, maintainer or history list is replaced by its default; a complete input is copied unchanged |
| `ChartMapper.MapSynthesisedFields` | src/utils/chartMapper.ts:11-18 | the id, repository string, repository name, timestamps and category are the synthesised values |
| `ChartMapper.MapChartsToHelmCharts` | src/utils/chartMapper.ts:29-31 | the mapping keeps length and order; element i is the single mapping of `charts[i]` with index i |
| `ChartMapper.MapChartsDistinctIds` | src/utils/chartMapper.ts:11-30 | ids within one mapped listing are pairwise distinct |
| `ChartMapper.IdsCollideAcrossRepositories` | src/utils/chartMapper.ts:11-12 | the same chart at the same position in two repositories gets the same id but different repository strings |
| `ChartList.FilterCharts` | src/components/ChartList.tsx:28-37 | the filtered list holds exactly the charts satisfying both predicates, each with its original multiplicity |
| `ChartList.FilterIsSubsequence` | src/components/ChartList.tsx:28 | the filtered list is an order-preserving subsequence of the input |
| `ChartList.EmptyFilterKeepsAll` | src/components/ChartList.tsx:29-34 | an empty search term with the `all` category keeps every chart, in order |
| `ChartList.SearchIgnoresCase` | src/components/ChartList.tsx:30-32 | a search term and its lower-cased form match the same charts |
| `ChartList.NameMatchCaseInsensitive` | src/components/ChartList.tsx:30 | a term occurring, up to case, anywhere in the chart's name makes the chart match |
| `ChartList.GridKeywordBadges` | src/components/ChartList.tsx:168-177 | the grid card shows the first min(3, n) keywords, and a `+(n-3)` badge exactly when n > 3 |
| `ChartList.ListKeywordBadges` | src/components/ChartList.tsx:127 | the list row shows the first min(5, n) keywords |
| `ChartList.GridBadgesAccountForAll` | src/components/ChartList.tsx:168-177 | shown badges plus the overflow count equal the number of keywords |
| `ChartList.RenderListing` | src/components/ChartList.tsx:56-77 | loading takes precedence; otherwise `No charts found` appears exactly when no chart passes the filter; else the filtered cards in the chosen mode |
| `ChartService.VersionQuery` | src/services/chartService.ts:56-75 | the query is empty exactly when the version is absent or empty; otherwise it is `?version=<v>` |
| `ChartService.ParseChartPath` | src/services/chartService.ts:39-95 | a chart path decomposes back into repository, chart, action and the version it sends |
| `ChartService.ValuesPathRoundTrip` | src/services/chartService.ts:56-58 | the values path parses back to its repository, chart, `values` and the version sent |
| `ChartService.ReadmePathRoundTrip` | src/services/chartService.ts:75-77 | the README path parses back to its repository, chart, `readme` and the version sent |
| `ChartService.DetailPathRoundTrip` | src/services/chartService.ts:38-40 | the detail path parses back to its repository, chart and `detail`, with no version |
| `ChartService.DeployPathRoundTrip` | src/services/chartService.ts:94-95 | the deploy path parses back to its repository, chart and `deploy` |
| `ChartService.ListPathRoundTrip` | src/services/chartService.ts:23 | the listing path parses back to its repository |
| `ChartService.NamesNotEscaped` | src/services/chartService.ts:39 | names are spliced in verbatim, so `a/b` + `c` and `a` + `b/c` request the same path |
| `ChartDetail.ResolveRepoName` | src/components/ChartDetail.tsx:116-125 | a non-empty `repositoryName` wins; otherwise the text before the first `/` of `repository`; unresolved exactly when that is empty |
| `ChartDetail.ResolveWithoutSlash` | src/components/ChartDetail.tsx:118-121 | without a repository name, a non-empty `/`-free repository string is used whole |
| `ChartDetail.ResolveComposite` | src/components/ChartDetail.tsx:118-121 | without a repository name, `owner/rest` resolves to `owner` |
| `ChartDetail.ExtractRepoName` | src/components/ChartDetail.tsx:186-190 | the extracted name is never empty (`unknown` stands in) |
| `ChartDetail.ExtractAgreesWithResolve` | src/components/ChartDetail.tsx:186-190 | `extractRepoName` agrees with resolution wherever resolution succeeds, and gives `unknown` exactly where it fails |
| `ChartDetail.CopyHiddenAfterFailure` | src/components/ChartDetail.tsx:455 | every failure or error placeholder hides the copy button |
| `ChartDetail.CopyShownWhenMissing` | src/components/ChartDetail.tsx:542 | the "No ... available" texts keep the copy button |
| `ChartDetail.CopyHiddenAfterRejection` | src/components/ChartDetail.tsx:137-153 | after a rejected README or values fetch, that text's copy button is hidden |
| `ChartDetail.FindVersion` | src/components/ChartDetail.tsx:329 | `find` returns the first history entry with the version, or nothing exactly when no entry has it |
| `ChartDetail.AppVersionFor` | src/components/ChartDetail.tsx:329 | with no entry for the selected version, the chart's own app version is shown |
| `ChartDetail.AppVersionFirstEntry` | src/components/ChartDetail.tsx:329 | the first entry with the selected version decides: its app version when non-empty, otherwise the chart's own app version (later entries with the same version never count) |
| `ChartDetail.AppVersionEmptyFirstEntry` | src/components/ChartDetail.tsx:329 | a first matching entry with an empty app version falls back to the chart's app version, even when a later entry with that version has one |
| `ChartDetail.InstallCommands` | src/components/ChartDetail.tsx:210-226 | for every repository string, three commands in order: add the repository under the alias `split('/')[0]` from `https://charts.<alias>.io`, `helm repo update`, and install `my-<chart>` from the whole repository string at the selected version |
| `ChartDetail.InstallCommandsWithoutSlash` | src/components/ChartDetail.tsx:213-222 | a repository string without `/` is added whole as the alias, and the install line names it as is |
| `ChartDetail.InstallCommandsForComposite` | src/components/ChartDetail.tsx:213-223 | for `owner/rest` the alias added is `owner`, and the install line names `owner/rest` and pins the selected version |
| `ChartDetail.ChartObject.constructor` | src/components/ChartDetail.tsx:159 | the chart record starts with its listed maintainers |
| `ChartDetail.DetailView.constructor` | src/components/ChartDetail.tsx:37-44 | loading placeholders, empty history and sources, loading, no error, the chart's version selected |
| `ChartDetail.DetailView.FetchChartDetails` | src/components/ChartDetail.tsx:109-183 | unresolved, or a fulfilled request with a null body: error set, both error placeholders, history, sources and maintainers untouched (no request when unresolved). Otherwise: three requests, and README, values and detail each settle into their own fields (placeholder on rejection; detail failure empties history and sources, keeps maintainers). Loading ends false |
| `ChartDetail.DetailView.AbortInitialWave` | src/components/ChartDetail.tsx:169-174 | the details error is set and both texts become the error placeholders; nothing else changes |
| `ChartDetail.DetailView.SelectVersion` | src/components/ChartDetail.tsx:47-106 | a new version starts a wave only when not loading; the wave requests README and values at that version only; unresolved ends it with an error and both texts unchanged; history, sources and loading are never touched |
| `ChartDetail.VersionSettlement` | src/components/ChartDetail.tsx:65-88 | the `try` block of a version wave: it throws exactly when a fulfilled body is null; a null README body keeps both texts, a null values body keeps the values text only; otherwise each text follows its own outcome |
| `ChartDetail.VersionSettlementIndependent` | src/components/ChartDetail.tsx:70-86 | without null bodies, a rejected README leaves the values text as it would otherwise be and the reverse, and nothing throws |
| `ChartDetail.DetailView.SettleVersionWave` | src/components/ChartDetail.tsx:65-92 | the settled outcomes decide both texts through `VersionSettlement`, whichever wave they came from; the version error is set exactly when the block threw; `versionLoading` ends false; nothing else changes |
| `ChartDetail.GuardedDetailView.FetchChartDetails` | src/components/ChartDetail.tsx:109-183 | the same requests and state as the plain view's initial wave; the generation and outstanding tickets are unchanged |
| `ChartDetail.GuardedDetailView.SelectVersion` | src/components/ChartDetail.tsx:47-106 | as the plain selection (requests, error, `versionLoading`, history and sources stated outright), and a started wave is tagged with a new generation |
| `ChartDetail.GuardedDetailView.Settle` | src/components/ChartDetail.tsx:65-92 | a settlement is applied exactly when its generation is current; then it belongs to the selected version, both texts and the error follow `VersionSettlement`, `versionLoading` ends false, and loading, history and sources are unchanged; otherwise nothing changes |
| `ChartDetail.PlainOutOfOrder` | src/components/ChartDetail.tsx:65-106 | switching to 1.1.0 then 1.0.0, with the 1.1.0 wave settling last, leaves the plain view on 1.0.0 showing the 1.1.0 README |
| `ChartDetail.GuardedOutOfOrder` | src/components/ChartDetail.tsx:65-106 | the same switches and settlements leave the guarded view on 1.0.0 showing the 1.0.0 README |
| `ChartDetail.OutOfOrderSettlement` | src/components/ChartDetail.tsx:65-106 | two quick switches settling out of order leave the plain view showing the superseded version's README; the guarded view shows the current one |
| `ChartDetail.NullValuesDiscardsReadme` | src/components/ChartDetail.tsx:137-175 | a README that loaded is replaced by the error placeholder when the values body is null |
| `HelmHub.RepositoryCategories` | src/components/HelmHub.tsx:48-54 | `('all','전체')` first, then one `(name, name)` entry per repository, in order |
| `HelmHub.SelectorOffersExactlyTheRepositories` | src/components/HelmHub.tsx:48-54 | a value is offered exactly when it is `all` or a repository's name |
| `HelmHub.MergedChartsComeFromSucceedingRepositories` | src/components/HelmHub.tsx:102-116 | every merged chart is tagged with a repository of the directory whose own listing succeeded |
| `HelmHub.MergeAllAppend` | src/components/HelmHub.tsx:102-116 | the merge of a split directory is the concatenation of the two merges |
| `HelmHub.FailingRepositoryIgnored` | src/components/HelmHub.tsx:109-112 | a failing repository contributes nothing: the merge is as if it were not listed |
| `HelmHub.SucceedingRepositoryIncluded` | src/components/HelmHub.tsx:105-116 | a succeeding repository's whole mapped listing appears at its place in directory order |
| `HelmHub.AllFailingGivesEmpty` | src/components/HelmHub.tsx:102-116 | when every repository fails, the "all" listing is empty |
| `HelmHub.Hub.constructor` | src/components/HelmHub.tsx:34-44 | nothing selected, `all` scope, no repositories or charts, not loading, no error, modal closed |
| `HelmHub.Hub.View` | src/components/HelmHub.tsx:153-162 | the detail view is shown exactly when a chart is selected and the deploy modal is closed |
| `HelmHub.Hub.FetchRepositories` | src/components/HelmHub.tsx:68-88 | the directory as returned, or no repositories on failure or a null body; loading ends false |
| `HelmHub.Hub.FetchCharts` | src/components/HelmHub.tsx:90-140 | `all`: the merged fan-out and never an error (empty for no repositories); a named repository: its mapped listing, or the error message and no charts; loading ends false |
| `HelmHub.Hub.SelectRepository` | src/components/HelmHub.tsx:62-66 | a changed scope fetches exactly when there are repositories or the scope is `all`, and then leaves that scope's listing (merged fan-out for `all`; the mapped listing, or the error and no charts, for a named one); otherwise the listing state is unchanged |
| `HelmHub.Hub.LoadRepositories` | src/components/HelmHub.tsx:57-88 | the directory becomes the returned list (none on failure or a null body) and stops loading; a fetch follows exactly when it is non-empty or the scope is `all`, and leaves the current scope's listing; otherwise the listing state is unchanged |
| `HelmHub.Hub.SelectChart` | src/components/HelmHub.tsx:142-144 | the chart is selected; the detail view shows unless the modal is open |
| `HelmHub.Hub.Deploy` | src/components/HelmHub.tsx:146-149 | the chart is selected and the modal opened over the catalog |
| `HelmHub.Hub.Back` | src/components/HelmHub.tsx:158 | the selection is cleared and the catalog shows |
| `HelmHub.Hub.OpenDeployModal` | src/components/HelmHub.tsx:159 | the modal opens over the catalog |
| `HelmHub.Hub.CloseDeployModal` | src/components/HelmHub.tsx:339 | closing the modal returns to the selected chart's detail view, if any |
| `RegistrySettings.Validate` | src/components/RegistrySettings.tsx:90-104 | missing name or url is reported first; then basic auth without both credentials; then token auth without a token; otherwise the form is accepted |
| `RegistrySettings.CreatePayload` | src/components/RegistrySettings.tsx:107-118 | name and url copied, TLS checks never skipped, username and password present exactly for basic auth, token exactly for token auth |
| `RegistrySettings.PayloadRoundTrip` | src/components/RegistrySettings.tsx:96-118 | an accepted form's auth type can be read back from its payload, whose credentials are non-empty |
| `RegistrySettings.EditForm` | src/components/RegistrySettings.tsx:145-152 | name and url copied; basic auth exactly when the registry has a user name; password and token empty |
| `RegistrySettings.EditedBasicFormNeedsPassword` | src/components/RegistrySettings.tsx:96-150 | an edited basic-auth registry cannot be resubmitted until a password is typed |
| `RegistrySettings.EditForgetsToken` | src/components/RegistrySettings.tsx:115-151 | a registry created with token auth is edited as one with no authentication |
| `RegistrySettings.EditKeepsBasicUser` | src/components/RegistrySettings.tsx:111-152 | a basic-auth registry stored as created comes back as its form minus password and token |
| `RegistrySettings.SubmitCalls` | src/components/RegistrySettings.tsx:87-141 | no call for a refused form; with a non-empty editing id, delete comes first and create only after it; otherwise only create; a reload only after every call succeeded, and always last; at most three calls, and no delete after the first |
| `RegistrySettings.EmptyEditingIdOnlyCreates` | src/components/RegistrySettings.tsx:122-130 | an empty editing id is falsy: the submission is the same as with none, and nothing is deleted |
| `RegistrySettings.HeadingMatchesSubmission` | src/components/RegistrySettings.tsx:122-417 | for an accepted form, the heading reads "Edit Registry" and the button "Update Registry" exactly when the submission deletes first |
| `RegistrySettings.TestVerdict` | src/components/RegistrySettings.tsx:181-188 | success exactly when the service answered true; never left as testing |
| `RegistrySettings.RegistryPanel.constructor` | src/components/RegistrySettings.tsx:54-62 | the panel's initial state |
| `RegistrySettings.RegistryPanel.LoadRegistries` | src/components/RegistrySettings.tsx:71-85 | the returned list, or none on failure or an empty body; loading ends false |
| `RegistrySettings.RegistryPanel.ResetForm` | src/components/RegistrySettings.tsx:168-173 | the initial form, no editing id, form and password hidden |
| `RegistrySettings.RegistryPanel.HandleEdit` | src/components/RegistrySettings.tsx:143-154 | the registry's name becomes the editing id, the edit form is filled and shown |
| `RegistrySettings.RegistryPanel.HandleSubmit` | src/components/RegistrySettings.tsx:87-141 | issues `SubmitCalls` (deleting first only for a non-empty editing id); the list is reloaded and the form reset only when every call succeeded; otherwise form, list and editing state are unchanged |
| `RegistrySettings.RegistryPanel.HandleDelete` | src/components/RegistrySettings.tsx:156-166 | nothing unless confirmed; a reload only after a successful delete |
| `RegistrySettings.RegistryPanel.BeginTest` | src/components/RegistrySettings.tsx:176-177 | the registry is marked as testing and becomes the one under test |
| `RegistrySettings.RegistryPanel.FinishTest` | src/components/RegistrySettings.tsx:179-190 | the verdict is recorded for that registry only, and no test is marked as running |
| `RegistrySettings.RegistryPanel.TestRegistry` | src/components/RegistrySettings.tsx:175-191 | a whole test records its verdict under the registry's name and keeps every other result |
| `RegistrySettings.OverlappingTests` | src/components/RegistrySettings.tsx:175-191 | when one of two overlapping tests settles, no registry's button is disabled although the other test still runs |
| `DeployModal.InitialSteps` | src/components/DeployModal.tsx:112-138 | five steps validate, connect, prepare, install, verify, all pending and without messages |
| `DeployModal.MarkRunning` | src/components/DeployModal.tsx:157-168 | the step runs, with the message `title + " 진행 중..."` |
| `DeployModal.MarkCompleted` | src/components/DeployModal.tsx:174-185 | the step is completed, with the message `title + " 완료"` |
| `DeployModal.RemapErrors` | src/components/DeployModal.tsx:191-201 | every running step becomes an error with the failure message; all other steps are kept; none is left running |
| `DeployModal.FinalStepsShape` | src/components/DeployModal.tsx:152-201 | after a run: steps before the interruption are completed, the interrupted step is an error if it had started, the rest are pending; none is running |
| `DeployModal.AtMostOneError` | src/components/DeployModal.tsx:152-201 | at most one step ends in error, and only when the run stopped after that step started |
| `DeployModal.PaneFor` | src/components/DeployModal.tsx:253 | configuration exactly when neither deploying nor complete; progress exactly while deploying |
| `DeployModal.Deployment.constructor` | src/components/DeployModal.tsx:68-82 | name `my-<chart>`, namespace `default`, no cluster, no steps, not deploying or complete |
| `DeployModal.Deployment.HandleDeploy` | src/components/DeployModal.tsx:103-205 | starts exactly when a cluster and a name are given (otherwise nothing changes); the step loop leaves the reference step list; completion exactly when no interruption occurred; deploying ends false |
| `DeployModal.SettledPane` | src/components/DeployModal.tsx:188-205 | an interrupted run returns the dialog to its configuration pane; a complete one shows the finished pane |

## Findings

| source | as written | input that shows it | evidently intended | confidence | as-written member | corrected member |
|---|---|---|---|---|---|---|
| src/components/ChartDetail.tsx:65-92 | a version wave's settlement is applied whatever the current selection | select 1.1.0, then 1.0.0; the 1.0.0 wave settles first, the 1.1.0 wave second | after all waves settle, the texts belong to the selected version | medium, not executed | `ChartDetail.OutOfOrderSettlement` | `ChartDetail.GuardedDetailView.Settle` |

## Left out

- The transport layer (base URL, bearer token, 401 handling) and the registry service wrappers. Their results are the `Outcome` inputs.
- `HelmHub.Hub.FetchRepositories`: a non-null body that is not an array is stored as is by the source, and later renders fail on it. The model's directory is a sequence or null. A null body throws at `repos.length` and is caught into an empty directory, which is modelled.
- `HelmHub.Hub.FetchCharts`: a listing whose `charts` field is absent makes the mapping throw, and the source treats that like a failed call. The model folds both into `Fail`.
- `HelmHub.Hub.FetchCharts`: each fetch is one atomic step. Two overlapping fetches whose results arrive out of order are not modelled, and neither is the documented discarding of the older one.
- `ChartDetail.DetailView.FetchChartDetails`: the `Promise.allSettled` interleaving is not modelled. The three settlements are applied in one call, in the order the `try` block reads them, so a null body aborts the rest as in the source. React's batching of the state updates is not modelled; the last write wins, as it does after batching.
- `ChartDetail.ChartObject`: the detail view's maintainer write goes to the chart object that the hub's listing also holds. Aliasing with the listing's copy is not modelled, because the hub holds chart values.
- The detail view's re-run on a new chart object is left out. The `chart` dependency is modelled as one `FetchChartDetails` call per view.
- Lower-casing covers the ASCII letters `A`–`Z` only. Other scripts' case mapping is not modelled.
- The fetch time (`new Date().toISOString()`) is a parameter, one value per listing fetch. The source reads the clock once per chart.
- Not modelled: the mock download and star counts (`Math.random`), date formatting, the download-count formatting (floating point), and the "recent" and "popular" tab sorts.
- The `setTimeout` delays in the deploy loop, the clipboard, `window.open`, `alert`/`confirm` texts, console logging and the JSX layout are not modelled. Where a deployment run is interrupted is an input: the simulated run itself cannot fail.
- The deploy id uses `Date.now()`. It is modelled as a natural-number parameter.
- The deploy dialog's custom-values text and the mock cluster list carry no behaviour and are omitted.
- The hub's search box and category tabs only pass values to the listing filter, which is modelled as `ChartList.FilterCharts`.
