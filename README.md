# ecmdb-web composables, modelled in Dafny

This project models the list and string logic inside the Vue composables of the
ecmdb-web administration frontend, plus two small pure pieces of configuration:

- **Favourite templates** (`useTemplateData`): the template groups, the favourites list, the
  `empty`/`loading` flags, and the optimistic `toggleFavorite` with its rollback.
- **Template filter** (`useTemplateFilter`): the flattened template list, the source list of
  the selected category, the trimmed case-insensitive name search, and the category title.
- **Runner lists** (`useRunner`): the full list, the append/replace paginated lists of a
  codebook's runners and of forkable runners, and the confirm → delete → callback flow.
- **Task history** (`useTaskHistory`): the page-window request and how its result is stored.
- **Runner form cascades** (`useExecutors`, `useCodebooks`, `useWorkers`): first-match
  lookups, the handler list of the selected executor, the codebook secret written back into
  the form, and the worker label.
- **Dev-server proxy rewrites** (`vite.config.ts`): the three anchored `/api/...` prefix
  rewrites and the first-occurrence `/minio` deletion.
- **Template-set form validator** (`constants.ts`): the hand-written `template_id` check.

Every awaited request is an explicit parameter `Response<T>` (`Failed`, or `Ok(data)`), so each
operation is a deterministic step from the old state and the outcome. A field the backend may
omit is an `Option`, and `x || []`, `x || 0` and `x ?? ""` are `GetOr`. Composables that keep
state are classes whose `seq` fields the methods reassign. Each state-changing method's
`ensures` gives the new state as a function of the old one. The properties of those functions
are proved as lemmas.

Modules: `Common` (Option, Response, the first-match `find`), `Text` (ASCII `toLowerCase`, `trim` over a fixed
whitespace set, `includes`, `indexOf`, anchored and first-occurrence `replace`),
`TemplateTypes`, `TemplateData`, `TemplateFilter`, `RunnerTypes`, `RunnerList`,
`TaskHistory`, `Executors`, `Codebooks`, `Workers`, `DevProxy`, `TemplateSetRules`.

## Notes

- Only `fetchRunners` zeroes its total on a failed fetch (useRunner.ts:28-29). A failed
  codebook or forkable-runner fetch keeps its total, and in append mode also its list
  (useRunner.ts:57-59, 92-94). A failed task-history fetch keeps its total
  (useTaskHistory.ts:26-27).
- A failed toggle restores the favourites exactly only for an add (useTemplateData.ts:73-75).
  For a remove it re-appends the template at the end (useTemplateData.ts:76-78).

## Model

| member | source | states |
|---|---|---|
| TemplateData.IdsOf | src/views/order/start/composables/useTemplateData.ts:9 | `favoriteIds` has one id per favourite, in favourite order |
| TemplateData.FindIndexById | src/views/order/start/composables/useTemplateData.ts:61 | `findIndex` by id: the first index holding the id, or -1 exactly when no entry holds it |
| TemplateData.FirstWithId | src/views/order/start/composables/useTemplateData.ts:47 | `find` by id in one group: the first template with the id; none exactly when no template has it |
| TemplateData.FindInGroups | src/views/order/start/composables/useTemplateData.ts:46-52 | the search result is the first hit of the first group that has one; none exactly when no group has the id |
| TemplateData.AddedTemplate | src/views/order/start/composables/useTemplateData.ts:53-58 | the template an add appends always carries the toggled id |
| TemplateData.AddedTemplateIsFirstFound | src/views/order/start/composables/useTemplateData.ts:46-58 | an add appends the first template with the id scanning groups in order, else the placeholder named "未知模板" with icon "Flag" |
| TemplateData.ToggledFavorites | src/views/order/start/composables/useTemplateData.ts:40-82 | a successful add grows the favourites by one, a successful remove shrinks them by one, a failed toggle keeps their length |
| TemplateData.TotalTemplateCount | src/views/order/start/composables/useTemplateData.ts:87-89 | the count is at least each group's list length, and 0 exactly when every list is empty |
| TemplateData.CountFrom | src/views/order/start/composables/useTemplateData.ts:88 | the `reduce` fold from a running total adds at least each group's length, and adds nothing exactly when every list is empty |
| TemplateData.TemplateStore.constructor | src/views/order/start/composables/useTemplateData.ts:7-11 | initial state: no groups, no favourites, flags false |
| TemplateData.TemplateStore.ListTemplateCombinations | src/views/order/start/composables/useTemplateData.ts:13-26 | success stores the groups (missing → []); failure stores []; `empty` holds exactly when the list is empty; `loading` ends false |
| TemplateData.TemplateStore.FetchFavoriteList | src/views/order/start/composables/useTemplateData.ts:28-36 | success stores `data?.templates` (missing → []); failure stores [] |
| TemplateData.TemplateStore.FindTarget | src/views/order/start/composables/useTemplateData.ts:46-52 | the `for ... break` scan over the groups returns the same template as the search specification |
| TemplateData.TemplateStore.ToggleFavorite | src/views/order/start/composables/useTemplateData.ts:38-85 | the in-place push/splice edit and rollback leave exactly the favourites the toggle specification gives; the refresh fallback at line 80 is proved unreachable |
| TemplateData.ToggleAddAppends | src/views/order/start/composables/useTemplateData.ts:40-59 | a successful add of an absent id appends one template with that id and keeps the earlier entries |
| TemplateData.ToggleRemoveDropsFirst | src/views/order/start/composables/useTemplateData.ts:61-65 | a successful remove drops only the first favourite with the id and keeps the others in order |
| TemplateData.AddFailureRestores | src/views/order/start/composables/useTemplateData.ts:73-75 | a failed add restores the favourites exactly |
| TemplateData.RemoveFailureReappends | src/views/order/start/composables/useTemplateData.ts:76-78 | a failed remove keeps the same multiset of templates but puts the removed one last |
| TemplateData.TogglePreservesDistinct | src/views/order/start/composables/useTemplateData.ts:40-82 | toggling, with either outcome, never creates a duplicate favourite id |
| TemplateData.ToggleTwiceRestores | src/views/order/start/composables/useTemplateData.ts:40-65 | add then remove of an absent id, both successful, restores the favourites exactly |
| TemplateData.RemoveThenAddRestoresIds | src/views/order/start/composables/useTemplateData.ts:40-65 | remove then add of a present id, both successful, restores the multiset of ids (distinct ids assumed) |
| Common.FirstWhere | src/views/order/start/composables/useTemplateFilter.ts:34 | `find`: the first element satisfying the predicate; none exactly when no element does |
| TemplateFilter.AllTemplates | src/views/order/start/composables/useTemplateFilter.ts:13-15 | a template is in the flat list exactly when some group's list holds it; a single group flattens to its own list, as is (with `AllTemplatesAppend` this fixes the whole concatenation) |
| TemplateFilter.CategorySource | src/views/order/start/composables/useTemplateFilter.ts:28-36 | favourites show the favourites, all shows the flat list, a group shows only templates of loaded groups |
| TemplateFilter.ApplyQuery | src/views/order/start/composables/useTemplateFilter.ts:39-44 | the search result is an order-preserving sub-list of the source, never repeats a template more often, and a blank query keeps the source |
| TemplateFilter.FilteredTemplates | src/views/order/start/composables/useTemplateFilter.ts:24-45 | the shown list is a sub-list of the category's source and holds only favourites or templates of loaded groups |
| TemplateFilter.AllTemplatesAppend | src/views/order/start/composables/useTemplateFilter.ts:13-15 | flattening keeps group order: the flat list of concatenated groups is the concatenation of the flat lists |
| TemplateFilter.AllTemplatesCount | src/views/order/start/composables/useTemplateData.ts:87-89 | when every group has a list, `allTemplates` has `getTotalTemplateCount()` entries |
| TemplateFilter.FirstGroupWithId | src/views/order/start/composables/useTemplateFilter.ts:34 | `find` by group id: the first group with the id; none exactly when no group has it |
| TemplateFilter.GroupCategorySource | src/views/order/start/composables/useTemplateFilter.ts:32-35 | a numeric category shows the first group with that id; an unknown id shows [] |
| TemplateFilter.SelectedCategoryName | src/views/order/start/composables/useTemplateFilter.ts:17-22 | "我的收藏" for favourites, "全部工单模板" for all, the first matching group's name, "" for an unknown id |
| TemplateFilter.KeepMatching | src/views/order/start/composables/useTemplateFilter.ts:41 | the filter keeps an order-preserving subsequence holding every occurrence of each matching template and nothing else |
| TemplateFilter.BlankQueryKeepsSource | src/views/order/start/composables/useTemplateFilter.ts:39-44 | an empty or whitespace-only query returns the source unchanged |
| TemplateFilter.QueryFilters | src/views/order/start/composables/useTemplateFilter.ts:39-42 | a non-blank query keeps, in order and with their multiplicity, exactly the templates whose lowered name contains the trimmed, lowered query; nameless ones are dropped |
| TemplateFilter.QueryIgnoresCase | src/views/order/start/composables/useTemplateFilter.ts:39-41 | queries differing only in letter case give the same result |
| TemplateFilter.QueryIdempotent | src/views/order/start/composables/useTemplateFilter.ts:40-42 | applying the same query to the filtered result changes nothing |
| Text.Trim | src/views/order/start/composables/useTemplateFilter.ts:39 | `trim()` keeps a contiguous slice of the input with only whitespace before and after it; the slice is "" exactly when every character is whitespace, and otherwise starts and ends with a non-whitespace character |
| Text.Lower | src/views/order/start/composables/useTemplateFilter.ts:39-41 | `toLowerCase()` keeps the length and lowers each ASCII letter in place |
| Text.Contains | src/views/order/start/composables/useTemplateFilter.ts:41 | `includes` holds exactly when `indexOf` finds an index; the empty query is found everywhere |
| Text.IndexOf | vite.config.ts:172 | `indexOf`: the first index where the pattern occurs, or -1 exactly when it never occurs |
| Text.ReplaceAnchored | vite.config.ts:154-166 | `replace(/^prefix/, rep)`: with the prefix, rep followed by the remainder; without it, unchanged |
| Text.ReplaceFirst | vite.config.ts:172 | `replace` with a string pattern: only the first occurrence is replaced; no occurrence leaves the string unchanged |
| Text.NormalizedIgnoresCase | src/views/order/start/composables/useTemplateFilter.ts:39 | `trim().toLowerCase()` maps queries that differ only in case to the same string |
| RunnerList.LoadPage | src/views/task/codebook/composables/useRunner.ts:51-59 | append keeps the old list as a prefix; failure keeps the total; a failed append changes nothing; a failed replace empties the list |
| RunnerList.AppendExtends | src/views/task/codebook/composables/useRunner.ts:51-52 | append mode keeps the old list as a prefix and adds the page's runners (missing → []) after it |
| RunnerList.ReplaceForgets | src/views/task/codebook/composables/useRunner.ts:53-59 | replace mode yields the page's runners (missing → []), or [] on failure, whatever was there before |
| RunnerList.TotalRules | src/views/task/codebook/composables/useRunner.ts:56-59 | success sets the total to the response's (missing or 0 → 0); failure never touches it; a failed append changes nothing |
| RunnerList.ScrollAccumulates | src/views/task/codebook/composables/useRunner.ts:51-56 | successive successful appends give the old list followed by every page's runners in order, with the last page's total |
| RunnerList.RunnerStore.constructor | src/views/task/codebook/composables/useRunner.ts:12-18 | initial lists empty, totals 0, not loading |
| RunnerList.RunnerStore.FetchRunners | src/views/task/codebook/composables/useRunner.ts:20-31 | requests offset 0, limit 1000; success stores runners and total with []/0 defaults; failure stores [] and 0 |
| RunnerList.RunnerStore.FetchCodebookRunners | src/views/task/codebook/composables/useRunner.ts:33-63 | sends the given uid/offset/limit/keyword/kind; the new list and total follow the page-load rules; loading is raised only in replace mode and ends false |
| RunnerList.RunnerStore.FetchCodebookRunnersFirstPage | src/views/task/codebook/composables/useRunner.ts:33-40 | a call with only the uid requests offset 0 and limit 20 with no keyword or kind, raises loading and replaces the list |
| RunnerList.RunnerStore.FetchExcludeCodebookRunnersFirstPage | src/views/task/codebook/composables/useRunner.ts:68-75 | the same defaults for the forkable list |
| RunnerList.RunnerStore.FetchExcludeCodebookRunners | src/views/task/codebook/composables/useRunner.ts:68-98 | the same rules on the forkable list and total; the codebook list is not in its frame |
| RunnerList.RunnerStore.DeleteRunner | src/views/task/codebook/composables/useRunner.ts:100-113 | asks first; cancelling does nothing else; confirming sends one delete for this row's id; the callback follows exactly when the delete succeeded and a callback exists; changes no state |
| TaskHistory.PageRequest | src/views/task/history/composables/useTaskHistory.ts:19-20 | the limit is the page size; page 1 starts at 0; from page 1 with a non-negative size the offset is non-negative |
| TaskHistory.PagesAdjacent | src/views/task/history/composables/useTaskHistory.ts:19-20 | page p + 1 starts where page p's window ends |
| TaskHistory.PagesDisjoint | src/views/task/history/composables/useTaskHistory.ts:19-20 | windows of different pages do not overlap |
| TaskHistory.RowOnOnePage | src/views/task/history/composables/useTaskHistory.ts:19-20 | with a positive size, every row index lies in the window of page index / size + 1 and of no other page |
| TaskHistory.TaskHistoryState.constructor | src/views/task/history/composables/useTaskHistory.ts:7-12 | starts with the page, size and total the caller supplies, no tasks, empty search |
| TaskHistory.TaskHistoryState.FetchTasksData | src/views/task/history/composables/useTaskHistory.ts:15-31 | requests offset (page − 1) × size and limit size; success replaces total and tasks; failure clears tasks and keeps the total; loading ends false |
| TaskHistory.TaskHistoryState.OnWatchedChange | src/views/task/history/composables/useTaskHistory.ts:34-40 | any change of page, size or search text refetches with a request that does not depend on the search text |
| Executors.FirstExecutorNamed | src/views/task/runner/composables/useExecutors.ts:31 | `find` by name: the first executor with the name; none exactly when no executor has it |
| Executors.AvailableHandlers | src/views/task/runner/composables/useExecutors.ts:28-33 | no or empty service name gives []; an unknown name gives []; otherwise the first matching executor's handlers (missing → []) |
| Executors.SingleExecutorExample | src/views/task/runner/composables/useExecutors.ts:28-33 | one executor "svc-a" with handler h1: "svc-a" selects [h1], any other name selects [] |
| Executors.ExecutorStore.constructor | src/views/task/runner/composables/useExecutors.ts:10-11 | no executors, not loading |
| Executors.ExecutorStore.FetchExecutors | src/views/task/runner/composables/useExecutors.ts:13-25 | success stores the data (missing → []); failure stores []; loading ends false |
| Codebooks.FirstCodebookFor | src/views/task/runner/composables/useCodebooks.ts:31 | `find` by identifier: the first codebook with it; none exactly when no codebook has it |
| Codebooks.ComputedSecret | src/views/task/runner/composables/useCodebooks.ts:30-33 | the first matching codebook's secret, "" when it is null/absent or when nothing matches; "" itself is kept |
| Codebooks.WithSecret | src/views/task/runner/composables/useCodebooks.ts:36-42 | the watch writes the computed secret into `codebook_secret` and changes no other form field |
| Codebooks.WithSecretSettles | src/views/task/runner/composables/useCodebooks.ts:36-42 | firing the watch a second time changes nothing |
| Codebooks.FormRef.constructor | src/views/task/runner/composables/useCodebooks.ts:11 | the shared form reference holds the caller's form |
| Codebooks.CodebookStore.constructor | src/views/task/runner/composables/useCodebooks.ts:11-13 | no codebooks, not loading, bound to the caller's form |
| Codebooks.CodebookStore.FetchCodebooks | src/views/task/runner/composables/useCodebooks.ts:15-27 | requests offset 0, limit 100; success stores `data.codebooks` (missing → []); failure stores []; loading ends false |
| Codebooks.CodebookStore.SyncSecret | src/views/task/runner/composables/useCodebooks.ts:36-42 | after the watch fires the form's secret is the computed secret and no other form field changed |
| Workers.WorkerLabel | src/views/task/runner/composables/useWorkers.ts:31-33 | the label starts with the name, then " -【 topic: ", and ends with " 】"; its length is name + topic + 13 |
| Workers.LabelRecoversTopic | src/views/task/runner/composables/useWorkers.ts:32 | the topic can be read back from the label between the separator and the closing " 】" |
| Workers.LabelSeparatesTopics | src/views/task/runner/composables/useWorkers.ts:32 | for workers with the same name, labels agree exactly when topics agree |
| Workers.WorkerStore.constructor | src/views/task/runner/composables/useWorkers.ts:10-11 | no workers, not loading |
| Workers.WorkerStore.FetchWorkers | src/views/task/runner/composables/useWorkers.ts:13-25 | requests offset 0, limit 100; success stores `data.workers` (missing → []); failure stores []; loading ends false |
| DevProxy.RewriteCmdb | vite.config.ts:154 | a path starting with "/api/cmdb" becomes "/api" + the rest; other paths are unchanged |
| DevProxy.RewriteAlert | vite.config.ts:160 | a path starting with "/api/alert" becomes "/api" + the rest; other paths are unchanged |
| DevProxy.RewriteTask | vite.config.ts:166 | a path starting with "/api/task" becomes "/api" + the rest; other paths are unchanged |
| DevProxy.RewriteMinio | vite.config.ts:172 | a path without "/minio" is unchanged; otherwise it loses 6 characters |
| DevProxy.AnchoredRewrite | vite.config.ts:154-166 | a path with the route prefix becomes "/api" + remainder, shorter by prefix length − 4, and the prefix restores it; other paths are unchanged |
| DevProxy.ApiRoutesRewrite | vite.config.ts:154-166 | "/api/cmdb", "/api/alert" and "/api/task" each map to "/api" + remainder; paths without the prefix are unchanged |
| DevProxy.PrefixWithoutBoundary | vite.config.ts:154 | no segment boundary: "/api/cmdbx" becomes "/apix"; the prefix in mid-path is not rewritten |
| DevProxy.MinioRewrite | vite.config.ts:172 | only the first "/minio", wherever it is, is deleted (length − 6, re-insertion restores the path); paths without it are unchanged |
| DevProxy.MinioFirstOnly | vite.config.ts:172 | a leading "/minio" is stripped, and a second occurrence survives |
| TemplateSetRules.ValidateTemplateId | src/pages/alert/template_set/config/constants.ts:88-95 | the callback runs exactly once; it gets the error "请选择模板" exactly for undefined, null and the number 0 |
| TemplateSetRules.StrictComparisonPasses | src/pages/alert/template_set/config/constants.ts:89-92 | strict comparison lets "0", "", any non-zero number and false through |

## Left out

- The `src/api/**` request modules and the HTTP client are not part of this model. Each
  response is a `Response` parameter and each request is a returned value.
- Concurrency and ordering are not modelled: `refreshData`'s `Promise.all`, racing responses,
  and interleaved toggles. Each request is one atomic step.
- Vue scheduling is not modelled. `watch`, `computed` and `onMounted` timing, and the
  `immediate` first run, are explicit steps (`SyncSecret`, `OnWatchedChange`) that the caller
  runs.
- UI side effects are not modelled: `ElMessage` toasts, `console.error`, `stopPropagation`.
  The confirm dialog appears only as a `ConfirmPrompt` effect and a confirmed/cancelled input.
- Case folding covers ASCII letters only. `trim` strips a fixed whitespace set. Full Unicode
  `toLowerCase` and `trim` are outside the model.
- Numbers are integers. Floating point, `NaN` and `-0` are not modelled. In the source,
  `-0 === 0`, so the validator rejects `-0`, and a `NaN` total would default to 0.
- TemplateData.TotalTemplateCount requires every group to have a template list. The source
  throws a `TypeError` on a missing list, and that error path is not modelled.
- The favourites list is a `seq` value that the methods reassign. In the source the same
  template object is shared between a group and the favourites; that aliasing is not
  modelled.
- TaskHistory.TaskHistoryState.FetchTasksData assumes a successful response carries `tasks`
  and `total`. The source stores them without defaults, and a missing field would become
  `undefined`.
- `usePagination` (`handleCurrentChange`, `handleSizeChange` and the pagination defaults) is
  not part of this model. The starting page, size and total are constructor parameters.
- The codebook and worker record types are not part of this model. Only the fields the
  composables read are modelled. A runner variable's `value` is typed `any` in the source
  and is text in the model. The free-form `rules` and `options` of a template and its
  `create_type` are left out too, because none of the modelled composables reads them.
- Of the default arguments of `fetchCodebookRunners` and `fetchExcludeCodebookRunners`, only
  the all-omitted call is a method of its own. A call that omits some arguments is the
  explicit call with `DefaultOffset`, `DefaultLimit` or `DefaultIsAppend` passed in.
- The declarative `required`/`min`/`max` form rules are interpreted by the UI library and are
  not modelled. The rest of `vite.config.ts` is build configuration and is not modelled
  either.
