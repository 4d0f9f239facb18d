# DataSage metric catalogue — a Dafny model

DataSage is a React front end for a metric catalogue. It holds business metrics, the dimensions
they may be sliced by, metric sets ("albums"), tags, data domains and a category tree. This
project models in Dafny the logic of that catalogue and proves properties of it:

- the application shell (`App`) and its handlers, which replace the registry's lists:
  - registering, editing and deleting metrics (a deletion also unbinds the slug everywhere);
  - creating and editing dimensions;
  - creating domains and categories;
  - the header's domain fallback;
  - synthesizing a derived metric from a base metric, in filter mode or arithmetic mode;
- the derivation sheet (`DerivedSheet`): its form state and its two validations;
- the management workspace (`Management`): the category tree lookup and counts, the mock bulk
  move, the metric-set sheet, the tag sheet, and the domain, category and dimension forms;
- the metric search view (`MetricSearch`): the five-stage filter pipeline and its sort, the
  option lists of its selects, and the bulk selection;
- the metrics workspace (`MetricsWorkspace`): domain scoping, the metric-set list, the tag filter,
  the dimension tree pruned to a domain, and the "add to metric set" sheet;
- the registration form (`Registration`): category options flattened from the tree, prefill from
  an existing metric, and the payload built on submit;
- the dimension workspace (`DimensionsWorkspace`) and the dimension registry view
  (`DimensionManagement`);
- the shared tokenizers and timestamps (`Utils`) and the data model (`Types`).

The model follows each source file's own form:
- Pure memos and helpers are functions with lemmas.
- Loops (`forEach`, `for`, the tree walks) are methods with loop invariants. Each is proved
  equal to a recursive specification function, and the properties are proved about that function.
- The state a component keeps in `useState` is a class whose methods are its handlers and
  effects: App's state is `App.Registry`, and the sheets and views are classes in their modules.

The following become parameters:
- the clock: `now`, in milliseconds, and its ISO rendering `nowIso`;
- `Date.parse`: a function to `Option<int>`;
- `Number(...)`: a function to `JsNumber`, which is `NaN` or a number carrying its printed text.

`Wrappers`, `Strings` and `Seqs` are helper modules. They hold `Option`/`Result`, the JavaScript
string operations used (`trim`, ASCII `toLowerCase`, `includes`, `split`, `join`) and the array
operations used (`filter`, first-match `find`, de-duplication through a `Set`, stable sort by key).

## Model

| member | source | states |
|---|---|---|
| App.FlatTrend | src/App.tsx:61-71 | the placeholder trend has exactly ten points |
| App.FlatTrendContents | src/App.tsx:61-71 | point k is dated 2026-01-(k+1), with the day written in two digits, and has value 100 + 2(k+1) |
| App.FlatTrendDateDigits | src/App.tsx:61-71 | the date of day d is "2026-01-" followed by d's two decimal digits |
| App.CreateFlatTrend | src/App.tsx:61-71 | the counted loop returns exactly the flat trend |
| App.BaseMetric | src/App.tsx:124-127 | there is no base metric exactly when the slug is unset, empty or unknown; when there is one, it is a registry metric with that slug |
| App.OtherMetric | src/App.tsx:270-271 | the other operand is absent exactly when no metric has both the slug and the base's domain; when present, it has both |
| App.FilterClauses | src/App.tsx:202-211 | there are never more clauses than rows |
| App.FilterClausesAppend | src/App.tsx:202-211 | clauses of concatenated rows are the concatenated clauses, so row order is kept |
| App.FilterClausesOfRow | src/App.tsx:202-211 | a row without tokens contributes nothing, and any other row contributes exactly `slug IN (tokens)` |
| App.FilterClausesEmptyIff | src/App.tsx:202-213 | there are no clauses exactly when no row's values hold a token |
| App.DeriveMetricRejectsIff | src/App.tsx:183-197 | the registry is unchanged exactly when the base is missing, the new slug is taken, or (arithmetic mode) no metric with the other slug lies in the base's domain; a filter spec without clauses is not rejected |
| App.DerivedCommonFields | src/App.tsx:251-268 | a derived metric is a Draft with heat 0, the given name and slug, the flat trend and one query with a fresh id and no link; it keeps the base's category path, domain, owners and top dimensions; a non-blank description becomes the trimmed business definition |
| App.DeriveKeepsSlugsUnique | src/App.tsx:188-192 | appending a derived metric keeps registry slugs unique |
| App.DeriveMetricFilterMode | src/App.tsx:199-268 | a successful filter-mode derivation is the filter synthesis applied to the base metric |
| App.DeriveMetricArithmeticMode | src/App.tsx:269-327 | a successful arithmetic derivation is the arithmetic synthesis applied to the base and the other metric, and both exist |
| App.ClausesFreeOfNewline | src/App.tsx:202-211 | clauses of rows whose slugs have no newline have no newline |
| App.FilterTechnicalDefinitionLines | src/App.tsx:215-221 | without clauses the definition is the base's; otherwise its lines are the base's lines plus one `WHERE`/`AND` line holding every clause |
| App.FilterDerivedDefinitions | src/App.tsx:213-262 | the technical definition is the base's with the `WHERE`/`AND` line; the one query is the base's first query with a fresh id and the clauses appended to its filters, or, without a base query, a `SUM` computed expression over the base slug with only the clauses; the business definition is the trimmed description, else the base's followed by `(derived with filters on <slugs>)` |
| App.FilterDerivedQueryAndBindings | src/App.tsx:223-243 | the new query's filters are the base's first-query filters followed by the clauses; the bound dimensions are the base's plus every row's slug, each once |
| App.RowSlugsMembers | src/App.tsx:241-243 | the row slugs are exactly the rows' dimension slugs |
| App.ExpressionFreeOfNewline | src/App.tsx:273-280 | the arithmetic expression has no newline when its slugs and coefficient text have none |
| App.ArithmeticLinesSplit | src/App.tsx:282-288 | the five definition lines split back apart on newlines |
| App.ArithmeticDerivedShape | src/App.tsx:269-327 | the arithmetic definition names the base, the other metric and `<base> <op> <rhs> AS <slug>;`; the one query is a `Computed expression` over `derived_expression` with aggregate `NONE`, the base's first-query business date (or ""), no filters, no analysis dimensions and no link; the bound dimensions are the base's and the other's, each once; the business definition is the trimmed description, else `Derived metric: <base> <op> <other>` |
| App.RhsCases | src/App.tsx:276-279 | the right-hand side is the bare other slug exactly when the coefficient is absent, not a number, or 1; otherwise it is `<other> * <coefficient>` |
| App.UniqueByIdIds | src/App.tsx:94-102 | the unique domains carry every input id, each exactly once |
| App.UniqueByIdFirst | src/App.tsx:94-102 | each unique domain is the first input domain with its id |
| App.UniqueByIdMembers | src/App.tsx:94-102 | the unique domains are input domains, and every first-of-its-id domain is among them |
| App.UniqueByIdEmptyIff | src/App.tsx:94-102 | there are unique domains exactly when there are domains |
| App.UniqueDomains | src/App.tsx:94-102 | the one-pass loop with a seen-set computes the unique domains |
| App.FallbackDomainIdSpec | src/App.tsx:104-117 | the fallback exists exactly when there are domains and is one of their ids; it is permitted when some first-of-its-id domain is permitted |
| App.ShadowedPermittedDomain | src/App.tsx:94-117 | a permitted domain hidden behind an unpermitted one with the same id never becomes the fallback |
| App.NextActiveDomainSpec | src/App.tsx:109-117 | without domains nothing changes; with domains some domain is always active, a non-empty current id is kept, and otherwise the fallback is chosen |
| App.DomainSelectValue | src/App.tsx:500-501 | the active id when there is one; otherwise the first permitted unique domain's id, else the first unique domain's id, else "" |
| App.DefaultSelectIsFirstOption | src/App.tsx:500-501 | with domains and no active id, the select shows the first option the selector lists |
| App.RegisteredMetric | src/App.tsx:142-174 | a registered metric is a Draft with heat 0 and one query; its category path is the payload's, or `["Monetization"]` when that is empty, and its domain is the path's head; it gets the clock's ids, `TBD` owners and the flat trend, the payload's business and technical definitions, and a query with every payload query field; the bound dimensions come from the payload, and the lark link is dropped when blank |
| App.RegisterMayDuplicateSlug | src/App.tsx:139-180 | registration does not check slugs: an existing slug is duplicated |
| App.UpdatedMetric | src/App.tsx:407-442 | an edit keeps id, status, owners, heat, trend, top dimensions and creation time, keeps the first query's id, takes the payload's name, slug, both definitions, bindings and every query field, drops a blank lark link, takes the payload's category path (or `["Monetization"]` when empty) and moves the domain only when a path is given |
| App.WithoutMetric | src/App.tsx:447 | the surviving metrics are exactly the others, and none has the deleted slug |
| App.UnbindMetric | src/App.tsx:448-451 | every dimension loses the slug from its bound metrics and nothing else |
| App.UnlistMetric | src/App.tsx:454-459 | every metric set loses the slug and nothing else |
| App.NewDimension | src/App.tsx:373-405 | a new dimension takes the payload id as id and slug, has no bindings and no scope, lies in "General", and is stamped with the creation time |
| App.EditedDimension | src/App.tsx:462-487 | an edit keeps id, slug, domain, scope, bindings and creation time, takes the new name and stamps the update time |
| App.DomainOptions | src/App.tsx:104-107 | the permitted unique domains when there are any, else all unique domains; distinct ids drawn from the input, and some exactly when there are domains |
| App.FilterIdsNoDup | src/App.tsx:104-107 | filtering domains with distinct ids keeps the ids distinct |
| App.Registry.constructor | src/App.tsx:76-92 | the loaded data, the given sets, the initial tags, and no selection or open sheet |
| App.Registry.RegisterMetric | src/App.tsx:139-180 | appends the registered metric; everything else is unchanged |
| App.Registry.UpdateMetric | src/App.tsx:407-442 | rewrites every metric with the slug and leaves the others in place |
| App.Registry.DeleteMetric | src/App.tsx:444-460 | drops the metric, unbinds it from every dimension and unlists it from every set |
| App.Registry.CreateDimension | src/App.tsx:373-405 | appends the new dimension |
| App.Registry.UpdateDimension | src/App.tsx:462-487 | edits every dimension with the payload's id and keeps the rest |
| App.Registry.DeleteDimension | src/App.tsx:489-494 | drops exactly the dimensions with the id; metrics keep their bindings |
| App.Registry.CreateDomain | src/App.tsx:338-359 | appends a permitted domain built from the payload |
| App.Registry.CreateCategory | src/App.tsx:361-371 | appends a root category with the id and name; the description is dropped |
| App.Registry.SyncActiveDomain | src/App.tsx:109-117 | the active domain becomes the next active domain |
| App.Registry.SelectDomain | src/App.tsx:521 | the header select sets the active domain |
| App.Registry.OpenMetricProfile | src/App.tsx:129-132 | selects the slug and opens the profile |
| App.Registry.OpenDerivedSheet | src/App.tsx:134-137 | records the base slug and opens the derivation sheet |
| App.Registry.SetDerivedSheetOpen | src/App.tsx:654-659 | closing the derivation sheet also forgets the base slug |
| App.Registry.CreateDerivedMetric | src/App.tsx:183-336 | appends the derived metric and closes both sheets, or changes nothing |
| DerivedSheet.MetricsInDomain | src/views/DerivedMetricSheet.tsx:53-56 | exactly the metrics of the base's domain without the base's slug |
| DerivedSheet.DimensionsForBase | src/views/DerivedMetricSheet.tsx:58-65 | exactly the dimensions of the base's domain or scoped to it |
| DerivedSheet.FallbackSlug | src/views/DerivedMetricSheet.tsx:81-91 | a new row's slug is the base's first bound dimension, else the first dimension serving the domain, else the first dimension, else "" |
| DerivedSheet.FallbackSlugFirstServing | src/views/DerivedMetricSheet.tsx:81-91 | without bound dimensions, the slug of the dimension at the first index serving the base's domain; when none serves it, the first dimension's slug, else "" |
| DerivedSheet.CommonFieldsError | src/views/DerivedMetricSheet.tsx:105-118 | there is no error exactly when the trimmed name and slug are present and the trimmed slug is free; the required-fields message comes exactly when one is blank |
| DerivedSheet.TrimmedRows | src/views/DerivedMetricSheet.tsx:124-129 | the kept rows are the trimmed input rows with neither field blank |
| DerivedSheet.TrimmedRowsAppend | src/views/DerivedMetricSheet.tsx:124-129 | row trimming keeps row order |
| DerivedSheet.TrimmedRowsAreTrimmed | src/views/DerivedMetricSheet.tsx:124-129 | every kept row is trimmed on both fields |
| DerivedSheet.FilterSubmission | src/views/DerivedMetricSheet.tsx:120-145 | the filter spec is emitted exactly when the common fields pass and some row is kept, and it carries the trimmed fields and the kept rows; otherwise the matching message |
| DerivedSheet.Coefficient | src/views/DerivedMetricSheet.tsx:162 | the coefficient is absent exactly when the trimmed text (or "1" when blank) is not a number |
| DerivedSheet.ArithmeticSubmission | src/views/DerivedMetricSheet.tsx:147-174 | the arithmetic spec is emitted exactly when the common fields pass and the other metric lies in the base's domain and is not the base; otherwise the message is the common-field message, then "Select another metric to combine with." for a blank other slug, then "The selected metric is not available in the same domain." |
| DerivedSheet.FindInDomainIff | src/views/DerivedMetricSheet.tsx:147-174 | the lookup among the domain's metrics succeeds exactly when such an other metric exists |
| DerivedSheet.SheetFilterSpecAccepted | src/views/DerivedMetricSheet.tsx:120-145 | App never rejects a filter spec the sheet emits while the base is registered |
| DerivedSheet.SheetArithmeticSpecAccepted | src/views/DerivedMetricSheet.tsx:147-174 | App never rejects an arithmetic spec the sheet emits while the base is registered |
| DerivedSheet.CommaOnlyRowPassesWithoutClauses | src/views/DerivedMetricSheet.tsx:124-134 | a row whose values are only "," passes the sheet yet yields no clause in App |
| DerivedSheet.Patched | src/views/DerivedMetricSheet.tsx:93-99 | each field is the patch's when given, else the row's |
| DerivedSheet.RemoveAt | src/views/DerivedMetricSheet.tsx:101-103 | removes the row at the index; an index past the end changes nothing |
| DerivedSheet.SheetForm.constructor | src/views/DerivedMetricSheet.tsx:40-51 | filter mode, blank fields, no rows, Add, coefficient "1", no message |
| DerivedSheet.SheetForm.ResetOnOpen | src/views/DerivedMetricSheet.tsx:67-79 | opening resets every field for the base; closing changes nothing |
| DerivedSheet.SheetForm.ChangeTab | src/views/DerivedMetricSheet.tsx:199-206 | only "filter" and "arithmetic" switch the mode, and both clear the message |
| DerivedSheet.SheetForm.AddFilterRow | src/views/DerivedMetricSheet.tsx:81-91 | appends one row with the fallback slug and empty values |
| DerivedSheet.SheetForm.UpdateFilter | src/views/DerivedMetricSheet.tsx:93-99 | patches the row at the index and keeps every other row |
| DerivedSheet.SheetForm.RemoveFilterRow | src/views/DerivedMetricSheet.tsx:101-103 | the rows become RemoveAt of the old rows |
| DerivedSheet.SheetForm.SubmitFilter | src/views/DerivedMetricSheet.tsx:120-145 | returns the filter submission's spec or shows its message; the fields are kept |
| DerivedSheet.SheetForm.SubmitArithmetic | src/views/DerivedMetricSheet.tsx:147-174 | returns the arithmetic submission's spec or shows its message; the fields are kept |
| Management.FindInForestIsPreorderFind | src/views/ManagementWorkspaceView.tsx:1788-1797 | the lookup returns the first node in preorder with the id |
| Management.FindInForestSpec | src/views/ManagementWorkspaceView.tsx:1788-1797 | nothing is found exactly when no node at any depth has the id; a found node has it |
| Management.FindCategoryById | src/views/ManagementWorkspaceView.tsx:1788-1797 | the loop with early return and recursion computes the lookup |
| Management.OwnTotalAppend | src/views/ManagementWorkspaceView.tsx:1655-1663 | own-count totals add over concatenation |
| Management.SubtreeCountIsTotal | src/views/ManagementWorkspaceView.tsx:1655-1663 | a subtree's count is the sum of the own counts of all its nodes |
| Management.ForestCountIsTotal | src/views/ManagementWorkspaceView.tsx:1655-1663 | a forest's count is the sum of the own counts of all its nodes |
| Management.CountNode | src/views/ManagementWorkspaceView.tsx:1655-1663 | the loop over children computes the subtree count |
| Management.CountMetricsInCategory | src/views/ManagementWorkspaceView.tsx:1651-1666 | the count for an id is its node's subtree count, and 0 when no node has the id |
| Management.BulkMove | src/views/ManagementWorkspaceView.tsx:1668-1686 | nothing happens exactly when an id is missing; "same category" comes exactly for equal ids; "nothing to move" only for an empty subtree; otherwise the would-move count is the subtree count, the source name is the found source's and the target name is the found target's name, else the target id |
| Management.CategoryMover.constructor | src/views/ManagementWorkspaceView.tsx:1647-1649 | no ids chosen and no message |
| Management.CategoryMover.ChooseCategories | src/views/ManagementWorkspaceView.tsx:1726-1735 | records both ids |
| Management.CategoryMover.BulkMoveClicked | src/views/ManagementWorkspaceView.tsx:1668-1686 | only the message changes, to the bulk move's message, and not at all when an id is missing |
| Management.SubmittedSet | src/views/ManagementWorkspaceView.tsx:837-882 | the set takes the trimmed name and description, the visibility, the slugs and the tags, the domain or "Custom", and the update time; an edit keeps id, scope and creation time, and a creation gets a fresh id |
| Management.SetSubmission | src/views/ManagementWorkspaceView.tsx:837-882 | rejected exactly for a blank name or a name another set has; a creation appends, and an edit replaces every set with the edited id |
| Management.SetSubmissionKeepsNamesUnique | src/views/ManagementWorkspaceView.tsx:837-882 | accepted submissions keep set names unique |
| Management.SetSheet.constructor | src/views/ManagementWorkspaceView.tsx:769-787 | blank form in the first domain; the first metric is preselected |
| Management.SetSheet.ResetOnOpen | src/views/ManagementWorkspaceView.tsx:791-825 | opening prefills from the edited set, or from the initial slugs and domain; closing changes nothing |
| Management.SetSheet.AddMetricRef | src/views/ManagementWorkspaceView.tsx:827-835 | appends the selected slug only when it is non-empty and not yet listed, so the list stays duplicate-free |
| Management.SetSheet.Submit | src/views/ManagementWorkspaceView.tsx:837-884 | hands up the submission's sets or shows its message |
| Management.AddTag | src/views/ManagementWorkspaceView.tsx:1054-1073 | rejected exactly for a blank name or one clashing case-insensitively; otherwise appends the trimmed tag |
| Management.AddTagKeepsNamesDistinct | src/views/ManagementWorkspaceView.tsx:1054-1073 | adding keeps tag names distinct |
| Management.RenameTag | src/views/ManagementWorkspaceView.tsx:1081-1100 | rejected exactly for a blank name or one another tag has; otherwise renames the edited id and keeps the rest |
| Management.RenameTagKeepsNamesDistinct | src/views/ManagementWorkspaceView.tsx:1081-1100 | renaming keeps names distinct and ids unique |
| Management.UntagSets | src/views/ManagementWorkspaceView.tsx:1102-1115 | every set loses exactly the tag id and nothing else |
| Management.DeleteTag | src/views/ManagementWorkspaceView.tsx:1102-1115 | the tags are the others, and the sets are untagged |
| Management.DeleteTagKeepsOrder | src/views/ManagementWorkspaceView.tsx:1102-1115 | the surviving tags keep their order: deleting from a concatenation deletes from each part, and a single tag survives exactly when its id differs |
| Management.DeleteTagLeavesNoReference | src/views/ManagementWorkspaceView.tsx:1102-1115 | after a deletion no set refers to the tag |
| Management.TagSheet.constructor | src/views/ManagementWorkspaceView.tsx:1040-1043 | empty form, nothing being edited |
| Management.TagSheet.OpenChanged | src/views/ManagementWorkspaceView.tsx:1045-1052 | closing clears the form and opening changes nothing |
| Management.TagSheet.Add | src/views/ManagementWorkspaceView.tsx:1054-1073 | hands up AddTag's list or shows its message |
| Management.TagSheet.StartRename | src/views/ManagementWorkspaceView.tsx:1075-1079 | starts editing the tag with its current name |
| Management.TagSheet.SaveRename | src/views/ManagementWorkspaceView.tsx:1081-1100 | nothing happens unless a tag is being edited; otherwise hands up RenameTag's list or shows its message |
| Management.TagSheet.Delete | src/views/ManagementWorkspaceView.tsx:1102-1115 | hands up DeleteTag's result and abandons an edit of the deleted tag |
| Management.DomainSubmission | src/views/ManagementWorkspaceView.tsx:1243-1266 | accepted exactly when id, name, source type and link are filled and the trimmed id is all digits; the payload is trimmed |
| Management.DomainIdMustBeDigits | src/views/ManagementWorkspaceView.tsx:1243-1266 | with every field filled, the id "12a" is refused with the digits message |
| Management.DomainIdIsTrimmed | src/views/ManagementWorkspaceView.tsx:1243-1266 | the id " 42 " is accepted, and the payload carries "42" |
| Management.CategorySubmission | src/views/ManagementWorkspaceView.tsx:1351-1362 | accepted exactly when id and name are filled; the payload is trimmed |
| Management.DimensionPrefill | src/views/ManagementWorkspaceView.tsx:1451-1468 | blank without an edited dimension; else its id, name and description, with an absent category or source link shown as "" |
| Management.DimensionSubmission | src/views/ManagementWorkspaceView.tsx:1470-1494 | accepted exactly when the name is filled and, for a creation, the id too; an edit keeps the edited id |
| Management.SaveUnchangedDimension | src/views/ManagementWorkspaceView.tsx:1451-1494 | saving a tidy dimension unchanged gives it back apart from its update time |
| MetricSearch.StageStep | src/views/MetricSearchView.tsx:85-117 | applying stage k to the survivors of k stages gives the survivors of k+1 |
| MetricSearch.InactiveStage | src/views/MetricSearchView.tsx:85-117 | a stage set to "all" changes nothing |
| MetricSearch.AllStagesArePasses | src/views/MetricSearchView.tsx:85-117 | the five stages together are the view's conditions |
| MetricSearch.ApplyStage | src/views/MetricSearchView.tsx:85-117 | one pipeline step advances the survivors by one stage |
| MetricSearch.ApplyFilters | src/views/MetricSearchView.tsx:85-117 | the successive filters compute the passing metrics in order |
| MetricSearch.Filtered | src/views/MetricSearchView.tsx:85-125 | the list holds exactly the passing metrics, each as often as in the input, sorted by the chosen timestamp and direction, and metrics with equal timestamps keep their input order |
| MetricSearch.SearchResultsSpec | src/views/MetricSearchView.tsx:85-125 | the same four facts about the result function |
| MetricSearch.NoRestriction | src/views/MetricSearchView.tsx:85-125 | a blank search with every filter on "all" lists every metric |
| MetricSearch.OptionsOfSpec | src/views/MetricSearchView.tsx:56-83 | options are the non-empty values, each once, sorted |
| MetricSearch.Column | src/views/MetricSearchView.tsx:56-83 | one field value per metric |
| MetricSearch.OptionStep | src/views/MetricSearchView.tsx:56-83 | adding one value to the seen-set extends the options the same way |
| MetricSearch.CollectOptions | src/views/MetricSearchView.tsx:56-83 | the `forEach` into a set, then the sort, computes the options |
| MetricSearch.CategoryOptions | src/views/MetricSearchView.tsx:56-63 | the distinct non-empty category labels, sorted |
| MetricSearch.BusinessOwnerOptions | src/views/MetricSearchView.tsx:65-73 | the distinct non-empty business owners, sorted |
| MetricSearch.TechOwnerOptions | src/views/MetricSearchView.tsx:75-83 | the distinct non-empty tech owners, sorted |
| MetricSearch.PrunedSelection | src/views/MetricSearchView.tsx:137-139 | keeps exactly the selected slugs still present, and stays duplicate-free |
| MetricSearch.FilterKeepsNoDup | src/views/MetricSearchView.tsx:137-139 | filtering keeps a list duplicate-free |
| MetricSearch.PruneIdempotent | src/views/MetricSearchView.tsx:137-139 | pruning twice is pruning once |
| MetricSearch.Toggled | src/views/MetricSearchView.tsx:315-323 | checking appends an absent slug, unchecking removes every copy, and the list stays duplicate-free |
| MetricSearch.CheckThenUncheck | src/views/MetricSearchView.tsx:315-323 | unchecking what checking added restores the selection |
| MetricSearch.Selection.constructor | src/views/MetricSearchView.tsx:52 | nothing is selected |
| MetricSearch.Selection.Prune | src/views/MetricSearchView.tsx:137-139 | the selection becomes the pruned selection |
| MetricSearch.Selection.Toggle | src/views/MetricSearchView.tsx:315-323 | the selection becomes the toggled selection |
| MetricsWorkspace.SetsForDomain | src/views/MetricsWorkspaceView.tsx:91-94 | every set without a chosen domain, else exactly that domain's sets |
| MetricsWorkspace.SetsForDomainIsFilter | src/views/MetricsWorkspaceView.tsx:91-94 | the domain list is the order-keeping filter |
| MetricsWorkspace.MetricsForDomain | src/views/MetricsWorkspaceView.tsx:130-133 | every metric without a chosen domain, else exactly that domain's metrics |
| MetricsWorkspace.DimensionsForDomain | src/views/MetricsWorkspaceView.tsx:153-158 | every dimension without a chosen domain, else exactly those of the domain or scoped to it |
| MetricsWorkspace.AlbumTimestamp | src/views/MetricsWorkspaceView.tsx:53-58 | 0 when the field is absent or empty, 0 when it does not parse, and the parsed value otherwise |
| MetricsWorkspace.FilteredSets | src/views/MetricsWorkspaceView.tsx:96-118 | the list holds exactly the listed sets, each as often as in the input, sorted by the chosen timestamp, and sets with equal timestamps keep their input order |
| Seqs.SortByStable | src/views/MetricsWorkspaceView.tsx:111-117 | the sort by key is stable: for every key value, the elements with that key appear in their input order |
| MetricsWorkspace.SetsViewSpec | src/views/MetricsWorkspaceView.tsx:96-118 | the same four facts about the view function |
| MetricsWorkspace.TaggedSlugsMembers | src/views/MetricsWorkspaceView.tsx:135-146 | a slug is collected exactly when some tagged set lists it |
| MetricsWorkspace.TagSlugsMembers | src/views/MetricsWorkspaceView.tsx:135-146 | a slug is collected exactly when some in-domain set carrying a selected tag lists it |
| MetricsWorkspace.AddAll | src/views/MetricsWorkspaceView.tsx:141-143 | adding a set's slugs one by one gives the union with all of them |
| MetricsWorkspace.MetricSlugsForSelectedTags | src/views/MetricsWorkspaceView.tsx:135-146 | absent exactly when no tag is selected; otherwise exactly the slugs of in-domain sets carrying a selected tag |
| MetricsWorkspace.MetricsWithTagFilter | src/views/MetricsWorkspaceView.tsx:148-151 | the domain's metrics, restricted to the tagged slugs when a tag filter is present |
| MetricsWorkspace.ForestSlugsAppend | src/views/MetricsWorkspaceView.tsx:165-195 | slugs and counts add over concatenated forests |
| MetricsWorkspace.PruneNodeSpec | src/views/MetricsWorkspaceView.tsx:168-188 | a node survives exactly when its subtree lists a kept slug; the survivor lists exactly those slugs, in order, and counts them |
| MetricsWorkspace.PruneForestSpec | src/views/MetricsWorkspaceView.tsx:165-195 | the pruned forest lists exactly the kept slugs, in order, and counts them |
| MetricsWorkspace.PruneNodeShape | src/views/MetricsWorkspaceView.tsx:168-188 | a surviving node has a positive count, no empty lists and only kept own slugs |
| MetricsWorkspace.CountSumNonNegative | src/views/MetricsWorkspaceView.tsx:168-188 | the children's counts of a pruned node sum to a non-negative number |
| MetricsWorkspace.PruneForestShape | src/views/MetricsWorkspaceView.tsx:165-195 | every root of the pruned forest has the pruned shape |
| MetricsWorkspace.FilteredDimensionTree | src/views/MetricsWorkspaceView.tsx:165-195 | the whole tree when no domain is chosen |
| MetricsWorkspace.FilteredDimensionTreeSpec | src/views/MetricsWorkspaceView.tsx:160-195 | with a domain chosen, the tree lists exactly its slugs that belong to the domain's dimensions, in order, and every node has the pruned shape |
| MetricsWorkspace.Merged | src/views/MetricsWorkspaceView.tsx:930-951 | the merged set holds exactly the old and new slugs, each once, and nothing else changes |
| MetricsWorkspace.MergedExtends | src/views/MetricsWorkspaceView.tsx:930-951 | a duplicate-free set keeps its slugs in place and gains the new ones, once each, in order |
| MetricsWorkspace.AddSelection | src/views/MetricsWorkspaceView.tsx:930-951 | a message when no set is chosen or nothing is selected; otherwise every set with the id is merged and the others are kept |
| MetricsWorkspace.AddSelectionOnlyTouchesTarget | src/views/MetricsWorkspaceView.tsx:930-951 | only the chosen set's slugs change, and they gain every selected slug |
| MetricsWorkspace.NewSetDomain | src/views/MetricsWorkspaceView.tsx:953-977 | never empty; the chosen domain, else the first domain's non-empty id, else "Custom" |
| MetricsWorkspace.CreateNewSet | src/views/MetricsWorkspaceView.tsx:953-977 | rejected exactly for a blank name or one some set has exactly; otherwise appends the new set with the trimmed fields and the selection |
| MetricsWorkspace.CreateNewSetKeepsNamesUnique | src/views/MetricsWorkspaceView.tsx:953-977 | creating keeps set names unique |
| MetricsWorkspace.DefaultSetId | src/views/MetricsWorkspaceView.tsx:917-928 | absent exactly when there are no sets; otherwise the first in-domain set's id, else the first set's id |
| MetricsWorkspace.DefaultSetIdFirstInDomain | src/views/MetricsWorkspaceView.tsx:917-928 | the preselected set is the one at the first index in the domain; when none is, the first set, else none |
| MetricsWorkspace.AddToSetSheet.constructor | src/views/MetricsWorkspaceView.tsx:906-910 | no set chosen, blank form, team visibility |
| MetricsWorkspace.AddToSetSheet.ResetOnOpen | src/views/MetricsWorkspaceView.tsx:917-928 | opening blanks the form and preselects the default set |
| MetricsWorkspace.AddToSetSheet.AddSelectionToSet | src/views/MetricsWorkspaceView.tsx:930-951 | hands up AddSelection's sets or shows its message |
| MetricsWorkspace.AddToSetSheet.CreateSet | src/views/MetricsWorkspaceView.tsx:953-977 | hands up CreateNewSet's sets or shows its message |
| Registration.JoinPaths | src/views/MetricRegistrationView.tsx:25-36 | one string per path, its names joined with " > " |
| Registration.FlattenCategoryPaths | src/views/MetricRegistrationView.tsx:25-36 | the recursive walk computes the joined leaf paths |
| Registration.JoinPathsAppend | src/views/MetricRegistrationView.tsx:25-36 | joining distributes over concatenation |
| Registration.Leaves | src/views/MetricRegistrationView.tsx:25-36 | only leaves, in preorder |
| Registration.PreorderAppend | src/views/MetricRegistrationView.tsx:25-36 | preorder distributes over concatenation |
| Registration.LeavesAppend | src/views/MetricRegistrationView.tsx:25-36 | leaves distribute over concatenation |
| Registration.EndInLeavesAppend | src/views/MetricRegistrationView.tsx:25-36 | "each path ends in its leaf" is kept by concatenation |
| Registration.LeafPathsPerLeaf | src/views/MetricRegistrationView.tsx:25-36 | one path per leaf, in preorder; each extends the prefix and ends in its leaf's name |
| Registration.NodeLeafPathsPerLeaf | src/views/MetricRegistrationView.tsx:25-36 | the same for one node |
| Registration.LeafPathsFollowTree | src/views/MetricRegistrationView.tsx:25-36 | each path is the prefix followed by the names from a root down to a leaf |
| Registration.NodeLeafPathsFollowTree | src/views/MetricRegistrationView.tsx:25-36 | the same for one node |
| Registration.LeafPathsFree | src/views/MetricRegistrationView.tsx:25-36 | paths of non-empty `>`-free names consist of such names |
| Registration.SplitOnFrom | src/views/MetricRegistrationView.tsx:41-43 | splitting always yields at least one piece |
| Registration.SplitOn | src/views/MetricRegistrationView.tsx:41-43 | splitting always yields at least one piece |
| Registration.CategoryPathOf | src/views/MetricRegistrationView.tsx:74-91 | no selection, or the empty one, gives the empty path |
| Registration.SplitSkipsName | src/views/MetricRegistrationView.tsx:41-43 | a `>`-free name is copied whole into the current piece |
| Registration.SplitJoinPath | src/views/MetricRegistrationView.tsx:41-43 | splitting a join of `>`-free names gives the names back |
| Registration.PathPrefillRoundTrip | src/views/MetricRegistrationView.tsx:41-43 | the prefilled path splits back into the metric's path (the lone empty name excepted) |
| Registration.OptionRoundTrip | src/views/MetricRegistrationView.tsx:25-43 | choosing a flattened option gives back that leaf's path |
| Registration.SeparatorLikeNameSplits | src/views/MetricRegistrationView.tsx:41-43 | the names `"x >"` and `"y"` come back as `"x"` and `"> y"` |
| Registration.ListPrefill | src/views/MetricRegistrationView.tsx:56-63 | an empty list shows as "" |
| Registration.Prefill | src/views/MetricRegistrationView.tsx:40-64 | the defaults without a metric; otherwise its path, name, definitions, slug and lark link (absent shown as ""), and its first query's type, source, field, aggregate, date, joined lists and link, or the query defaults when it has no query |
| Registration.Submit | src/views/MetricRegistrationView.tsx:70-94 | nothing exactly when the untrimmed name or slug is empty; otherwise the text fields copied, the path split back, the filters and dimensions normalized from their text, and each link trimmed or dropped when blank |
| Registration.BlankNameIsSubmitted | src/views/MetricRegistrationView.tsx:72 | a name and a slug of one space pass the guard |
| Registration.ListPrefillRoundTrip | src/views/MetricRegistrationView.tsx:56-94 | lists shown in the form normalize back to themselves |
| Registration.ResubmitPrefill | src/views/MetricRegistrationView.tsx:40-94 | resubmitting a metric's form unchanged gives back its name, slug, path and first query's lists |
| DimensionsWorkspace.AnyKeywordSpec | src/views/DimensionsWorkspaceView.tsx:30-46 | a keyword list matches exactly when one of its keywords occurs |
| DimensionsWorkspace.FirstRuleSpec | src/views/DimensionsWorkspaceView.tsx:30-46 | the first matching rule wins, and the default applies when none matches |
| DimensionsWorkspace.FirstRuleCons | src/views/DimensionsWorkspaceView.tsx:30-46 | a one-keyword head rule wins when its keyword occurs, else the rest decides |
| DimensionsWorkspace.ChooseBadge | src/views/DimensionsWorkspaceView.tsx:30-46 | the if-chain gives the first matching badge rule, with its color |
| DimensionsWorkspace.BadgeRulesUnfold | src/views/DimensionsWorkspaceView.tsx:30-46 | the chain is the first-rule choice over the badge rules |
| DimensionsWorkspace.PairKeyword | src/views/DimensionsWorkspaceView.tsx:30-46 | a two-keyword rule matches when either occurs |
| DimensionsWorkspace.SingleKeyword | src/views/DimensionsWorkspaceView.tsx:30-46 | a one-keyword rule matches when it occurs |
| DimensionsWorkspace.DescriptionIsFirstRule | src/views/DimensionsWorkspaceView.tsx:255-264 | the description is the first matching keyword's text, else the generic one |
| DimensionsWorkspace.CountFields | src/views/DimensionsWorkspaceView.tsx:19-25 | the count is the number of slugs in the subtree |
| DimensionsWorkspace.Categories | src/views/DimensionsWorkspaceView.tsx:16-58 | the cards built in the loop are exactly the cards of the roots, in order |
| DimensionsWorkspace.CardsOfSpec | src/views/DimensionsWorkspaceView.tsx:16-58 | one card per root, in order, with its subtree field count, badge, the badge's color and description |
| DimensionsWorkspace.MakeCard | src/views/DimensionsWorkspaceView.tsx:17-57 | a card holds its node, the subtree field count, the first matching badge with its color, and the description |
| DimensionsWorkspace.FindNodeIsPreorderFind | src/views/DimensionsWorkspaceView.tsx:70-85 | the first node in preorder with the id |
| DimensionsWorkspace.ActiveNode | src/views/DimensionsWorkspaceView.tsx:70-85 | a found node has the id and lies in the tree; with a non-empty id, nothing is found exactly when no node has it |
| DimensionsWorkspace.CollectSlugs | src/views/DimensionsWorkspaceView.tsx:87-98 | adds exactly the subtree's slugs |
| DimensionsWorkspace.ElemsAppend | src/views/DimensionsWorkspaceView.tsx:87-98 | the elements of a concatenation are the union of the elements |
| DimensionsWorkspace.ActiveDimensions | src/views/DimensionsWorkspaceView.tsx:87-98 | nothing without an active node; otherwise exactly the dimensions whose slug occurs in its subtree, in order |
| DimensionManagement.InitialSelection | src/views/DimensionManagementView.tsx:25 | absent exactly when there are no dimensions; otherwise the first slug |
| DimensionManagement.Selected | src/views/DimensionManagementView.tsx:29-32 | a found dimension has the selected slug and no earlier dimension has it (the first match); nothing is found only when no dimension has it |
| DimensionManagement.InitialSelectionSelectsFirst | src/views/DimensionManagementView.tsx:25-32 | the initial selection selects the first dimension itself |
| DimensionManagement.BoundMetrics | src/views/DimensionManagementView.tsx:34-37 | exactly the metrics the selected dimension lists, and none without a selection |
| DimensionManagement.ValidateBinding | src/views/DimensionManagementView.tsx:39-59 | a prompt exactly for a blank slug or no selection; "unknown" exactly when no metric has the trimmed slug; valid exactly when the dimension lists it, missing otherwise |
| DimensionManagement.ValidIffListedAsBound | src/views/DimensionManagementView.tsx:34-59 | a binding checks valid exactly when the metric is listed as bound |
| Utils.Tokens | src/lib/utils.ts:9-21 | every token is non-empty and trimmed |
| Utils.TokensAppend | src/lib/utils.ts:9-21 | tokenizing distributes over concatenation |
| Utils.TokensFree | src/lib/utils.ts:9-21 | tokens of separator-free pieces are free of the separators |
| Utils.TokensOfClean | src/lib/utils.ts:9-21 | clean tokens pass through unchanged |
| Utils.NormalizeFilters | src/lib/utils.ts:9-14 | every filter is a trimmed, non-empty token without comma or newline |
| Utils.NormalizeDimensions | src/lib/utils.ts:16-21 | every dimension is a trimmed, non-empty token without comma |
| Utils.TokenizeAppend | src/lib/utils.ts:9-21 | text around a separator tokenizes its two sides independently |
| Utils.TokenizeClean | src/lib/utils.ts:9-21 | a clean token tokenizes to itself alone |
| Utils.TokenizeSkipsBlankPrefix | src/lib/utils.ts:9-21 | leading separator-free whitespace changes nothing |
| Utils.TokenizeBlank | src/lib/utils.ts:9-21 | blank text gives no tokens |
| Utils.TokenizeJoin | src/lib/utils.ts:9-21 | joining clean tokens with a separator and whitespace, then tokenizing, gives them back |
| Utils.TokenizeLeadingToken | src/lib/utils.ts:9-21 | a clean token followed by a separator and whitespace tokenizes to that token, then the tokens of the rest |
| Utils.NormalizeFiltersIdempotent | src/lib/utils.ts:9-14 | normalizing the comma-joined output changes nothing |
| Utils.NormalizeFiltersOfPrefill | src/lib/utils.ts:9-14 | filters joined with ", " normalize back to themselves |
| Utils.NormalizeDimensionsOfPrefill | src/lib/utils.ts:16-21 | dimensions joined with ", " normalize back to themselves |
| Utils.NormalizeFiltersAppend | src/lib/utils.ts:9-14 | order and duplicates are kept across a comma or newline |
| Utils.NormalizeDimensionsAppend | src/lib/utils.ts:16-21 | order and duplicates are kept across a comma |
| Utils.NormalizeBlank | src/lib/utils.ts:9-21 | blank input gives no tokens |
| Utils.NewlineStaysInDimension | src/lib/utils.ts:16-21 | a newline stays inside a dimension token: `"a\nb"` gives the one token `"a\nb"` |
| Utils.NewlineSplitsFilters | src/lib/utils.ts:9-14 | a newline splits filters: `"a\nb"` gives `"a"` then `"b"` |
| Utils.NonBlank | src/views/MetricRegistrationView.tsx:80-89 | absent exactly for blank text; otherwise the trimmed, non-empty text |
| Utils.NonBlankOpt | src/App.tsx:155 | present exactly for present, non-blank text, and then trimmed |
| Utils.MetricTimestamp | src/lib/utils.ts:23-28 | 0 when the field is absent or empty, 0 when it does not parse, and the parsed value otherwise |

## Left out

- Rendering, layout, icons, toasts and navigation between top-level views are not modelled.
  The same goes for sheet visibility beyond the derivation sheet's `onOpenChange`. Sheets that
  call `onOpenChange(false)` after a submit are not modelled closing.
- `src/hooks/useDataSage.ts` loads the mock data. The loaded record is a constructor parameter of
  `App.Registry`, and the loading itself is not part of this model.
- `HomeView`, `MetricProfileView`, `MetricProfileSheet`, `MetricLineageDag` and
  `scripts/cleanupLegacyViews.js` are not part of this model.
- The "import mock" button of the registration form and the `stats` figures of the dimension
  workspace are left out. They produce fixed sample text and `toFixed` percentages, which are
  floating-point renderings.
- `metricsForSelectedSet`, the metric option lists and `filteredMetricsForSelectedSet` of the
  metrics workspace repeat the search view's pipeline. They are covered by `MetricSearch`, not
  modelled a second time.
- Clock and ids: `Date.now()` and `new Date().toISOString()` are the parameters `now` and `nowIso`.
  `Date.parse` is a parameter function, with `None` for `NaN`.
- `Number(...)` is a parameter function. The coefficient's printed form is the text carried by the
  number, not JavaScript's number-to-string conversion.
- `trim` uses a fixed set of whitespace characters and `toLowerCase` is ASCII-only. `/^\d+$/`
  accepts ASCII digits only.
- Sorting compares strings by code point, where JavaScript compares UTF-16 code units. The two
  differ only outside the Basic Multilingual Plane.
- DerivedSheet.SheetForm.UpdateFilter: requires the index to be a row. Every caller passes the
  index of a rendered row (src/views/DerivedMetricSheet.tsx:262, 284). The source copies the array
  and assigns `next[index]`, so an index at or past the end would write there a row made of the
  patch alone, with holes before it when the index lies beyond the end. The model does not capture that out-of-range write.
- The category select of the search and workspace views joins names with `" › "` (U+203A). The
  registration form joins with `" > "`.
- Registration.PathPrefillRoundTrip: the round trip is proved for names free of `>`. The weaker
  condition "no name contains `" > "`" does not suffice, as Registration.SeparatorLikeNameSplits
  shows.
