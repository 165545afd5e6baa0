# carto_report: the metrics pipeline and the command line, in Dafny

`carto_report` builds an HTML report about a CARTO account. It lists the
account's maps and datasets and the physical tables in the database. It
reads the service quotas and the size of every table. It condenses all of
this into counts, partitions, a lookup join and top-five rankings, which
it hands to a template. This project models that condensing step, the
`Reporter` methods of `carto_report/report.py` and the values
`generateReport` passes to the template. It also models the decisions
`carto_report/cli.py` takes: the log level, the argument defaults and the
credential gate.

The pandas frames are sequences of records. A Python exception is an
`Err` of the `Result` type in `wrappers.dfy`, carrying the exception class
and its key. The CARTO API listings and the SQL queries are parameters:
- `vizs`: the visualizations;
- `dsets`: the dataset entities;
- `physical`: the physical table names;
- `sizeOf`: a map from table name to size, where a missing name is a failed query;
- `storageTotal`: the storage sum, where `None` is a NULL sum;
- `services`: the service quota rows.

The frame that `getDatasets` builds is changed in place by `getSync`,
`getGeometry` and `getSizes`. It is therefore the class
`Datasets.DatasetFrame`, whose optional columns are fields that those
methods set. The size loop of `getSizes` is the method `Sizes.FillSizes`,
proved equal to the function `Sizes.FilledSizes` that specifies it.
`getQuota` builds its table step by step, truncating, appending a row and
adding columns; it is the method `Quota.GetQuota`, proved equal to
`Quota.QuotaTable`. `Report.Report` runs the steps in
the order of `report()` and is proved equal to `Report.ReportOf`. The
lemmas about `ReportOf` state what the steps of `report()` produce up to
the values handed to the template. As written, `report()` raises before it
finishes, because `plotQuota` fails (see "## Left out").

The model follows what the code does, including its defects:
- `getSync` refers to an undefined `dsets` (`carto_report/report.py:150`). The `NameError` is caught, so the sync count is always 0. The count the code evidently meant is `Datasets.IntendedSync`, with `Datasets.IntendedSyncCountsSynchronized` proving it counts the synchronized datasets.
- In `getSizes`, a table whose size query fails gets the size of the row before it. A failure on the first row raises `UnboundLocalError` (`carto_report/report.py:281-287`).
- `getAnalysisNames` raises `UnboundLocalError` when there are no analysis tables (`carto_report/report.py:326`). It raises `KeyError(1)` when no analysis table name contains '_'.
- Every listing that comes back empty makes the frame built from it column-less, so the first column access raises.

Three consequences of the code are worth stating plainly:
- An empty listing raises before any report is written. For the maps, `getTop5` sorts the maps frame by 'created' (`carto_report/report.py:54`, `carto_report/report.py:217`), and a frame built from an empty list has no such column.
- Table sizes are used as the queries return them (`carto_report/report.py:283`). They are neither normalised nor converted.
- `main` exits with status 0 after it logs an exception from `report()` (`carto_report/cli.py:84-85`). In the model, only missing credentials give status 1 (`carto_report/cli.py:87-91`). The `Reporter(...)` call at `carto_report/cli.py:74-75` sits outside the `try`, so an exception raised while the clients are built would also end the process with status 1. That case is not modelled.

## Model

| member | source | states |
|---|---|---|
| Maps.GetMaps | carto_report/report.py:95-116 | one map row per visualization |
| Maps.GetMapsOrdersByUpdate | carto_report/report.py:103-110 | the map rows are the name/created/url projection of a permutation of the visualizations sorted by `updated_at`, latest first |
| Sorting.SortDesc | carto_report/report.py:110 | the sorted sequence is a permutation of the input, of the same length, ordered by the key descending |
| Sorting.Top | carto_report/report.py:217 | the first n rows by the key: min(n, len) rows, ordered descending, drawn from the input as a sub-multiset |
| Sorting.TopDominatesOmitted | carto_report/report.py:217 | no row left out of the top n has a larger key than any row kept |
| Report.GetTop5 | carto_report/report.py:216-219 | `getTop5` raises KeyError on the sort column exactly when the frame is empty (it has no columns), and otherwise returns min(5, n) rows |
| Report.GetTop5Ranks | carto_report/report.py:216-219 | the returned rows come from the frame, are ordered by the key descending, and dominate every omitted row |
| Datasets.DatasetFrame.constructor | carto_report/report.py:120-139 | `getDatasets`: one row per dataset entity, carrying its name, privacy, creation time, sync time and geometry tags, with no derived columns yet |
| Datasets.FillNullSync | carto_report/report.py:149 | `fillna('None Sync')` keeps every row: a row with a sync time is unchanged, and a row without one gets 'None Sync' and keeps its other columns |
| Datasets.DatasetFrame.GetSync | carto_report/report.py:141-157 | as written: the null sync times are filled in place, nothing else in the frame changes, and the result is 0 because the count raises NameError and is caught |
| Datasets.IntendedSyncCountsSynchronized | carto_report/report.py:148-150 | the count the code evidently meant (datasets minus 'None Sync' rows) equals the number of datasets with a sync time, as long as no sync time is itself the text 'None Sync' |
| Datasets.GetPrivacy | carto_report/report.py:161-174 | raises KeyError('privacy') exactly when the frame is empty; otherwise returns the exact-match counts of 'PRIVATE', 'LINK' and 'PUBLIC', which add up to at most the number of datasets, and to exactly that number if and only if every privacy is one of the three |
| Datasets.PrivacyPartition | carto_report/report.py:168-170 | the three exact-match counts never exceed the number of datasets, and equal it if and only if every privacy is PRIVATE, LINK or PUBLIC |
| Datasets.DatasetFrame.GetGeometry | carto_report/report.py:178-206 | raises AttributeError on an empty frame; otherwise sets `geom_type` to each row's first tag and `geocoded` row by row, changes nothing else, and returns the counts of those two columns |
| Datasets.GeometryTotals | carto_report/report.py:185-198 | every dataset is either geocoded or not (geo + none_tbls = datasets); points, lines and polygons use disjoint tag sets, so their sum is at most the number of datasets; and points ≤ geo |
| Datasets.PolygonTagsDisagree | carto_report/report.py:189-196 | the two tag lists disagree: an 'ST_Polygon' dataset is geocoded but not counted as a polygon, and a 'Polygon' dataset is counted as a polygon but not geocoded |
| Sizes.Merge | carto_report/report.py:274-276 | the left join flags a row 'Yes' exactly when it carries a matching dataset, and 'No' exactly when no dataset has its name; keeps only physical names, and starts every size at 0 |
| Sizes.MergeOneRowPerTable | carto_report/report.py:274-276 | with unique dataset names the join keeps one row per physical table, in listing order, flagged 'Yes' if and only if the name is among the datasets and 'No' if and only if it is not |
| Sizes.FilledSizesSpec | carto_report/report.py:277-287 | the size loop raises exactly when the first table's query fails; otherwise every other column is kept, a fetched size is written, and after a failed query the previous row's size is repeated |
| Sizes.FillSizes | carto_report/report.py:281-287 | the loop over the rows produces exactly the specified size column, or its error |
| Sizes.GetSizes | carto_report/report.py:256-291 | adds `cartodbfied = 'Yes'` to the caller's dataset frame and changes nothing else in it; raises KeyError('name') when either listing is empty; otherwise returns the merged tables with their sizes filled |
| Sizes.FlagsSplitTables | carto_report/report.py:302 | when every row is flagged 'Yes' or 'No', the two groups partition the tables, both in number and in total size |
| Report.AllTablesFlagged | carto_report/report.py:274-276 | every row of `all_tables_df` is flagged 'Yes' or 'No' |
| Names.SplitJoin | carto_report/report.py:308 | joining the parts of `split('_', n)` with '_' gives back the name |
| Names.SplitHead | carto_report/report.py:308 | the first part of the split is the text before the first '_'; there is a second part if and only if the name contains '_'; and the remaining parts split the text after it with one split fewer |
| Names.SplitPartsFree | carto_report/report.py:308 | no part but the last contains the separator, and the last does not either unless all the splits were used |
| Names.AnalysisIdIsSecondField | carto_report/report.py:308 | the id of an analysis table is the text between its first and second '_'; a name without '_' has no id |
| Names.ExampleId | carto_report/report.py:308 | 'analysis_b194a8f896_x' has the id 'b194a8f896' |
| Analysis.EquivalenceIdsDistinct | carto_report/report.py:311 | the lookup table has 44 entries with pairwise distinct ids |
| Analysis.Lookup | carto_report/report.py:311-315 | finds no type exactly when no entry has the id, and a found type belongs to an entry with that id |
| Analysis.ExampleType | carto_report/report.py:311 | the id 'b194a8f896' resolves to 'aggregate-intersection' |
| Analysis.MergeTypesOneRowPerTable | carto_report/report.py:315 | because the ids are distinct, the left join keeps one row per analysis table, in order, with the type its id resolves to or none |
| Analysis.GetAnalysisNames | carto_report/report.py:295-326 | raises UnboundLocalError if and only if no table is flagged 'No'; raises KeyError(1) if and only if there are analysis tables but no name among them contains '_'; raises nothing else, so it returns in every other case; on success the counts are the value counts of the merged type column |
| Analysis.AnalysisNamesSucceed | carto_report/report.py:302-308 | `getAnalysisNames` returns if and only if some table flagged 'No' has '_' in its name |
| Analysis.GetAnalysisNamesRows | carto_report/report.py:302-315 | the analysis rows are exactly the 'No' tables, one each, in order, each with its id and resolved type |
| Analysis.GetAnalysisNamesCounts | carto_report/report.py:318-321 | one count per resolved type and no duplicates, each equal to that type's number of occurrences, every resolved type present, ordered by count descending, and summing to the resolved rows, which are at most the analysis tables |
| Counting.TallySpec | carto_report/report.py:318 | the tally lists each known value once with its number of occurrences, covers exactly the values that occur, and sums to the number of non-missing values |
| Counting.ValueCountsSpec | carto_report/report.py:318 | `value_counts()` has distinct values with positive counts equal to their occurrences, covers every value that occurs, is sorted by count descending, and its counts sum to the non-missing values |
| Report.AnalysisTotals | carto_report/report.py:581-582 | the number of analysis rows and their total size are those of the 'No' tables, and the type counts add up to at most that number |
| Quota.PctUsed | carto_report/report.py:238-243 | the used percentage is undefined exactly when the monthly quota is 0; otherwise percentage × quota = used × 100 |
| Quota.PctLeft | carto_report/report.py:249 | the left percentage exists when the used one does, and the two add up to 100 |
| Quota.LineOf | carto_report/report.py:238-249 | a quota row's Left plus Used is its Monthly Quota, and its percentages satisfy the two facts above |
| Quota.QuotaTable | carto_report/report.py:229-252 | raises AttributeError with no service rows and TypeError when the storage sum is NULL; otherwise keeps the first min(3, n) services, each as a quota row, and appends one storage row last, with provider 'carto', twice the user quota and the storage sum as used |
| Quota.GetQuota | carto_report/report.py:223-252 | the truncation, the appended row and the added columns give exactly that table |
| Quota.ColumnIndex | carto_report/report.py:573 | looking up a column label fails with KeyError exactly when the label is not among the columns |
| Quota.StorageColumnAlwaysFails | carto_report/report.py:573-577 | as written: 'storage' is not among the six columns of the quota table, so `lds_df['storage']` raises KeyError |
| Quota.StorageRow | carto_report/report.py:247 | the row labelled 'storage' is a row of the table, and it is missing only when no row has that label |
| Quota.StorageRowIsAppended | carto_report/report.py:245-247 | when only the last row is labelled 'storage', that row is the one found |
| Quota.QuotaTableStorageRow | carto_report/report.py:241-249 | when no kept service is named 'storage', the storage row has twice the quota as Monthly Quota, the storage sum as Used, their difference as Left, and complementary percentages |
| Report.DatasetSteps | carto_report/report.py:57-64 | the dataset steps on the in-place frame give exactly their specification |
| Report.Report | carto_report/report.py:42-70 | `report()` up to the template values gives exactly `ReportOf` |
| Report.DatasetPartTotals | carto_report/report.py:57-64 | the dataset values of a successful run have one row per dataset, a top five of min(5, n) rows, sync 0, privacy and geometry counts within the datasets, and tables split by their flag in number and size |
| Sizes.MergeHasAnalysisName | carto_report/report.py:274-276 | the merge has a 'No' table with '_' in its name if and only if some physical table with '_' in its name matches no dataset |
| Report.AllTablesSucceed | carto_report/report.py:256-291 | `getSizes` returns if and only if both listings have entries and the size query of the first physical table returns |
| Report.AllTablesAnalysisNames | carto_report/report.py:274-308 | after `getSizes`, `getAnalysisNames` returns if and only if some physical table with '_' in its name is not a dataset |
| Report.ReportSucceeds | carto_report/report.py:42-82 | the steps up to the template values return if and only if, on the inputs: there are maps and datasets, there are physical tables and the first one's size query returns, there are service rows and a storage sum, and some physical table with '_' in its name is not a dataset |
| Report.ReportErrors | carto_report/report.py:42-70 | when the steps up to the template values fail, they fail with the first error in the order of the steps: no datasets, the getSizes error, no services, no storage sum, the getAnalysisNames error |
| Report.ReportCounts | carto_report/report.py:564-603 | the template's counts agree with the listings: maps and datasets counted, two top fives of min(5, n), sync 0, privacy and geometry totals bounded by the datasets, min(3, n) + 1 quota rows |
| Report.ReportSizes | carto_report/report.py:580-591 | the dataset tables' size is the 'Yes' tables' size, the analysis count is the 'No' tables' count, the two sizes add up to the size of all tables, the type counts add up to at most the analysis count, and the size ranking has min(5, n) rows |
| Report.ReportStorage | carto_report/report.py:573-577 | the storage scalars are read from the 'storage' row: twice the quota, the storage sum, their difference and complementary percentages |
| Cli.GetLogLevel | carto_report/cli.py:9-17 | DEBUG, INFO and WARNING each map to their own level, if and only if; every other string, 'ERROR' included, maps to ERROR |
| Cli.ChoicesSelectDistinctLevels | carto_report/cli.py:53-56 | the four accepted values map to four different levels, and the default is the most silent |
| Cli.ParseArguments | carto_report/cli.py:19-58 | a log level outside the four choices is refused; each credential is its flag, or else its environment variable; the output, quota and log level are their flags when given, and otherwise 'report.html', 5000 and 'ERROR' |
| Cli.Decide | carto_report/cli.py:61-91 | a Reporter is built if and only if user name, API URL and API key are all non-empty; otherwise an error is logged and the exit status is 1; the file is written if and only if the report returns, and a raised report is logged with exit status 0 |
| Cli.GivenFlagsReachRun | carto_report/cli.py:45-81 | a valid `--loglevel` and an `--output` given on the command line are the level the run logs at and the path a finished report is written to |
| Cli.RunCli | carto_report/cli.py:61-67 | a refused command line ends the run; otherwise the decision is taken on the parsed arguments |
| Cli.OrganizationNotRequired | carto_report/cli.py:73-75 | the organization has no effect on the decision |
| Cli.EmptyUserExits | carto_report/cli.py:73-91 | an empty user name, from the flag or from the environment, exits with status 1 and writes nothing |
| Cli.NoCredentialsByDefault | carto_report/cli.py:19-91 | with no flags and no environment the run logs the credentials error at level ERROR and exits with status 1 |

## Left out

- The CARTO API clients and the SQL connection (`carto_report/report.py:27-40`) are not modelled. Their results are parameters, and a failed per-table size query is a name missing from `sizeOf`.
- The model stops at the values handed to the template. `plotAnalysis`, `plotQuota`, `fig_to_html`, the Jinja2 template and its rendering are not modelled. `plotQuota` reads a '% Used Quota' column that `getQuota` never creates (`carto_report/report.py:346`). So `report()` as written raises KeyError before it reaches `generateReport`.
- `getDate` reads the wall clock, so the date is not modelled.
- `getPercentage` is never called and is not modelled.
- Rounding is not modelled. Quotas and storage are reals, and Left and the percentages are exact. The inf/NaN that a zero monthly quota produces is `None`.
- Sizes are integers, exactly as the queries return them.
- The tie order of pandas' `sort_values` is not modelled. The model sorts stably, and its contracts do not depend on the order among equal keys.
- `getTop5`'s `set_index` is not modelled: the rows keep all their fields.
- The `soft_limit` column of the service quota rows is not modelled.
- `Sizes.TableRow` does not carry the `geom_type` and `geocoded` columns that the merge copies from the dataset frame. No value the model computes reads them; only the rendered top-five size table (`carto_report/report.py:544`) would show them.
- The storage row appended at `carto_report/report.py:244-245` is a positional list. It lines up with the columns only if the frame built from the quota rows orders its columns by name (monthly_quota, provider, service, soft_limit, used_quota), as older pandas does for a list of dicts. The model assumes that order. Under insertion order 'carto' would land in another column, and line 248 would raise TypeError.
- `generateReport` reads `lds_df['storage']` as a column, and that always raises (see Findings). The values are read from the 'storage' row instead.
- Logging output, `warnings`, argparse's help and usage text, and the `--quota` type conversion are not modelled. Only the defaults, the accepted log levels and the environment fallbacks are.
- The file write in `main` is recorded in the outcome rather than performed.
- Exceptions from the `Reporter` constructor are not modelled, because the clients are not part of this model.
- setup.py is packaging only.
- Report.ReportStorage: requires that none of the first three services is itself named 'storage'. With such a service the row lookup would be ambiguous, and the source gives no rule for it.
- Datasets.IntendedSyncCountsSynchronized: requires that no sync time is the text 'None Sync'. A sync time with that text would be counted as unsynchronized.
- Sizes.MergeOneRowPerTable: requires unique dataset names. With duplicates the left join repeats the physical row, as `Sizes.Merge` allows.

## Findings

| source | as written | input that shows it | evidently intended | confidence | as-written member | corrected member |
|---|---|---|---|---|---|---|
| carto_report/report.py:573-577 | `lds_df['storage']['Monthly Quota']` indexes the column 'storage', but 'storage' is a row label after `set_index('Service')` | any quota table, whose columns are Monthly Quota, Provider, Used, % Used, Left and % Left | read the 'storage' row (`lds_df.loc['storage']`): twice the quota, the storage sum, their difference and the two percentages | not executed | Quota.StorageColumnAlwaysFails | Quota.QuotaTableStorageRow |
