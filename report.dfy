/** `Reporter.report` (carto_report/report.py): the pipeline that runs the
    steps in order and collects the values `generateReport` hands to the
    template. The account clients are parameters: `vizs` and `dsets` stand
    for the two `all()` listings, `physical`, `sizeOf`, `storageTotal` and
    `services` for the SQL queries of `getSizes` and `getQuota`. The first
    step that raises ends the report with its error. The model stops at
    the values: the two plots, the date and the rendering are not part of
    it. */
module Report {
  import opened Wrappers
  import opened Sorting
  import opened Datasets
  import opened Maps
  import opened Sizes
  import opened Counting
  import opened Analysis
  import opened Quota

  /** `getTop5(df, col_order, col_index)`: the first five rows of the frame
      sorted by `col_order`, largest first. Sorting the frame of an empty
      listing, which has no columns, raises KeyError. The `set_index` only
      relabels the rows. */
  function GetTop5<R>(frame: seq<R>, key: R -> int, column: string): (r: Result<seq<R>>)
    ensures r.Err? <==> frame == []
    ensures r.Err? ==> r.error == KeyError(column)
    ensures r.Ok? ==> |r.value| == Min(5, |frame|)
  {
    if frame == [] then Err(KeyError(column))
    else Ok(Top(frame, key, 5))
  }

  /** The rows `getTop5` returns are rows of the frame, ordered by the key,
      and no row left out has a larger key than a row kept. */
  lemma GetTop5Ranks<R(!new)>(frame: seq<R>, key: R -> int, column: string)
    requires GetTop5(frame, key, column).Ok?
    ensures var top := GetTop5(frame, key, column).value;
      && SortedDesc(top, key)
      && multiset(top) <= multiset(frame)
      && forall y :: multiset(top)[y] < multiset(frame)[y] ==> forall i :: 0 <= i < |top| ==> key(y) <= key(top[i])
  {
    TopDominatesOmitted(frame, key, 5);
  }

  /** The `Reporter` settings the report reads. */
  datatype Account = Account(user: string, org: string, quota: int)

  /** The values of the template context, without the date and the two
      figures. The frames are carried as their rows. */
  datatype ReportValues = ReportValues(
    user: string,
    org: string,
    lds: seq<QuotaLine>,
    realStorage: real,
    usedStorage: real,
    pcUsed: Option<real>,
    leftStorage: real,
    pcLeft: Option<real>,
    totalMaps: nat,
    totalAnalysis: nat,
    totalSizeAnalysis: int,
    analysisTypes: seq<TypeCount>,
    top5MapsDate: seq<MapRow>,
    sync: int,
    totalDsets: nat,
    totalSizeTbls: int,
    top5DsetsSize: seq<TableRow>,
    top5DsetsDate: seq<Dataset>,
    privacy: PrivacyCounts,
    geometry: GeometryCounts)

  /** The rows `getDatasets` builds. */
  function DatasetRows(dsets: seq<DatasetEntity>): (rows: seq<Dataset>)
    ensures |rows| == |dsets|
    ensures forall i :: 0 <= i < |dsets| ==> rows[i] == DatasetOf(dsets[i])
  {
    seq(|dsets|, i requires 0 <= i < |dsets| => DatasetOf(dsets[i]))
  }

  /** `all_tables_df` as `getSizes` returns it, or the error it raises; it
      merges the dataset rows after `getSync` filled their nulls. */
  function AllTables(dsets: seq<DatasetEntity>, physical: seq<string>, sizeOf: map<string, int>): Result<seq<TableRow>> {
    var rows := FillNullSync(DatasetRows(dsets));
    if physical == [] || rows == [] then Err(KeyError("name"))
    else FilledSizes(Merge(physical, rows), sizeOf, None)
  }

  /** `analysis_df['size'].sum()` is the size of the tables it was merged
      from. */
  lemma {:induction false} AnalysisSizeOfTables(merged: seq<AnalysisRow>, tables: seq<TableRow>)
    requires |merged| == |tables|
    requires forall k :: 0 <= k < |merged| ==> merged[k].table == tables[k]
    ensures SumBy(merged, RowSize) == SumBy(tables, Size)
  {
    if merged != [] {
      AnalysisSizeOfTables(merged[1..], tables[1..]);
      assert merged[0].table == tables[0];
    }
  }

  /** Every row of `all_tables_df` is flagged 'Yes' or 'No'. */
  lemma AllTablesFlagged(dsets: seq<DatasetEntity>, physical: seq<string>, sizeOf: map<string, int>)
    requires AllTables(dsets, physical, sizeOf).Ok?
    ensures var tables := AllTables(dsets, physical, sizeOf).value;
      && |tables| >= 1
      && forall k :: 0 <= k < |tables| ==> tables[k].cartodbfied in {"Yes", "No"}
  {
    var merged := Merge(physical, FillNullSync(DatasetRows(dsets)));
    FilledSizesSpec(merged, sizeOf, None);
    var tables := AllTables(dsets, physical, sizeOf).value;
    forall k | 0 <= k < |tables| ensures tables[k].cartodbfied in {"Yes", "No"} {
      assert tables[k].cartodbfied == merged[k].cartodbfied;
    }
  }

  /** No dataset is named `name`: a physical table of that name is an
      analysis table. */
  predicate NotADataset(dsets: seq<DatasetEntity>, name: string) {
    forall i :: 0 <= i < |dsets| ==> dsets[i].name != name
  }

  /** No step of `report()` raises: both listings have entries, the first
      physical table's size query returns, the quota queries return service
      rows and a storage sum, and some physical table with '_' in its name
      is not a dataset. */
  predicate Succeeds(vizs: seq<Visualization>, dsets: seq<DatasetEntity>, physical: seq<string>, sizeOf: map<string, int>,
                     storageTotal: Option<real>, services: seq<ServiceQuota>)
  {
    && vizs != [] && dsets != []
    && physical != [] && physical[0] in sizeOf
    && services != [] && storageTotal.Some?
    && exists j :: 0 <= j < |physical| && '_' in physical[j] && NotADataset(dsets, physical[j])
  }

  /** `getSizes` returns exactly when both listings have entries and the
      size query of the first physical table returns. */
  lemma AllTablesSucceed(dsets: seq<DatasetEntity>, physical: seq<string>, sizeOf: map<string, int>)
    ensures AllTables(dsets, physical, sizeOf).Ok? <==> dsets != [] && physical != [] && physical[0] in sizeOf
  {
    var rows := FillNullSync(DatasetRows(dsets));
    if physical != [] && rows != [] {
      var merged := Merge(physical, rows);
      FilledSizesSpec(merged, sizeOf, None);
      assert merged[0] == MergeOne(physical[0], rows)[0];
    }
  }

  /** `getAnalysisNames` over `all_tables_df` returns exactly when some
      physical table with '_' in its name is not a dataset. */
  lemma AllTablesAnalysisNames(dsets: seq<DatasetEntity>, physical: seq<string>, sizeOf: map<string, int>)
    requires AllTables(dsets, physical, sizeOf).Ok?
    ensures GetAnalysisNames(AllTables(dsets, physical, sizeOf).value).Ok? <==>
      exists j :: 0 <= j < |physical| && '_' in physical[j] && NotADataset(dsets, physical[j])
  {
    var rows := FillNullSync(DatasetRows(dsets));
    var merged := Merge(physical, rows);
    AnalysisNamesSucceed(AllTables(dsets, physical, sizeOf).value);
    FilledSizesKeepsNames(merged, sizeOf, None);
    MergeHasAnalysisName(physical, rows);
    NotADatasetRow(dsets);
  }

  /** The dataset rows carry the names of the dataset entities. */
  lemma NotADatasetRow(dsets: seq<DatasetEntity>)
    ensures forall name :: NotADataset(dsets, name) <==>
      forall d :: d in FillNullSync(DatasetRows(dsets)) ==> d.name != name
  {
    var rows := FillNullSync(DatasetRows(dsets));
    forall name
      ensures NotADataset(dsets, name) <==> forall d :: d in rows ==> d.name != name
    {
      if !NotADataset(dsets, name) {
        var i :| 0 <= i < |dsets| && dsets[i].name == name;
        assert rows[i] in rows && rows[i].name == dsets[i].name;
      }
      if exists d :: d in rows && d.name == name {
        var d :| d in rows && d.name == name;
        var i :| 0 <= i < |rows| && rows[i] == d;
        assert dsets[i].name == d.name;
      }
    }
  }

  /** `Succeeds` is the conjunction of the conditions under which each
      step returns. */
  lemma SucceedsStepByStep(vizs: seq<Visualization>, dsets: seq<DatasetEntity>, physical: seq<string>, sizeOf: map<string, int>,
                           storageTotal: Option<real>, services: seq<ServiceQuota>)
    ensures Succeeds(vizs, dsets, physical, sizeOf, storageTotal, services) <==>
      && vizs != [] && dsets != []
      && AllTables(dsets, physical, sizeOf).Ok?
      && services != [] && storageTotal.Some?
      && GetAnalysisNames(AllTables(dsets, physical, sizeOf).value).Ok?
  {
    AllTablesSucceed(dsets, physical, sizeOf);
    if AllTables(dsets, physical, sizeOf).Ok? {
      AllTablesAnalysisNames(dsets, physical, sizeOf);
    }
  }

  /** The dataset side of `report()`: the frame's rows, its top five by
      creation, the sync count, the privacy and geometry counts and
      `all_tables_df`. */
  datatype DatasetValues = DatasetValues(
    rows: seq<Dataset>, top5: seq<Dataset>, sync: int,
    privacy: PrivacyCounts, geometry: GeometryCounts, tables: seq<TableRow>)

  /** The dataset steps of `report()` in order: `getDatasets`, the top five
      by creation, `getSync`, `getPrivacy`, `getGeometry` and `getSizes`. */
  function DatasetPart(dsets: seq<DatasetEntity>, physical: seq<string>, sizeOf: map<string, int>): Result<DatasetValues>
  {
    var top5 := GetTop5(DatasetRows(dsets), Created, "created");
    if top5.Err? then Err(top5.error)
    else
      var filled := FillNullSync(DatasetRows(dsets));
      var allTables := AllTables(dsets, physical, sizeOf);
      if allTables.Err? then Err(allTables.error)
      else Ok(DatasetValues(filled, top5.value, 0, GetPrivacy(filled).value, GeometryOf(filled), allTables.value))
  }

  /** The dataset steps on the frame `getDatasets` builds, which `getSync`,
      `getGeometry` and `getSizes` change in place. */
  method DatasetSteps(dsets: seq<DatasetEntity>, physical: seq<string>, sizeOf: map<string, int>)
    returns (r: Result<DatasetValues>)
    ensures r == DatasetPart(dsets, physical, sizeOf)
  {
    var dsetsDf := new DatasetFrame(dsets);
    assert dsetsDf.rows == DatasetRows(dsets);
    var top5 := GetTop5(dsetsDf.rows, Created, "created");
    if top5.Err? {
      return Err(top5.error);
    }
    var sync := dsetsDf.GetSync();
    var privacy := GetPrivacy(dsetsDf.rows);
    var geometry := dsetsDf.GetGeometry();
    var filled := dsetsDf.rows;
    var allTables := GetSizes(dsetsDf, physical, sizeOf);
    if allTables.Err? {
      return Err(allTables.error);
    }
    r := Ok(DatasetValues(filled, top5.value, sync, privacy.value, geometry.value, allTables.value));
  }

  /** The template values of `generateReport` (lines 564-608), with the
      storage scalars read from the 'storage' row by `StorageRow`. */
  function Values(account: Account, top5Maps: seq<MapRow>, totalMaps: nat, d: DatasetValues, lines: seq<QuotaLine>,
                  analysisDf: seq<AnalysisRow>, analysisTypes: seq<TypeCount>): ReportValues
    requires |lines| >= 1 && lines[|lines| - 1].service == "storage"
  {
    var storage := StorageRow(lines).value;
    ReportValues(
      account.user, account.org, lines,
      storage.monthlyQuota, storage.used, storage.pctUsed, storage.left, storage.pctLeft,
      totalMaps, |analysisDf|, SumBy(analysisDf, RowSize), analysisTypes, top5Maps,
      d.sync, |d.rows|, SumBy(WithFlag(d.tables, "Yes"), Size), Top(d.tables, Size, 5), d.top5,
      d.privacy, d.geometry)
  }

  /** What `report()` computes, the steps in the source's order, each
      raising as it does: the first error ends the report. */
  function ReportOf(account: Account, vizs: seq<Visualization>, dsets: seq<DatasetEntity>,
                    physical: seq<string>, sizeOf: map<string, int>,
                    storageTotal: Option<real>, services: seq<ServiceQuota>): Result<ReportValues>
  {
    var top5Maps := GetTop5(GetMaps(vizs), CreatedOf, "created");
    if top5Maps.Err? then Err(top5Maps.error)
    else
      var d := DatasetPart(dsets, physical, sizeOf);
      if d.Err? then Err(d.error)
      else
        var lds := QuotaTable(account.quota, storageTotal, services);
        if lds.Err? then Err(lds.error)
        else
          var analysis := GetAnalysisNames(d.value.tables);
          if analysis.Err? then Err(analysis.error)
          else Ok(Values(account, top5Maps.value, |vizs|, d.value, lds.value, analysis.value.0, analysis.value.1))
  }

  /** `report()` up to the template. */
  method Report(account: Account, vizs: seq<Visualization>, dsets: seq<DatasetEntity>,
                physical: seq<string>, sizeOf: map<string, int>,
                storageTotal: Option<real>, services: seq<ServiceQuota>)
    returns (r: Result<ReportValues>)
    ensures r == ReportOf(account, vizs, dsets, physical, sizeOf, storageTotal, services)
  {
    var mapsDf := GetMaps(vizs);
    var top5Maps := GetTop5(mapsDf, CreatedOf, "created");
    if top5Maps.Err? {
      return Err(top5Maps.error);
    }
    var d := DatasetSteps(dsets, physical, sizeOf);
    if d.Err? {
      return Err(d.error);
    }
    var lds := GetQuota(account.quota, storageTotal, services);
    if lds.Err? {
      return Err(lds.error);
    }
    var analysis := GetAnalysisNames(d.value.tables);
    if analysis.Err? {
      return Err(analysis.error);
    }
    r := Ok(Values(account, top5Maps.value, |mapsDf|, d.value, lds.value, analysis.value.0, analysis.value.1));
  }

  // ------------------------------------------------------------- totals

  /** On success the dataset side is consistent with the listing: one row
      per dataset, a sync count of 0 (see `DatasetFrame.GetSync`), privacy
      counts within the datasets, every dataset geocoded or not, and the
      tables split by their 'Yes'/'No' flag in count and in size. */
  lemma DatasetPartTotals(dsets: seq<DatasetEntity>, physical: seq<string>, sizeOf: map<string, int>)
    requires DatasetPart(dsets, physical, sizeOf).Ok?
    ensures var d := DatasetPart(dsets, physical, sizeOf).value;
      && |d.rows| == |dsets| && |d.top5| == Min(5, |dsets|) && d.sync == 0
      && d.privacy.private + d.privacy.link + d.privacy.public <= |dsets|
      && ((forall i :: 0 <= i < |dsets| ==> dsets[i].privacy in PrivacyLevels) ==>
            d.privacy.private + d.privacy.link + d.privacy.public == |dsets|)
      && d.geometry.geo + d.geometry.noneTbls == |dsets|
      && d.geometry.points + d.geometry.lines + d.geometry.polys <= |dsets|
      && d.geometry.points <= d.geometry.geo
      && |WithFlag(d.tables, "Yes")| + |WithFlag(d.tables, "No")| == |d.tables|
      && SumBy(WithFlag(d.tables, "Yes"), Size) + SumBy(WithFlag(d.tables, "No"), Size) == SumBy(d.tables, Size)
  {
    var rows := DatasetRows(dsets);
    var filled := FillNullSync(rows);
    assert forall i :: 0 <= i < |filled| ==> filled[i].privacy == dsets[i].privacy;
    PrivacyPartition(filled);
    GeometryTotals(filled);
    AllTablesFlagged(dsets, physical, sizeOf);
    FlagsSplitTables(AllTables(dsets, physical, sizeOf).value);
  }

  /** The report succeeds exactly when no step raises. */
  lemma ReportSucceeds(account: Account, vizs: seq<Visualization>, dsets: seq<DatasetEntity>,
                       physical: seq<string>, sizeOf: map<string, int>,
                       storageTotal: Option<real>, services: seq<ServiceQuota>)
    ensures ReportOf(account, vizs, dsets, physical, sizeOf, storageTotal, services).Ok?
      <==> Succeeds(vizs, dsets, physical, sizeOf, storageTotal, services)
  {
    DatasetPartOutcome(dsets, physical, sizeOf);
    SucceedsStepByStep(vizs, dsets, physical, sizeOf, storageTotal, services);
  }

  /** The dataset steps fail on an empty listing and then with the error of
      `getSizes`; otherwise their tables are `all_tables_df`. */
  lemma DatasetPartOutcome(dsets: seq<DatasetEntity>, physical: seq<string>, sizeOf: map<string, int>)
    ensures dsets == [] ==> DatasetPart(dsets, physical, sizeOf) == Err(KeyError("created"))
    ensures dsets != [] && AllTables(dsets, physical, sizeOf).Err? ==>
      DatasetPart(dsets, physical, sizeOf) == Err(AllTables(dsets, physical, sizeOf).error)
    ensures dsets != [] && AllTables(dsets, physical, sizeOf).Ok? ==>
      && DatasetPart(dsets, physical, sizeOf).Ok?
      && DatasetPart(dsets, physical, sizeOf).value.tables == AllTables(dsets, physical, sizeOf).value
  {
  }

  /** A failing report fails with the error of the first step that raises:
      KeyError('created') when there are no maps or no datasets, the error
      of `getSizes`, then AttributeError or TypeError from `getQuota`, then
      the error of `getAnalysisNames`. */
  lemma ReportErrors(account: Account, vizs: seq<Visualization>, dsets: seq<DatasetEntity>,
                     physical: seq<string>, sizeOf: map<string, int>,
                     storageTotal: Option<real>, services: seq<ServiceQuota>)
    ensures var r := ReportOf(account, vizs, dsets, physical, sizeOf, storageTotal, services);
      && (vizs == [] || dsets == [] ==> r == Err(KeyError("created")))
      && (vizs != [] && dsets != [] && AllTables(dsets, physical, sizeOf).Err? ==>
            r == Err(AllTables(dsets, physical, sizeOf).error))
      && (vizs != [] && dsets != [] && AllTables(dsets, physical, sizeOf).Ok? && services == [] ==>
            r == Err(AttributeError("used_quota")))
      && (vizs != [] && dsets != [] && AllTables(dsets, physical, sizeOf).Ok? && services != [] && storageTotal.None? ==>
            r == Err(TypeError("round")))
      && (vizs != [] && dsets != [] && AllTables(dsets, physical, sizeOf).Ok? && services != [] && storageTotal.Some?
          && GetAnalysisNames(AllTables(dsets, physical, sizeOf).value).Err? ==>
            r == Err(GetAnalysisNames(AllTables(dsets, physical, sizeOf).value).error))
  {
    DatasetPartOutcome(dsets, physical, sizeOf);
  }

  /** The counts of a successful report agree with the listings: one map
      total per visualization, one dataset total per dataset, at most five
      rows in each top five, a sync count of 0, privacy and geometry counts
      within the datasets, and three service rows at most plus storage. */
  lemma ReportCounts(account: Account, vizs: seq<Visualization>, dsets: seq<DatasetEntity>,
                     physical: seq<string>, sizeOf: map<string, int>,
                     storageTotal: Option<real>, services: seq<ServiceQuota>, v: ReportValues)
    requires ReportOf(account, vizs, dsets, physical, sizeOf, storageTotal, services) == Ok(v)
    ensures v.user == account.user && v.org == account.org
    ensures v.totalMaps == |vizs| && |v.top5MapsDate| == Min(5, |vizs|)
    ensures v.totalDsets == |dsets| && |v.top5DsetsDate| == Min(5, |dsets|)
    ensures v.sync == 0
    ensures v.privacy.private + v.privacy.link + v.privacy.public <= v.totalDsets
    ensures (forall i :: 0 <= i < |dsets| ==> dsets[i].privacy in PrivacyLevels) ==>
      v.privacy.private + v.privacy.link + v.privacy.public == v.totalDsets
    ensures v.geometry.geo + v.geometry.noneTbls == v.totalDsets
    ensures v.geometry.points + v.geometry.lines + v.geometry.polys <= v.totalDsets
    ensures |v.lds| == Min(KeptServices, |services|) + 1
  {
    var w := ReportOfSteps(account, vizs, dsets, physical, sizeOf, storageTotal, services);
    DatasetPartTotals(dsets, physical, sizeOf);
  }

  /** The sizes of a successful report split `all_tables_df` by its flag:
      the dataset tables' size plus the analysis tables' size is the size
      of every table, there is one analysis row per 'No' table, and the
      type counts never exceed the analysis tables. */
  lemma ReportSizes(account: Account, vizs: seq<Visualization>, dsets: seq<DatasetEntity>,
                    physical: seq<string>, sizeOf: map<string, int>,
                    storageTotal: Option<real>, services: seq<ServiceQuota>, v: ReportValues)
    requires ReportOf(account, vizs, dsets, physical, sizeOf, storageTotal, services) == Ok(v)
    ensures var tables := AllTables(dsets, physical, sizeOf).value;
      && v.totalSizeTbls == SumBy(WithFlag(tables, "Yes"), Size)
      && v.totalAnalysis == |WithFlag(tables, "No")|
      && v.totalSizeTbls + v.totalSizeAnalysis == SumBy(tables, Size)
      && SumBy(v.analysisTypes, Count) <= v.totalAnalysis
      && |v.top5DsetsSize| == Min(5, |tables|)
  {
    var w := ReportOfSteps(account, vizs, dsets, physical, sizeOf, storageTotal, services);
    var tables := AllTables(dsets, physical, sizeOf).value;
    AllTablesFlagged(dsets, physical, sizeOf);
    FlagsSplitTables(tables);
    AnalysisTotals(tables);
  }

  /** `len(analysis_df)` and `analysis_df['size'].sum()` are the number and
      the size of the 'No' tables, and the type counts add up to at most
      that number. */
  lemma AnalysisTotals(tables: seq<TableRow>)
    requires GetAnalysisNames(tables).Ok?
    ensures var (merged, counts) := GetAnalysisNames(tables).value;
      && |merged| == |WithFlag(tables, "No")|
      && SumBy(merged, RowSize) == SumBy(WithFlag(tables, "No"), Size)
      && SumBy(counts, Count) <= |merged|
  {
    GetAnalysisNamesRows(tables);
    GetAnalysisNamesCounts(tables);
    var merged := GetAnalysisNames(tables).value.0;
    AnalysisSizeOfTables(merged, WithFlag(tables, "No"));
  }

  /** When no kept service is itself named 'storage', the storage scalars
      of a successful report are those of the appended row: twice the user
      quota, the storage total, their difference, and complementary
      percentages. */
  lemma ReportStorage(account: Account, vizs: seq<Visualization>, dsets: seq<DatasetEntity>,
                      physical: seq<string>, sizeOf: map<string, int>,
                      storageTotal: Option<real>, services: seq<ServiceQuota>, v: ReportValues)
    requires ReportOf(account, vizs, dsets, physical, sizeOf, storageTotal, services) == Ok(v)
    requires forall k :: 0 <= k < Min(KeptServices, |services|) ==> services[k].service != "storage"
    ensures v.realStorage == 2.0 * account.quota as real
    ensures v.usedStorage == storageTotal.value
    ensures v.leftStorage == v.realStorage - v.usedStorage
    ensures v.pcUsed == PctUsed(v.usedStorage, v.realStorage)
    ensures v.pcLeft == PctLeft(v.pcUsed)
  {
    var w := ReportOfSteps(account, vizs, dsets, physical, sizeOf, storageTotal, services);
    QuotaTableStorageRow(account.quota, storageTotal, services);
    assert v.lds == QuotaTable(account.quota, storageTotal, services).value;
  }

  /** The values of a successful report, step by step. */
  lemma ReportOfSteps(account: Account, vizs: seq<Visualization>, dsets: seq<DatasetEntity>,
                      physical: seq<string>, sizeOf: map<string, int>,
                      storageTotal: Option<real>, services: seq<ServiceQuota>)
    returns (v: ReportValues)
    requires ReportOf(account, vizs, dsets, physical, sizeOf, storageTotal, services).Ok?
    ensures GetTop5(GetMaps(vizs), CreatedOf, "created").Ok?
    ensures DatasetPart(dsets, physical, sizeOf).Ok?
    ensures QuotaTable(account.quota, storageTotal, services).Ok?
    ensures GetAnalysisNames(DatasetPart(dsets, physical, sizeOf).value.tables).Ok?
    ensures v == ReportOf(account, vizs, dsets, physical, sizeOf, storageTotal, services).value
    ensures v == Values(account, GetTop5(GetMaps(vizs), CreatedOf, "created").value, |vizs|,
                        DatasetPart(dsets, physical, sizeOf).value, QuotaTable(account.quota, storageTotal, services).value,
                        GetAnalysisNames(DatasetPart(dsets, physical, sizeOf).value.tables).value.0,
                        GetAnalysisNames(DatasetPart(dsets, physical, sizeOf).value.tables).value.1)
  {
    v := ReportOf(account, vizs, dsets, physical, sizeOf, storageTotal, services).value;
  }
}
