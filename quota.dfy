/** `getQuota` (carto_report/report.py): the location-data-service quota
    table with a synthetic 'storage' row for the account's disk usage.

    The two SQL queries are parameters: `services` stands for the rows of
    `cdb_service_quota_info()`, and `storageTotal` for the single value of
    the storage aggregate, `None` when the SUM is NULL (no tables). Values
    are reals and the rounding to 2 or 1 decimals is not modelled. */
module Quota {
  import opened Wrappers

  /** A row of `cdb_service_quota_info()`. Its `soft_limit` column is
      dropped by the final column selection and is not carried. */
  datatype ServiceQuota = ServiceQuota(service: string, provider: string, monthlyQuota: real, usedQuota: real)

  /** A row of `lds_df`, indexed by `service`. A percentage is `None` where
      pandas produces inf or NaN, i.e. when the monthly quota is 0. */
  datatype QuotaLine = QuotaLine(
    service: string,
    monthlyQuota: real,
    provider: string,
    used: real,
    pctUsed: Option<real>,
    left: real,
    pctLeft: Option<real>)

  /** The columns `lds_df` keeps, in order. */
  const QuotaColumns: seq<string> := ["Monthly Quota", "Provider", "Used", "% Used", "Left", "% Left"]

  /** The service rows kept: `lds[0:3]`. */
  const KeptServices := 3

  /** `used * 100 / monthly`, undefined (inf or NaN) for a zero quota. */
  function PctUsed(used: real, monthly: real): (pct: Option<real>)
    ensures pct.None? <==> monthly == 0.0
    ensures pct.Some? ==> pct.value * monthly == used * 100.0
  {
    if monthly == 0.0 then None else Some(used * 100.0 / monthly)
  }

  /** `100.00 - lds['% Used']`, which stays undefined where `% Used` is. */
  function PctLeft(pctUsed: Option<real>): (pct: Option<real>)
    ensures pct.Some? <==> pctUsed.Some?
    ensures pct.Some? ==> pct.value + pctUsed.value == 100.0
  {
    match pctUsed
    case None => None
    case Some(p) => Some(100.0 - p)
  }

  /** A row of the table before the 'Left' and '% Left' columns exist:
      service, provider, monthly quota, used and '% Used'. */
  datatype PartialLine = PartialLine(service: string, provider: string, monthlyQuota: real, used: real, pctUsed: Option<real>)

  /** A finished row of `lds_df`: 'Left' is the quota minus the usage, and
      '% Left' the complement of '% Used'. */
  function LineOf(service: string, provider: string, monthly: real, used: real): (line: QuotaLine)
    ensures line.left + line.used == line.monthlyQuota
    ensures line.pctUsed.None? <==> monthly == 0.0
    ensures line.pctUsed.Some? ==> line.pctUsed.value * monthly == used * 100.0
    ensures line.pctLeft.Some? <==> line.pctUsed.Some?
    ensures line.pctUsed.Some? ==> line.pctUsed.value + line.pctLeft.value == 100.0
  {
    var pct := PctUsed(used, monthly);
    QuotaLine(service, monthly, provider, used, pct, monthly - used, PctLeft(pct))
  }

  /** The table `getQuota` returns, row by row: the first three service
      rows, then the 'storage' row with twice the user quota as its monthly
      quota and the storage total as its usage. An empty service list gives
      a frame without columns, so `lds.used_quota` raises AttributeError
      (line 238) before a NULL storage total makes `round` raise TypeError
      (line 242). */
  function QuotaTable(quota: int, storageTotal: Option<real>, services: seq<ServiceQuota>): (r: Result<seq<QuotaLine>>)
    ensures services == [] ==> r == Err(AttributeError("used_quota"))
    ensures services != [] && storageTotal.None? ==> r == Err(TypeError("round"))
    ensures services != [] && storageTotal.Some? ==> r.Ok?
    ensures r.Ok? ==> |r.value| == Min(KeptServices, |services|) + 1
    ensures r.Ok? ==> forall k :: 0 <= k < |r.value| - 1 ==>
      r.value[k] == LineOf(services[k].service, services[k].provider, services[k].monthlyQuota, services[k].usedQuota)
    ensures r.Ok? ==>
      r.value[|r.value| - 1] == LineOf("storage", "carto", 2.0 * quota as real, storageTotal.value)
  {
    if services == [] then Err(AttributeError("used_quota"))
    else if storageTotal.None? then Err(TypeError("round"))
    else
      var kept := services[..Min(KeptServices, |services|)];
      var lines := seq(|kept|, k requires 0 <= k < |kept| =>
        LineOf(kept[k].service, kept[k].provider, kept[k].monthlyQuota, kept[k].usedQuota));
      Ok(lines + [LineOf("storage", "carto", 2.0 * quota as real, storageTotal.value)])
  }

  /** `getQuota(user, quota)`, operating on a local frame step by step as
      the source does: truncate to three service rows, add '% Used', append
      the storage row, then add 'Left' and '% Left'. */
  method GetQuota(quota: int, storageTotal: Option<real>, services: seq<ServiceQuota>)
    returns (r: Result<seq<QuotaLine>>)
    ensures r == QuotaTable(quota, storageTotal, services)
  {
    if services == [] {
      return Err(AttributeError("used_quota"));
    }
    var lds := services[..Min(KeptServices, |services|)];
    var partial := seq(|lds|, k requires 0 <= k < |lds| =>
      PartialLine(lds[k].service, lds[k].provider, lds[k].monthlyQuota, lds[k].usedQuota,
                  PctUsed(lds[k].usedQuota, lds[k].monthlyQuota)));
    if storageTotal.None? {
      return Err(TypeError("round"));
    }
    var realStorage := 2.0 * quota as real;
    var usedStorage := storageTotal.value;
    // The appended list is positional; it lines up with the columns
    // Monthly Quota, Provider, Service, soft_limit, Used, % Used.
    partial := partial + [PartialLine("storage", "carto", realStorage, usedStorage, PctUsed(usedStorage, realStorage))];
    var lines := seq(|partial|, k requires 0 <= k < |partial| =>
      QuotaLine(partial[k].service, partial[k].monthlyQuota, partial[k].provider, partial[k].used,
                partial[k].pctUsed, partial[k].monthlyQuota - partial[k].used, PctLeft(partial[k].pctUsed)));
    r := Ok(lines);
    assert lines == QuotaTable(quota, storageTotal, services).value;
  }

  // ----------------------------------------------------- storage lookup

  /** Position of column `name` in `columns`, or KeyError as pandas raises
      for `df[name]` when the frame has no such column. */
  function ColumnIndex(columns: seq<string>, name: string): (r: Result<nat>)
    ensures r.Ok? ==> r.value < |columns| && columns[r.value] == name
    ensures r.Err? <==> name !in columns
    ensures r.Err? ==> r.error == KeyError(name)
  {
    if columns == [] then Err(KeyError(name))
    else if columns[0] == name then Ok(0)
    else match ColumnIndex(columns[1..], name)
      case Ok(i) => Ok(i + 1)
      case Err(e) => Err(e)
  }

  /** `lds_df['storage']` as `generateReport` writes it is a column lookup,
      and 'storage' is an index label of `lds_df`, not one of its columns:
      the lookup raises on every quota table. */
  lemma StorageColumnAlwaysFails()
    ensures ColumnIndex(QuotaColumns, "storage") == Err(KeyError("storage"))
  {
    assert QuotaColumns[0] != "storage";
    assert QuotaColumns[1] != "storage";
    assert QuotaColumns[2] != "storage";
    assert QuotaColumns[3] != "storage";
    assert QuotaColumns[4] != "storage";
    assert QuotaColumns[5] != "storage";
  }

  /** `lds_df.loc['storage']`, the row lookup the template values need:
      the first row indexed 'storage'. */
  function StorageRow(lines: seq<QuotaLine>): (r: Option<QuotaLine>)
    ensures r.Some? ==> r.value in lines && r.value.service == "storage"
    ensures r.None? ==> forall k :: 0 <= k < |lines| ==> lines[k].service != "storage"
  {
    if lines == [] then None
    else if lines[0].service == "storage" then Some(lines[0])
    else StorageRow(lines[1..])
  }

  /** When no kept service is itself called 'storage', the row lookup
      finds the appended storage row. */
  lemma {:induction false} StorageRowIsAppended(lines: seq<QuotaLine>)
    requires |lines| >= 1 && lines[|lines| - 1].service == "storage"
    requires forall k :: 0 <= k < |lines| - 1 ==> lines[k].service != "storage"
    ensures StorageRow(lines) == Some(lines[|lines| - 1])
  {
    if |lines| > 1 {
      StorageRowIsAppended(lines[1..]);
      assert lines[1..][|lines| - 2] == lines[|lines| - 1];
    }
  }

  /** When no kept service is itself named 'storage', the row lookup on the
      table `getQuota` returns finds the storage row: twice the user quota,
      the storage total, their difference and complementary percentages. */
  lemma QuotaTableStorageRow(quota: int, storageTotal: Option<real>, services: seq<ServiceQuota>)
    requires QuotaTable(quota, storageTotal, services).Ok?
    requires forall k :: 0 <= k < Min(KeptServices, |services|) ==> services[k].service != "storage"
    ensures var s := StorageRow(QuotaTable(quota, storageTotal, services).value);
      && s.Some?
      && s.value.monthlyQuota == 2.0 * quota as real && s.value.used == storageTotal.value
      && s.value.left == s.value.monthlyQuota - s.value.used
      && s.value.pctUsed == PctUsed(s.value.used, s.value.monthlyQuota)
      && s.value.pctLeft == PctLeft(s.value.pctUsed)
  {
    var lines := QuotaTable(quota, storageTotal, services).value;
    forall k | 0 <= k < |lines| - 1 ensures lines[k].service != "storage" {
      assert lines[k] == LineOf(services[k].service, services[k].provider, services[k].monthlyQuota, services[k].usedQuota);
    }
    StorageRowIsAppended(lines);
  }
}
