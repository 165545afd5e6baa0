/** `getSizes` (carto_report/report.py): every physical table of the
    account, joined against the datasets to flag it 'Yes' (a dataset) or
    'No' (an analysis table), with its size in bytes.

    The SQL queries are not modelled: the listing of physical tables is the
    parameter `physical`, and the per-table size query is the map `sizeOf`,
    in which a table whose query raised has no entry. */
module Sizes {
  import opened Wrappers
  import opened Sorting
  import opened Datasets

  /** A row of `all_tables_df`: the physical table's name, the dataset row
      merged onto it (absent for a table that is not a dataset), the
      `cartodbfied` flag and the size. The other dataset-side columns that
      the merge copies (`geom_type`, `geocoded`) are not carried. */
  datatype TableRow = TableRow(name: string, dataset: Option<Dataset>, cartodbfied: string, size: int)

  /** The `size` column; `df['size'].sum()` is `SumBy(df, Size)`. */
  function Size(t: TableRow): int { t.size }

  // --------------------------------------------------------------- merge

  /** The dataset rows whose name is `name`, in frame order. */
  function Matches(dsets: seq<Dataset>, name: string): (m: seq<Dataset>)
    ensures |m| <= |dsets|
    ensures forall k :: 0 <= k < |m| ==> m[k] in dsets && m[k].name == name
    ensures m == [] <==> forall d :: d in dsets ==> d.name != name
  {
    if dsets == [] then []
    else if dsets[0].name == name then [dsets[0]] + Matches(dsets[1..], name)
    else Matches(dsets[1..], name)
  }

  /** The rows a left merge produces for one physical table: one per
      matching dataset (flagged 'Yes', the value `getSizes` stored in the
      dataset frame), or a single row flagged 'No' (`fillna('No')`). The
      size column starts at 0 (line 277). */
  function MergeOne(name: string, dsets: seq<Dataset>): (rows: seq<TableRow>)
    ensures |rows| >= 1
    ensures forall k :: 0 <= k < |rows| ==> rows[k].name == name && rows[k].size == 0
    ensures forall k :: 0 <= k < |rows| ==> (rows[k].cartodbfied == "Yes" <==> rows[k].dataset.Some?)
    ensures forall k :: 0 <= k < |rows| ==> rows[k].cartodbfied == "Yes" || rows[k].cartodbfied == "No"
    ensures forall k :: 0 <= k < |rows| ==> rows[k].dataset.Some? ==> rows[k].dataset.value in dsets && rows[k].dataset.value.name == name
    ensures (forall k :: 0 <= k < |rows| ==> rows[k].cartodbfied == "No") <==> (forall d :: d in dsets ==> d.name != name)
    ensures forall k :: 0 <= k < |rows| ==> (rows[k].cartodbfied == "No" <==> forall d :: d in dsets ==> d.name != name)
  {
    var m := Matches(dsets, name);
    if m == [] then [TableRow(name, None, "No", 0)]
    else
      assert m[0] in dsets && m[0].name == name;
      var rows := seq(|m|, k requires 0 <= k < |m| => TableRow(name, Some(m[k]), "Yes", 0));
      assert rows[0].cartodbfied == "Yes";
      rows
  }

  /** `all_tables_df.merge(dsets_df, on='name', how='left')` followed by
      `fillna('No')` on `cartodbfied`: physical tables in listing order. */
  function Merge(physical: seq<string>, dsets: seq<Dataset>): (rows: seq<TableRow>)
    ensures |rows| >= |physical|
    ensures forall k :: 0 <= k < |rows| ==> rows[k].name in physical && rows[k].size == 0
    ensures forall k :: 0 <= k < |rows| ==> (rows[k].cartodbfied == "Yes" <==> rows[k].dataset.Some?)
    ensures forall k :: 0 <= k < |rows| ==> rows[k].cartodbfied == "Yes" || rows[k].cartodbfied == "No"
    ensures forall k :: 0 <= k < |rows| ==> rows[k].dataset.Some? ==> rows[k].dataset.value in dsets && rows[k].dataset.value.name == rows[k].name
    ensures forall k :: 0 <= k < |rows| ==> (rows[k].cartodbfied == "No" <==> forall d :: d in dsets ==> d.name != rows[k].name)
  {
    if physical == [] then []
    else MergeOne(physical[0], dsets) + Merge(physical[1..], dsets)
  }

  /** Every physical table has at least one row in the merge. */
  lemma {:induction false} MergeCoversPhysical(physical: seq<string>, dsets: seq<Dataset>)
    ensures forall j :: 0 <= j < |physical| ==> exists k :: 0 <= k < |Merge(physical, dsets)| && Merge(physical, dsets)[k].name == physical[j]
  {
    if physical != [] {
      MergeCoversPhysical(physical[1..], dsets);
      var head := MergeOne(physical[0], dsets);
      var rest := Merge(physical[1..], dsets);
      assert Merge(physical, dsets) == head + rest;
      forall j | 0 <= j < |physical|
        ensures exists k :: 0 <= k < |Merge(physical, dsets)| && Merge(physical, dsets)[k].name == physical[j]
      {
        if j == 0 {
          assert Merge(physical, dsets)[0] == head[0];
        } else {
          assert physical[j] == physical[1..][j - 1];
          var k :| 0 <= k < |rest| && rest[k].name == physical[1..][j - 1];
          assert Merge(physical, dsets)[|head| + k] == rest[k];
        }
      }
    }
  }

  /** Some table is flagged 'No', an analysis table, and has '_' in its
      name. */
  predicate HasAnalysisName(tables: seq<TableRow>) {
    exists k | 0 <= k < |tables| :: tables[k].cartodbfied == "No" && '_' in tables[k].name
  }

  /** The merge has an analysis table with '_' in its name exactly when
      some physical table with '_' in its name is not a dataset. */
  lemma MergeHasAnalysisName(physical: seq<string>, dsets: seq<Dataset>)
    ensures HasAnalysisName(Merge(physical, dsets)) <==>
      exists j :: 0 <= j < |physical| && '_' in physical[j] && forall d :: d in dsets ==> d.name != physical[j]
  {
    var rows := Merge(physical, dsets);
    MergeCoversPhysical(physical, dsets);
    if HasAnalysisName(rows) {
      var k :| 0 <= k < |rows| && rows[k].cartodbfied == "No" && '_' in rows[k].name;
      var j :| 0 <= j < |physical| && physical[j] == rows[k].name;
    }
    if exists j :: 0 <= j < |physical| && '_' in physical[j] && forall d :: d in dsets ==> d.name != physical[j] {
      var j :| 0 <= j < |physical| && '_' in physical[j] && forall d :: d in dsets ==> d.name != physical[j];
      var k :| 0 <= k < |rows| && rows[k].name == physical[j];
    }
  }

  /** No two datasets share a name. */
  ghost predicate UniqueNames(dsets: seq<Dataset>) {
    forall i, j :: 0 <= i < j < |dsets| ==> dsets[i].name != dsets[j].name
  }

  lemma {:induction false} MatchesAtMostOne(dsets: seq<Dataset>, name: string)
    requires UniqueNames(dsets)
    ensures |Matches(dsets, name)| <= 1
  {
    if dsets != [] {
      assert UniqueNames(dsets[1..]) by {
        forall i, j | 0 <= i < j < |dsets[1..]| ensures dsets[1..][i].name != dsets[1..][j].name {
          assert dsets[1..][i] == dsets[i + 1] && dsets[1..][j] == dsets[j + 1];
        }
      }
      MatchesAtMostOne(dsets[1..], name);
      if dsets[0].name == name {
        assert forall d :: d in dsets[1..] ==> d.name != name by {
          forall d | d in dsets[1..] ensures d.name != name {
            var j :| 0 <= j < |dsets[1..]| && dsets[1..][j] == d;
            assert dsets[j + 1] == d;
          }
        }
        assert Matches(dsets[1..], name) == [];
      }
    }
  }

  /** With unique dataset names the merge yields exactly one row per
      physical table, in listing order, flagged 'Yes' exactly when a
      dataset of that name exists. */
  lemma {:induction false} MergeOneRowPerTable(physical: seq<string>, dsets: seq<Dataset>)
    requires UniqueNames(dsets)
    ensures |Merge(physical, dsets)| == |physical|
    ensures forall k :: 0 <= k < |physical| ==>
      && Merge(physical, dsets)[k].name == physical[k]
      && (Merge(physical, dsets)[k].cartodbfied == "Yes" <==> exists d :: d in dsets && d.name == physical[k])
      && (Merge(physical, dsets)[k].cartodbfied == "No" <==> forall d :: d in dsets ==> d.name != physical[k])
  {
    if physical != [] {
      MergeOneRowPerTable(physical[1..], dsets);
      MatchesAtMostOne(dsets, physical[0]);
      var head := MergeOne(physical[0], dsets);
      assert |head| == 1;
      var rows := Merge(physical, dsets);
      assert rows == head + Merge(physical[1..], dsets);
      forall k | 0 <= k < |physical|
        ensures rows[k].name == physical[k]
        ensures rows[k].cartodbfied == "Yes" <==> exists d :: d in dsets && d.name == physical[k]
        ensures rows[k].cartodbfied == "No" <==> forall d :: d in dsets ==> d.name != physical[k]
      {
        if k == 0 {
          assert rows[0] == head[0];
        } else {
          assert rows[k] == Merge(physical[1..], dsets)[k - 1];
          assert physical[k] == physical[1..][k - 1];
        }
      }
    }
  }

  // --------------------------------------------------------------- sizes

  /** The size column as the loop of lines 281-287 leaves it, or the error
      it raises. `last` is the value of the loop's local `size` before the
      first remaining row; `None` while it is unbound. A failed query leaves
      `size` as it was, so the row receives the previous row's size, and a
      failure while `size` is still unbound raises UnboundLocalError. The
      evident intention, that a failed table be skipped, is not what the
      code does. */
  function FilledSizes(tables: seq<TableRow>, sizeOf: map<string, int>, last: Option<int>): Result<seq<TableRow>> {
    if tables == [] then Ok([])
    else
      var size := if tables[0].name in sizeOf then Some(sizeOf[tables[0].name]) else last;
      if size.None? then Err(UnboundLocalError("size"))
      else Prepend([tables[0].(size := size.value)], FilledSizes(tables[1..], sizeOf, size))
  }

  function Prepend(prefix: seq<TableRow>, r: Result<seq<TableRow>>): Result<seq<TableRow>> {
    match r
    case Ok(rest) => Ok(prefix + rest)
    case Err(e) => Err(e)
  }

  /** The loop raises exactly when the first table's query fails while
      `size` is unbound; otherwise each row keeps its other columns and
      gets the fetched size, or, after a failed query, the size of the row
      before it. */
  lemma {:induction false} FilledSizesSpec(tables: seq<TableRow>, sizeOf: map<string, int>, last: Option<int>)
    ensures FilledSizes(tables, sizeOf, last).Err? <==>
      tables != [] && tables[0].name !in sizeOf && last.None?
    ensures FilledSizes(tables, sizeOf, last).Ok? ==>
      var out := FilledSizes(tables, sizeOf, last).value;
      && |out| == |tables|
      && (forall k :: 0 <= k < |tables| ==> out[k] == tables[k].(size := out[k].size))
      && (forall k :: 0 <= k < |tables| && tables[k].name in sizeOf ==> out[k].size == sizeOf[tables[k].name])
      && (forall k :: 0 < k < |tables| && tables[k].name !in sizeOf ==> out[k].size == out[k - 1].size)
      && (tables != [] && tables[0].name !in sizeOf ==> last == Some(out[0].size))
  {
    if tables != [] {
      var size := if tables[0].name in sizeOf then Some(sizeOf[tables[0].name]) else last;
      if size.Some? {
        FilledSizesSpec(tables[1..], sizeOf, size);
        var rest := FilledSizes(tables[1..], sizeOf, size);
        assert rest.Ok?;
        var out := [tables[0].(size := size.value)] + rest.value;
        assert FilledSizes(tables, sizeOf, last) == Ok(out);
        forall k | 0 < k < |tables|
          ensures out[k] == tables[k].(size := out[k].size)
          ensures tables[k].name in sizeOf ==> out[k].size == sizeOf[tables[k].name]
          ensures tables[k].name !in sizeOf ==> out[k].size == out[k - 1].size
        {
          assert out[k] == rest.value[k - 1] && tables[k] == tables[1..][k - 1];
          if k == 1 {
            assert out[0].size == size.value;
          } else {
            assert out[k - 1] == rest.value[k - 2];
          }
        }
      }
    }
  }

  /** Filling in the sizes changes no name and no flag. */
  lemma FilledSizesKeepsNames(tables: seq<TableRow>, sizeOf: map<string, int>, last: Option<int>)
    requires FilledSizes(tables, sizeOf, last).Ok?
    ensures HasAnalysisName(FilledSizes(tables, sizeOf, last).value) <==> HasAnalysisName(tables)
  {
    FilledSizesSpec(tables, sizeOf, last);
    var out := FilledSizes(tables, sizeOf, last).value;
    if HasAnalysisName(tables) {
      var k :| 0 <= k < |tables| && tables[k].cartodbfied == "No" && '_' in tables[k].name;
      assert out[k] == tables[k].(size := out[k].size);
    }
    if HasAnalysisName(out) {
      var k :| 0 <= k < |out| && out[k].cartodbfied == "No" && '_' in out[k].name;
      assert out[k] == tables[k].(size := out[k].size);
    }
  }

  /** The size loop of `getSizes` (lines 277-287), writing each row's size
      in place as `set_value` does. */
  method FillSizes(tables: seq<TableRow>, sizeOf: map<string, int>) returns (r: Result<seq<TableRow>>)
    ensures r == FilledSizes(tables, sizeOf, None)
  {
    var cur := tables;
    var size: Option<int> := None;
    var i := 0;
    assert tables[0..] == tables;
    PrependNil(FilledSizes(tables, sizeOf, None));
    while i < |cur|
      invariant 0 <= i <= |cur| == |tables|
      invariant cur[i..] == tables[i..]
      invariant FilledSizes(tables, sizeOf, None) == Prepend(cur[..i], FilledSizes(tables[i..], sizeOf, size))
    {
      ghost var suffix := tables[i..];
      assert suffix[0] == tables[i] && suffix[1..] == tables[i + 1..];
      if cur[i].name in sizeOf {
        size := Some(sizeOf[cur[i].name]);
      }
      if size.None? {
        return Err(UnboundLocalError("size"));
      }
      cur := cur[i := cur[i].(size := size.value)];
      assert cur[..i + 1] == cur[..i] + [cur[i]];
      PrependAssoc(cur[..i], [cur[i]], FilledSizes(tables[i + 1..], sizeOf, size));
      i := i + 1;
    }
    assert cur[..i] == cur && cur + [] == cur;
    r := Ok(cur);
  }

  lemma PrependNil(r: Result<seq<TableRow>>)
    ensures Prepend([], r) == r
  {
    if r.Ok? {
      assert [] + r.value == r.value;
    }
  }

  lemma PrependAssoc(a: seq<TableRow>, b: seq<TableRow>, r: Result<seq<TableRow>>)
    ensures Prepend(a, Prepend(b, r)) == Prepend(a + b, r)
  {
    if r.Ok? {
      assert a + (b + r.value) == (a + b) + r.value;
    }
  }

  /** `getSizes`: adds `cartodbfied = 'Yes'` to the caller's dataset frame
      in place, merges the physical tables with it and fills in the sizes.
      The merge raises KeyError when either side was built from an empty
      list, since such a frame has no 'name' column. */
  method GetSizes(dsets: DatasetFrame, physical: seq<string>, sizeOf: map<string, int>)
    returns (r: Result<seq<TableRow>>)
    requires dsets.Valid()
    modifies dsets
    ensures dsets.Valid()
    ensures dsets.rows == old(dsets.rows) && dsets.geomType == old(dsets.geomType) && dsets.geocoded == old(dsets.geocoded)
    ensures dsets.cartodbfied == Some(seq(|dsets.rows|, _ => "Yes"))
    ensures physical == [] || dsets.rows == [] ==> r == Err(KeyError("name"))
    ensures physical != [] && dsets.rows != [] ==> r == FilledSizes(Merge(physical, dsets.rows), sizeOf, None)
  {
    dsets.cartodbfied := Some(seq(|dsets.rows|, _ => "Yes"));
    if physical == [] || dsets.rows == [] {
      return Err(KeyError("name"));
    }
    var merged := Merge(physical, dsets.rows);
    r := FillSizes(merged, sizeOf);
  }

  // ------------------------------------------------------------- totals

  /** `df.loc[df['cartodbfied'] == flag]` */
  function WithFlag(tables: seq<TableRow>, flag: string): (r: seq<TableRow>)
    ensures |r| <= |tables|
    ensures forall k :: 0 <= k < |r| ==> r[k] in tables && r[k].cartodbfied == flag
  {
    if tables == [] then []
    else if tables[0].cartodbfied == flag then [tables[0]] + WithFlag(tables[1..], flag)
    else WithFlag(tables[1..], flag)
  }

  /** Every row is flagged 'Yes' or 'No', so the two selections split the
      table count and the total size between them. */
  lemma {:induction false} FlagsSplitTables(tables: seq<TableRow>)
    requires forall k :: 0 <= k < |tables| ==> tables[k].cartodbfied in {"Yes", "No"}
    ensures |WithFlag(tables, "Yes")| + |WithFlag(tables, "No")| == |tables|
    ensures SumBy(WithFlag(tables, "Yes"), Size) + SumBy(WithFlag(tables, "No"), Size) == SumBy(tables, Size)
  {
    if tables != [] {
      FlagsSplitTables(tables[1..]);
      SumByAppend([tables[0]], WithFlag(tables[1..], "Yes"), Size);
      SumByAppend([tables[0]], WithFlag(tables[1..], "No"), Size);
    }
  }
}
