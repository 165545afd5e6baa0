/** `getAnalysisNames` (carto_report/report.py): the tables flagged 'No'
    by the size step are analysis tables; the short id embedded in each
    name is resolved against a fixed table of 44 analysis types, and the
    resolved types are counted. */
module Analysis {
  import opened Wrappers
  import opened Sorting
  import opened Sizes
  import opened Names
  import opened Counting

  // ----------------------------------------------------- the lookup table

  /** One entry of the fixed id-to-type table (`equivalences`). */
  datatype Equivalence = Equivalence(analysisType: string, id: string)

  const Equivalences: seq<Equivalence> := [
    Equivalence("aggregate-intersection", "b194a8f896"),
    Equivalence("bounding-box", "5f80bdff9d"),
    Equivalence("bounding-circle", "b7636131b5"),
    Equivalence("buffer", "2f13a3dbd7"),
    Equivalence("centroid", "ae64186757"),
    Equivalence("closest", "4bd65e58e4"),
    Equivalence("concave-hull", "259cf96ece"),
    Equivalence("contour", "779051ec8e"),
    Equivalence("convex-hull", "05234e7c2a"),
    Equivalence("data-observatory-measure", "a08f3b6124"),
    Equivalence("data-observatory-multiple-measures", "cd60938c7b"),
    Equivalence("deprecated-sql-function", "e85ed857c2"),
    Equivalence("filter-by-node-column", "83d60eb9fa"),
    Equivalence("filter-category", "440d2c1487"),
    Equivalence("filter-grouped-rank", "f15fa0b618"),
    Equivalence("filter-range", "942b6fec82"),
    Equivalence("filter-rank", "43155891da"),
    Equivalence("georeference-admin-region", "a5bdb274e8"),
    Equivalence("georeference-city", "d5b2dd1672"),
    Equivalence("georeference-country", "792d8938e3"),
    Equivalence("georeference-ip-address", "d5b2274cdf"),
    Equivalence("georeference-long-lat", "0623244fc4"),
    Equivalence("georeference-postal-code", "1f7c6f9f43"),
    Equivalence("georeference-street-address", "1ea6dec9f3"),
    Equivalence("gravity", "93ab69856c"),
    Equivalence("intersection", "971639c870"),
    Equivalence("kmeans", "3c835a874c"),
    Equivalence("line-sequential", "9fd29bd5c0"),
    Equivalence("line-source-to-target", "9e88a1147e"),
    Equivalence("line-to-column", "be2ff62ce9"),
    Equivalence("line-to-single-point", "eca516b80b"),
    Equivalence("link-by-line", "49ca809a90"),
    Equivalence("merge", "c38cb847a0"),
    Equivalence("moran", "91837cbb3c"),
    Equivalence("point-in-polygon", "2e94d3858c"),
    Equivalence("population-in-area", "d52251dc01"),
    Equivalence("routing-sequential", "a627e132c2"),
    Equivalence("routing-to-layer-all-to-all", "b70cf71482"),
    Equivalence("routing-to-single-point", "2923729eb9"),
    Equivalence("sampling", "7530d60ffc"),
    Equivalence("source", "fd83c76763"),
    Equivalence("spatial-markov-trend", "9c3b798f46"),
    Equivalence("trade-area", "112d4fc091"),
    Equivalence("weighted-centroid", "1d85314d7a")
  ]

  /** No id appears twice in `table`. */
  ghost predicate DistinctIds(table: seq<Equivalence>) {
    forall i, j :: 0 <= i < j < |table| ==> table[i].id != table[j].id
  }

  /** The row of `Equivalences` holding `id`, written out case by case so
      that the solver can evaluate it on each entry; it is checked against
      the table by the four lemmas below and serves only the proof that
      the ids are distinct. */
  function IdRow(id: string): int {
    match id
    case "b194a8f896" => 0
    case "5f80bdff9d" => 1
    case "b7636131b5" => 2
    case "2f13a3dbd7" => 3
    case "ae64186757" => 4
    case "4bd65e58e4" => 5
    case "259cf96ece" => 6
    case "779051ec8e" => 7
    case "05234e7c2a" => 8
    case "a08f3b6124" => 9
    case "cd60938c7b" => 10
    case "e85ed857c2" => 11
    case "83d60eb9fa" => 12
    case "440d2c1487" => 13
    case "f15fa0b618" => 14
    case "942b6fec82" => 15
    case "43155891da" => 16
    case "a5bdb274e8" => 17
    case "d5b2dd1672" => 18
    case "792d8938e3" => 19
    case "d5b2274cdf" => 20
    case "0623244fc4" => 21
    case "1f7c6f9f43" => 22
    case "1ea6dec9f3" => 23
    case "93ab69856c" => 24
    case "971639c870" => 25
    case "3c835a874c" => 26
    case "9fd29bd5c0" => 27
    case "9e88a1147e" => 28
    case "be2ff62ce9" => 29
    case "eca516b80b" => 30
    case "49ca809a90" => 31
    case "c38cb847a0" => 32
    case "91837cbb3c" => 33
    case "2e94d3858c" => 34
    case "d52251dc01" => 35
    case "a627e132c2" => 36
    case "b70cf71482" => 37
    case "2923729eb9" => 38
    case "7530d60ffc" => 39
    case "fd83c76763" => 40
    case "9c3b798f46" => 41
    case "112d4fc091" => 42
    case "1d85314d7a" => 43
    case _ => -1
  }

  lemma IdRowFirstQuarter() ensures forall k | 0 <= k < 11 :: IdRow(Equivalences[k].id) == k { }
  lemma IdRowSecondQuarter() ensures forall k | 11 <= k < 22 :: IdRow(Equivalences[k].id) == k { }
  lemma IdRowThirdQuarter() ensures forall k | 22 <= k < 33 :: IdRow(Equivalences[k].id) == k { }
  lemma IdRowFourthQuarter() ensures forall k | 33 <= k < 44 :: IdRow(Equivalences[k].id) == k { }

  /** The 44 ids of the table are pairwise distinct, so no analysis table
      can match two entries. */
  lemma EquivalenceIdsDistinct()
    ensures |Equivalences| == 44
    ensures DistinctIds(Equivalences)
  {
    IdRowFirstQuarter();
    IdRowSecondQuarter();
    IdRowThirdQuarter();
    IdRowFourthQuarter();
  }

  // ----------------------------------------------------------- the merge

  /** A row of the merged `analysis_df`: the table row, its id and the
      type the id resolves to (`NaN` in pandas when it does not). */
  datatype AnalysisRow = AnalysisRow(table: TableRow, id: Option<string>, analysisType: Option<string>)

  /** The `size` column of the merged frame. */
  function RowSize(r: AnalysisRow): int { r.table.size }

  /** The entries of `table` whose id is `id`. */
  function Equivalent(table: seq<Equivalence>, id: Option<string>): (m: seq<Equivalence>)
    ensures |m| <= |table|
    ensures forall k :: 0 <= k < |m| ==> m[k] in table && id == Some(m[k].id)
  {
    if table == [] then []
    else if id == Some(table[0].id) then [table[0]] + Equivalent(table[1..], id)
    else Equivalent(table[1..], id)
  }

  /** The type recorded for `id`, found by a scan of the table. */
  function Lookup(table: seq<Equivalence>, id: string): (t: Option<string>)
    ensures t.None? <==> forall e :: e in table ==> e.id != id
    ensures t.Some? ==> Equivalence(t.value, id) in table
  {
    if table == [] then None
    else if table[0].id == id then Some(table[0].analysisType)
    else Lookup(table[1..], id)
  }

  /** `pd.merge(analysis_df, equivalences_df, on='id', how='left')`: each
      analysis row once per matching entry, or once with no type. */
  function MergeTypes(rows: seq<TableRow>, table: seq<Equivalence>): (r: seq<AnalysisRow>)
    ensures |r| >= |rows|
  {
    if rows == [] then []
    else
      var id := AnalysisId(rows[0].name);
      var m := Equivalent(table, id);
      var head := if m == [] then [AnalysisRow(rows[0], id, None)]
        else seq(|m|, k requires 0 <= k < |m| => AnalysisRow(rows[0], id, Some(m[k].analysisType)));
      head + MergeTypes(rows[1..], table)
  }

  lemma {:induction false} EquivalentAtMostOne(table: seq<Equivalence>, id: Option<string>)
    requires DistinctIds(table)
    ensures |Equivalent(table, id)| <= 1
    ensures |Equivalent(table, id)| == 1 ==> id.Some? && Equivalent(table, id)[0].analysisType == Lookup(table, id.value).value
    ensures Equivalent(table, id) == [] ==> id.None? || Lookup(table, id.value).None?
  {
    if table != [] {
      assert DistinctIds(table[1..]) by {
        forall i, j | 0 <= i < j < |table[1..]| ensures table[1..][i].id != table[1..][j].id {
          assert table[1..][i] == table[i + 1] && table[1..][j] == table[j + 1];
        }
      }
      EquivalentAtMostOne(table[1..], id);
      if id == Some(table[0].id) {
        forall e | e in table[1..] ensures e.id != table[0].id {
          var j :| 0 <= j < |table[1..]| && table[1..][j] == e;
          assert table[j + 1] == e;
        }
        assert Equivalent(table[1..], id) == [];
      }
    }
  }

  /** With distinct ids the merge keeps one row per analysis table, in
      order, and gives it the type its id resolves to, if any. */
  lemma {:induction false} MergeTypesOneRowPerTable(rows: seq<TableRow>, table: seq<Equivalence>)
    requires DistinctIds(table)
    ensures |MergeTypes(rows, table)| == |rows|
    ensures forall k :: 0 <= k < |rows| ==>
      var r := MergeTypes(rows, table)[k];
      && r.table == rows[k]
      && r.id == AnalysisId(rows[k].name)
      && r.analysisType == (if r.id.None? then None else Lookup(table, r.id.value))
  {
    if rows != [] {
      MergeTypesOneRowPerTable(rows[1..], table);
      var id := AnalysisId(rows[0].name);
      EquivalentAtMostOne(table, id);
      var r := MergeTypes(rows, table);
      var rest := MergeTypes(rows[1..], table);
      forall k | 0 <= k < |rows|
        ensures r[k].table == rows[k]
        ensures r[k].id == AnalysisId(rows[k].name)
        ensures r[k].analysisType == (if r[k].id.None? then None else Lookup(table, r[k].id.value))
      {
        if k > 0 {
          assert r[k] == rest[k - 1];
          assert rows[k] == rows[1..][k - 1];
        }
      }
    }
  }

  // -------------------------------------------------- getAnalysisNames

  /** The `type` column of the merged rows. */
  function TypeColumn(rows: seq<AnalysisRow>): (types: seq<Option<string>>)
    ensures |types| == |rows|
    ensures forall k :: 0 <= k < |rows| ==> types[k] == rows[k].analysisType
  {
    seq(|rows|, k requires 0 <= k < |rows| => rows[k].analysisType)
  }

  /** Some name among `rows` contains '_'; otherwise the split frame has
      no column 1. */
  predicate AnySeparator(rows: seq<TableRow>) {
    exists k | 0 <= k < |rows| :: '_' in rows[k].name
  }

  /** `getAnalysisNames`: the merged analysis rows and the per-type counts.
      Without analysis tables `analysis_types_df` is never bound and the
      return raises UnboundLocalError; when no analysis table name
      contains '_' the id column lookup raises KeyError. */
  function GetAnalysisNames(tables: seq<TableRow>): (r: Result<(seq<AnalysisRow>, seq<TypeCount>)>)
    ensures WithFlag(tables, "No") == [] <==> r == Err(UnboundLocalError("analysis_types_df"))
    ensures r == Err(KeyError("1")) <==> WithFlag(tables, "No") != [] && !AnySeparator(WithFlag(tables, "No"))
    ensures r.Err? ==> r == Err(UnboundLocalError("analysis_types_df")) || r == Err(KeyError("1"))
    ensures r.Ok? ==> r.value.1 == ValueCounts(TypeColumn(r.value.0))
  {
    var analysis := WithFlag(tables, "No");
    if analysis == [] then Err(UnboundLocalError("analysis_types_df"))
    else if !AnySeparator(analysis) then Err(KeyError("1"))
    else
      var merged := MergeTypes(analysis, Equivalences);
      Ok((merged, ValueCounts(TypeColumn(merged))))
  }

  lemma AnySeparatorCons(t: TableRow, w: seq<TableRow>)
    ensures AnySeparator([t] + w) <==> '_' in t.name || AnySeparator(w)
  {
    var all := [t] + w;
    if '_' in t.name {
      assert all[0] == t;
    }
    if AnySeparator(w) {
      var k :| 0 <= k < |w| && '_' in w[k].name;
      assert all[k + 1] == w[k];
    }
    if AnySeparator(all) && '_' !in t.name {
      var k :| 0 <= k < |all| && '_' in all[k].name;
      assert all[k] == w[k - 1];
    }
  }

  lemma HasAnalysisNameCons(tables: seq<TableRow>)
    requires tables != []
    ensures HasAnalysisName(tables) <==>
      (tables[0].cartodbfied == "No" && '_' in tables[0].name) || HasAnalysisName(tables[1..])
  {
    if HasAnalysisName(tables[1..]) {
      var k :| 0 <= k < |tables[1..]| && tables[1..][k].cartodbfied == "No" && '_' in tables[1..][k].name;
      assert tables[k + 1] == tables[1..][k];
    }
    if HasAnalysisName(tables) {
      var k :| 0 <= k < |tables| && tables[k].cartodbfied == "No" && '_' in tables[k].name;
      if k > 0 {
        assert tables[1..][k - 1] == tables[k];
      }
    }
  }

  /** Some analysis table's name contains '_' exactly when some table is
      flagged 'No' and has '_' in its name. */
  lemma {:induction false} SeparatorAmongAnalysis(tables: seq<TableRow>)
    ensures AnySeparator(WithFlag(tables, "No")) <==> HasAnalysisName(tables)
  {
    if tables != [] {
      SeparatorAmongAnalysis(tables[1..]);
      HasAnalysisNameCons(tables);
      if tables[0].cartodbfied == "No" {
        AnySeparatorCons(tables[0], WithFlag(tables[1..], "No"));
      }
    }
  }

  /** `getAnalysisNames` returns exactly when some analysis table has '_'
      in its name. */
  lemma AnalysisNamesSucceed(tables: seq<TableRow>)
    ensures GetAnalysisNames(tables).Ok? <==> HasAnalysisName(tables)
  {
    SeparatorAmongAnalysis(tables);
  }

  /** On success, the merged frame has one row per analysis table (every
      table flagged 'No'), in order, each carrying its id and the type the
      id resolves to, if any. */
  lemma GetAnalysisNamesRows(tables: seq<TableRow>)
    requires GetAnalysisNames(tables).Ok?
    ensures var analysis := WithFlag(tables, "No");
      var merged := GetAnalysisNames(tables).value.0;
      && |merged| == |analysis|
      && (forall k :: 0 <= k < |merged| ==> merged[k].table == analysis[k] && merged[k].table.cartodbfied == "No")
      && (forall k :: 0 <= k < |merged| ==> merged[k].id == AnalysisId(analysis[k].name))
      && (forall k :: 0 <= k < |merged| ==>
            merged[k].analysisType == (if merged[k].id.None? then None else Lookup(Equivalences, merged[k].id.value)))
  {
    var analysis := WithFlag(tables, "No");
    assert GetAnalysisNames(tables).value.0 == MergeTypes(analysis, Equivalences);
    EquivalenceIdsDistinct();
    MergeTypesOneRowPerTable(analysis, Equivalences);
  }

  /** On success, the type counts have one row per resolved type, with the
      number of analysis tables of that type, largest first; they cover
      exactly the tables whose type resolved, so they add up to at most the
      number of analysis tables. */
  lemma GetAnalysisNamesCounts(tables: seq<TableRow>)
    requires GetAnalysisNames(tables).Ok?
    ensures var (merged, counts) := GetAnalysisNames(tables).value;
      var types := TypeColumn(merged);
      && (forall i, j :: 0 <= i < j < |counts| ==> counts[i].analysisType != counts[j].analysisType)
      && (forall k :: 0 <= k < |counts| ==> counts[k].count == Occurrences(types, counts[k].analysisType) > 0)
      && (forall t :: Occurrences(types, t) > 0 ==> exists k :: 0 <= k < |counts| && counts[k].analysisType == t)
      && SortedDesc(counts, Count)
      && SumBy(counts, Count) == Known(types) <= |WithFlag(tables, "No")|
  {
    GetAnalysisNamesRows(tables);
    var merged := GetAnalysisNames(tables).value.0;
    ValueCountsSpec(TypeColumn(merged));
    KnownAtMost(TypeColumn(merged));
  }

  /** The id 'b194a8f896' resolves to an aggregate-intersection. */
  lemma ExampleType()
    ensures Lookup(Equivalences, "b194a8f896") == Some("aggregate-intersection")
  {
    var table := Equivalences;
    assert table[0] == Equivalence("aggregate-intersection", "b194a8f896");
  }
}
