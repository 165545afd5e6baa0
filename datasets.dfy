/** The dataset side of `Reporter` (carto_report/report.py): the `dsets_df`
    frame built by `getDatasets`, and the three steps that read it or add
    columns to it in place: `getSync`, `getPrivacy` and `getGeometry`.

    A frame built from an empty list has no columns at all (that is what
    `json_normalize([])` returns), so a step that reads a column of the
    frame of an empty account raises; the model returns `Err` there. */
module Datasets {
  import opened Wrappers

  /** A dataset as the account client returns it; the report reads
      `table.synchronization.updated_at` and `table.table.geometry_types`. */
  datatype Synchronization = Synchronization(updatedAt: Option<string>)
  datatype TableInfo = TableInfo(geometryTypes: seq<string>)
  datatype DatasetEntity = DatasetEntity(
    name: string,
    privacy: string,
    createdAt: int,
    synchronization: Synchronization,
    table: TableInfo)

  /** A row of `dsets_df`: name, privacy, created, synchronization, geometry.
      Timestamps are modelled as integers ordered like the originals. */
  datatype Dataset = Dataset(
    name: string,
    privacy: string,
    created: int,
    synchronization: Option<string>,
    geometry: seq<string>)

  function DatasetOf(e: DatasetEntity): Dataset {
    Dataset(e.name, e.privacy, e.createdAt, e.synchronization.updatedAt, e.table.geometryTypes)
  }

  function Created(d: Dataset): int { d.created }

  // ---------------------------------------------------------------- sync

  /** The value `getSync` puts in place of a missing synchronization. */
  const NoneSync: string := "None Sync"

  /** `synchronization.fillna('None Sync')`: a present timestamp and every
      other column are kept, and a missing timestamp becomes 'None Sync'. */
  function FillNullSync(rows: seq<Dataset>): (r: seq<Dataset>)
    ensures |r| == |rows|
    ensures forall i :: 0 <= i < |rows| ==> r[i].synchronization.Some? && r[i].name == rows[i].name
    ensures forall i :: 0 <= i < |rows| ==>
      r[i] == if rows[i].synchronization.Some? then rows[i] else rows[i].(synchronization := Some(NoneSync))
  {
    seq(|rows|, i requires 0 <= i < |rows| =>
      rows[i].(synchronization := Some(if rows[i].synchronization.Some? then rows[i].synchronization.value else NoneSync)))
  }

  /** The number of rows whose synchronization holds `s`. */
  function CountSyncEqual(rows: seq<Dataset>, s: string): nat {
    if rows == [] then 0
    else (if rows[0].synchronization == Some(s) then 1 else 0) + CountSyncEqual(rows[1..], s)
  }

  /** The number of datasets that are synchronized (a timestamp is present). */
  function CountSynced(rows: seq<Dataset>): nat {
    if rows == [] then 0
    else (if rows[0].synchronization.Some? then 1 else 0) + CountSynced(rows[1..])
  }

  /** What line 150 evidently means to compute: the number of rows minus
      the rows that were filled with 'None Sync'. */
  function IntendedSync(filled: seq<Dataset>): int {
    |filled| - CountSyncEqual(filled, NoneSync)
  }

  /** The intended sync count is the number of synchronized datasets,
      provided no real timestamp reads 'None Sync'. */
  lemma {:induction false} IntendedSyncCountsSynchronized(rows: seq<Dataset>)
    requires forall i :: 0 <= i < |rows| ==> rows[i].synchronization != Some(NoneSync)
    ensures IntendedSync(FillNullSync(rows)) == CountSynced(rows)
  {
    if rows != [] {
      IntendedSyncCountsSynchronized(rows[1..]);
      assert FillNullSync(rows)[1..] == FillNullSync(rows[1..]);
    }
  }

  // ------------------------------------------------------------- privacy

  /** The three privacy levels the report counts. */
  const PrivacyLevels: set<string> := {"PRIVATE", "LINK", "PUBLIC"}

  /** The number of rows whose privacy is exactly `level`. */
  function CountPrivacy(rows: seq<Dataset>, level: string): nat {
    if rows == [] then 0
    else (if rows[0].privacy == level then 1 else 0) + CountPrivacy(rows[1..], level)
  }

  datatype PrivacyCounts = PrivacyCounts(private: nat, link: nat, public: nat)

  /** `getPrivacy`: exact-match counts of 'PRIVATE', 'LINK' and 'PUBLIC'.
      The frame of an empty account has no 'privacy' column. */
  function GetPrivacy(rows: seq<Dataset>): (r: Result<PrivacyCounts>)
    ensures r.Err? <==> rows == []
    ensures r.Err? ==> r.error == KeyError("privacy")
    ensures r.Ok? ==> r.value == PrivacyCounts(CountPrivacy(rows, "PRIVATE"), CountPrivacy(rows, "LINK"), CountPrivacy(rows, "PUBLIC"))
    ensures r.Ok? ==> r.value.private + r.value.link + r.value.public <= |rows|
    ensures r.Ok? ==> (r.value.private + r.value.link + r.value.public == |rows|
      <==> forall i :: 0 <= i < |rows| ==> rows[i].privacy in PrivacyLevels)
  {
    if rows == [] then Err(KeyError("privacy"))
    else
      PrivacyPartition(rows);
      Ok(PrivacyCounts(CountPrivacy(rows, "PRIVATE"), CountPrivacy(rows, "LINK"), CountPrivacy(rows, "PUBLIC")))
  }

  /** The three counts never exceed the number of datasets, and they add up
      to it exactly when every privacy is one of the three levels. */
  lemma {:induction false} PrivacyPartition(rows: seq<Dataset>)
    ensures CountPrivacy(rows, "PRIVATE") + CountPrivacy(rows, "LINK") + CountPrivacy(rows, "PUBLIC") <= |rows|
    ensures CountPrivacy(rows, "PRIVATE") + CountPrivacy(rows, "LINK") + CountPrivacy(rows, "PUBLIC") == |rows|
      <==> forall i :: 0 <= i < |rows| ==> rows[i].privacy in PrivacyLevels
  {
    if rows != [] {
      PrivacyPartition(rows[1..]);
      if forall i :: 0 <= i < |rows| ==> rows[i].privacy in PrivacyLevels {
        assert forall i :: 0 <= i < |rows[1..]| ==> rows[1..][i] == rows[i + 1];
      } else {
        var i :| 0 <= i < |rows| && rows[i].privacy !in PrivacyLevels;
        if i > 0 {
          assert rows[1..][i - 1] == rows[i];
        }
      }
    }
  }

  // ------------------------------------------------------------ geometry

  /** Tags that make `getGeometry` flag a dataset as geocoded (line 189). */
  const GeocodedTags: set<string> :=
    {"ST_Point", "ST_MultiPolygon", "ST_Polygon", "ST_MultiLineString", "ST_LineString"}
  /** The tag lists of lines 196-198. They are not all subsets of
      GeocodedTags: 'Polygon' and 'MultiLineString' are written without the
      'ST_' prefix, and 'ST_Polygon' and 'ST_MultiLineString' are counted as
      neither polygons nor lines. */
  const PolygonTags: set<string> := {"ST_MultiPolygon", "Polygon"}
  const LineTags: set<string> := {"ST_LineString", "MultiLineString"}
  const PointTags: set<string> := {"ST_Point"}

  /** `geometry.str[0]`: the first tag, absent for an empty list. */
  function FirstTag(geometry: seq<string>): Option<string> {
    if geometry == [] then None else Some(geometry[0])
  }

  /** The `geom_type` column. */
  function GeomTypes(rows: seq<Dataset>): (types: seq<Option<string>>)
    ensures |types| == |rows|
  {
    seq(|rows|, i requires 0 <= i < |rows| => FirstTag(rows[i].geometry))
  }

  predicate IsGeocoded(t: Option<string>) {
    t.Some? && t.value in GeocodedTags
  }

  /** The `geocoded` column that the loop of lines 188-192 leaves behind. */
  function GeocodedFlags(types: seq<Option<string>>): (flags: seq<bool>)
    ensures |flags| == |types|
  {
    seq(|types|, i requires 0 <= i < |types| => IsGeocoded(types[i]))
  }

  /** `len(df.loc[df['geom_type'].isin(tags)])` */
  function CountTags(types: seq<Option<string>>, tags: set<string>): nat {
    if types == [] then 0
    else (if types[0].Some? && types[0].value in tags then 1 else 0) + CountTags(types[1..], tags)
  }

  /** `len(df.loc[df['geocoded'] == b])` */
  function CountFlag(flags: seq<bool>, b: bool): nat {
    if flags == [] then 0
    else (if flags[0] == b then 1 else 0) + CountFlag(flags[1..], b)
  }

  datatype GeometryCounts = GeometryCounts(points: nat, lines: nat, polys: nat, noneTbls: nat, geo: nat)

  /** The counts of lines 194-198, read off the two added columns. */
  function CountGeometry(types: seq<Option<string>>, flags: seq<bool>): GeometryCounts {
    GeometryCounts(
      CountTags(types, PointTags), CountTags(types, LineTags), CountTags(types, PolygonTags),
      CountFlag(flags, false), CountFlag(flags, true))
  }

  /** The counts `getGeometry` returns for the rows of a frame. */
  function GeometryOf(rows: seq<Dataset>): GeometryCounts {
    CountGeometry(GeomTypes(rows), GeocodedFlags(GeomTypes(rows)))
  }

  lemma {:induction false} FlagCountsPartition(flags: seq<bool>)
    ensures CountFlag(flags, true) + CountFlag(flags, false) == |flags|
  {
    if flags != [] {
      FlagCountsPartition(flags[1..]);
    }
  }

  lemma {:induction false} DisjointTagCounts(types: seq<Option<string>>)
    ensures CountTags(types, PointTags) + CountTags(types, LineTags) + CountTags(types, PolygonTags) <= |types|
  {
    if types != [] {
      DisjointTagCounts(types[1..]);
    }
  }

  lemma {:induction false} PointsAreGeocoded(types: seq<Option<string>>)
    ensures CountTags(types, PointTags) <= CountFlag(GeocodedFlags(types), true)
  {
    if types != [] {
      PointsAreGeocoded(types[1..]);
      assert GeocodedFlags(types)[1..] == GeocodedFlags(types[1..]);
    }
  }

  /** Every dataset is either geocoded or not; points, lines and polygons
      are disjoint; every point dataset is geocoded. */
  lemma GeometryTotals(rows: seq<Dataset>)
    ensures GeometryOf(rows).geo + GeometryOf(rows).noneTbls == |rows|
    ensures GeometryOf(rows).points + GeometryOf(rows).lines + GeometryOf(rows).polys <= |rows|
    ensures GeometryOf(rows).points <= GeometryOf(rows).geo
  {
    FlagCountsPartition(GeocodedFlags(GeomTypes(rows)));
    DisjointTagCounts(GeomTypes(rows));
    PointsAreGeocoded(GeomTypes(rows));
  }

  /** The tag lists disagree: an 'ST_Polygon' dataset is geocoded but is
      not a polygon, and a 'Polygon' dataset is a polygon but is not
      geocoded, so `polys <= geo` does not hold in general. */
  lemma PolygonTagsDisagree(name: string, privacy: string, created: int)
    ensures var d := Dataset(name, privacy, created, None, ["ST_Polygon"]);
      GeometryOf([d]).geo == 1 && GeometryOf([d]).polys == 0
    ensures var d := Dataset(name, privacy, created, None, ["Polygon"]);
      GeometryOf([d]).geo == 0 && GeometryOf([d]).polys == 1
  {
    var d := Dataset(name, privacy, created, None, ["ST_Polygon"]);
    assert GeomTypes([d]) == [Some("ST_Polygon")];
    assert GeocodedFlags([Some("ST_Polygon")]) == [true];
    assert "ST_Polygon" !in PolygonTags;
    assert [true][1..] == [] && [Some("ST_Polygon")][1..] == [];
    var e := Dataset(name, privacy, created, None, ["Polygon"]);
    assert GeomTypes([e]) == [Some("Polygon")];
    assert "Polygon" !in GeocodedTags;
    assert GeocodedFlags([Some("Polygon")]) == [false];
    assert [false][1..] == [] && [Some("Polygon")][1..] == [];
  }

  // --------------------------------------------------------------- frame

  /** `dsets_df`. Besides the rows, it holds the columns that later steps
      add to it in place; `None` while a column has not been added. */
  class DatasetFrame {
    var rows: seq<Dataset>
    var geomType: Option<seq<Option<string>>>
    var geocoded: Option<seq<bool>>
    var cartodbfied: Option<seq<string>>

    ghost predicate Valid()
      reads this
    {
      && (geomType.Some? ==> |geomType.value| == |rows|)
      && (geocoded.Some? ==> |geocoded.value| == |rows|)
      && (cartodbfied.Some? ==> |cartodbfied.value| == |rows|)
    }

    /** `getDatasets`: one row per dataset, in the client's order. */
    constructor (dsets: seq<DatasetEntity>)
      ensures Valid()
      ensures |rows| == |dsets|
      ensures forall i :: 0 <= i < |dsets| ==> rows[i] == DatasetOf(dsets[i])
      ensures geomType == None && geocoded == None && cartodbfied == None
    {
      rows := seq(|dsets|, i requires 0 <= i < |dsets| => DatasetOf(dsets[i]));
      geomType, geocoded, cartodbfied := None, None, None;
    }

    /** `getSync` as written: the nulls of the synchronization column are
        filled in place, then line 150 reads `dsets`, a name that is not
        bound in the method, and the bare `except` turns the NameError into
        a count of 0. The count evidently intended is `IntendedSync` of the
        filled rows. */
    method GetSync() returns (sync: int)
      requires Valid()
      modifies this
      ensures Valid()
      ensures rows == FillNullSync(old(rows))
      ensures geomType == old(geomType) && geocoded == old(geocoded) && cartodbfied == old(cartodbfied)
      ensures sync == 0
    {
      // An empty frame has no synchronization column (AttributeError,
      // caught); filling an empty column changes nothing either way.
      rows := FillNullSync(rows);
      // Line 150 reads `dsets`, which is not bound here: the NameError is
      // caught by the bare `except`, which sets the count to 0.
      sync := 0;
    }

    /** `getGeometry`: adds `geom_type` (the first tag) and `geocoded`
        (set row by row) to the frame, and counts points, lines, polygons,
        non-geocoded and geocoded datasets. */
    method GetGeometry() returns (r: Result<GeometryCounts>)
      requires Valid()
      modifies this
      ensures Valid()
      ensures rows == old(rows) && cartodbfied == old(cartodbfied)
      ensures old(rows) == [] ==>
        r == Err(AttributeError("geometry")) && geomType == old(geomType) && geocoded == old(geocoded)
      ensures old(rows) != [] ==>
        && geomType == Some(GeomTypes(rows))
        && geocoded == Some(GeocodedFlags(GeomTypes(rows)))
        && r == Ok(GeometryOf(rows))
    {
      if rows == [] {
        return Err(AttributeError("geometry"));
      }
      var types := GeomTypes(rows);
      geomType := Some(types);
      var flags := seq(|rows|, _ => false);
      geocoded := Some(flags);
      for i := 0 to |rows|
        invariant rows == old(rows) && cartodbfied == old(cartodbfied) && geomType == Some(types)
        invariant |flags| == |rows| && geocoded == Some(flags)
        invariant forall k :: 0 <= k < i ==> flags[k] == IsGeocoded(types[k])
      {
        if types[i].Some? && types[i].value in GeocodedTags {
          flags := flags[i := true];
        } else {
          flags := flags[i := false];
        }
        geocoded := Some(flags);
      }
      assert flags == GeocodedFlags(types);
      r := Ok(CountGeometry(types, flags));
    }
  }
}
