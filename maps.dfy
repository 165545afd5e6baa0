/** `getMaps` (carto_report/report.py): the `maps_df` frame, one record per
    visualization, most recently updated first. */
module Maps {
  import opened Sorting

  /** A visualization as the account client returns it. Timestamps are
      modelled as integers ordered like the originals. */
  datatype Visualization = Visualization(name: string, createdAt: int, updatedAt: int, url: string)

  /** A row of `maps_df`. The update time is used for ordering only and is
      not a column. */
  datatype MapRow = MapRow(name: string, created: int, url: string)

  function UpdatedAt(v: Visualization): int { v.updatedAt }

  function MapRowOf(v: Visualization): MapRow { MapRow(v.name, v.createdAt, v.url) }

  function CreatedOf(m: MapRow): int { m.created }

  /** `getMaps`: the visualizations sorted by `updated_at`, largest first,
      each projected to name, created and url. */
  function GetMaps(vizs: seq<Visualization>): (maps: seq<MapRow>)
    ensures |maps| == |vizs|
  {
    Project(SortDesc(vizs, UpdatedAt))
  }

  /** There is an ordering of the visualizations, a permutation of them
      sorted by update time with the latest first, of which `maps_df` is
      the row-by-row projection. */
  lemma GetMapsOrdersByUpdate(vizs: seq<Visualization>)
    ensures exists ordered: seq<Visualization> ::
      && multiset(ordered) == multiset(vizs)
      && SortedDesc(ordered, UpdatedAt)
      && |ordered| == |GetMaps(vizs)|
      && forall i :: 0 <= i < |ordered| ==> GetMaps(vizs)[i] == MapRowOf(ordered[i])
  {
    var ordered := SortDesc(vizs, UpdatedAt);
    ProjectAt(ordered);
  }

  function Project(vizs: seq<Visualization>): (rows: seq<MapRow>)
    ensures |rows| == |vizs|
  {
    if vizs == [] then [] else [MapRowOf(vizs[0])] + Project(vizs[1..])
  }

  lemma {:induction false} ProjectAt(vizs: seq<Visualization>)
    ensures forall i :: 0 <= i < |vizs| ==> Project(vizs)[i] == MapRowOf(vizs[i])
  {
    if vizs != [] {
      ProjectAt(vizs[1..]);
    }
  }
}
