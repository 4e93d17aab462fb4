/*
 * The read side of the Cube metadata fetcher: picking a view or cube by name
 * out of the /v1/meta answer already held by the fetcher, extracting its
 * measures and dimensions, listing every view, and summarising views against
 * regular cubes.  Fetching over HTTP and the cache file are not modelled; the
 * metadata arrives through Install.
 *
 * An entry of the answer carries only the keys the fetcher reads; a key that
 * is absent is None.  An entry with none of them stands for `{}`, the one
 * entry Python finds falsy.
 */
module MetadataFetcher {
  import opened Common

  /** A measure or dimension as the Cube API lists it. */
  datatype Field = Field(name: Option<string>, title: Option<string>, description: Option<string>, kind: Option<string>)

  datatype CubeEntry = CubeEntry(
    name: Option<string>, kind: Option<string>, isView: Option<bool>,
    title: Option<string>, description: Option<string>,
    measures: Option<seq<Field>>, dimensions: Option<seq<Field>>)

  /** The loaded metadata: its `cubes` list, and whether it has any other key (which makes it truthy). */
  datatype Metadata = Metadata(cubes: Option<seq<CubeEntry>>, otherKeys: bool)

  datatype MeasureInfo = MeasureInfo(name: Option<string>, title: string, description: string)
  datatype DimensionInfo = DimensionInfo(name: Option<string>, title: string, description: string, kind: string)

  /** The error text of every reader when no metadata is held. */
  const NotLoadedError := "Metadata not loaded. Call fetch_metadata() first."

  /** The answer of get_view_metadata; NotLoaded carries NotLoadedError. */
  datatype ViewResult =
    | NotLoaded
    | NotFound(error: string, availableCubes: seq<Option<string>>)
    | View(view: Option<string>, kind: string, title: Option<string>, description: string,
           measures: seq<MeasureInfo>, dimensions: seq<DimensionInfo>, measuresCount: int, dimensionsCount: int)

  datatype AllViewsResult =
    | AllNotLoaded
    | AllViews(views: seq<ViewResult>, viewsCount: int, timestamp: Option<string>)

  datatype SummaryResult =
    | SummaryNotLoaded
    | Summary(totalCubes: int, viewsCount: int, cubesCount: int,
              viewNames: seq<Option<string>>, cubeNames: seq<Option<string>>, timestamp: Option<string>)

  /** `not self.metadata` is false: metadata is set and not the empty dict. */
  predicate Loaded(metadata: Option<Metadata>) {
    metadata.Some? && (metadata.value.cubes.Some? || metadata.value.otherKeys)
  }

  /** `metadata.get('cubes', [])` */
  function Cubes(metadata: Metadata): seq<CubeEntry> {
    if metadata.cubes.Some? then metadata.cubes.value else []
  }

  predicate IsView(c: CubeEntry) {
    c.kind == Some("view") || c.isView == Some(true)
  }

  /** The entry `{}`. */
  predicate Falsy(c: CubeEntry) {
    c == CubeEntry(None, None, None, None, None, None, None)
  }

  function OrElse(x: Option<string>, default: string): string {
    if x.Some? then x.value else default
  }

  /** f"{x}" */
  function Render(x: Option<string>): string {
    if x.Some? then x.value else "None"
  }

  // ---------------------------------------------------------------------
  // Selecting the target entry
  // ---------------------------------------------------------------------

  predicate Matches(c: CubeEntry, name: Option<string>, viewsOnly: bool) {
    c.name == name && (viewsOnly ==> IsView(c))
  }

  /** The first position whose entry has the name (and is a view, when viewsOnly). */
  function FirstMatch(cubes: seq<CubeEntry>, name: Option<string>, viewsOnly: bool): (r: Option<nat>)
    ensures r.Some? ==> r.value < |cubes| && Matches(cubes[r.value], name, viewsOnly) &&
                        forall j :: 0 <= j < r.value ==> !Matches(cubes[j], name, viewsOnly)
    ensures r.None? ==> forall j :: 0 <= j < |cubes| ==> !Matches(cubes[j], name, viewsOnly)
  {
    if cubes == [] then None
    else if Matches(cubes[0], name, viewsOnly) then Some(0)
    else
      match FirstMatch(cubes[1..], name, viewsOnly)
      case None => None
      case Some(i) => Some(i + 1)
  }

  /** The first same-named view, else the first same-named entry. */
  function Target(cubes: seq<CubeEntry>, name: Option<string>): Option<CubeEntry> {
    match FirstMatch(cubes, name, true)
    case Some(i) => Some(cubes[i])
    case None =>
      match FirstMatch(cubes, name, false)
      case Some(i) => Some(cubes[i])
      case None => None
  }

  /**
   * A view of that name wins over a regular cube of that name wherever it
   * stands; without one the first entry of that name is taken; and an entry
   * is found exactly when one has the name.
   */
  lemma TargetPrefersViews(cubes: seq<CubeEntry>, name: Option<string>)
    ensures Target(cubes, name).Some? <==> exists j :: 0 <= j < |cubes| && cubes[j].name == name
    ensures (exists j :: 0 <= j < |cubes| && cubes[j].name == name && IsView(cubes[j])) ==>
      exists f :: 0 <= f < |cubes| && Target(cubes, name) == Some(cubes[f]) && cubes[f].name == name && IsView(cubes[f]) &&
        forall l :: 0 <= l < f ==> !(cubes[l].name == name && IsView(cubes[l]))
    ensures (forall j :: 0 <= j < |cubes| && cubes[j].name == name ==> !IsView(cubes[j])) ==>
      forall f :: 0 <= f < |cubes| && cubes[f].name == name && (forall l :: 0 <= l < f ==> cubes[l].name != name) ==>
        Target(cubes, name) == Some(cubes[f])
  {
    if exists j :: 0 <= j < |cubes| && cubes[j].name == name && IsView(cubes[j]) {
      var j :| 0 <= j < |cubes| && cubes[j].name == name && IsView(cubes[j]);
      assert Matches(cubes[j], name, true);
    }
    if exists j :: 0 <= j < |cubes| && cubes[j].name == name {
      var j :| 0 <= j < |cubes| && cubes[j].name == name;
      assert Matches(cubes[j], name, false);
    }
  }

  // ---------------------------------------------------------------------
  // Field extraction
  // ---------------------------------------------------------------------

  /** A measure as reported: the description falls back to the title, the title to ''. */
  function MeasureOf(f: Field): MeasureInfo {
    MeasureInfo(f.name, OrElse(f.title, ""), OrElse(f.description, OrElse(f.title, "")))
  }

  /** A dimension as reported, its type '' when absent. */
  function DimensionOf(f: Field): DimensionInfo {
    DimensionInfo(f.name, OrElse(f.title, ""), OrElse(f.description, OrElse(f.title, "")), OrElse(f.kind, ""))
  }

  function FieldsOf(fs: Option<seq<Field>>): seq<Field> {
    if fs.Some? then fs.value else []
  }

  function Describe(c: CubeEntry, viewName: Option<string>): ViewResult {
    var ms := FieldsOf(c.measures);
    var ds := FieldsOf(c.dimensions);
    var measures := seq(|ms|, i requires 0 <= i < |ms| => MeasureOf(ms[i]));
    var dimensions := seq(|ds|, i requires 0 <= i < |ds| => DimensionOf(ds[i]));
    View(viewName, OrElse(c.kind, "cube"), if c.title.Some? then c.title else viewName, OrElse(c.description, ""),
         measures, dimensions, |measures|, |dimensions|)
  }

  function Names(cubes: seq<CubeEntry>): (r: seq<Option<string>>)
    ensures |r| == |cubes| && forall i :: 0 <= i < |cubes| ==> r[i] == cubes[i].name
  {
    seq(|cubes|, i requires 0 <= i < |cubes| => cubes[i].name)
  }

  /** get_view_metadata on the metadata held. */
  function ViewFor(metadata: Option<Metadata>, viewName: Option<string>): ViewResult {
    if !Loaded(metadata) then NotLoaded
    else
      var cubes := Cubes(metadata.value);
      var target := Target(cubes, viewName);
      if target.None? || Falsy(target.value) then
        NotFound("View/cube '" + Render(viewName) + "' not found in metadata", Names(cubes))
      else Describe(target.value, viewName)
  }

  /**
   * A found view reports counts equal to its lists, keeps the fields in the
   * order the API gave them, and falls back from description to title.
   */
  lemma ViewFieldsInOrder(metadata: Option<Metadata>, viewName: Option<string>)
    requires ViewFor(metadata, viewName).View?
    ensures var v := ViewFor(metadata, viewName);
      var c := Target(Cubes(metadata.value), viewName).value;
      v.measuresCount == |v.measures| == |FieldsOf(c.measures)| &&
      v.dimensionsCount == |v.dimensions| == |FieldsOf(c.dimensions)| &&
      (forall i :: 0 <= i < |v.measures| ==>
        v.measures[i].name == FieldsOf(c.measures)[i].name &&
        (FieldsOf(c.measures)[i].description.None? ==> v.measures[i].description == v.measures[i].title)) &&
      (forall i :: 0 <= i < |v.dimensions| ==>
        v.dimensions[i].name == FieldsOf(c.dimensions)[i].name &&
        (FieldsOf(c.dimensions)[i].description.None? ==> v.dimensions[i].description == v.dimensions[i].title) &&
        (FieldsOf(c.dimensions)[i].kind.None? ==> v.dimensions[i].kind == ""))
  {
  }

  /** A name that is not there fails, listing every entry's name in order. */
  lemma MissingViewListsCubes(metadata: Option<Metadata>, viewName: Option<string>)
    requires Loaded(metadata)
    requires forall j :: 0 <= j < |Cubes(metadata.value)| ==> Cubes(metadata.value)[j].name != viewName
    ensures ViewFor(metadata, viewName) ==
      NotFound("View/cube '" + Render(viewName) + "' not found in metadata", Names(Cubes(metadata.value)))
  {
    TargetPrefersViews(Cubes(metadata.value), viewName);
  }

  /** The name of any listed entry finds a view that reports that name. */
  lemma ListedNameIsFound(metadata: Option<Metadata>, k: int)
    requires Loaded(metadata) && 0 <= k < |Cubes(metadata.value)|
    requires Cubes(metadata.value)[k].name.Some?
    ensures ViewFor(metadata, Cubes(metadata.value)[k].name).View?
    ensures ViewFor(metadata, Cubes(metadata.value)[k].name).view == Cubes(metadata.value)[k].name
  {
    TargetPrefersViews(Cubes(metadata.value), Cubes(metadata.value)[k].name);
  }

  // ---------------------------------------------------------------------
  // Listing and summarising
  // ---------------------------------------------------------------------

  /** The successful get_view_metadata answers for the names of these entries, in order. */
  function Kept(metadata: Option<Metadata>, entries: seq<CubeEntry>): seq<ViewResult> {
    if entries == [] then []
    else
      var v := ViewFor(metadata, entries[|entries| - 1].name);
      Kept(metadata, entries[..|entries| - 1]) + (if v.View? then [v] else [])
  }

  function AllViewsFor(metadata: Option<Metadata>, timestamp: Option<string>): AllViewsResult {
    if !Loaded(metadata) then AllNotLoaded
    else
      var views := Kept(metadata, Cubes(metadata.value));
      AllViews(views, |views|, timestamp)
  }

  /** Only views are kept; with every entry named, there is one per entry, carrying that entry's name. */
  lemma {:induction false} KeptOnePerNamedEntry(metadata: Option<Metadata>, n: nat)
    requires Loaded(metadata) && n <= |Cubes(metadata.value)|
    requires forall j :: 0 <= j < |Cubes(metadata.value)| ==> Cubes(metadata.value)[j].name.Some?
    ensures var ks := Kept(metadata, Cubes(metadata.value)[..n]);
      |ks| == n && forall i :: 0 <= i < n ==> ks[i].View? && ks[i].view == Cubes(metadata.value)[i].name
  {
    var cubes := Cubes(metadata.value);
    if n > 0 {
      KeptOnePerNamedEntry(metadata, n - 1);
      assert cubes[..n][..n - 1] == cubes[..n - 1];
      ListedNameIsFound(metadata, n - 1);
      KeptGrowsByView(metadata, cubes[..n]);
      AppendNamedView(Kept(metadata, cubes[..n - 1]), ViewFor(metadata, cubes[n - 1].name), cubes, n);
    }
  }

  /** An entry whose name finds a view adds that view behind the answers for the entries before it. */
  lemma KeptGrowsByView(metadata: Option<Metadata>, entries: seq<CubeEntry>)
    requires entries != [] && ViewFor(metadata, entries[|entries| - 1].name).View?
    ensures Kept(metadata, entries)
            == Kept(metadata, entries[..|entries| - 1]) + [ViewFor(metadata, entries[|entries| - 1].name)]
  {
  }

  /** Views named after the first n - 1 entries, followed by one named after entry n - 1, are named after the first n. */
  lemma AppendNamedView(ks: seq<ViewResult>, v: ViewResult, cubes: seq<CubeEntry>, n: nat)
    requires 0 < n <= |cubes| && |ks| == n - 1
    requires forall i :: 0 <= i < n - 1 ==> ks[i].View? && ks[i].view == cubes[i].name
    requires v.View? && v.view == cubes[n - 1].name
    ensures |ks + [v]| == n && forall i :: 0 <= i < n ==> (ks + [v])[i].View? && (ks + [v])[i].view == cubes[i].name
  {
  }

  /** Every answer listed is a view, and their count is reported. */
  lemma {:induction false} KeptAreViews(metadata: Option<Metadata>, entries: seq<CubeEntry>)
    ensures |Kept(metadata, entries)| <= |entries|
    ensures forall i :: 0 <= i < |Kept(metadata, entries)| ==> Kept(metadata, entries)[i].View?
  {
    if entries != [] {
      KeptAreViews(metadata, entries[..|entries| - 1]);
    }
  }

  /** With every entry named, get_all_views_metadata lists one view per entry, so views_count is the number of entries. */
  lemma EveryNamedEntryListed(metadata: Option<Metadata>, timestamp: Option<string>)
    requires Loaded(metadata)
    requires forall j :: 0 <= j < |Cubes(metadata.value)| ==> Cubes(metadata.value)[j].name.Some?
    ensures var r := AllViewsFor(metadata, timestamp);
      r.AllViews? && r.viewsCount == |r.views| == |Cubes(metadata.value)| &&
      forall i :: 0 <= i < |r.views| ==> r.views[i].View? && r.views[i].view == Cubes(metadata.value)[i].name
  {
    var cubes := Cubes(metadata.value);
    KeptOnePerNamedEntry(metadata, |cubes|);
    assert cubes[..|cubes|] == cubes;
  }

  /** The views, in order. */
  function ViewsOf(cubes: seq<CubeEntry>): seq<CubeEntry> {
    if cubes == [] then []
    else ViewsOf(cubes[..|cubes| - 1]) + (if IsView(cubes[|cubes| - 1]) then [cubes[|cubes| - 1]] else [])
  }

  /** The regular cubes, in order. */
  function RegularOf(cubes: seq<CubeEntry>): seq<CubeEntry> {
    if cubes == [] then []
    else RegularOf(cubes[..|cubes| - 1]) + (if !IsView(cubes[|cubes| - 1]) then [cubes[|cubes| - 1]] else [])
  }

  /** Every entry is a view or a regular cube and never both. */
  lemma {:induction false} Partition(cubes: seq<CubeEntry>)
    ensures |ViewsOf(cubes)| + |RegularOf(cubes)| == |cubes|
    ensures forall c :: c in ViewsOf(cubes) ==> c in cubes && IsView(c)
    ensures forall c :: c in RegularOf(cubes) ==> c in cubes && !IsView(c)
    ensures forall c :: c in cubes ==> c in ViewsOf(cubes) || c in RegularOf(cubes)
  {
    if cubes != [] {
      var front := cubes[..|cubes| - 1];
      Partition(front);
      assert cubes == front + [cubes[|cubes| - 1]];
    }
  }

  function SummaryFor(metadata: Option<Metadata>, timestamp: Option<string>): SummaryResult {
    if !Loaded(metadata) then SummaryNotLoaded
    else
      var cubes := Cubes(metadata.value);
      var views := ViewsOf(cubes);
      var regular := RegularOf(cubes);
      Summary(|cubes|, |views|, |regular|, Names(views), Names(regular), timestamp)
  }

  /** get_summary's counts split the entries: views plus regular cubes make the total. */
  lemma SummaryPartitions(metadata: Option<Metadata>, timestamp: Option<string>)
    requires Loaded(metadata)
    ensures var r := SummaryFor(metadata, timestamp);
      r.Summary? && r.viewsCount + r.cubesCount == r.totalCubes == |Cubes(metadata.value)| &&
      |r.viewNames| == r.viewsCount && |r.cubeNames| == r.cubesCount
  {
    Partition(Cubes(metadata.value));
  }

  /** Without metadata the three readers all fail. */
  lemma NothingLoadedFailsAll(metadata: Option<Metadata>, viewName: Option<string>, timestamp: Option<string>)
    requires !Loaded(metadata)
    ensures ViewFor(metadata, viewName) == NotLoaded
    ensures AllViewsFor(metadata, timestamp) == AllNotLoaded
    ensures SummaryFor(metadata, timestamp) == SummaryNotLoaded
  {
  }

  /** The loop of get_view_metadata: stop at the first same-named view, else keep the first same-named entry. */
  method FindTarget(cubes: seq<CubeEntry>, viewName: Option<string>) returns (target: Option<CubeEntry>)
    ensures target == Target(cubes, viewName)
  {
    target := None;
    var sawView := false;
    var i := 0;
    while i < |cubes|
      invariant 0 <= i <= |cubes|
      invariant !sawView ==> forall j :: 0 <= j < i ==> !Matches(cubes[j], viewName, true)
      invariant !sawView ==> (target.None? <==> forall j :: 0 <= j < i ==> !Matches(cubes[j], viewName, false))
      invariant !sawView && target.Some? ==>
        (exists j :: 0 <= j < i && target.value == cubes[j] &&
           Matches(cubes[j], viewName, false) && forall l :: 0 <= l < j ==> !Matches(cubes[l], viewName, false))
      invariant sawView ==> target == Target(cubes, viewName)
    {
      var cube := cubes[i];
      if cube.name == viewName {
        if IsView(cube) {
          target := Some(cube);
          sawView := true;
          assert Matches(cubes[i], viewName, true);
          break;
        }
        if target.None? {
          target := Some(cube);
        }
      }
      i := i + 1;
    }
    if !sawView {
      assert FirstMatch(cubes, viewName, true).None?;
      match FirstMatch(cubes, viewName, false)
      case None =>
      case Some(f) =>
    }
  }

  /** The description get_view_metadata builds for the entry it found. */
  method DescribeEntry(c: CubeEntry, viewName: Option<string>) returns (r: ViewResult)
    ensures r == Describe(c, viewName)
  {
    var ms := FieldsOf(c.measures);
    var measures: seq<MeasureInfo> := [];
    for k := 0 to |ms|
      invariant |measures| == k && forall j :: 0 <= j < k ==> measures[j] == MeasureOf(ms[j])
    {
      measures := measures + [MeasureOf(ms[k])];
    }
    var ds := FieldsOf(c.dimensions);
    var dimensions: seq<DimensionInfo> := [];
    for k := 0 to |ds|
      invariant |dimensions| == k && forall j :: 0 <= j < k ==> dimensions[j] == DimensionOf(ds[j])
    {
      dimensions := dimensions + [DimensionOf(ds[k])];
    }
    r := View(viewName, OrElse(c.kind, "cube"), if c.title.Some? then c.title else viewName, OrElse(c.description, ""),
              measures, dimensions, |measures|, |dimensions|);
  }

  // ---------------------------------------------------------------------
  // The fetcher
  // ---------------------------------------------------------------------

  class CubeMetadataFetcher {
    var metadata: Option<Metadata>
    var metadataTimestamp: Option<string>

    constructor()
      ensures metadata.None? && metadataTimestamp.None?
    {
      metadata := None;
      metadataTimestamp := None;
    }

    /** The fields fetch_metadata sets from the cache file or from the API answer. */
    method Install(m: Option<Metadata>, timestamp: Option<string>)
      modifies this
      ensures metadata == m && metadataTimestamp == timestamp
    {
      metadata := m;
      metadataTimestamp := timestamp;
    }

    /** clear_cache: the fields are reset only when the cache file existed and was removed. */
    method ClearCache(cacheFileExists: bool, removed: bool) returns (r: bool)
      modifies this
      ensures r == (cacheFileExists && removed)
      ensures r ==> metadata.None? && metadataTimestamp.None?
      ensures !r ==> metadata == old(metadata) && metadataTimestamp == old(metadataTimestamp)
    {
      if cacheFileExists && removed {
        metadata := None;
        metadataTimestamp := None;
        return true;
      }
      return false;
    }

    method GetViewMetadata(viewName: Option<string>) returns (r: ViewResult)
      ensures r == ViewFor(metadata, viewName)
    {
      if !Loaded(metadata) {
        return NotLoaded;
      }
      var cubes := Cubes(metadata.value);
      var target := FindTarget(cubes, viewName);
      if target.None? || Falsy(target.value) {
        return NotFound("View/cube '" + Render(viewName) + "' not found in metadata", Names(cubes));
      }
      r := DescribeEntry(target.value, viewName);
    }

    method GetAllViewsMetadata() returns (r: AllViewsResult)
      ensures r == AllViewsFor(metadata, metadataTimestamp)
    {
      if !Loaded(metadata) {
        return AllNotLoaded;
      }
      var cubes := Cubes(metadata.value);
      var views: seq<ViewResult> := [];
      for i := 0 to |cubes|
        invariant views == Kept(metadata, cubes[..i])
      {
        var v := GetViewMetadata(cubes[i].name);
        assert cubes[..i + 1][..i] == cubes[..i];
        if v.View? {
          views := views + [v];
        }
      }
      assert cubes[..|cubes|] == cubes;
      r := AllViews(views, |views|, metadataTimestamp);
    }

    function GetSummary(): (r: SummaryResult)
      reads this
      ensures r.Summary? <==> Loaded(metadata)
      ensures r.Summary? ==> r.totalCubes == |Cubes(metadata.value)| && r.timestamp == metadataTimestamp
    {
      SummaryFor(metadata, metadataTimestamp)
    }
  }
}
