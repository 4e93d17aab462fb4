/*
 * The read-only tools the assessor's model may call: listings of the view's
 * measures, dimensions and time dimensions, and existence checks for a
 * measure or dimension name.  The Python tools return dictionaries; here each
 * returns a record with the same fields.
 */
module MetadataTools {
  import opened Common
  import opened AgentSchemas

  /** {"name", "title", "description"} of one measure, each defaulting to "". */
  function MeasureSummary(m: StrMap): StrMap {
    [("name", LookupOr(m, "name", "")), ("title", LookupOr(m, "title", "")),
     ("description", LookupOr(m, "description", ""))]
  }

  /** As MeasureSummary, plus "type", which defaults to "string". */
  function DimensionSummary(d: StrMap): StrMap {
    MeasureSummary(d) + [("type", LookupOr(d, "type", "string"))]
  }

  function Summaries(entries: seq<StrMap>, withType: bool): (r: seq<StrMap>)
    ensures |r| == |entries|
    ensures forall i :: 0 <= i < |entries| ==>
      r[i] == if withType then DimensionSummary(entries[i]) else MeasureSummary(entries[i])
  {
    seq(|entries|, i requires 0 <= i < |entries| =>
      if withType then DimensionSummary(entries[i]) else MeasureSummary(entries[i]))
  }

  datatype Listing = Listing(count: nat, entries: seq<StrMap>, names: seq<string>)

  /** The summaries carry the listed names, position by position. */
  lemma SummaryNames(entries: seq<StrMap>, withType: bool)
    ensures forall i :: 0 <= i < |entries| ==>
      Lookup(Summaries(entries, withType)[i], "name") == Some(NamesOf(entries)[i])
  {
    forall i | 0 <= i < |entries|
      ensures Lookup(Summaries(entries, withType)[i], "name") == Some(NamesOf(entries)[i])
    {
      LookupAt(Summaries(entries, withType)[i], 0);
    }
  }

  /** get_available_measures */
  function GetAvailableMeasures(md: CubeMetadata): (r: Listing)
    ensures r.count == |r.entries| == |r.names| == |md.measures|
    ensures r.names == MeasureNames(md)
    ensures forall i :: 0 <= i < r.count ==> Lookup(r.entries[i], "name") == Some(r.names[i])
  {
    SummaryNames(md.measures, false);
    Listing(|md.measures|, Summaries(md.measures, false), NamesOf(md.measures))
  }

  /** get_available_dimensions; a dimension without a type is reported as "string". */
  function GetAvailableDimensions(md: CubeMetadata): (r: Listing)
    ensures r.count == |r.entries| == |r.names| == |md.dimensions|
    ensures r.names == DimensionNames(md)
    ensures forall i :: 0 <= i < r.count ==> Lookup(r.entries[i], "name") == Some(r.names[i])
    ensures forall i :: 0 <= i < r.count && Lookup(md.dimensions[i], "type").None? ==>
      Lookup(r.entries[i], "type") == Some("string")
  {
    SummaryNames(md.dimensions, true);
    var r := Listing(|md.dimensions|, Summaries(md.dimensions, true), NamesOf(md.dimensions));
    forall i | 0 <= i < r.count && Lookup(md.dimensions[i], "type").None?
      ensures Lookup(r.entries[i], "type") == Some("string")
    {
      LookupAt(r.entries[i], 3);
    }
    r
  }

  /** [n for n in names] of a filtered list is the filtered list of names. */
  lemma {:induction false} NamesOfSelect(entries: seq<StrMap>, flags: seq<bool>)
    requires |entries| == |flags|
    ensures NamesOf(Select(entries, flags)) == Select(NamesOf(entries), flags)
  {
    SelectIsOrderedFilter(entries, flags);
    SelectIsOrderedFilter(NamesOf(entries), flags);
  }

  /**
   * get_time_dimensions: the dimensions typed "time" are picked first, then
   * summarised; the names agree with CubeMetadata.get_time_dimensions.
   */
  function GetTimeDimensions(md: CubeMetadata): (r: Listing)
    ensures r.count == |r.entries| == |r.names|
    ensures r.names == TimeDimensions(md)
    ensures forall i :: 0 <= i < r.count ==> Lookup(r.entries[i], "name") == Some(r.names[i])
  {
    var timeDims := Select(md.dimensions, TimeFlags(md.dimensions));
    NamesOfSelect(md.dimensions, TimeFlags(md.dimensions));
    SummaryNames(timeDims, false);
    Listing(|timeDims|, Summaries(timeDims, false), NamesOf(timeDims))
  }

  datatype Check = Check(name: string, exists_: bool, validNames: seq<string>, message: string)

  function CheckMessage(kind: string, name: string, found: bool): string {
    kind + " '" + name + "' " + (if found then "exists" else "does not exist") + " in cube metadata"
  }

  /** validate_measure_exists: exact, case-sensitive membership of the full name. */
  function ValidateMeasureExists(md: CubeMetadata, name: string): (r: Check)
    ensures r.exists_ <==> exists i :: 0 <= i < |md.measures| && LookupOr(md.measures[i], "name", "") == name
    ensures r.validNames == MeasureNames(md)
  {
    var names := MeasureNames(md);
    var found := name in names;
    assert found ==> exists i :: 0 <= i < |md.measures| && LookupOr(md.measures[i], "name", "") == name by {
      if found { var i :| 0 <= i < |names| && names[i] == name; }
    }
    Check(name, found, names, CheckMessage("Measure", name, found))
  }

  /** validate_dimension_exists */
  function ValidateDimensionExists(md: CubeMetadata, name: string): (r: Check)
    ensures r.exists_ <==> exists i :: 0 <= i < |md.dimensions| && LookupOr(md.dimensions[i], "name", "") == name
    ensures r.validNames == DimensionNames(md)
  {
    var names := DimensionNames(md);
    var found := name in names;
    assert found ==> exists i :: 0 <= i < |md.dimensions| && LookupOr(md.dimensions[i], "name", "") == name by {
      if found { var i :| 0 <= i < |names| && names[i] == name; }
    }
    Check(name, found, names, CheckMessage("Dimension", name, found))
  }
}
