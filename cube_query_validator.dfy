/*
 * Validation of a Cube.js query against one cube or view schema: every
 * measure, dimension and time dimension the query names must exist in the
 * schema (after dropping a "Cube." prefix); a missing one makes the query
 * invalid, is reported as an error, and gets the closest schema name (edit
 * distance at most 3) as a suggestion.  Filter members that do not exist
 * only produce warnings.  A correction prompt for the language model is
 * built from the result.
 */
module CubeQueryValidator {
  import opened Common
  import opened Json

  // ---------------------------------------------------------------------
  // Edit distance
  // ---------------------------------------------------------------------

  function Min3(a: nat, b: nat, c: nat): (m: nat)
    ensures m <= a && m <= b && m <= c
    ensures m == a || m == b || m == c
  {
    if a <= b && a <= c then a else if b <= c then b else c
  }

  /** The Levenshtein distance between a and b, defined on their prefixes. */
  function Dist(a: string, b: string): nat
    decreases |a| + |b|
  {
    if |a| == 0 then |b|
    else if |b| == 0 then |a|
    else
      Min3(Dist(a[..|a| - 1], b) + 1,
           Dist(a, b[..|b| - 1]) + 1,
           Dist(a[..|a| - 1], b[..|b| - 1]) + (if a[|a| - 1] == b[|b| - 1] then 0 else 1))
  }

  lemma {:induction false} DistSymmetric(a: string, b: string)
    ensures Dist(a, b) == Dist(b, a)
    decreases |a| + |b|
  {
    if |a| > 0 && |b| > 0 {
      DistSymmetric(a[..|a| - 1], b);
      DistSymmetric(a, b[..|b| - 1]);
      DistSymmetric(a[..|a| - 1], b[..|b| - 1]);
    }
  }

  lemma {:induction false} DistToItself(a: string)
    ensures Dist(a, a) == 0
    decreases |a|
  {
    if |a| > 0 {
      DistToItself(a[..|a| - 1]);
    }
  }

  /** Turning a into b never takes more edits than the longer of the two has characters. */
  lemma {:induction false} DistAtMostLonger(a: string, b: string)
    ensures Dist(a, b) <= if |a| >= |b| then |a| else |b|
    decreases |a| + |b|
  {
    if |a| > 0 && |b| > 0 {
      DistAtMostLonger(a[..|a| - 1], b[..|b| - 1]);
      DistAtMostLonger(a[..|a| - 1], b);
      DistAtMostLonger(a, b[..|b| - 1]);
    }
  }

  /** ... and never fewer than the difference of their lengths. */
  lemma {:induction false} DistAtLeastLengthGap(a: string, b: string)
    ensures Dist(a, b) >= |a| - |b| && Dist(a, b) >= |b| - |a|
    decreases |a| + |b|
  {
    if |a| > 0 && |b| > 0 {
      DistAtLeastLengthGap(a[..|a| - 1], b[..|b| - 1]);
      DistAtLeastLengthGap(a[..|a| - 1], b);
      DistAtLeastLengthGap(a, b[..|b| - 1]);
    }
  }

  /** One cell of the table: the distance of two non-empty prefixes from the three cells before it. */
  lemma DistCell(s1: string, s2: string, i: nat, j: nat)
    requires i < |s1| && j < |s2|
    ensures Dist(s1[..i + 1], s2[..j + 1])
            == Min3(Dist(s1[..i], s2[..j + 1]) + 1,
                    Dist(s1[..i + 1], s2[..j]) + 1,
                    Dist(s1[..i], s2[..j]) + (if s1[i] == s2[j] then 0 else 1))
  {
    assert s1[..i + 1][..i] == s1[..i] && s2[..j + 1][..j] == s2[..j];
    assert s1[..i + 1][i] == s1[i] && s2[..j + 1][j] == s2[j];
  }

  /** _levenshtein_distance: the two-row dynamic programme, the longer string outside. */
  method Levenshtein(s1: string, s2: string) returns (d: nat)
    ensures d == Dist(s1, s2)
    decreases if |s1| < |s2| then 1 else 0
  {
    if |s1| < |s2| {
      d := Levenshtein(s2, s1);
      DistSymmetric(s1, s2);
      return;
    }
    if |s2| == 0 {
      return |s1|;
    }
    var previous: seq<nat> := seq(|s2| + 1, j requires 0 <= j <= |s2| => j);
    var i := 0;
    while i < |s1|
      invariant 0 <= i <= |s1|
      invariant Row(s1, s2, i, previous)
    {
      previous := NextRow(s1, s2, i, previous);
      i := i + 1;
    }
    assert s1[..|s1|] == s1 && s2[..|s2|] == s2;
    d := previous[|s2|];
  }

  /** row holds the distances from the first i characters of s1 to every prefix of s2. */
  predicate Row(s1: string, s2: string, i: nat, row: seq<nat>)
    requires i <= |s1|
  {
    |row| == |s2| + 1 && forall j :: 0 <= j <= |s2| ==> row[j] == Dist(s1[..i], s2[..j])
  }

  /** One pass of the inner loop: the next row of the table from the previous one. */
  method NextRow(s1: string, s2: string, i: nat, previous: seq<nat>) returns (current: seq<nat>)
    requires i < |s1| && Row(s1, s2, i, previous)
    ensures Row(s1, s2, i + 1, current)
  {
    current := [i + 1];
    assert Dist(s1[..i + 1], s2[..0]) == i + 1;
    var j := 0;
    while j < |s2|
      invariant 0 <= j <= |s2|
      invariant |current| == j + 1
      invariant forall k :: 0 <= k <= j ==> current[k] == Dist(s1[..i + 1], s2[..k])
    {
      var insertions := previous[j + 1] + 1;
      var deletions := current[j] + 1;
      var substitutions := previous[j] + (if s1[i] != s2[j] then 1 else 0);
      DistCell(s1, s2, i, j);
      var cell := Min3(insertions, deletions, substitutions);
      assert cell == Dist(s1[..i + 1], s2[..j + 1]);
      current := current + [cell];
      j := j + 1;
    }
  }

  // ---------------------------------------------------------------------
  // Closest match
  // ---------------------------------------------------------------------

  const MaxDistance: nat := 3

  /** The distance _find_closest_match compares: both names lower-cased. */
  function NameDistance(query: string, candidate: string): nat {
    Dist(Lower(query), Lower(candidate))
  }

  /**
   * The candidate a scan in order keeps: the first one whose distance is
   * strictly below every earlier kept distance and at most MaxDistance.
   */
  function ClosestIn(query: string, candidates: seq<string>): Option<string>
  {
    if candidates == [] then None
    else
      var prev := ClosestIn(query, candidates[..|candidates| - 1]);
      var c := candidates[|candidates| - 1];
      var d := NameDistance(query, c);
      if d <= MaxDistance && (prev.None? || d < NameDistance(query, prev.value)) then Some(c) else prev
  }

  /** candidates[k] is at least as close as every candidate and strictly closer than every earlier one. */
  predicate FirstClosest(query: string, candidates: seq<string>, k: int) {
    0 <= k < |candidates|
    && NameDistance(query, candidates[k]) <= MaxDistance
    && (forall j :: 0 <= j < |candidates| ==> NameDistance(query, candidates[j]) >= NameDistance(query, candidates[k]))
    && (forall j :: 0 <= j < k ==> NameDistance(query, candidates[j]) > NameDistance(query, candidates[k]))
  }

  /** The scan finds nothing exactly when no candidate is within MaxDistance, and otherwise the first closest one. */
  lemma {:induction false} ClosestInIsFirstClosest(query: string, candidates: seq<string>)
    ensures ClosestIn(query, candidates).None? <==>
              forall k :: 0 <= k < |candidates| ==> NameDistance(query, candidates[k]) > MaxDistance
    ensures ClosestIn(query, candidates).Some? ==>
              exists k :: FirstClosest(query, candidates, k) && candidates[k] == ClosestIn(query, candidates).value
  {
    if candidates != [] {
      var n := |candidates| - 1;
      var init := candidates[..n];
      var c := candidates[n];
      ClosestInIsFirstClosest(query, init);
      var prev := ClosestIn(query, init);
      var d := NameDistance(query, c);
      assert forall j :: 0 <= j < n ==> init[j] == candidates[j];
      if d <= MaxDistance && (prev.None? || d < NameDistance(query, prev.value)) {
        assert ClosestIn(query, candidates) == Some(c);
        if prev.Some? {
          var k' :| FirstClosest(query, init, k') && init[k'] == prev.value;
        }
        assert FirstClosest(query, candidates, n);
      } else {
        assert ClosestIn(query, candidates) == prev;
        if prev.Some? {
          var k' :| FirstClosest(query, init, k') && init[k'] == prev.value;
          assert FirstClosest(query, candidates, k');
        }
      }
    }
  }

  /** _find_closest_match */
  method FindClosestMatch(query: string, candidates: seq<string>) returns (best: Option<string>)
    ensures best == ClosestIn(query, candidates)
  {
    if candidates == [] {
      return None;
    }
    var queryLower := Lower(query);
    best := None;
    var bestDistance: nat := 0;   // meaningful only once best is set
    var i := 0;
    while i < |candidates|
      invariant 0 <= i <= |candidates|
      invariant best == ClosestIn(query, candidates[..i])
      invariant best.Some? ==> bestDistance == NameDistance(query, best.value)
    {
      var distance := Levenshtein(queryLower, Lower(candidates[i]));
      assert candidates[..i + 1][..i] == candidates[..i];
      if (best.None? || distance < bestDistance) && distance <= MaxDistance {
        bestDistance := distance;
        best := Some(candidates[i]);
      }
      i := i + 1;
    }
    assert candidates[..|candidates|] == candidates;
  }

  // ---------------------------------------------------------------------
  // The validator and its schema
  // ---------------------------------------------------------------------

  /** The names the schema offers; each list holds distinct names, as the source's sets do. */
  datatype Validator = Validator(
    cubeName: string,
    measures: seq<string>,
    dimensions: seq<string>,
    timeDimensions: seq<string>)

  /** Names of the dict entries whose 'name' is a truthy string (time dimensions: type == 'time' too). */
  function EntryNames(entries: seq<Value>, timeOnly: bool): (r: seq<string>)
    ensures forall k :: 0 <= k < |r| ==> r[k] != ""
  {
    if entries == [] then []
    else
      var e := entries[|entries| - 1];
      var here :=
        if e.Obj? && (!timeOnly || DictGet(e.fields, "type") == Some(Str("time")))
           && DictGet(e.fields, "name").Some? && DictGet(e.fields, "name").value.Str?
           && DictGet(e.fields, "name").value.s != ""
        then [DictGet(e.fields, "name").value.s] else [];
      EntryNames(entries[..|entries| - 1], timeOnly) + here
  }

  /** The first truthy 'name' of a dict entry that a set cannot hold (a list or a dict), if any. */
  function UnhashableName(entries: seq<Value>): Option<Value> {
    if entries == [] then None
    else
      var e := entries[0];
      if e.Obj? && DictGet(e.fields, "name").Some? && Truthy(DictGet(e.fields, "name").value)
         && (DictGet(e.fields, "name").value.List? || DictGet(e.fields, "name").value.Obj?)
      then DictGet(e.fields, "name")
      else UnhashableName(entries[1..])
  }

  /** str(e) for the TypeError that set.add raises on a list or a dict. */
  function Unhashable(v: Value): string {
    "unhashable type: '" + PyTypeName(v) + "'"
  }

  /**
   * The extractors over a schema dictionary: measures or dimensions that
   * cannot be iterated or name an entry with a list or a dict fail,
   * measures being extracted before dimensions.
   */
  function FromSchema(schema: Dict): (r: Result<Validator>)
    ensures r.Success? ==> forall k :: 0 <= k < |r.value.timeDimensions| ==> r.value.timeDimensions[k] in r.value.dimensions
  {
    var ms := Iterate(GetOr(schema, "measures", List([])));
    var ds := Iterate(GetOr(schema, "dimensions", List([])));
    if ms.None? then Failure("measures or dimensions are not iterable")
    else if UnhashableName(ms.value).Some? then Failure(Unhashable(UnhashableName(ms.value).value))
    else if ds.None? then Failure("measures or dimensions are not iterable")
    else if UnhashableName(ds.value).Some? then Failure(Unhashable(UnhashableName(ds.value).value))
    else
      TimeNamesAreNames(ds.value);
      Success(Validator(
        PyStr(GetOr(schema, "name", Str("Unknown"))),
        Distinct(EntryNames(ms.value, false)),
        Distinct(EntryNames(ds.value, false)),
        Distinct(EntryNames(ds.value, true))))
  }

  /**
   * _load_schema followed by the extractors: a document with a 'cubes'
   * list uses its first cube (an empty list gives an empty schema);
   * anything that is not a dictionary fails, and so does a schema the
   * extractors refuse.
   */
  function FromDocument(content: Value): (r: Result<Validator>)
    ensures r.Success? ==> content.Obj?
    ensures r.Success? ==> forall k :: 0 <= k < |r.value.timeDimensions| ==> r.value.timeDimensions[k] in r.value.dimensions
  {
    if !content.Obj? then Failure("Failed to load schema")
    else
      var cubes := DictGet(content.fields, "cubes");
      var schema :=
        if cubes.Some? && cubes.value.List? then
          (if cubes.value.items != [] then cubes.value.items[0] else Obj([]))
        else content;
      if !schema.Obj? then Failure("schema is not a dictionary")
      else FromSchema(schema.fields)
  }

  /** Measures that can be iterated but name an entry with a list or a dict: the extractors fail on that name. */
  lemma MeasureNameRefused(schema: Dict, ms: seq<Value>)
    requires Iterate(GetOr(schema, "measures", List([]))) == Some(ms)
    requires UnhashableName(ms).Some?
    ensures FromSchema(schema) == Failure(Unhashable(UnhashableName(ms).value))
  {
  }

  /** A measure whose name is a non-empty list cannot enter the measure set: building the validator fails. */
  lemma ListNameRefused(fields: Dict, entry: Dict, items: seq<Value>)
    requires !HasKey(fields, "cubes")
    requires DictGet(fields, "measures") == Some(List([Obj(entry)]))
    requires DictGet(entry, "name") == Some(List(items)) && items != []
    ensures FromDocument(Obj(fields)) == Failure("unhashable type: 'list'")
  {
    NoCubesList(fields);
    assert Iterate(GetOr(fields, "measures", List([]))) == Some([Obj(entry)]);
    SingleListName(entry, items);
    MeasureNameRefused(fields, [Obj(entry)]);
    ListTypeName(items);
  }

  /** Without a 'cubes' key the document itself is the schema. */
  lemma NoCubesList(fields: Dict)
    requires !HasKey(fields, "cubes")
    ensures FromDocument(Obj(fields)) == FromSchema(fields)
  {
  }

  lemma SingleListName(entry: Dict, items: seq<Value>)
    requires DictGet(entry, "name") == Some(List(items)) && items != []
    ensures UnhashableName([Obj(entry)]) == Some(List(items))
  {
  }

  lemma ListTypeName(items: seq<Value>)
    ensures Unhashable(List(items)) == "unhashable type: 'list'"
  {
    assert PyTypeName(List(items)) == "list";
  }

  lemma {:induction false} TimeNamesAreNames(entries: seq<Value>)
    ensures forall k :: 0 <= k < |Distinct(EntryNames(entries, true))| ==>
              Distinct(EntryNames(entries, true))[k] in Distinct(EntryNames(entries, false))
  {
    TimeNamesSubset(entries);
    var t := EntryNames(entries, true);
    var a := EntryNames(entries, false);
    forall k | 0 <= k < |Distinct(t)| ensures Distinct(t)[k] in Distinct(a) {
      var x := Distinct(t)[k];
      assert x in t;
      var i :| 0 <= i < |t| && t[i] == x;
      assert x in a;
      var j :| 0 <= j < |a| && a[j] == x;
    }
  }

  lemma {:induction false} TimeNamesSubset(entries: seq<Value>)
    ensures forall x :: x in EntryNames(entries, true) ==> x in EntryNames(entries, false)
  {
    if entries != [] {
      TimeNamesSubset(entries[..|entries| - 1]);
    }
  }

  // ---------------------------------------------------------------------
  // Queries and results
  // ---------------------------------------------------------------------

  /** An entry of timeDimensions or filters: a dictionary (with its 'dimension'/'member' if present) or anything else. */
  datatype QueryEntry = NotADict | Record(field: Option<string>)

  datatype CubeQuery = CubeQuery(
    measures: seq<string>,
    dimensions: seq<string>,
    timeDimensions: seq<QueryEntry>,
    filters: seq<QueryEntry>)

  datatype ValidationResult = ValidationResult(
    valid: bool,
    errors: seq<string>,
    warnings: seq<string>,
    invalidMeasures: seq<string>,
    invalidDimensions: seq<string>,
    invalidTimeDimensions: seq<string>,
    suggestions: Dict)

  /** _extract_field_name: the text after the first '.', or the whole name. */
  function FieldName(field: string): (r: string)
    ensures '.' !in field ==> r == field
    ensures '.' in field ==> |r| < |field| && field == field[..|field| - |r| - 1] + "." + r
                             && '.' !in field[..|field| - |r| - 1]
  {
    if '.' in field then
      var i := IndexOf(field, '.');
      assert field == field[..i] + "." + field[i + 1..];
      field[i + 1..]
    else field
  }

  /** The names whose field name is not available, in query order. */
  function InvalidNames(names: seq<string>, available: seq<string>): (r: seq<string>)
    ensures forall k :: 0 <= k < |r| ==> r[k] in names && FieldName(r[k]) !in available
    ensures forall k :: 0 <= k < |names| && FieldName(names[k]) !in available ==> names[k] in r
    ensures |r| <= |names|
  {
    if names == [] then []
    else
      var init := names[..|names| - 1];
      var x := names[|names| - 1];
      var prev := InvalidNames(init, available);
      assert forall k :: 0 <= k < |init| ==> init[k] == names[k];
      if FieldName(x) in available then prev else prev + [x]
  }

  /** The 'dimension' (or 'member') of the dictionary entries, '' where it is missing. */
  function RecordFields(entries: seq<QueryEntry>): (r: seq<string>)
    ensures |r| <= |entries|
  {
    if entries == [] then []
    else
      var e := entries[|entries| - 1];
      RecordFields(entries[..|entries| - 1])
      + (if e.Record? then [if e.field.Some? then e.field.value else ""] else [])
  }

  /** One message per name: prefix + name + middle + cube + "'". */
  function Messages(prefix: string, names: seq<string>, middle: string, cube: string): (r: seq<string>)
    ensures |r| == |names|
    ensures forall k :: 0 <= k < |names| ==> r[k] == prefix + names[k] + middle + cube + "'"
  {
    if names == [] then []
    else Messages(prefix, names[..|names| - 1], middle, cube) + [prefix + names[|names| - 1] + middle + cube + "'"]
  }

  function SuggestStep(d: Dict, key: string, available: seq<string>, cube: string): Dict {
    match ClosestIn(FieldName(key), available)
    case Some(c) => DictSet(d, key, Str(cube + "." + c))
    case None => d
  }

  /** The suggestions dictionary after visiting the invalid names in order. */
  function Suggest(d: Dict, keys: seq<string>, available: seq<string>, cube: string): Dict {
    if keys == [] then d
    else SuggestStep(Suggest(d, keys[..|keys| - 1], available, cube), keys[|keys| - 1], available, cube)
  }

  function FilterWarnings(v: Validator, members: seq<string>): (r: seq<string>)
    ensures |r| <= |members|
  {
    if members == [] then []
    else
      var m := members[|members| - 1];
      var n := FieldName(m);
      FilterWarnings(v, members[..|members| - 1])
      + (if n !in v.measures && n !in v.dimensions
         then ["Filter member '" + m + "' does not exist in cube '" + v.cubeName + "'"] else [])
  }

  const MeasurePrefix := "Measure '"
  const DimensionPrefix := "Dimension '"
  const TimeDimensionPrefix := "Time dimension '"
  const MissingMiddle := "' does not exist in cube '"
  const MissingTimeMiddle := "' does not exist or is not a time type in cube '"

  /** What validate_query returns, stated list by list. */
  function Validate(v: Validator, q: CubeQuery): ValidationResult {
    var timeNames := RecordFields(q.timeDimensions);
    var im := InvalidNames(q.measures, v.measures);
    var id := InvalidNames(q.dimensions, v.dimensions);
    var it := InvalidNames(timeNames, v.timeDimensions);
    ValidationResult(
      im == [] && id == [] && it == [],
      Messages(MeasurePrefix, im, MissingMiddle, v.cubeName)
        + Messages(DimensionPrefix, id, MissingMiddle, v.cubeName)
        + Messages(TimeDimensionPrefix, it, MissingTimeMiddle, v.cubeName),
      FilterWarnings(v, RecordFields(q.filters)),
      im, id, it,
      Suggest(Suggest(Suggest([], im, v.measures, v.cubeName), id, v.dimensions, v.cubeName),
              it, v.timeDimensions, v.cubeName))
  }

  /**
   * The loop validate_query runs for measures, dimensions and time
   * dimensions alike: each name whose field name is missing gets an error
   * and, when one is close enough, a suggestion.
   */
  method CheckNames(names: seq<string>, available: seq<string>, prefix: string, middle: string, cube: string,
                    suggestions0: Dict)
    returns (invalid: seq<string>, errors: seq<string>, suggestions: Dict)
    ensures invalid == InvalidNames(names, available)
    ensures errors == Messages(prefix, invalid, middle, cube)
    ensures suggestions == Suggest(suggestions0, invalid, available, cube)
  {
    invalid, errors, suggestions := [], [], suggestions0;
    var i := 0;
    while i < |names|
      invariant 0 <= i <= |names|
      invariant invalid == InvalidNames(names[..i], available)
      invariant errors == Messages(prefix, invalid, middle, cube)
      invariant suggestions == Suggest(suggestions0, invalid, available, cube)
    {
      var name := names[i];
      assert names[..i + 1][..i] == names[..i];
      var field := FieldName(name);
      if field !in available {
        errors := errors + [prefix + name + middle + cube + "'"];
        assert (invalid + [name])[..|invalid|] == invalid;
        invalid := invalid + [name];
        var suggestion := FindClosestMatch(field, available);
        if suggestion.Some? {
          suggestions := DictSet(suggestions, name, Str(cube + "." + suggestion.value));
        }
      }
      i := i + 1;
    }
    assert names[..|names|] == names;
  }

  /** The 'dimension' or 'member' of each dictionary entry, '' where missing; other entries skipped. */
  method CollectFields(entries: seq<QueryEntry>) returns (fields: seq<string>)
    ensures fields == RecordFields(entries)
  {
    fields := [];
    var i := 0;
    while i < |entries|
      invariant 0 <= i <= |entries|
      invariant fields == RecordFields(entries[..i])
    {
      assert entries[..i + 1][..i] == entries[..i];
      if entries[i].Record? {
        fields := fields + [if entries[i].field.Some? then entries[i].field.value else ""];
      }
      i := i + 1;
    }
    assert entries[..|entries|] == entries;
  }

  /** The filter pass of validate_query: a warning for each member that is neither a measure nor a dimension. */
  method CheckFilterMembers(v: Validator, members: seq<string>) returns (warnings: seq<string>)
    ensures warnings == FilterWarnings(v, members)
  {
    warnings := [];
    var i := 0;
    while i < |members|
      invariant 0 <= i <= |members|
      invariant warnings == FilterWarnings(v, members[..i])
    {
      assert members[..i + 1][..i] == members[..i];
      var name := FieldName(members[i]);
      if name !in v.measures && name !in v.dimensions {
        warnings := warnings + ["Filter member '" + members[i] + "' does not exist in cube '" + v.cubeName + "'"];
      }
      i := i + 1;
    }
    assert members[..|members|] == members;
  }

  /** validate_query */
  method ValidateQuery(v: Validator, q: CubeQuery) returns (r: ValidationResult)
    ensures r == Validate(v, q)
  {
    var im, measureErrors, s1 := CheckNames(q.measures, v.measures, MeasurePrefix, MissingMiddle, v.cubeName, []);
    var id, dimensionErrors, s2 := CheckNames(q.dimensions, v.dimensions, DimensionPrefix, MissingMiddle, v.cubeName, s1);
    var timeNames := CollectFields(q.timeDimensions);
    var it, timeErrors, s3 := CheckNames(timeNames, v.timeDimensions, TimeDimensionPrefix, MissingTimeMiddle, v.cubeName, s2);
    var members := CollectFields(q.filters);
    var warnings := CheckFilterMembers(v, members);
    r := ValidationResult(im == [] && id == [] && it == [], measureErrors + dimensionErrors + timeErrors,
                          warnings, im, id, it, s3);
  }

  // ---------------------------------------------------------------------
  // What the validation result promises
  // ---------------------------------------------------------------------

  /** A query is valid exactly when every measure, dimension and time dimension it names exists. */
  lemma ValidIffAllNamesExist(v: Validator, q: CubeQuery)
    ensures Validate(v, q).valid <==>
      (forall k :: 0 <= k < |q.measures| ==> FieldName(q.measures[k]) in v.measures)
      && (forall k :: 0 <= k < |q.dimensions| ==> FieldName(q.dimensions[k]) in v.dimensions)
      && (forall k :: 0 <= k < |RecordFields(q.timeDimensions)| ==>
            FieldName(RecordFields(q.timeDimensions)[k]) in v.timeDimensions)
  {
    assert Validate(v, q).valid == (InvalidNames(q.measures, v.measures) == [] && InvalidNames(q.dimensions, v.dimensions) == []
      && InvalidNames(RecordFields(q.timeDimensions), v.timeDimensions) == []);
    NoneInvalidIffAllExist(q.measures, v.measures);
    NoneInvalidIffAllExist(q.dimensions, v.dimensions);
    NoneInvalidIffAllExist(RecordFields(q.timeDimensions), v.timeDimensions);
  }

  lemma NoneInvalidIffAllExist(names: seq<string>, available: seq<string>)
    ensures InvalidNames(names, available) == [] <==> forall k :: 0 <= k < |names| ==> FieldName(names[k]) in available
  {
    var r := InvalidNames(names, available);
    if r != [] {
      assert r[0] in names;
      var k :| 0 <= k < |names| && names[k] == r[0];
      assert FieldName(names[k]) !in available;
    }
  }

  /** One error per invalid entry, and errors exactly when the query is invalid. */
  lemma ErrorsMatchInvalidEntries(v: Validator, q: CubeQuery)
    ensures var r := Validate(v, q);
      |r.errors| == |r.invalidMeasures| + |r.invalidDimensions| + |r.invalidTimeDimensions|
      && (r.valid <==> r.errors == [])
  {
  }

  /** Filters never make a query invalid and never add errors: they only warn. */
  lemma FiltersOnlyWarn(v: Validator, q: CubeQuery, filters: seq<QueryEntry>)
    ensures Validate(v, q.(filters := filters)).valid == Validate(v, q).valid
    ensures Validate(v, q.(filters := filters)).errors == Validate(v, q).errors
  {
  }

  /**
   * The entry came from a key among `keys`, names THE closest available
   * field of its key (the first of least distance), and that field is an
   * available one within MaxDistance.
   */
  predicate SuggestedFor(e: (string, Value), keys: seq<string>, available: seq<string>, cube: string) {
    e.0 in keys
    && ClosestIn(FieldName(e.0), available).Some?
    && e.1 == Str(cube + "." + ClosestIn(FieldName(e.0), available).value)
    && exists j :: 0 <= j < |available| && FirstClosest(FieldName(e.0), available, j) && available[j] == ClosestIn(FieldName(e.0), available).value
  }

  /** Every entry Suggest adds is keyed by one of the visited names and names an existing field within distance 3. */
  lemma {:induction false} SuggestionsNameExistingFields(d: Dict, keys: seq<string>, available: seq<string>, cube: string)
    ensures forall i :: 0 <= i < |Suggest(d, keys, available, cube)| ==>
              Suggest(d, keys, available, cube)[i] in d || SuggestedFor(Suggest(d, keys, available, cube)[i], keys, available, cube)
  {
    if keys != [] {
      var init := keys[..|keys| - 1];
      var key := keys[|keys| - 1];
      SuggestionsNameExistingFields(d, init, available, cube);
      var prev := Suggest(d, init, available, cube);
      WidenKeys(prev, d, init, keys, available, cube);
      StepKeepsSuggestions(prev, d, keys, key, available, cube);
    }
  }

  /** Every entry of r is one of d's or a suggestion for one of the keys. */
  predicate SuggestionsFrom(r: Dict, d: Dict, keys: seq<string>, available: seq<string>, cube: string) {
    forall i :: 0 <= i < |r| ==> r[i] in d || SuggestedFor(r[i], keys, available, cube)
  }

  lemma WidenKeys(r: Dict, d: Dict, keys: seq<string>, more: seq<string>, available: seq<string>, cube: string)
    requires forall x :: x in keys ==> x in more
    requires SuggestionsFrom(r, d, keys, available, cube)
    ensures SuggestionsFrom(r, d, more, available, cube)
  {
    forall i | 0 <= i < |r| ensures r[i] in d || SuggestedFor(r[i], more, available, cube) {
      if !(r[i] in d) {
        assert SuggestedFor(r[i], keys, available, cube);
      }
    }
  }

  /** Visiting one more key keeps every entry an old one or a suggestion. */
  lemma StepKeepsSuggestions(prev: Dict, d: Dict, keys: seq<string>, key: string, available: seq<string>, cube: string)
    requires key in keys && SuggestionsFrom(prev, d, keys, available, cube)
    ensures SuggestionsFrom(SuggestStep(prev, key, available, cube), d, keys, available, cube)
  {
    var m := ClosestIn(FieldName(key), available);
    if m.Some? {
      var r := DictSet(prev, key, Str(cube + "." + m.value));
      ClosestInIsFirstClosest(FieldName(key), available);
      assert SuggestedFor((key, Str(cube + "." + m.value)), keys, available, cube);
      forall i | 0 <= i < |r| ensures r[i] in d || SuggestedFor(r[i], keys, available, cube) {
        SetEntry(prev, key, Str(cube + "." + m.value), i);
        if r[i] != (key, Str(cube + "." + m.value)) {
          var i' :| 0 <= i' < |prev| && prev[i'] == r[i];
        }
      }
    }
  }

  /** An entry of d[k] = v is either the new binding or an old one. */
  lemma {:induction false} SetEntry(d: Dict, k: string, v: Value, i: int)
    requires 0 <= i < |DictSet(d, k, v)|
    ensures DictSet(d, k, v)[i] == (k, v) || DictSet(d, k, v)[i] in d
  {
    if d != [] && d[0].0 != k && i > 0 {
      SetEntry(d[1..], k, v, i - 1);
    }
  }

  /** Every suggestion validate_query makes is keyed by an invalid entry and names a field of the matching kind. */
  lemma SuggestionsOfValidate(v: Validator, q: CubeQuery)
    ensures var r := Validate(v, q);
      forall i :: 0 <= i < |r.suggestions| ==>
        SuggestedFor(r.suggestions[i], r.invalidMeasures, v.measures, v.cubeName)
        || SuggestedFor(r.suggestions[i], r.invalidDimensions, v.dimensions, v.cubeName)
        || SuggestedFor(r.suggestions[i], r.invalidTimeDimensions, v.timeDimensions, v.cubeName)
  {
    var r := Validate(v, q);
    var s1 := Suggest([], r.invalidMeasures, v.measures, v.cubeName);
    var s2 := Suggest(s1, r.invalidDimensions, v.dimensions, v.cubeName);
    SuggestionsNameExistingFields([], r.invalidMeasures, v.measures, v.cubeName);
    SuggestionsNameExistingFields(s1, r.invalidDimensions, v.dimensions, v.cubeName);
    SuggestionsNameExistingFields(s2, r.invalidTimeDimensions, v.timeDimensions, v.cubeName);
  }

  /**
   * The converse: after the visit, a key holds its closest field when it was
   * visited and has one, and keeps its earlier binding otherwise.
   */
  lemma {:induction false} SuggestGet(d: Dict, keys: seq<string>, available: seq<string>, cube: string, k: string)
    ensures DictGet(Suggest(d, keys, available, cube), k) ==
      if k in keys && ClosestIn(FieldName(k), available).Some?
      then Some(Str(cube + "." + ClosestIn(FieldName(k), available).value))
      else DictGet(d, k)
    decreases |keys|
  {
    if keys != [] {
      var init := keys[..|keys| - 1];
      var key := keys[|keys| - 1];
      SuggestGet(d, init, available, cube, k);
      assert keys == init + [key];
      var prev := Suggest(d, init, available, cube);
      var m := ClosestIn(FieldName(key), available);
      if m.Some? {
        if key == k {
          DictSetGetSame(prev, key, Str(cube + "." + m.value));
        } else {
          DictSetGetOther(prev, key, Str(cube + "." + m.value), k);
        }
      }
    }
  }

  /** The suggestion of an invalid name, in the catalogue of its kind. */
  function SuggestionOf(n: string, available: seq<string>, cube: string): Option<Value> {
    match ClosestIn(FieldName(n), available)
    case Some(c) => Some(Str(cube + "." + c))
    case None => None
  }

  /**
   * Every invalid name whose field has a closest match gets the suggestion
   * "<cube>.<closest>", keyed by the name as the query wrote it; measures
   * are visited first, then dimensions, then time dimensions, so a later
   * kind's suggestion for the same string replaces an earlier one.
   */
  lemma SuggestionsComplete(v: Validator, q: CubeQuery, n: string)
    ensures var r := Validate(v, q);
      var st := if n in r.invalidTimeDimensions then SuggestionOf(n, v.timeDimensions, v.cubeName) else None;
      var sd := if n in r.invalidDimensions then SuggestionOf(n, v.dimensions, v.cubeName) else None;
      var sm := if n in r.invalidMeasures then SuggestionOf(n, v.measures, v.cubeName) else None;
      DictGet(r.suggestions, n) == (if st.Some? then st else if sd.Some? then sd else sm)
  {
    var r := Validate(v, q);
    var s1 := Suggest([], r.invalidMeasures, v.measures, v.cubeName);
    var s2 := Suggest(s1, r.invalidDimensions, v.dimensions, v.cubeName);
    SuggestGet([], r.invalidMeasures, v.measures, v.cubeName, n);
    SuggestGet(s1, r.invalidDimensions, v.dimensions, v.cubeName, n);
    SuggestGet(s2, r.invalidTimeDimensions, v.timeDimensions, v.cubeName, n);
  }

  lemma {:induction false} IndexOfAfterPrefix(prefix: string, rest: string)
    requires '.' !in prefix
    ensures '.' in prefix + "." + rest
    ensures IndexOf(prefix + "." + rest, '.') == |prefix|
    decreases |prefix|
  {
    if prefix != [] {
      assert (prefix + "." + rest)[1..] == prefix[1..] + "." + rest;
      IndexOfAfterPrefix(prefix[1..], rest);
    }
  }

  /** A name qualified with a dot-free cube name has the unqualified name as its field name. */
  lemma FieldNameOfQualified(cube: string, name: string)
    requires '.' !in cube
    ensures FieldName(cube + "." + name) == name
  {
    IndexOfAfterPrefix(cube, name);
    assert (cube + "." + name)[|cube| + 1..] == name;
  }

  /**
   * The shape of the validator's mixed test query: one existing and one
   * missing measure, one existing and one missing dimension, all qualified
   * with the cube name.  Exactly the two missing ones are flagged.
   */
  lemma MixedQueryFlagsBoth(v: Validator, q: CubeQuery, goodMeasure: string, badMeasure: string,
                            goodDimension: string, badDimension: string)
    requires '.' !in v.cubeName
    requires goodMeasure in v.measures && badMeasure !in v.measures
    requires goodDimension in v.dimensions && badDimension !in v.dimensions
    requires q.measures == [v.cubeName + "." + goodMeasure, v.cubeName + "." + badMeasure]
    requires q.dimensions == [v.cubeName + "." + goodDimension, v.cubeName + "." + badDimension]
    requires q.timeDimensions == []
    ensures !Validate(v, q).valid
    ensures Validate(v, q).invalidMeasures == [v.cubeName + "." + badMeasure]
    ensures Validate(v, q).invalidDimensions == [v.cubeName + "." + badDimension]
    ensures |Validate(v, q).errors| == 2
  {
    OneGoodOneBad(v.cubeName, goodMeasure, badMeasure, v.measures);
    OneGoodOneBad(v.cubeName, goodDimension, badDimension, v.dimensions);
    assert RecordFields(q.timeDimensions) == [];
    var r := Validate(v, q);
    assert r.invalidMeasures == InvalidNames(q.measures, v.measures);
    assert r.invalidDimensions == InvalidNames(q.dimensions, v.dimensions);
    assert r.invalidTimeDimensions == [];
  }

  lemma OneGoodOneBad(cube: string, good: string, bad: string, available: seq<string>)
    requires '.' !in cube && good in available && bad !in available
    ensures InvalidNames([cube + "." + good, cube + "." + bad], available) == [cube + "." + bad]
  {
    FieldNameOfQualified(cube, good);
    FieldNameOfQualified(cube, bad);
    var names := [cube + "." + good, cube + "." + bad];
    assert names[..1] == [cube + "." + good];
    assert names[..1][..0] == [];
    assert InvalidNames(names[..1], available) == [];
  }

  // ---------------------------------------------------------------------
  // Summary and correction prompt
  // ---------------------------------------------------------------------

  datatype SchemaSummary = SchemaSummary(
    cubeName: string,
    measures: seq<string>,
    dimensions: seq<string>,
    timeDimensions: seq<string>,
    measureCount: nat,
    dimensionCount: nat,
    timeDimensionCount: nat)

  /** get_schema_summary: each list sorted, holding exactly the schema's names, with its count. */
  function GetSchemaSummary(v: Validator): (s: SchemaSummary)
    ensures s.cubeName == v.cubeName
    ensures SortedStrings(s.measures) && multiset(s.measures) == multiset(v.measures)
    ensures SortedStrings(s.dimensions) && multiset(s.dimensions) == multiset(v.dimensions)
    ensures SortedStrings(s.timeDimensions) && multiset(s.timeDimensions) == multiset(v.timeDimensions)
    ensures s.measureCount == |s.measures| && s.dimensionCount == |s.dimensions|
            && s.timeDimensionCount == |s.timeDimensions|
  {
    var m := SortStrings(v.measures);
    var d := SortStrings(v.dimensions);
    var t := SortStrings(v.timeDimensions);
    SchemaSummary(v.cubeName, m, d, t, |v.measures|, |v.dimensions|, |v.timeDimensions|)
  }

  function BulletLines(xs: seq<string>): (r: seq<string>)
    ensures |r| == |xs|
    ensures forall k :: 0 <= k < |xs| ==> r[k] == "  - " + xs[k]
  {
    if xs == [] then [] else BulletLines(xs[..|xs| - 1]) + ["  - " + xs[|xs| - 1]]
  }

  function ReplaceLines(d: Dict): (r: seq<string>)
    ensures |r| == |d|
    ensures forall k :: 0 <= k < |d| ==> r[k] == "  - Replace '" + d[k].0 + "' with '" + PyStr(d[k].1) + "'"
  {
    if d == [] then []
    else ReplaceLines(d[..|d| - 1]) + ["  - Replace '" + d[|d| - 1].0 + "' with '" + PyStr(d[|d| - 1].1) + "'"]
  }

  /** The fixed closing lines: the question again and the exact reply format. */
  function ClosingLines(cube: string, originalQuery: string): seq<string> {
    [RegenerateLine(originalQuery)] + ReplyFormatLines(cube)
  }

  function RegenerateLine(originalQuery: string): string {
    "\nPlease regenerate the cube query for the user's question: \"" + originalQuery + "\""
  }

  /** The fixed lines of the reply format; the cube name is spliced in between them. */
  const FormatOpening: seq<string> := [
    "Use ONLY the measures and dimensions listed above.",
    "\nIMPORTANT: Respond with a complete JSON response in this exact format:",
    "{",
    "  \"response_type\": \"cube_query\",",
    "  \"cube_query\": {"]

  const FormatMiddle: seq<string> := [
    "      \"granularity\": \"day\",",
    "      \"dateRange\": [\"2020-01-01\", \"2020-01-31\"]  // OR use \"Last month\", \"This year\", etc.",
    "    }]",
    "  },",
    "  \"description\": \"<description of what the query does>\",",
    "  \"confidence_score\": 0.9",
    "}",
    "\nREMEMBER:"]

  const FormatClosing: seq<string> := [
    "2. For dateRange, use either:",
    "   - Array format: [\"YYYY-MM-DD\", \"YYYY-MM-DD\"]",
    "   - Valid string: \"Today\", \"Yesterday\", \"This week\", \"This month\", \"This year\", \"Last 7 days\", \"Last 30 days\", \"Last week\", \"Last month\", \"Last year\"",
    "   - For \"all time\" queries: OMIT the timeDimensions field entirely",
    "3. DO NOT use invalid strings like \"all time\", \"All time\", \"january 2020\", etc."]

  function ReplyFormatLines(cube: string): seq<string> {
    FormatOpening
    + ["    \"measures\": [\"" + cube + ".measure_name\"],",
       "    \"dimensions\": [\"" + cube + ".dimension_name\"],",
       "    \"timeDimensions\": [{",
       "      \"dimension\": \"" + cube + ".time_dimension_name\","]
    + FormatMiddle
    + ["1. ALL field names must be prefixed with '" + cube + ".' (e.g., '" + cube + ".tickets_sold')"]
    + FormatClosing
  }

  function HeaderLines(cube: string): seq<string> {
    ["Your previous cube query contained invalid parameters for the '" + cube + "' cube.", "\nErrors found:"]
  }

  function SuggestionSection(suggestions: Dict): seq<string> {
    if suggestions != [] then ["\nSuggested corrections:"] + ReplaceLines(suggestions) else []
  }

  function AvailableLines(v: Validator): seq<string> {
    ["\nAvailable measures in '" + v.cubeName + "':",
     "  " + Join(SortStrings(v.measures), ", "),
     "\nAvailable dimensions in '" + v.cubeName + "':",
     "  " + Join(SortStrings(v.dimensions), ", ")]
    + (if v.timeDimensions != []
       then ["\nAvailable time dimensions in '" + v.cubeName + "':", "  " + Join(SortStrings(v.timeDimensions), ", ")]
       else [])
  }

  /** The lines of the correction prompt for an invalid result. */
  function CorrectionLines(v: Validator, r: ValidationResult, originalQuery: string): seq<string> {
    HeaderLines(v.cubeName) + BulletLines(r.errors) + SuggestionSection(r.suggestions)
    + AvailableLines(v) + ClosingLines(v.cubeName, originalQuery)
  }

  /** generate_correction_prompt */
  method GenerateCorrectionPrompt(v: Validator, r: ValidationResult, originalQuery: string) returns (prompt: string)
    ensures r.valid ==> prompt == ""
    ensures !r.valid ==> prompt == Join(CorrectionLines(v, r, originalQuery), "\n")
  {
    if r.valid {
      return "";
    }
    var parts := HeaderLines(v.cubeName);
    var errorLines: seq<string> := [];
    var i := 0;
    while i < |r.errors|
      invariant 0 <= i <= |r.errors|
      invariant errorLines == BulletLines(r.errors[..i])
    {
      assert r.errors[..i + 1][..i] == r.errors[..i];
      errorLines := errorLines + ["  - " + r.errors[i]];
      i := i + 1;
    }
    assert r.errors[..|r.errors|] == r.errors;
    parts := parts + errorLines;
    if r.suggestions != [] {
      var lines: seq<string> := [];
      var k := 0;
      while k < |r.suggestions|
        invariant 0 <= k <= |r.suggestions|
        invariant lines == ReplaceLines(r.suggestions[..k])
      {
        assert r.suggestions[..k + 1][..k] == r.suggestions[..k];
        lines := lines + ["  - Replace '" + r.suggestions[k].0 + "' with '" + PyStr(r.suggestions[k].1) + "'"];
        k := k + 1;
      }
      assert r.suggestions[..|r.suggestions|] == r.suggestions;
      parts := parts + (["\nSuggested corrections:"] + lines);
    } else {
      parts := parts + [];
    }
    assert parts == HeaderLines(v.cubeName) + BulletLines(r.errors) + SuggestionSection(r.suggestions);
    parts := parts + AvailableLines(v) + ClosingLines(v.cubeName, originalQuery);
    prompt := Join(parts, "\n");
  }

  /** An invalid result's prompt lists every error and repeats the user's question. */
  lemma CorrectionPromptMentionsErrors(v: Validator, r: ValidationResult, originalQuery: string)
    requires !r.valid
    ensures forall k :: 0 <= k < |r.errors| ==> Contains(Join(CorrectionLines(v, r, originalQuery), "\n"), "  - " + r.errors[k])
    ensures Contains(Join(CorrectionLines(v, r, originalQuery), "\n"), RegenerateLine(originalQuery))
  {
    var lines := CorrectionLines(v, r, originalQuery);
    var header := HeaderLines(v.cubeName);
    var bullets := BulletLines(r.errors);
    var closing := ClosingLines(v.cubeName, originalQuery);
    PartsAt(header, bullets, SuggestionSection(r.suggestions), AvailableLines(v), closing);
    forall k | 0 <= k < |r.errors|
      ensures Contains(Join(lines, "\n"), "  - " + r.errors[k])
    {
      JoinContainsPart(lines, "\n", |header| + k);
    }
    JoinContainsPart(lines, "\n", |lines| - |closing|);
  }

  /** Where the second and the last part sit in a five-part concatenation. */
  lemma PartsAt<T>(a: seq<T>, b: seq<T>, c: seq<T>, d: seq<T>, e: seq<T>)
    ensures forall k :: 0 <= k < |b| ==> (a + b + c + d + e)[|a| + k] == b[k]
    ensures e != [] ==> (a + b + c + d + e)[|a + b + c + d|] == e[0]
  {
  }
}
