/*
 * The YAML view parser: choosing the view inside a loaded YAML document,
 * turning the `cubes`/`includes` form into dimensions and measures by a name
 * heuristic, the name check, the per-entry normalisation of dimensions,
 * measures and joins, and the validation of a parsed view.  The YAML document
 * arrives already loaded, as a mapping of Json values; reading the file is not
 * modelled.  Every failure is the text of the exception Python would raise.
 */
module YmlParser {
  import opened Common
  import opened Json

  // ---------------------------------------------------------------------
  // Choosing the view
  // ---------------------------------------------------------------------

  /** The first entry of a non-empty `views` list, else `view`, else the whole document. */
  function SelectView(content: Dict): (r: Value)
    ensures (exists vs :: DictGet(content, "views") == Some(List(vs)) && vs != [] && r == vs[0]) ||
            (!(exists vs :: DictGet(content, "views") == Some(List(vs)) && vs != []) &&
             (if HasKey(content, "view") then Some(r) == DictGet(content, "view") else r == Obj(content)))
  {
    var views := DictGet(content, "views");
    if views.Some? && views.value.List? && views.value.items != [] then views.value.items[0]
    else if HasKey(content, "view") then GetOr(content, "view", Null)
    else Obj(content)
  }

  // ---------------------------------------------------------------------
  // The cubes/includes form
  // ---------------------------------------------------------------------

  /** The heuristic that makes an included field a measure. */
  predicate IsMeasureName(fieldName: string) {
    var n := Lower(fieldName);
    Contains(n, "total_") || Contains(n, "avg_") || Contains(n, "count") || Contains(n, "value")
  }

  /** An include entry of the given kind: its sql is the field name, and the heuristic agrees with the kind. */
  predicate Classified(entry: Value, measure: bool) {
    entry.Obj? && |entry.fields| == 3 && entry.fields[2].0 == "sql" && entry.fields[2].1.Str? &&
    IsMeasureName(entry.fields[2].1.s) == measure
  }

  /** An include as a field: whether it is a measure, and its {name, type, sql} entry. */
  function IncludeEntry(item: Value): (r: Result<(bool, Value)>)
    ensures r.Success? ==> Classified(r.value.1, r.value.0)
  {
    var fieldName := if item.Obj? then GetOr(item.fields, "name", GetOr(item.fields, "alias", Str("unknown")))
                     else Str(PyStr(item));
    var alias := if item.Obj? then GetOr(item.fields, "alias", fieldName) else fieldName;
    if !fieldName.Str? then Failure(NoAttribute(fieldName, "lower"))
    else
      var measure := IsMeasureName(fieldName.s);
      Success((measure, Obj([("name", alias), ("type", Str(if measure then "number" else "string")), ("sql", fieldName)])))
  }

  datatype Split = Split(dimensions: seq<Value>, measures: seq<Value>)

  function AddInclude(acc: Result<Split>, item: Value): Result<Split> {
    match acc
    case Failure(e) => Failure(e)
    case Success(s) =>
      match IncludeEntry(item)
      case Failure(e) => Failure(e)
      case Success(p) =>
        if p.0 then Success(Split(s.dimensions, s.measures + [p.1])) else Success(Split(s.dimensions + [p.1], s.measures))
  }

  function AddIncludes(acc: Result<Split>, includes: seq<Value>): Result<Split> {
    if includes == [] then acc
    else AddInclude(AddIncludes(acc, includes[..|includes| - 1]), includes[|includes| - 1])
  }

  /** `cube.get('includes', [])`, iterated. */
  function CubeIncludes(cube: Value): Result<seq<Value>> {
    if !cube.Obj? then Failure(NoAttribute(cube, "get"))
    else
      var includes := GetOr(cube.fields, "includes", List([]));
      match Iterate(includes)
      case Some(xs) => Success(xs)
      case None => Failure(NotIterable(includes))
  }

  function AddCube(acc: Result<Split>, cube: Value): Result<Split> {
    match acc
    case Failure(e) => Failure(e)
    case Success(_) =>
      match CubeIncludes(cube)
      case Failure(e) => Failure(e)
      case Success(includes) => AddIncludes(acc, includes)
  }

  function AddCubes(acc: Result<Split>, cubes: seq<Value>): Result<Split> {
    if cubes == [] then acc
    else AddCube(AddCubes(acc, cubes[..|cubes| - 1]), cubes[|cubes| - 1])
  }

  /**
   * Each item lands in exactly one list, after what was there, on the
   * side the name heuristic picks.
   */
  lemma {:induction false} IncludesSplit(s0: Split, includes: seq<Value>)
    requires AddIncludes(Success(s0), includes).Success?
    ensures var s := AddIncludes(Success(s0), includes).value;
      |s.dimensions| + |s.measures| == |s0.dimensions| + |s0.measures| + |includes| &&
      s0.dimensions <= s.dimensions && s0.measures <= s.measures &&
      (forall i :: |s0.dimensions| <= i < |s.dimensions| ==> Classified(s.dimensions[i], false)) &&
      (forall i :: |s0.measures| <= i < |s.measures| ==> Classified(s.measures[i], true))
  {
    if includes != [] {
      var front := includes[..|includes| - 1];
      var acc := AddIncludes(Success(s0), front);
      assert acc.Success?;
      IncludesSplit(s0, front);
      var s1 := acc.value;
      var p := IncludeEntry(includes[|includes| - 1]).value;
      var s := AddIncludes(Success(s0), includes).value;
      if p.0 {
        assert s == Split(s1.dimensions, s1.measures + [p.1]);
      } else {
        assert s == Split(s1.dimensions + [p.1], s1.measures);
      }
    }
  }

  /** ClassifyIncludes: the loop over the cubes and their includes. */
  method ClassifyIncludes(cubes: seq<Value>) returns (r: Result<Split>)
    ensures r == AddCubes(Success(Split([], [])), cubes)
  {
    r := Success(Split([], []));
    for i := 0 to |cubes|
      invariant r == AddCubes(Success(Split([], [])), cubes[..i])
    {
      assert cubes[..i + 1][..i] == cubes[..i];
      if r.Success? {
        var includes := CubeIncludes(cubes[i]);
        if includes.Failure? {
          r := Failure(includes.error);
        } else {
          var xs := includes.value;
          ghost var start := r;
          for j := 0 to |xs|
            invariant r == AddIncludes(start, xs[..j])
          {
            assert xs[..j + 1][..j] == xs[..j];
            if r.Success? {
              var entry := IncludeEntry(xs[j]);
              match entry {
                case Failure(e) =>
                  r := Failure(e);
                case Success(p) =>
                  if p.0 {
                    r := Success(Split(r.value.dimensions, r.value.measures + [p.1]));
                  } else {
                    r := Success(Split(r.value.dimensions + [p.1], r.value.measures));
                  }
              }
            }
          }
          assert xs[..|xs|] == xs;
        }
      }
    }
    assert cubes[..|cubes|] == cubes;
  }

  // ---------------------------------------------------------------------
  // Entry normalisation
  // ---------------------------------------------------------------------

  /** [f(x) for x in raw], where f keeps (one entry) or drops (none). */
  function FilterMap(raw: seq<Value>, f: Value -> seq<Value>): seq<Value> {
    if raw == [] then []
    else FilterMap(raw[..|raw| - 1], f) + f(raw[|raw| - 1])
  }

  /** Nothing is added: the result is never longer, and as long exactly when every entry is kept. */
  lemma {:induction false} FilterMapLength(raw: seq<Value>, f: Value -> seq<Value>)
    requires forall v :: |f(v)| <= 1
    ensures |FilterMap(raw, f)| <= |raw|
    ensures |FilterMap(raw, f)| == |raw| <==> forall i :: 0 <= i < |raw| ==> |f(raw[i])| == 1
  {
    if raw != [] {
      var front := raw[..|raw| - 1];
      FilterMapLength(front, f);
      if forall i :: 0 <= i < |raw| ==> |f(raw[i])| == 1 {
        assert forall i :: 0 <= i < |front| ==> front[i] == raw[i];
      }
      if |FilterMap(raw, f)| == |raw| {
        forall i | 0 <= i < |raw| ensures |f(raw[i])| == 1 {
          if i < |front| { assert front[i] == raw[i]; }
        }
      }
    }
  }

  /** A dimension entry: a mapping gets defaults, a string becomes a name-only dimension, anything else is dropped. */
  function DimensionOf(dim: Value): (r: seq<Value>)
    ensures |r| <= 1 && (|r| == 1 <==> dim.Obj? || dim.Str?)
  {
    if dim.Obj? then
      [Obj([("name", GetOr(dim.fields, "name", Str(""))), ("type", GetOr(dim.fields, "type", Str("string"))),
            ("sql", GetOr(dim.fields, "sql", Str(""))), ("description", GetOr(dim.fields, "description", Str(""))),
            ("primary_key", GetOr(dim.fields, "primary_key", Bool(false)))])]
    else if dim.Str? then
      [Obj([("name", dim), ("type", Str("string")), ("sql", Str("")), ("description", Str("")), ("primary_key", Bool(false))])]
    else []
  }

  /** A measure entry: type defaults to 'number', aggregation is the given type or 'sum'. */
  function MeasureOf(measure: Value): (r: seq<Value>)
    ensures |r| <= 1 && (|r| == 1 <==> measure.Obj? || measure.Str?)
  {
    if measure.Obj? then
      [Obj([("name", GetOr(measure.fields, "name", Str(""))), ("type", GetOr(measure.fields, "type", Str("number"))),
            ("sql", GetOr(measure.fields, "sql", Str(""))), ("description", GetOr(measure.fields, "description", Str(""))),
            ("aggregation", GetOr(measure.fields, "type", Str("sum")))])]
    else if measure.Str? then
      [Obj([("name", measure), ("type", Str("number")), ("sql", Str("")), ("description", Str("")), ("aggregation", Str("sum"))])]
    else []
  }

  /** A join entry: only mappings are kept, the relationship defaulting to 'belongs_to'. */
  function JoinOf(join: Value): (r: seq<Value>)
    ensures |r| <= 1 && (|r| == 1 <==> join.Obj?)
  {
    if join.Obj? then
      [Obj([("name", GetOr(join.fields, "name", Str(""))), ("sql", GetOr(join.fields, "sql", Str(""))),
            ("relationship", GetOr(join.fields, "relationship", Str("belongs_to"))),
            ("description", GetOr(join.fields, "description", Str("")))])]
    else []
  }

  /** A loop that appends f(x) for each raw entry x. */
  method Normalize(raw: seq<Value>, f: Value -> seq<Value>) returns (r: seq<Value>)
    ensures r == FilterMap(raw, f)
  {
    r := [];
    for i := 0 to |raw|
      invariant r == FilterMap(raw[..i], f)
    {
      assert raw[..i + 1][..i] == raw[..i];
      r := r + f(raw[i]);
    }
    assert raw[..|raw|] == raw;
  }

  /** _parse_dimensions */
  method ParseDimensions(raw: seq<Value>) returns (r: seq<Value>)
    ensures r == FilterMap(raw, DimensionOf)
    ensures |r| <= |raw| && (|r| == |raw| <==> forall i :: 0 <= i < |raw| ==> raw[i].Obj? || raw[i].Str?)
  {
    r := Normalize(raw, DimensionOf);
    FilterMapLength(raw, DimensionOf);
  }

  /** _parse_measures */
  method ParseMeasures(raw: seq<Value>) returns (r: seq<Value>)
    ensures r == FilterMap(raw, MeasureOf)
    ensures |r| <= |raw| && (|r| == |raw| <==> forall i :: 0 <= i < |raw| ==> raw[i].Obj? || raw[i].Str?)
  {
    r := Normalize(raw, MeasureOf);
    FilterMapLength(raw, MeasureOf);
  }

  /** _parse_joins */
  method ParseJoins(raw: seq<Value>) returns (r: seq<Value>)
    ensures r == FilterMap(raw, JoinOf)
    ensures |r| <= |raw| && (|r| == |raw| <==> forall i :: 0 <= i < |raw| ==> raw[i].Obj?)
  {
    r := Normalize(raw, JoinOf);
    FilterMapLength(raw, JoinOf);
  }

  // ---------------------------------------------------------------------
  // The view
  // ---------------------------------------------------------------------

  function MissingName(filePath: string): string {
    "Missing required fields in " + filePath + ": ['name']"
  }

  /** _validate_required_fields: the view mapping when its name is present and truthy. */
  function CheckRequired(viewSpec: Value, filePath: string): (r: Result<Dict>)
    ensures r.Success? ==> viewSpec == Obj(r.value) && HasKey(r.value, "name") && Truthy(GetOr(r.value, "name", Null))
    ensures viewSpec.Obj? ==> (r.Success? <==> HasKey(viewSpec.fields, "name") && Truthy(GetOr(viewSpec.fields, "name", Null)))
    ensures viewSpec.Obj? && r.Failure? ==> r.error == MissingName(filePath)
  {
    match PyIn("name", viewSpec)
    case None => Failure(NotContainer(viewSpec))
    case Some(present) =>
      if !present then Failure(MissingName(filePath))
      else if !viewSpec.Obj? then Failure(BadIndex(viewSpec))
      else if !Truthy(GetOr(viewSpec.fields, "name", Null)) then Failure(MissingName(filePath))
      else Success(viewSpec.fields)
  }

  /** The view once the cubes form, if present, has replaced its dimensions and measures. */
  function WithIncludes(viewSpec: Value): Result<Value> {
    match PyIn("cubes", viewSpec)
    case None => Failure(NotContainer(viewSpec))
    case Some(hasCubes) =>
      if !hasCubes then Success(viewSpec)
      else if !viewSpec.Obj? then Failure(NoAttribute(viewSpec, "get"))
      else
        var cubes := GetOr(viewSpec.fields, "cubes", List([]));
        match Iterate(cubes)
        case None => Failure(NotIterable(cubes))
        case Some(items) =>
          match AddCubes(Success(Split([], [])), items)
          case Failure(e) => Failure(e)
          case Success(s) =>
            Success(Obj(DictSet(DictSet(viewSpec.fields, "dimensions", List(s.dimensions)), "measures", List(s.measures))))
  }

  /** The text after the last '/'. */
  function LastSegment(p: string): (r: string)
    ensures '/' !in r
  {
    if p == [] || p[|p| - 1] == '/' then "" else LastSegment(p[..|p| - 1]) + [p[|p| - 1]]
  }

  /** Path(p).name: trailing separators are dropped first, so "a/b/" names "b". */
  function BaseName(p: string): (r: string)
    ensures '/' !in r
  {
    if p != [] && p[|p| - 1] == '/' then BaseName(p[..|p| - 1]) else LastSegment(p)
  }

  /** `view_spec.get(k, [])`, iterated. */
  function ListField(spec: Dict, k: string): Result<seq<Value>> {
    var v := GetOr(spec, k, List([]));
    match Iterate(v)
    case Some(xs) => Success(xs)
    case None => Failure(NotIterable(v))
  }

  function ParsedView(spec: Dict, filePath: string, dims: seq<Value>, measures: seq<Value>, joins: seq<Value>): Dict {
    [("name", GetOr(spec, "name", Null)), ("file_path", Str(filePath)),
     ("sql", GetOr(spec, "sql", Str(""))), ("description", GetOr(spec, "description", Str(""))),
     ("dimensions", List(FilterMap(dims, DimensionOf))), ("measures", List(FilterMap(measures, MeasureOf))),
     ("joins", List(FilterMap(joins, JoinOf))),
     ("metadata", Obj([("file_name", Str(BaseName(filePath))), ("has_sql", Bool(Truthy(GetOr(spec, "sql", Null)))),
                       ("dimension_count", Int(|dims|)), ("measure_count", Int(|measures|))]))]
  }

  /** _parse_view_content */
  function ViewContent(content: Dict, filePath: string): Result<Dict> {
    match WithIncludes(SelectView(content))
    case Failure(e) => Failure(e)
    case Success(viewSpec) =>
      match CheckRequired(viewSpec, filePath)
      case Failure(e) => Failure(e)
      case Success(spec) =>
        match ListField(spec, "dimensions")
        case Failure(e) => Failure(e)
        case Success(dims) =>
          match ListField(spec, "measures")
          case Failure(e) => Failure(e)
          case Success(measures) =>
            match ListField(spec, "joins")
            case Failure(e) => Failure(e)
            case Success(joins) => Success(ParsedView(spec, filePath, dims, measures, joins))
  }

  method ParseViewContent(content: Dict, filePath: string) returns (r: Result<Dict>)
    ensures r == ViewContent(content, filePath)
  {
    var viewSpec := SelectView(content);
    var hasCubes := PyIn("cubes", viewSpec);
    if hasCubes.None? {
      return Failure(NotContainer(viewSpec));
    }
    if hasCubes.value {
      if !viewSpec.Obj? {
        return Failure(NoAttribute(viewSpec, "get"));
      }
      var cubes := GetOr(viewSpec.fields, "cubes", List([]));
      var items := Iterate(cubes);
      if items.None? {
        return Failure(NotIterable(cubes));
      }
      var split := ClassifyIncludes(items.value);
      if split.Failure? {
        return Failure(split.error);
      }
      viewSpec := Obj(DictSet(DictSet(viewSpec.fields, "dimensions", List(split.value.dimensions)), "measures", List(split.value.measures)));
    }
    var checked := CheckRequired(viewSpec, filePath);
    if checked.Failure? {
      return Failure(checked.error);
    }
    var spec := checked.value;
    var dims := ListField(spec, "dimensions");
    if dims.Failure? {
      return Failure(dims.error);
    }
    var measures := ListField(spec, "measures");
    if measures.Failure? {
      return Failure(measures.error);
    }
    var joins := ListField(spec, "joins");
    if joins.Failure? {
      return Failure(joins.error);
    }
    var parsedDims := ParseDimensions(dims.value);
    var parsedMeasures := ParseMeasures(measures.value);
    var parsedJoins := ParseJoins(joins.value);
    r := Success([("name", GetOr(spec, "name", Null)), ("file_path", Str(filePath)),
                  ("sql", GetOr(spec, "sql", Str(""))), ("description", GetOr(spec, "description", Str(""))),
                  ("dimensions", List(parsedDims)), ("measures", List(parsedMeasures)), ("joins", List(parsedJoins)),
                  ("metadata", Obj([("file_name", Str(BaseName(filePath))), ("has_sql", Bool(Truthy(GetOr(spec, "sql", Null)))),
                                    ("dimension_count", Int(|dims.value|)), ("measure_count", Int(|measures.value|))]))]);
  }

  /** A document whose view is a mapping without cubes and without a truthy name is refused with the name error. */
  lemma NamelessViewRefused(content: Dict, filePath: string)
    requires SelectView(content).Obj? && !HasKey(SelectView(content).fields, "cubes")
    requires !Truthy(GetOr(SelectView(content).fields, "name", Null))
    ensures ViewContent(content, filePath) == Failure(MissingName(filePath))
  {
  }

  /** In the cubes form the includes replace whatever dimensions and measures the view had. */
  lemma IncludesReplaceFields(viewSpec: Value)
    requires viewSpec.Obj? && HasKey(viewSpec.fields, "cubes")
    requires WithIncludes(viewSpec).Success?
    ensures var cubes := GetOr(viewSpec.fields, "cubes", List([]));
      Iterate(cubes).Some? && AddCubes(Success(Split([], [])), Iterate(cubes).value).Success? &&
      var s := AddCubes(Success(Split([], [])), Iterate(cubes).value).value;
      var w := WithIncludes(viewSpec).value;
      w.Obj? && ListField(w.fields, "dimensions") == Success(s.dimensions) &&
      ListField(w.fields, "measures") == Success(s.measures)
  {
    var fields := viewSpec.fields;
    var cubes := GetOr(fields, "cubes", List([]));
    var s := AddCubes(Success(Split([], [])), Iterate(cubes).value).value;
    assert WithIncludes(viewSpec).value == Obj(DictSet(DictSet(fields, "dimensions", List(s.dimensions)), "measures", List(s.measures)));
    BothListsSet(fields, s.dimensions, s.measures);
  }

  /** Setting the dimensions, then the measures, leaves both readable as set. */
  lemma BothListsSet(fields: Dict, dims: seq<Value>, measures: seq<Value>)
    ensures var w := DictSet(DictSet(fields, "dimensions", List(dims)), "measures", List(measures));
      ListField(w, "dimensions") == Success(dims) && ListField(w, "measures") == Success(measures)
  {
    var d1 := DictSet(fields, "dimensions", List(dims));
    DictSetGetSame(d1, "measures", List(measures));
    DictSetGetOther(d1, "measures", List(measures), "dimensions");
    DictSetGetSame(fields, "dimensions", List(dims));
  }

  /**
   * A parsed view lists the normalised dimensions and measures of what the
   * view held after the cubes form was applied, and its metadata counts the
   * raw entries.
   */
  lemma ParsedFromView(content: Dict, filePath: string)
    requires ViewContent(content, filePath).Success?
    ensures var w := WithIncludes(SelectView(content)).value;
      w.Obj? &&
      var dims := ListField(w.fields, "dimensions").value;
      var measures := ListField(w.fields, "measures").value;
      var v := ViewContent(content, filePath).value;
      |v| == 8 && v[1] == ("file_path", Str(filePath)) &&
      v[4] == ("dimensions", List(FilterMap(dims, DimensionOf))) &&
      v[5] == ("measures", List(FilterMap(measures, MeasureOf))) &&
      v[7].1.Obj? && v[7].1.fields[2] == ("dimension_count", Int(|dims|)) &&
      v[7].1.fields[3] == ("measure_count", Int(|measures|))
  {
    var w := WithIncludes(SelectView(content)).value;
    var spec := CheckRequired(w, filePath).value;
    ViewContentParsed(content, filePath);
    ParsedViewLayout(spec, filePath, ListField(spec, "dimensions").value,
      ListField(spec, "measures").value, ListField(spec, "joins").value);
  }

  /** A successful parse is the parsed form of the checked view's lists. */
  lemma ViewContentParsed(content: Dict, filePath: string)
    requires ViewContent(content, filePath).Success?
    ensures var w := WithIncludes(SelectView(content)).value;
      CheckRequired(w, filePath).Success? &&
      var spec := CheckRequired(w, filePath).value;
      ListField(spec, "dimensions").Success? && ListField(spec, "measures").Success? && ListField(spec, "joins").Success? &&
      ViewContent(content, filePath).value ==
        ParsedView(spec, filePath, ListField(spec, "dimensions").value, ListField(spec, "measures").value, ListField(spec, "joins").value)
  {
  }

  /** Where the parsed view keeps its path, lists and counts. */
  lemma ParsedViewLayout(spec: Dict, filePath: string, dims: seq<Value>, measures: seq<Value>, joins: seq<Value>)
    ensures var v := ParsedView(spec, filePath, dims, measures, joins);
      |v| == 8 && v[1] == ("file_path", Str(filePath)) &&
      v[4] == ("dimensions", List(FilterMap(dims, DimensionOf))) &&
      v[5] == ("measures", List(FilterMap(measures, MeasureOf))) &&
      v[7].1.Obj? && v[7].1.fields[2] == ("dimension_count", Int(|dims|)) &&
      v[7].1.fields[3] == ("measure_count", Int(|measures|))
  {
  }

  /** The metadata counts the raw entries, so it exceeds the parsed count exactly when some entry was dropped. */
  lemma CountsAreRaw(spec: Dict, filePath: string, dims: seq<Value>, measures: seq<Value>, joins: seq<Value>)
    ensures var v := ParsedView(spec, filePath, dims, measures, joins);
      v[4].1 == List(FilterMap(dims, DimensionOf)) && v[7].1.fields[2].1 == Int(|dims|) &&
      v[5].1 == List(FilterMap(measures, MeasureOf)) && v[7].1.fields[3].1 == Int(|measures|) &&
      |FilterMap(dims, DimensionOf)| <= |dims| && |FilterMap(measures, MeasureOf)| <= |measures| &&
      (|FilterMap(dims, DimensionOf)| < |dims| <==> exists i :: 0 <= i < |dims| && !dims[i].Obj? && !dims[i].Str?) &&
      (|FilterMap(measures, MeasureOf)| < |measures| <==> exists i :: 0 <= i < |measures| && !measures[i].Obj? && !measures[i].Str?)
  {
    FilterMapLength(dims, DimensionOf);
    FilterMapLength(measures, MeasureOf);
  }

  // ---------------------------------------------------------------------
  // validate_view_specification
  // ---------------------------------------------------------------------

  /** The issue for each nameless entry; an entry that is not a mapping raises. */
  function NamelessIssues(entries: seq<Value>, issue: string): Result<seq<string>> {
    if entries == [] then Success([])
    else
      match NamelessIssues(entries[..|entries| - 1], issue)
      case Failure(e) => Failure(e)
      case Success(front) =>
        var last := entries[|entries| - 1];
        if !last.Obj? then Failure(NoAttribute(last, "get"))
        else if Truthy(GetOr(last.fields, "name", Null)) then Success(front)
        else Success(front + [issue])
  }

  /** How many of the entries have no truthy name. */
  function Nameless(entries: seq<Value>): nat {
    if entries == [] then 0
    else Nameless(entries[..|entries| - 1]) +
         (var last := entries[|entries| - 1]; if last.Obj? && !Truthy(GetOr(last.fields, "name", Null)) then 1 else 0)
  }

  /** Over mappings, one issue per nameless entry and nothing else. */
  lemma {:induction false} NamelessIssuesCount(entries: seq<Value>, issue: string)
    requires forall i :: 0 <= i < |entries| ==> entries[i].Obj?
    ensures NamelessIssues(entries, issue).Success?
    ensures NamelessIssues(entries, issue).value == seq(Nameless(entries), _ => issue)
  {
    if entries != [] {
      NamelessIssuesCount(entries[..|entries| - 1], issue);
    }
  }

  function SpecIssues(viewSpec: Dict): Result<seq<string>> {
    var head := (if !Truthy(GetOr(viewSpec, "name", Null)) then ["View name is required"] else []) +
                (if !Truthy(GetOr(viewSpec, "sql", Null)) && !Truthy(GetOr(viewSpec, "dimensions", Null))
                 then ["View must have either SQL or dimensions defined"] else []);
    match ListField(viewSpec, "dimensions")
    case Failure(e) => Failure(e)
    case Success(dims) =>
      match NamelessIssues(dims, "Dimension name is required")
      case Failure(e) => Failure(e)
      case Success(dimIssues) =>
        match ListField(viewSpec, "measures")
        case Failure(e) => Failure(e)
        case Success(measures) =>
          match NamelessIssues(measures, "Measure name is required")
          case Failure(e) => Failure(e)
          case Success(measureIssues) => Success(head + dimIssues + measureIssues)
  }

  method ValidateViewSpecification(viewSpec: Dict) returns (r: Result<seq<string>>)
    ensures r == SpecIssues(viewSpec)
  {
    var issues: seq<string> := [];
    if !Truthy(GetOr(viewSpec, "name", Null)) {
      issues := issues + ["View name is required"];
    }
    if !Truthy(GetOr(viewSpec, "sql", Null)) && !Truthy(GetOr(viewSpec, "dimensions", Null)) {
      issues := issues + ["View must have either SQL or dimensions defined"];
    }
    var dims := ListField(viewSpec, "dimensions");
    if dims.Failure? {
      return Failure(dims.error);
    }
    var dimIssues := CheckNames(dims.value, "Dimension name is required");
    if dimIssues.Failure? {
      return Failure(dimIssues.error);
    }
    var measures := ListField(viewSpec, "measures");
    if measures.Failure? {
      return Failure(measures.error);
    }
    var measureIssues := CheckNames(measures.value, "Measure name is required");
    if measureIssues.Failure? {
      return Failure(measureIssues.error);
    }
    assert issues == (if !Truthy(GetOr(viewSpec, "name", Null)) then ["View name is required"] else []) +
                     (if !Truthy(GetOr(viewSpec, "sql", Null)) && !Truthy(GetOr(viewSpec, "dimensions", Null))
                      then ["View must have either SQL or dimensions defined"] else []);
    r := Success(issues + dimIssues.value + measureIssues.value);
  }

  /** One loop of validate_view_specification: an issue per nameless entry, until an entry is not a mapping. */
  method CheckNames(entries: seq<Value>, issue: string) returns (r: Result<seq<string>>)
    ensures r == NamelessIssues(entries, issue)
  {
    var issues: seq<string> := [];
    for i := 0 to |entries|
      invariant NamelessIssues(entries[..i], issue) == Success(issues)
    {
      assert entries[..i + 1][..i] == entries[..i];
      if !entries[i].Obj? {
        assert NamelessIssues(entries[..i + 1], issue).Failure?;
        NamelessFailureSticks(entries, i + 1, issue);
        return Failure(NoAttribute(entries[i], "get"));
      }
      if !Truthy(GetOr(entries[i].fields, "name", Null)) {
        issues := issues + [issue];
      }
    }
    assert entries[..|entries|] == entries;
    r := Success(issues);
  }

  /** Once a prefix raises, the whole list raises the same error. */
  lemma {:induction false} NamelessFailureSticks(entries: seq<Value>, n: int, issue: string)
    requires 0 <= n <= |entries| && NamelessIssues(entries[..n], issue).Failure?
    ensures NamelessIssues(entries, issue) == NamelessIssues(entries[..n], issue)
    decreases |entries| - n
  {
    if n < |entries| {
      var front := entries[..|entries| - 1];
      assert front[..n] == entries[..n];
      NamelessFailureSticks(front, n, issue);
    } else {
      assert entries[..n] == entries;
    }
  }

  /**
   * Over mapping entries the report is: a missing name, neither SQL nor
   * dimensions, then one issue per nameless dimension and per nameless
   * measure; it is empty exactly when none of these holds.
   */
  lemma IssuesCounted(viewSpec: Dict, dims: seq<Value>, measures: seq<Value>)
    requires ListField(viewSpec, "dimensions") == Success(dims) && ListField(viewSpec, "measures") == Success(measures)
    requires forall i :: 0 <= i < |dims| ==> dims[i].Obj?
    requires forall i :: 0 <= i < |measures| ==> measures[i].Obj?
    ensures SpecIssues(viewSpec).Success?
    ensures |SpecIssues(viewSpec).value| ==
      (if !Truthy(GetOr(viewSpec, "name", Null)) then 1 else 0) +
      (if !Truthy(GetOr(viewSpec, "sql", Null)) && !Truthy(GetOr(viewSpec, "dimensions", Null)) then 1 else 0) +
      Nameless(dims) + Nameless(measures)
  {
    NamelessIssuesCount(dims, "Dimension name is required");
    NamelessIssuesCount(measures, "Measure name is required");
  }

  /** A parsed view never lacks its name, so validating it never reports "View name is required". */
  lemma ParsedViewHasName(content: Dict, filePath: string)
    requires ViewContent(content, filePath).Success?
    ensures Truthy(GetOr(ViewContent(content, filePath).value, "name", Null))
  {
    var viewSpec := WithIncludes(SelectView(content)).value;
    var spec := CheckRequired(viewSpec, filePath).value;
    var dims := ListField(spec, "dimensions").value;
    var measures := ListField(spec, "measures").value;
    var joins := ListField(spec, "joins").value;
    var v := ParsedView(spec, filePath, dims, measures, joins);
    DictGetAt(v, 0);
  }
}
