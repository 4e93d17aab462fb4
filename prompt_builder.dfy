/*
 * The prompt builder of the system-prompt generator: the markdown sections
 * rendered from the view specifications, the successful query examples and
 * the natural-language patterns, the business-context list helpers, the
 * description of one pattern, the context summary and the check of the
 * prompt's components.
 *
 * Every section is a list of lines joined with "\n", built by loops that
 * append to the list.  The inputs are the dynamic values of the context
 * dictionary, so every `.get`, `.items()`, `for` and `len()` the code
 * applies can raise; a raised error is a Failure carrying str(e).  The
 * templates directory is the set of file names it holds.
 */
module PromptBuilder {
  import opened Common
  import opened Json

  const NoViews := "# No view specifications available"
  const ViewsHeader := "# CUBE VIEW SPECIFICATIONS\n"
  const DimensionsHeading := "**Available Dimensions:**"
  const MeasuresHeading := "**Available Measures:**"
  const NoExamples := "# No successful query examples available"
  const ExamplesHeader := "# SUCCESSFUL QUERY EXAMPLES\n"
  const NoPatterns := "# No natural language patterns available"
  const PatternsHeader := "# NATURAL LANGUAGE PATTERNS\n"
  const NoEntities := "No entities defined"
  const NoMetrics := "No metrics defined"
  const NoQuestions := "No common questions defined"

  /** v.get(key, default): raises AttributeError unless v is a dict. */
  function Get(v: Value, key: string, default: Value): (r: Result<Value>)
    ensures r.Success? <==> v.Obj?
    ensures v.Obj? && !HasKey(v.fields, key) ==> r == Success(default)
  {
    if v.Obj? then Success(GetOr(v.fields, key, default)) else Failure(NoAttribute(v, "get"))
  }

  // ---------------------------------------------------------------------
  // One item, one or more lines
  // ---------------------------------------------------------------------

  /** f"- `{view_name}.{name}`" */
  function Qualified(viewName: string, field: Dict): string {
    "- `" + viewName + "." + PyStr(GetOr(field, "name", Str("unknown"))) + "`"
  }

  /** A dimension or measure line: the qualified name, then ": description" when the description is truthy. */
  function FieldText(viewName: string, field: Dict): (r: string)
    ensures StartsWith(r, Qualified(viewName, field))
    ensures r == Qualified(viewName, field) <==> !Truthy(GetOr(field, "description", Str("")))
  {
    var q := Qualified(viewName, field);
    var desc := GetOr(field, "description", Str(""));
    if Truthy(desc) then q + ": " + PyStr(desc) else q
  }

  const NlLabel := "**Natural Language**: \""
  const CubeQueryLabel := "**CUBE Query**:"
  const JsonFence := "```json"
  const ClosingFence := "```\n"

  /** The lines of one successful query example; the query is rendered by json.dumps(indent=2). */
  function ExampleText(example: Dict): seq<string> {
    var desc := GetOr(example, "description", Str(""));
    ["## " + PyStr(GetOr(example, "name", Str("Unnamed Query")))]
    + (if Truthy(desc) then ["**Purpose**: " + PyStr(desc)] else [])
    + [NlLabel + PyStr(GetOr(example, "natural_language", Str(""))) + "\"",
       CubeQueryLabel, JsonFence, DumpsIndented(GetOr(example, "cube_query", Obj([]))), ClosingFence]
  }

  const Arrow := " \U{2192} "

  /** _describe_pattern: the first of measure, dimension, filter, operator that the pattern names. */
  function DescribePattern(pattern: Dict): string {
    if HasKey(pattern, "cube_measure") then "measure: " + PyStr(DictGet(pattern, "cube_measure").value)
    else if HasKey(pattern, "cube_dimension") then "dimension: " + PyStr(DictGet(pattern, "cube_dimension").value)
    else if HasKey(pattern, "cube_filter") then "filter/time dimension"
    else if HasKey(pattern, "cube_operator") then "operator: " + PyStr(DictGet(pattern, "cube_operator").value)
    else "pattern mapping"
  }

  /** f"- \"{phrase}\" → {description}" */
  function PhraseText(pattern: Dict): string {
    "- \"" + PyStr(GetOr(pattern, "phrase", Str(""))) + "\"" + Arrow + DescribePattern(pattern)
  }

  /** f"**{name}**: {description}" for an entity or a metric. */
  function NamedText(item: Dict): string {
    "**" + PyStr(GetOr(item, "name", Str("Unknown"))) + "**: " + PyStr(GetOr(item, "description", Str("")))
  }

  /** A dimension or measure of a view, read with `.get`. */
  function FieldLine(viewName: string, field: Value): (r: Result<seq<string>>)
    ensures r.Success? <==> field.Obj?
  {
    if field.Obj? then Success([FieldText(viewName, field.fields)]) else Failure(NoAttribute(field, "get"))
  }

  function FieldRender(viewName: string): Value -> Result<seq<string>> {
    field => FieldLine(viewName, field)
  }

  /** One successful query example, read with `.get`. */
  function ExampleLines(example: Value): (r: Result<seq<string>>)
    ensures r.Success? <==> example.Obj?
  {
    if example.Obj? then Success(ExampleText(example.fields)) else Failure(NoAttribute(example, "get"))
  }

  /** One pattern: its line when its phrase is truthy, nothing otherwise. */
  function PhraseLine(pattern: Value): (r: Result<seq<string>>)
    ensures r.Success? <==> pattern.Obj?
  {
    if !pattern.Obj? then Failure(NoAttribute(pattern, "get"))
    else if Truthy(GetOr(pattern.fields, "phrase", Str(""))) then Success([PhraseText(pattern.fields)])
    else Success([])
  }

  /** One entity or metric, read with `.get`. */
  function NamedLine(item: Value): (r: Result<seq<string>>)
    ensures r.Success? <==> item.Obj?
  {
    if item.Obj? then Success([NamedText(item.fields)]) else Failure(NoAttribute(item, "get"))
  }

  /** f"- {question}" */
  function QuestionLine(question: Value): seq<string> {
    ["- " + PyStr(question)]
  }

  // ---------------------------------------------------------------------
  // A loop appending the lines of each element of a list
  // ---------------------------------------------------------------------

  /** The lines of all elements in order; the first element that raises stops the loop. */
  function Lines<T>(render: T -> Result<seq<string>>, xs: seq<T>): Result<seq<string>> {
    if xs == [] then Success([])
    else
      match Lines(render, xs[..|xs| - 1])
      case Failure(e) => Failure(e)
      case Success(front) =>
        match render(xs[|xs| - 1])
        case Failure(e) => Failure(e)
        case Success(last) => Success(front + last)
  }

  lemma LinesStep<T>(render: T -> Result<seq<string>>, xs: seq<T>, i: nat, acc: seq<string>)
    requires i < |xs| && Lines(render, xs[..i]) == Success(acc)
    ensures Lines(render, xs[..i + 1]) ==
      match render(xs[i])
      case Failure(e) => Failure(e)
      case Success(more) => Success(acc + more)
  {
    assert xs[..i + 1][..i] == xs[..i];
  }

  lemma {:induction false} LinesFailureSticks<T>(render: T -> Result<seq<string>>, xs: seq<T>, n: nat)
    requires n <= |xs| && Lines(render, xs[..n]).Failure?
    ensures Lines(render, xs) == Lines(render, xs[..n])
  {
    if n < |xs| {
      var front := xs[..|xs| - 1];
      assert front[..n] == xs[..n];
      LinesFailureSticks(render, front, n);
    } else {
      assert xs[..n] == xs;
    }
  }

  /** The loop completes exactly when no element raises. */
  lemma {:induction false} LinesSucceed<T>(render: T -> Result<seq<string>>, xs: seq<T>)
    ensures Lines(render, xs).Success? <==> forall i :: 0 <= i < |xs| ==> render(xs[i]).Success?
  {
    if xs != [] {
      var front := xs[..|xs| - 1];
      LinesSucceed(render, front);
      assert forall i :: 0 <= i < |front| ==> front[i] == xs[i];
    }
  }

  /** Where each element renders to one line, line i is the line of element i. */
  lemma {:induction false} LinesOneEach<T>(render: T -> Result<seq<string>>, xs: seq<T>)
    requires forall i :: 0 <= i < |xs| ==> render(xs[i]).Success? && |render(xs[i]).value| == 1
    ensures Lines(render, xs).Success? && |Lines(render, xs).value| == |xs|
    ensures forall i :: 0 <= i < |xs| ==> [Lines(render, xs).value[i]] == render(xs[i]).value
  {
    if xs != [] {
      var front := xs[..|xs| - 1];
      assert forall i :: 0 <= i < |front| ==> front[i] == xs[i];
      LinesOneEach(render, front);
    }
  }

  /** Every line comes from one of the elements. */
  lemma {:induction false} LinesAllFrom<T>(render: T -> Result<seq<string>>, xs: seq<T>, k: int)
    requires Lines(render, xs).Success? && 0 <= k < |Lines(render, xs).value|
    ensures exists i, j :: (0 <= i < |xs| && render(xs[i]).Success? &&
      0 <= j < |render(xs[i]).value| && render(xs[i]).value[j] == Lines(render, xs).value[k])
  {
    var front := xs[..|xs| - 1];
    var head := Lines(render, front).value;
    var last := render(xs[|xs| - 1]).value;
    if k < |head| {
      LinesAllFrom(render, front, k);
      var i, j :| 0 <= i < |front| && render(front[i]).Success? &&
        0 <= j < |render(front[i]).value| && render(front[i]).value[j] == head[k];
      assert front[i] == xs[i];
    } else {
      assert Lines(render, xs).value[k] == last[k - |head|];
    }
  }

  /** Every line of every element is among the lines of the loop. */
  lemma {:induction false} LinesInclude<T>(render: T -> Result<seq<string>>, xs: seq<T>, i: int, j: int)
    requires Lines(render, xs).Success? && 0 <= i < |xs|
    ensures render(xs[i]).Success?
    ensures 0 <= j < |render(xs[i]).value| ==> render(xs[i]).value[j] in Lines(render, xs).value
  {
    var front := xs[..|xs| - 1];
    if i < |xs| - 1 {
      assert xs[i] == front[i];
      LinesInclude(render, front, i, j);
    }
  }

  /** The loop of a `_build_*` or `_format_*` method over one list. */
  method RenderLines<T>(render: T -> Result<seq<string>>, xs: seq<T>) returns (r: Result<seq<string>>)
    ensures r == Lines(render, xs)
  {
    var lines: seq<string> := [];
    for i := 0 to |xs|
      invariant Lines(render, xs[..i]) == Success(lines)
    {
      var more := render(xs[i]);
      LinesStep(render, xs, i, lines);
      if more.Failure? {
        LinesFailureSticks(render, xs, i + 1);
        return Failure(more.error);
      }
      lines := lines + more.value;
    }
    assert xs[..|xs|] == xs;
    r := Success(lines);
  }

  // ---------------------------------------------------------------------
  // _build_view_specifications
  // ---------------------------------------------------------------------

  /** f"{view_name}", with 'Unknown View' for a view without a name. */
  function ViewName(view: Dict): string {
    PyStr(GetOr(view, "name", Str("Unknown View")))
  }

  /** The dimensions or measures block of a view: nothing when the list is falsy. */
  function Block(heading: string, viewName: string, v: Value): Result<seq<string>> {
    if !Truthy(v) then Success([])
    else
      match Iterate(v)
      case None => Failure(NotIterable(v))
      case Some(items) =>
        match Lines(FieldRender(viewName), items)
        case Failure(e) => Failure(e)
        case Success(ls) => Success([heading] + ls + [""])
  }

  /** The lines of one view: heading, description, dimensions, measures. */
  function ViewLines(view: Value): Result<seq<string>> {
    if !view.Obj? then Failure(NoAttribute(view, "get"))
    else
      var name := ViewName(view.fields);
      var description := PyStr(GetOr(view.fields, "description", Str("No description available")));
      match Block(DimensionsHeading, name, GetOr(view.fields, "dimensions", List([])))
      case Failure(e) => Failure(e)
      case Success(dims) =>
        match Block(MeasuresHeading, name, GetOr(view.fields, "measures", List([])))
        case Failure(e) => Failure(e)
        case Success(measures) => Success(["## " + name, "**Description**: " + description + "\n"] + dims + measures)
  }

  /** _build_view_specifications */
  function ViewSpecifications(views: Value): Result<string> {
    if !Truthy(views) then Success(NoViews)
    else
      match Iterate(views)
      case None => Failure(NotIterable(views))
      case Some(items) =>
        match Lines(ViewLines, items)
        case Failure(e) => Failure(e)
        case Success(ls) => Success(Join([ViewsHeader] + ls, "\n"))
  }

  method RenderBlock(heading: string, viewName: string, v: Value) returns (r: Result<seq<string>>)
    ensures r == Block(heading, viewName, v)
  {
    if !Truthy(v) {
      return Success([]);
    }
    var items := Iterate(v);
    if items.None? {
      return Failure(NotIterable(v));
    }
    var lines := RenderLines(FieldRender(viewName), items.value);
    if lines.Failure? {
      return Failure(lines.error);
    }
    r := Success([heading] + lines.value + [""]);
  }

  method RenderView(view: Value) returns (r: Result<seq<string>>)
    ensures r == ViewLines(view)
  {
    if !view.Obj? {
      return Failure(NoAttribute(view, "get"));
    }
    var name := ViewName(view.fields);
    var description := PyStr(GetOr(view.fields, "description", Str("No description available")));
    var dims := RenderBlock(DimensionsHeading, name, GetOr(view.fields, "dimensions", List([])));
    if dims.Failure? {
      return Failure(dims.error);
    }
    var measures := RenderBlock(MeasuresHeading, name, GetOr(view.fields, "measures", List([])));
    if measures.Failure? {
      return Failure(measures.error);
    }
    r := Success(["## " + name, "**Description**: " + description + "\n"] + dims.value + measures.value);
  }

  /** The loop over the views, each rendered by RenderView. */
  method RenderViews(xs: seq<Value>) returns (r: Result<seq<string>>)
    ensures r == Lines(ViewLines, xs)
  {
    var lines: seq<string> := [];
    for i := 0 to |xs|
      invariant Lines(ViewLines, xs[..i]) == Success(lines)
    {
      var more := RenderView(xs[i]);
      LinesStep(ViewLines, xs, i, lines);
      if more.Failure? {
        LinesFailureSticks(ViewLines, xs, i + 1);
        return Failure(more.error);
      }
      lines := lines + more.value;
    }
    assert xs[..|xs|] == xs;
    r := Success(lines);
  }

  method BuildViewSpecifications(views: Value) returns (r: Result<string>)
    ensures r == ViewSpecifications(views)
  {
    if !Truthy(views) {
      return Success(NoViews);
    }
    var items := Iterate(views);
    if items.None? {
      return Failure(NotIterable(views));
    }
    var lines := RenderViews(items.value);
    if lines.Failure? {
      return Failure(lines.error);
    }
    var sections := [ViewsHeader] + lines.value;
    r := Success(Join(sections, "\n"));
  }

  /** The elements a `for` visits in a value that is truthy; none in a falsy one. */
  function Visited(v: Value): seq<Value> {
    if Truthy(v) && Iterate(v).Some? then Iterate(v).value else []
  }

  /** A block of n lines gains a heading and a blank line; an empty one is left out. */
  function BlockSize(n: nat): nat {
    if n == 0 then 0 else n + 2
  }

  /** The lines of a list of dimensions or measures: one per element, in order. */
  lemma FieldLinesText(viewName: string, items: seq<Value>)
    requires Lines(FieldRender(viewName), items).Success?
    ensures var ls := Lines(FieldRender(viewName), items).value;
      |ls| == |items| &&
      forall j :: 0 <= j < |items| ==> items[j].Obj? && ls[j] == FieldText(viewName, items[j].fields)
  {
    var render := FieldRender(viewName);
    LinesSucceed(render, items);
    forall i | 0 <= i < |items|
      ensures render(items[i]) == FieldLine(viewName, items[i])
    {
    }
    LinesOneEach(render, items);
  }

  /** A heading, the lines and a blank line; nothing for no lines. */
  function Framed(heading: string, ls: seq<string>): seq<string> {
    if ls == [] then [] else [heading] + ls + [""]
  }

  lemma BlockLayout(heading: string, viewName: string, v: Value)
    requires Block(heading, viewName, v).Success?
    ensures Lines(FieldRender(viewName), Visited(v)).Success?
    ensures |Lines(FieldRender(viewName), Visited(v)).value| == |Visited(v)|
    ensures Block(heading, viewName, v).value == Framed(heading, Lines(FieldRender(viewName), Visited(v)).value)
  {
    if Truthy(v) {
      var items := Iterate(v).value;
      TruthyIterableNonEmpty(v);
      FieldLinesText(viewName, items);
    }
  }

  /** lines opens with first, then holds ls1 and ls2 as two framed blocks after its two first lines. */
  predicate Layout(lines: seq<string>, first: string, ls1: seq<string>, ls2: seq<string>) {
    |lines| == 2 + BlockSize(|ls1|) + BlockSize(|ls2|) && lines[0] == first &&
    (ls1 != [] ==> lines[3..3 + |ls1|] == ls1) &&
    (ls2 != [] ==> lines[3 + BlockSize(|ls1|)..3 + BlockSize(|ls1|) + |ls2|] == ls2)
  }

  /** Where the two framed blocks sit after the two first lines. */
  lemma FramedPositions(lines: seq<string>, top: seq<string>, h1: string, ls1: seq<string>, h2: string, ls2: seq<string>)
    requires |top| == 2 && lines == top + Framed(h1, ls1) + Framed(h2, ls2)
    ensures Layout(lines, top[0], ls1, ls2)
  {
    var f1 := Framed(h1, ls1);
    var f2 := Framed(h2, ls2);
    FramedInner(h1, ls1);
    FramedInner(h2, ls2);
    if ls1 != [] {
      MiddleSlice(top, f1, f2, 1, 1 + |ls1|);
    }
    if ls2 != [] {
      LastSlice(top, f1, f2, 1, 1 + |ls2|);
    }
  }

  /** A framed block holds its lines right after the heading. */
  lemma FramedInner(heading: string, ls: seq<string>)
    ensures |Framed(heading, ls)| == BlockSize(|ls|)
    ensures ls != [] ==> Framed(heading, ls)[1..1 + |ls|] == ls
  {
    if ls != [] {
      assert ([heading] + ls + [""])[1..1 + |ls|] == ls;
    }
  }

  lemma MiddleSlice<T>(a: seq<T>, b: seq<T>, c: seq<T>, i: nat, j: nat)
    requires i <= j <= |b|
    ensures (a + b + c)[|a| + i..|a| + j] == b[i..j]
  {
    assert (a + b + c)[|a| + i..|a| + j] == (a + b)[|a| + i..|a| + j];
  }

  lemma LastSlice<T>(a: seq<T>, b: seq<T>, c: seq<T>, i: nat, j: nat)
    requires i <= j <= |c|
    ensures (a + b + c)[|a| + |b| + i..|a| + |b| + j] == c[i..j]
  {
    assert (a + b + c)[|a| + |b|..] == c;
  }

  /**
   * A rendered view is its heading and description, then the lines of its
   * dimensions, then the lines of its measures (one line per element, as
   * FieldLinesText states): every dimension comes before every measure, and
   * each block is present only when its list is non-empty.
   */
  lemma ViewLinesLayout(view: Value)
    requires ViewLines(view).Success?
    ensures view.Obj?
    ensures var lines := ViewLines(view).value;
      var name := ViewName(view.fields);
      var dims := Visited(GetOr(view.fields, "dimensions", List([])));
      var measures := Visited(GetOr(view.fields, "measures", List([])));
      Lines(FieldRender(name), dims).Success? && Lines(FieldRender(name), measures).Success? &&
      |Lines(FieldRender(name), dims).value| == |dims| && |Lines(FieldRender(name), measures).value| == |measures| &&
      Layout(lines, "## " + name, Lines(FieldRender(name), dims).value, Lines(FieldRender(name), measures).value)
  {
    var name := ViewName(view.fields);
    var dimsValue := GetOr(view.fields, "dimensions", List([]));
    var measuresValue := GetOr(view.fields, "measures", List([]));
    BlockLayout(DimensionsHeading, name, dimsValue);
    BlockLayout(MeasuresHeading, name, measuresValue);
    var description := PyStr(GetOr(view.fields, "description", Str("No description available")));
    var dl := Lines(FieldRender(name), Visited(dimsValue)).value;
    var ml := Lines(FieldRender(name), Visited(measuresValue)).value;
    var top := ["## " + name, "**Description**: " + description + "\n"];
    ViewLinesAre(view);
    FramedPositions(ViewLines(view).value, top, DimensionsHeading, dl, MeasuresHeading, ml);
  }

  /** A rendered view: its two first lines, then its two blocks. */
  lemma ViewLinesAre(view: Value)
    requires ViewLines(view).Success?
    ensures view.Obj?
    ensures var name := ViewName(view.fields);
      var description := PyStr(GetOr(view.fields, "description", Str("No description available")));
      var dims := Block(DimensionsHeading, name, GetOr(view.fields, "dimensions", List([])));
      var measures := Block(MeasuresHeading, name, GetOr(view.fields, "measures", List([])));
      dims.Success? && measures.Success? &&
      ViewLines(view).value == ["## " + name, "**Description**: " + description + "\n"] + dims.value + measures.value
  {
  }

  /** A section starting with its header is not the placeholder, which starts otherwise. */
  lemma HeaderIsNotPlaceholder(header: string, lines: seq<string>, placeholder: string, i: nat)
    requires i < |header| <= |placeholder| && placeholder[i] != header[i]
    ensures Join([header] + lines, "\n") != placeholder
  {
    JoinStartsWithFirst([header] + lines, "\n");
    assert placeholder[..|header|][i] != header[i];
  }

  /** The view section is the placeholder exactly when there are no views. */
  lemma ViewsPlaceholder(views: Value)
    requires ViewSpecifications(views).Success?
    ensures ViewSpecifications(views).value == NoViews <==> !Truthy(views)
  {
    if Truthy(views) {
      var ls := Lines(ViewLines, Iterate(views).value).value;
      assert ViewSpecifications(views).value == Join([ViewsHeader] + ls, "\n");
      ViewsHeaderNotPlaceholder(ls);
    }
  }

  /** A rendered view section never reads as the placeholder. */
  lemma ViewsHeaderNotPlaceholder(ls: seq<string>)
    ensures Join([ViewsHeader] + ls, "\n") != NoViews
  {
    HeaderIsNotPlaceholder(ViewsHeader, ls, NoViews, 2);
  }

  /** Every view of a rendered section has its heading in it. */
  lemma ViewHeadingsRendered(views: Value, i: int)
    requires ViewSpecifications(views).Success? && Truthy(views) && 0 <= i < |Visited(views)|
    ensures Visited(views)[i].Obj?
    ensures Contains(ViewSpecifications(views).value, "## " + ViewName(Visited(views)[i].fields))
  {
    var xs := Iterate(views).value;
    var ls := Lines(ViewLines, xs).value;
    LinesInclude(ViewLines, xs, i, 0);
    ViewLinesLayout(xs[i]);
    var k :| 0 <= k < |ls| && ls[k] == ViewLines(xs[i]).value[0];
    JoinContainsPart([ViewsHeader] + ls, "\n", k + 1);
  }

  // ---------------------------------------------------------------------
  // _build_examples_section
  // ---------------------------------------------------------------------

  /** _build_examples_section on the examples context. */
  function ExamplesSection(examplesContext: Value): Result<string> {
    match Get(examplesContext, "successful_queries", List([]))
    case Failure(e) => Failure(e)
    case Success(queries) =>
      if !Truthy(queries) then Success(NoExamples)
      else
        match Iterate(queries)
        case None => Failure(NotIterable(queries))
        case Some(items) =>
          match Lines(ExampleLines, items)
          case Failure(e) => Failure(e)
          case Success(ls) => Success(Join([ExamplesHeader] + ls, "\n"))
  }

  method BuildExamplesSection(examplesContext: Value) returns (r: Result<string>)
    ensures r == ExamplesSection(examplesContext)
  {
    var queries := Get(examplesContext, "successful_queries", List([]));
    if queries.Failure? {
      return Failure(queries.error);
    }
    if !Truthy(queries.value) {
      return Success(NoExamples);
    }
    var items := Iterate(queries.value);
    if items.None? {
      return Failure(NotIterable(queries.value));
    }
    var lines := RenderLines(ExampleLines, items.value);
    if lines.Failure? {
      return Failure(lines.error);
    }
    r := Success(Join([ExamplesHeader] + lines.value, "\n"));
  }

  /**
   * An example renders as its heading, a purpose line exactly when its
   * description is truthy, its question, and its query as indented JSON
   * between the two fences.
   */
  lemma ExampleLayout(example: Dict)
    ensures var lines := ExampleText(example);
      var description := GetOr(example, "description", Str(""));
      |lines| == (if Truthy(description) then 7 else 6) &&
      lines[0] == "## " + PyStr(GetOr(example, "name", Str("Unnamed Query"))) &&
      (Truthy(description) <==> StartsWith(lines[1], "**Purpose**: ")) &&
      lines[|lines| - 4] == CubeQueryLabel && lines[|lines| - 3] == JsonFence &&
      lines[|lines| - 2] == DumpsIndented(GetOr(example, "cube_query", Obj([]))) &&
      lines[|lines| - 1] == ClosingFence
  {
    var desc := GetOr(example, "description", Str(""));
    var purpose := if Truthy(desc) then ["**Purpose**: " + PyStr(desc)] else [];
    var nl := NlLabel + PyStr(GetOr(example, "natural_language", Str(""))) + "\"";
    var query := DumpsIndented(GetOr(example, "cube_query", Obj([])));
    var front := ["## " + PyStr(GetOr(example, "name", Str("Unnamed Query")))] + purpose;
    assert ExampleText(example) == front + [nl, CubeQueryLabel, JsonFence, query, ClosingFence];
    EndsWithFive(front, nl, CubeQueryLabel, JsonFence, query, ClosingFence);
    if Truthy(desc) {
      LabelStarts("**Purpose**: ", PyStr(desc));
    } else {
      NotPurposeLine(nl);
    }
  }

  /** The last four of a list ending in five given lines. */
  lemma EndsWithFive(front: seq<string>, a: string, b: string, c: string, d: string, e: string)
    ensures var ls := front + [a, b, c, d, e];
      |ls| == |front| + 5 && (front != [] ==> ls[0] == front[0]) &&
      ls[|front|] == a && ls[|ls| - 4] == b && ls[|ls| - 3] == c && ls[|ls| - 2] == d && ls[|ls| - 1] == e
  {
  }

  lemma LabelStarts(heading: string, rest: string)
    ensures StartsWith(heading + rest, heading)
  {
    assert (heading + rest)[..|heading|] == heading;
  }

  /** The question line does not start like a purpose line. */
  lemma NotPurposeLine(rest: string)
    ensures !StartsWith(NlLabel + rest, "**Purpose**: ")
  {
    assert (NlLabel + rest)[2] == 'N';
  }

  /** The two successful outcomes of _build_examples_section. */
  lemma ExamplesSectionCases(examplesContext: Value)
    requires ExamplesSection(examplesContext).Success?
    ensures examplesContext.Obj?
    ensures var queries := GetOr(examplesContext.fields, "successful_queries", List([]));
      if !Truthy(queries) then ExamplesSection(examplesContext).value == NoExamples
      else (Iterate(queries).Some? && Lines(ExampleLines, Iterate(queries).value).Success? &&
        ExamplesSection(examplesContext).value == Join([ExamplesHeader] + Lines(ExampleLines, Iterate(queries).value).value, "\n"))
  {
  }

  /** A rendered examples section never reads as the placeholder. */
  lemma ExamplesHeaderNotPlaceholder(ls: seq<string>)
    ensures Join([ExamplesHeader] + ls, "\n") != NoExamples
  {
    HeaderIsNotPlaceholder(ExamplesHeader, ls, NoExamples, 2);
  }

  /** The examples section is the placeholder exactly when there are no successful queries. */
  lemma ExamplesPlaceholder(examplesContext: Value)
    requires ExamplesSection(examplesContext).Success?
    ensures examplesContext.Obj?
    ensures ExamplesSection(examplesContext).value == NoExamples <==>
      !Truthy(GetOr(examplesContext.fields, "successful_queries", List([])))
  {
    var queries := GetOr(examplesContext.fields, "successful_queries", List([]));
    ExamplesSectionCases(examplesContext);
    if Truthy(queries) {
      ExamplesHeaderNotPlaceholder(Lines(ExampleLines, Iterate(queries).value).value);
    }
  }

  // ---------------------------------------------------------------------
  // _build_patterns_section
  // ---------------------------------------------------------------------

  predicate IsLetter(c: char) {
    IsAsciiUpper(c) || IsAsciiLower(c)
  }

  /** str.title() from a position after a letter (afterLetter) or not. */
  function TitleFrom(s: string, afterLetter: bool): (r: string)
    ensures |r| == |s|
  {
    if s == [] then []
    else
      var c := s[0];
      [if !IsLetter(c) then c else if afterLetter then LowerChar(c) else UpperChar(c)]
      + TitleFrom(s[1..], IsLetter(c))
  }

  /** str.title() on ASCII: each run of letters starts upper-case and goes on lower-case. */
  function Title(s: string): string {
    TitleFrom(s, false)
  }

  lemma {:induction false} TitleFromIdempotent(s: string, afterLetter: bool)
    ensures TitleFrom(TitleFrom(s, afterLetter), afterLetter) == TitleFrom(s, afterLetter)
    decreases |s|
  {
    if s != [] {
      var t := TitleFrom(s, afterLetter);
      assert IsLetter(t[0]) == IsLetter(s[0]);
      assert t[1..] == TitleFrom(s[1..], IsLetter(s[0]));
      TitleFromIdempotent(s[1..], IsLetter(s[0]));
    }
  }

  lemma {:induction false} TitleFromKeepsLetters(s: string, afterLetter: bool)
    ensures Lower(TitleFrom(s, afterLetter)) == Lower(s)
    decreases |s|
  {
    if s != [] {
      TitleFromKeepsLetters(s[1..], IsLetter(s[0]));
    }
  }

  /** Titling a category name twice changes nothing, and it changes only the case of letters. */
  lemma TitleProperties(s: string)
    ensures Title(Title(s)) == Title(s)
    ensures Lower(Title(s)) == Lower(s)
  {
    TitleFromIdempotent(s, false);
    TitleFromKeepsLetters(s, false);
  }

  /** f"## {category.title()} Patterns" */
  function CategoryHeading(category: string): string {
    "## " + Title(category) + " Patterns"
  }

  /** One category: its heading, the lines of its patterns with a phrase, and a blank line. */
  function CategoryLines(category: (string, Value)): Result<seq<string>> {
    match Iterate(category.1)
    case None => Failure(NotIterable(category.1))
    case Some(patterns) =>
      match Lines(PhraseLine, patterns)
      case Failure(e) => Failure(e)
      case Success(ls) => Success([CategoryHeading(category.0)] + ls + [""])
  }

  /** _build_patterns_section on the examples context. */
  function PatternsSection(examplesContext: Value): Result<string> {
    match Get(examplesContext, "nl_patterns", Obj([]))
    case Failure(e) => Failure(e)
    case Success(patterns) =>
      if !Truthy(patterns) then Success(NoPatterns)
      else if !patterns.Obj? then Failure(NoAttribute(patterns, "items"))
      else
        match Lines(CategoryLines, patterns.fields)
        case Failure(e) => Failure(e)
        case Success(ls) => Success(Join([PatternsHeader] + ls, "\n"))
  }

  method RenderCategory(category: (string, Value)) returns (r: Result<seq<string>>)
    ensures r == CategoryLines(category)
  {
    var patterns := Iterate(category.1);
    if patterns.None? {
      return Failure(NotIterable(category.1));
    }
    var lines := RenderLines(PhraseLine, patterns.value);
    if lines.Failure? {
      return Failure(lines.error);
    }
    r := Success([CategoryHeading(category.0)] + lines.value + [""]);
  }

  /** The loop over the categories, each rendered by RenderCategory. */
  method RenderCategories(categories: Dict) returns (r: Result<seq<string>>)
    ensures r == Lines(CategoryLines, categories)
  {
    var lines: seq<string> := [];
    for i := 0 to |categories|
      invariant Lines(CategoryLines, categories[..i]) == Success(lines)
    {
      var more := RenderCategory(categories[i]);
      LinesStep(CategoryLines, categories, i, lines);
      if more.Failure? {
        LinesFailureSticks(CategoryLines, categories, i + 1);
        return Failure(more.error);
      }
      lines := lines + more.value;
    }
    assert categories[..|categories|] == categories;
    r := Success(lines);
  }

  method BuildPatternsSection(examplesContext: Value) returns (r: Result<string>)
    ensures r == PatternsSection(examplesContext)
  {
    var patterns := Get(examplesContext, "nl_patterns", Obj([]));
    if patterns.Failure? {
      return Failure(patterns.error);
    }
    if !Truthy(patterns.value) {
      return Success(NoPatterns);
    }
    if !patterns.value.Obj? {
      return Failure(NoAttribute(patterns.value, "items"));
    }
    var lines := RenderCategories(patterns.value.fields);
    if lines.Failure? {
      return Failure(lines.error);
    }
    r := Success(Join([PatternsHeader] + lines.value, "\n"));
  }

  /** A pattern is listed when it is a dict whose phrase is truthy. */
  predicate Kept(pattern: Value) {
    pattern.Obj? && Truthy(GetOr(pattern.fields, "phrase", Str("")))
  }

  function KeptCount(patterns: seq<Value>): nat {
    if patterns == [] then 0
    else KeptCount(patterns[..|patterns| - 1]) + if Kept(patterns[|patterns| - 1]) then 1 else 0
  }

  /** One line per pattern with a phrase and none for the others; every line is a phrase line. */
  lemma {:induction false} PhrasesKept(patterns: seq<Value>)
    requires Lines(PhraseLine, patterns).Success?
    ensures |Lines(PhraseLine, patterns).value| == KeptCount(patterns)
    ensures forall k :: 0 <= k < |Lines(PhraseLine, patterns).value| ==>
      StartsWith(Lines(PhraseLine, patterns).value[k], "- \"")
  {
    var ls := Lines(PhraseLine, patterns).value;
    if patterns != [] {
      PhrasesKept(patterns[..|patterns| - 1]);
    }
    forall k | 0 <= k < |ls| ensures StartsWith(ls[k], "- \"") {
      LinesAllFrom(PhraseLine, patterns, k);
      var i, j :| 0 <= i < |patterns| && PhraseLine(patterns[i]).Success? &&
        0 <= j < |PhraseLine(patterns[i]).value| && PhraseLine(patterns[i]).value[j] == ls[k];
      PhraseLineStarts(patterns[i]);
    }
  }

  /** Every line a pattern renders is a phrase line. */
  lemma PhraseLineStarts(pattern: Value)
    requires PhraseLine(pattern).Success?
    ensures forall j :: 0 <= j < |PhraseLine(pattern).value| ==> StartsWith(PhraseLine(pattern).value[j], "- \"")
  {
    if PhraseLine(pattern).value != [] {
      var rest := PyStr(GetOr(pattern.fields, "phrase", Str(""))) + "\"" + Arrow + DescribePattern(pattern.fields);
      assert PhraseText(pattern.fields) == "- \"" + rest;
      LabelStarts("- \"", rest);
    }
  }

  /** The number of lines that open a markdown section ("## "). */
  function Headings(lines: seq<string>): nat {
    if lines == [] then 0
    else Headings(lines[..|lines| - 1]) + if StartsWith(lines[|lines| - 1], "## ") then 1 else 0
  }

  lemma {:induction false} HeadingsAppend(a: seq<string>, b: seq<string>)
    ensures Headings(a + b) == Headings(a) + Headings(b)
    decreases |b|
  {
    if b != [] {
      assert (a + b)[..|a + b| - 1] == a + b[..|b| - 1];
      HeadingsAppend(a, b[..|b| - 1]);
    } else {
      assert a + b == a;
    }
  }

  lemma {:induction false} NoHeadings(lines: seq<string>)
    requires forall k :: 0 <= k < |lines| ==> StartsWith(lines[k], "- \"")
    ensures Headings(lines) == 0
  {
    if lines != [] {
      NoHeadings(lines[..|lines| - 1]);
      assert lines[|lines| - 1][1] != "## "[1];
    }
  }

  /** Each category contributes exactly one heading, whatever its patterns. */
  lemma {:induction false} OneHeadingPerCategory(categories: Dict)
    requires Lines(CategoryLines, categories).Success?
    ensures Headings(Lines(CategoryLines, categories).value) == |categories|
  {
    if categories != [] {
      var front := categories[..|categories| - 1];
      var last := categories[|categories| - 1];
      OneHeadingPerCategory(front);
      var ls := Lines(PhraseLine, Iterate(last.1).value).value;
      PhrasesKept(Iterate(last.1).value);
      NoHeadings(ls);
      HeadingsAppend([CategoryHeading(last.0)], ls);
      HeadingsAppend([CategoryHeading(last.0)] + ls, [""]);
      assert Headings([CategoryHeading(last.0)]) == 1 by {
        assert [CategoryHeading(last.0)][..0] == [];
      }
      assert Headings([""]) == 0 by {
        assert [""][..0] == [];
      }
      HeadingsAppend(Lines(CategoryLines, front).value, CategoryLines(last).value);
    }
  }

  /** The patterns section is the placeholder exactly when there are no pattern categories. */
  lemma PatternsPlaceholder(examplesContext: Value)
    requires PatternsSection(examplesContext).Success?
    ensures examplesContext.Obj?
    ensures PatternsSection(examplesContext).value == NoPatterns <==>
      !Truthy(GetOr(examplesContext.fields, "nl_patterns", Obj([])))
  {
    var patterns := GetOr(examplesContext.fields, "nl_patterns", Obj([]));
    if Truthy(patterns) {
      var ls := Lines(CategoryLines, patterns.fields).value;
      assert PatternsSection(examplesContext).value == Join([PatternsHeader] + ls, "\n");
      PatternsHeaderNotPlaceholder(ls);
    }
  }

  /** A rendered patterns section never reads as the placeholder. */
  lemma PatternsHeaderNotPlaceholder(ls: seq<string>)
    ensures Join([PatternsHeader] + ls, "\n") != NoPatterns
  {
    HeaderIsNotPlaceholder(PatternsHeader, ls, NoPatterns, 3);
  }

  /**
   * _describe_pattern's precedence: the first letter of the description
   * tells which key decided it, and a key is read only when every key before
   * it is absent.
   */
  lemma DescribePatternPrecedence(pattern: Dict)
    ensures var r := DescribePattern(pattern);
      var measure := HasKey(pattern, "cube_measure");
      var dimension := HasKey(pattern, "cube_dimension");
      var filter := HasKey(pattern, "cube_filter");
      var operator := HasKey(pattern, "cube_operator");
      r != "" &&
      (r[0] == 'm' <==> measure) &&
      (r[0] == 'd' <==> !measure && dimension) &&
      (r[0] == 'f' <==> !measure && !dimension && filter) &&
      (r[0] == 'o' <==> !measure && !dimension && !filter && operator) &&
      (r[0] == 'p' <==> !measure && !dimension && !filter && !operator) &&
      (measure ==> r == "measure: " + PyStr(DictGet(pattern, "cube_measure").value)) &&
      (!measure && dimension ==> r == "dimension: " + PyStr(DictGet(pattern, "cube_dimension").value)) &&
      (!measure && !dimension && filter ==> r == "filter/time dimension") &&
      (!measure && !dimension && !filter && operator ==> r == "operator: " + PyStr(DictGet(pattern, "cube_operator").value)) &&
      (!measure && !dimension && !filter && !operator ==> r == "pattern mapping")
  {
  }

  // ---------------------------------------------------------------------
  // _format_entities, _format_metrics, _format_questions
  // ---------------------------------------------------------------------

  /** _format_entities (placeholder NoEntities) and _format_metrics (placeholder NoMetrics). */
  function FormatNamed(items: Value, placeholder: string): Result<string> {
    if !Truthy(items) then Success(placeholder)
    else
      match Iterate(items)
      case None => Failure(NotIterable(items))
      case Some(xs) =>
        match Lines(NamedLine, xs)
        case Failure(e) => Failure(e)
        case Success(ls) => Success(Join(ls, "\n"))
  }

  method FormatNamedList(items: Value, placeholder: string) returns (r: Result<string>)
    ensures r == FormatNamed(items, placeholder)
  {
    if !Truthy(items) {
      return Success(placeholder);
    }
    var xs := Iterate(items);
    if xs.None? {
      return Failure(NotIterable(items));
    }
    var formatted := RenderLines(NamedLine, xs.value);
    if formatted.Failure? {
      return Failure(formatted.error);
    }
    r := Success(Join(formatted.value, "\n"));
  }

  /** _format_questions: one "- question" line per question. */
  function FormatQuestions(questions: Value): Result<string> {
    if !Truthy(questions) then Success(NoQuestions)
    else
      match Iterate(questions)
      case None => Failure(NotIterable(questions))
      case Some(xs) => Success(Join(seq(|xs|, i requires 0 <= i < |xs| => "- " + PyStr(xs[i])), "\n"))
  }

  /**
   * The entity and metric lists are their placeholder exactly when the list
   * is empty; otherwise every entry's "**name**: description" line is in it.
   */
  lemma NamedListed(items: Value, placeholder: string)
    requires placeholder == NoEntities || placeholder == NoMetrics
    requires FormatNamed(items, placeholder).Success?
    ensures FormatNamed(items, placeholder).value == placeholder <==> !Truthy(items)
    ensures Truthy(items) ==> forall i :: 0 <= i < |Visited(items)| ==>
      Visited(items)[i].Obj? && Contains(FormatNamed(items, placeholder).value, NamedText(Visited(items)[i].fields))
  {
    if Truthy(items) {
      var xs := Iterate(items).value;
      TruthyIterableNonEmpty(items);
      LinesSucceed(NamedLine, xs);
      LinesOneEach(NamedLine, xs);
      var ls := Lines(NamedLine, xs).value;
      JoinStartsWithFirst(ls, "\n");
      assert ls[0][0] == '*' && placeholder[0] == 'N';
      forall i | 0 <= i < |xs| ensures Contains(Join(ls, "\n"), NamedText(xs[i].fields)) {
        JoinContainsPart(ls, "\n", i);
      }
    }
  }

  /** The question list is its placeholder exactly when there are no questions; otherwise each question is listed. */
  lemma QuestionsListed(questions: Value)
    requires FormatQuestions(questions).Success?
    ensures FormatQuestions(questions).value == NoQuestions <==> !Truthy(questions)
    ensures Truthy(questions) ==> forall i :: 0 <= i < |Visited(questions)| ==>
      Contains(FormatQuestions(questions).value, "- " + PyStr(Visited(questions)[i]))
  {
    if Truthy(questions) {
      var xs := Iterate(questions).value;
      TruthyIterableNonEmpty(questions);
      var ls := seq(|xs|, i requires 0 <= i < |xs| => "- " + PyStr(xs[i]));
      JoinStartsWithFirst(ls, "\n");
      assert ls[0][0] == '-' && NoQuestions[0] == 'N';
      forall i | 0 <= i < |xs| ensures Contains(Join(ls, "\n"), "- " + PyStr(xs[i])) {
        JoinContainsPart(ls, "\n", i);
      }
    }
  }

  // ---------------------------------------------------------------------
  // build_context_summary
  // ---------------------------------------------------------------------

  /** `.get` on the value an earlier step produced, unless that step raised. */
  function Chain(r: Result<Value>, key: string, default: Value): Result<Value> {
    match r
    case Failure(e) => Failure(e)
    case Success(v) => Get(v, key, default)
  }

  /** len() of the value an earlier step produced. */
  function LenOf(r: Result<Value>): (l: Result<Value>)
    ensures r.Success? && r.value.List? ==> l == Success(Int(|r.value.items|))
  {
    match r
    case Failure(e) => Failure(e)
    case Success(v) =>
      match PyLen(v)
      case None => Failure(NoLen(v))
      case Some(n) => Success(Int(n))
  }

  /** bool() of the value an earlier step produced. */
  function TruthOf(r: Result<Value>): Result<Value> {
    match r
    case Failure(e) => Failure(e)
    case Success(v) => Success(Bool(Truthy(v)))
  }

  /** sum(len(view.get(key, [])) for view in views) */
  function SumLens(views: seq<Value>, key: string): (r: Result<nat>)
    ensures r.Success? <==>
      forall i :: 0 <= i < |views| ==> views[i].Obj? && PyLen(GetOr(views[i].fields, key, List([]))).Some?
  {
    if views == [] then Success(0)
    else
      var front := views[..|views| - 1];
      var last := views[|views| - 1];
      assert forall i :: 0 <= i < |front| ==> front[i] == views[i];
      match SumLens(front, key)
      case Failure(e) => Failure(e)
      case Success(total) =>
        match Get(last, key, List([]))
        case Failure(e) => Failure(e)
        case Success(v) =>
          match PyLen(v)
          case None => Failure(NoLen(v))
          case Some(n) => Success(total + n)
  }

  /** The total over the views of a value, or the error of iterating it. */
  function TotalOf(views: Value, key: string): Result<Value> {
    match Iterate(views)
    case None => Failure(NotIterable(views))
    case Some(xs) =>
      match SumLens(xs, key)
      case Failure(e) => Failure(e)
      case Success(n) => Success(Int(n))
  }

  /** A three-entry dict literal: its entries are evaluated in order and the first that raises wins. */
  function Record3(k1: string, r1: Result<Value>, k2: string, r2: Result<Value>, k3: string, r3: Result<Value>): Result<Value> {
    if r1.Failure? then Failure(r1.error)
    else if r2.Failure? then Failure(r2.error)
    else if r3.Failure? then Failure(r3.error)
    else Success(Obj([(k1, r1.value), (k2, r2.value), (k3, r3.value)]))
  }

  function BusinessSummary(business: Value): Result<Value> {
    var domain := Get(business, "domain_info", Obj([]));
    Record3("has_domain_info", TruthOf(Get(business, "domain_info", Null)),
            "entities_count", LenOf(Chain(domain, "entities", List([]))),
            "metrics_count", LenOf(Chain(domain, "key_metrics", List([]))))
  }

  function ViewsSummary(views: Value): Result<Value> {
    Record3("views_count", LenOf(Success(views)),
            "total_dimensions", TotalOf(views, "dimensions"),
            "total_measures", TotalOf(views, "measures"))
  }

  function ExamplesSummary(examples: Value): Result<Value> {
    Record3("successful_queries", LenOf(Get(examples, "successful_queries", List([]))),
            "pattern_categories", LenOf(Get(examples, "nl_patterns", Obj([]))),
            "ambiguous_examples", LenOf(Get(examples, "ambiguous_examples", List([]))))
  }

  /** build_context_summary */
  function ContextSummary(context: Dict): Result<Value> {
    Record3("business_context", BusinessSummary(GetOr(context, "business_context", Obj([]))),
            "view_specifications", ViewsSummary(GetOr(context, "view_specifications", List([]))),
            "examples_context", ExamplesSummary(GetOr(context, "examples_context", Obj([]))))
  }

  /** The total over two runs of views is the sum of their totals. */
  lemma {:induction false} SumLensAppend(a: seq<Value>, b: seq<Value>, key: string)
    requires SumLens(a + b, key).Success?
    ensures SumLens(a, key).Success? && SumLens(b, key).Success?
    ensures SumLens(a + b, key).value == SumLens(a, key).value + SumLens(b, key).value
    decreases |b|
  {
    assert forall i :: 0 <= i < |a| ==> (a + b)[i] == a[i];
    assert forall i :: 0 <= i < |b| ==> (a + b)[|a| + i] == b[i];
    if b == [] {
      assert a + b == a;
    } else {
      var front := b[..|b| - 1];
      assert (a + b)[..|a + b| - 1] == a + front;
      SumLensAppend(a, front, key);
    }
  }

  /** One view counts the length of its list, zero when it has none. */
  lemma SumLensOne(view: Value, key: string)
    requires SumLens([view], key).Success?
    ensures view.Obj?
    ensures SumLens([view], key).value == PyLen(GetOr(view.fields, key, List([]))).value
    ensures !HasKey(view.fields, key) ==> SumLens([view], key).value == 0
  {
    assert [view][..0] == [];
  }

  // ---------------------------------------------------------------------
  // validate_prompt_components
  // ---------------------------------------------------------------------

  const MissingDomain := "Missing business domain information"
  const NoViewsIssue := "No view specifications available"
  const NoExamplesIssue := "No successful query examples available"
  const MissingTemplatePrefix := "Missing template file: "

  const BaseTemplate := "system_prompt_base.txt"
  const BusinessTemplate := "business_context.txt"
  const ApiTemplate := "cube_api_instructions.txt"
  const AmbiguityTemplate := "ambiguity_instructions.txt"

  /** The templates the check requires; the business-context template is not among them. */
  const RequiredTemplates := [BaseTemplate, ApiTemplate, AmbiguityTemplate]

  /** The issues about the context, one per missing component, in the order checked. */
  function ContextGaps(context: Dict): (r: Result<seq<string>>)
    ensures r.Success? ==> |r.value| <= 3
    ensures r.Success? ==>
      (Get(GetOr(context, "business_context", Obj([])), "domain_info", Null).Success? &&
       (MissingDomain in r.value <==> !Truthy(Get(GetOr(context, "business_context", Obj([])), "domain_info", Null).value)))
    ensures r.Success? ==> (NoViewsIssue in r.value <==> !Truthy(GetOr(context, "view_specifications", List([]))))
    ensures r.Success? ==>
      (Get(GetOr(context, "examples_context", Obj([])), "successful_queries", Null).Success? &&
       (NoExamplesIssue in r.value <==> !Truthy(Get(GetOr(context, "examples_context", Obj([])), "successful_queries", Null).value)))
    ensures r.Success? ==> forall g :: g in r.value ==> g == MissingDomain || g == NoViewsIssue || g == NoExamplesIssue
  {
    match Get(GetOr(context, "business_context", Obj([])), "domain_info", Null)
    case Failure(e) => Failure(e)
    case Success(domain) =>
      match Get(GetOr(context, "examples_context", Obj([])), "successful_queries", Null)
      case Failure(e) => Failure(e)
      case Success(queries) =>
        Success((if Truthy(domain) then [] else [MissingDomain])
                + (if Truthy(GetOr(context, "view_specifications", List([]))) then [] else [NoViewsIssue])
                + (if Truthy(queries) then [] else [NoExamplesIssue]))
  }

  /** One issue per template of names missing from the templates directory, in order. */
  function MissingTemplates(names: seq<string>, present: set<string>): seq<string> {
    if names == [] then []
    else
      var last := names[|names| - 1];
      MissingTemplates(names[..|names| - 1], present) + if last in present then [] else [MissingTemplatePrefix + last]
  }

  /** validate_prompt_components, with the file names found in the templates directory. */
  function PromptIssues(context: Dict, present: set<string>): Result<seq<string>> {
    match ContextGaps(context)
    case Failure(e) => Failure(e)
    case Success(gaps) => Success(gaps + MissingTemplates(RequiredTemplates, present))
  }

  method ValidatePromptComponents(context: Dict, present: set<string>) returns (r: Result<seq<string>>)
    ensures r == PromptIssues(context, present)
  {
    var issues: seq<string> := [];
    var domain := Get(GetOr(context, "business_context", Obj([])), "domain_info", Null);
    if domain.Failure? {
      return Failure(domain.error);
    }
    if !Truthy(domain.value) {
      issues := issues + [MissingDomain];
    }
    if !Truthy(GetOr(context, "view_specifications", List([]))) {
      issues := issues + [NoViewsIssue];
    }
    var queries := Get(GetOr(context, "examples_context", Obj([])), "successful_queries", Null);
    if queries.Failure? {
      return Failure(queries.error);
    }
    if !Truthy(queries.value) {
      issues := issues + [NoExamplesIssue];
    }
    assert issues == (if Truthy(domain.value) then [] else [MissingDomain])
      + (if Truthy(GetOr(context, "view_specifications", List([]))) then [] else [NoViewsIssue])
      + (if Truthy(queries.value) then [] else [NoExamplesIssue]);
    var missing := CheckTemplates(RequiredTemplates, present);
    r := Success(issues + missing);
  }

  /** The loop over the required templates: one issue per name missing from the directory. */
  method CheckTemplates(required: seq<string>, present: set<string>) returns (issues: seq<string>)
    ensures issues == MissingTemplates(required, present)
  {
    issues := [];
    for i := 0 to |required|
      invariant issues == MissingTemplates(required[..i], present)
    {
      assert required[..i + 1][..i] == required[..i];
      if required[i] !in present {
        issues := issues + [MissingTemplatePrefix + required[i]];
      }
    }
    assert required[..|required|] == required;
  }

  /** A template is reported exactly when it is among the names and missing from the directory. */
  lemma {:induction false} MissingTemplatesReported(names: seq<string>, present: set<string>, t: string)
    ensures MissingTemplatePrefix + t in MissingTemplates(names, present) <==> t in names && t !in present
  {
    if names != [] {
      var front := names[..|names| - 1];
      var last := names[|names| - 1];
      MissingTemplatesReported(front, present, t);
      assert names == front + [last];
      if MissingTemplatePrefix + t == MissingTemplatePrefix + last {
        assert (MissingTemplatePrefix + t)[|MissingTemplatePrefix|..] == t;
        assert (MissingTemplatePrefix + last)[|MissingTemplatePrefix|..] == last;
      }
    }
  }

  /** Only the listed names matter: two directories that agree on them give the same issues. */
  lemma {:induction false} MissingTemplatesAgree(names: seq<string>, p1: set<string>, p2: set<string>)
    requires forall n :: n in names ==> (n in p1 <==> n in p2)
    ensures MissingTemplates(names, p1) == MissingTemplates(names, p2)
  {
    if names != [] {
      MissingTemplatesAgree(names[..|names| - 1], p1, p2);
    }
  }

  /**
   * The business-context template is loaded by the prompt but is not checked:
   * whether it exists never changes the issues.
   */
  lemma BusinessTemplateNotChecked(context: Dict, present: set<string>)
    ensures PromptIssues(context, present + {BusinessTemplate}) == PromptIssues(context, present - {BusinessTemplate})
  {
    assert BusinessTemplate != BaseTemplate && BusinessTemplate != ApiTemplate && BusinessTemplate != AmbiguityTemplate by {
      assert BusinessTemplate[0] != BaseTemplate[0] && BusinessTemplate[0] != ApiTemplate[0] && BusinessTemplate[0] != AmbiguityTemplate[0];
    }
    MissingTemplatesAgree(RequiredTemplates, present + {BusinessTemplate}, present - {BusinessTemplate});
  }

  /**
   * The issues are the context's gaps followed by one line per missing
   * required template; each required template is reported exactly when it
   * is absent.
   */
  lemma IssuesReported(context: Dict, present: set<string>, t: string)
    requires PromptIssues(context, present).Success?
    ensures var issues := PromptIssues(context, present).value;
      |issues| <= 6 &&
      (MissingTemplatePrefix + t in issues <==> t in RequiredTemplates && t !in present)
  {
    var gaps := ContextGaps(context).value;
    MissingTemplatesReported(RequiredTemplates, present, t);
    MissingTemplatesLength(RequiredTemplates, present);
    NotAGap(t);
  }

  lemma {:induction false} MissingTemplatesLength(names: seq<string>, present: set<string>)
    ensures |MissingTemplates(names, present)| <= |names|
  {
    if names != [] {
      MissingTemplatesLength(names[..|names| - 1], present);
    }
  }

  lemma NotAGap(t: string)
    ensures MissingTemplatePrefix + t != MissingDomain
    ensures MissingTemplatePrefix + t != NoViewsIssue && MissingTemplatePrefix + t != NoExamplesIssue
  {
    assert (MissingTemplatePrefix + t)[8] == 't' && MissingDomain[8] == 'b';
    assert (MissingTemplatePrefix + t)[0] == 'M' && NoViewsIssue[0] == 'N' && NoExamplesIssue[0] == 'N';
  }
}
