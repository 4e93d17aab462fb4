/*
 * The context manager of the system-prompt generator: where the view
 * specifications come from (the Cube metadata fetcher when one is supplied
 * and it yields views, the YAML files of the views directory otherwise), the
 * conversion of the fetcher's views into view specifications, the check of
 * the directory layout, the metadata that accompanies a generated prompt,
 * and the list of available view names.
 *
 * The directories, the YAML files found in the views directory, the rendered
 * prompt and the clock are inputs.  A YAML file arrives as a Json.YamlFile.
 */
module ContextManager {
  import opened Common
  import opened Json
  import MF = MetadataFetcher
  import YmlParser
  import BusinessConfig
  import ExampleManager

  // ---------------------------------------------------------------------
  // Views from the Cube metadata
  // ---------------------------------------------------------------------

  /** A value that may be None. */
  function OptStr(x: Option<string>): Value {
    if x.Some? then Str(x.value) else Null
  }

  /** A measure of a fetched view: its name, title and description. */
  function MeasureSpec(m: MF.MeasureInfo): Dict {
    [("name", OptStr(m.name)), ("title", Str(m.title)), ("description", Str(m.description))]
  }

  /** A dimension of a fetched view: its name, title and description; its type is not copied. */
  function DimensionSpec(d: MF.DimensionInfo): Dict {
    [("name", OptStr(d.name)), ("title", Str(d.title)), ("description", Str(d.description))]
  }

  function MeasureSpecs(ms: seq<MF.MeasureInfo>): seq<Value> {
    seq(|ms|, i requires 0 <= i < |ms| => Obj(MeasureSpec(ms[i])))
  }

  function DimensionSpecs(ds: seq<MF.DimensionInfo>): seq<Value> {
    seq(|ds|, i requires 0 <= i < |ds| => Obj(DimensionSpec(ds[i])))
  }

  /**
   * One entry of get_all_views_metadata as a view specification.  Only
   * successful answers are listed, so an entry is a View; any other answer
   * would read as the `.get` defaults.
   */
  function ViewSpec(v: MF.ViewResult): Dict {
    if v.View? then
      [("name", OptStr(v.view)), ("title", OptStr(v.title)), ("description", Str(v.description)),
       ("type", Str(v.kind)), ("measures", List(MeasureSpecs(v.measures))),
       ("dimensions", List(DimensionSpecs(v.dimensions)))]
    else
      [("name", Null), ("title", Null), ("description", Str("")), ("type", Str("cube")),
       ("measures", List([])), ("dimensions", List([]))]
  }

  const FetchFailed := "Failed to fetch views metadata: "

  /** _fetch_dynamic_cube_views on the answer of get_all_views_metadata. */
  function DynamicViews(all: MF.AllViewsResult): Result<seq<Dict>> {
    match all
    case AllNotLoaded => Failure(FetchFailed + MF.NotLoadedError)
    case AllViews(views, _, _) => Success(seq(|views|, i requires 0 <= i < |views| => ViewSpec(views[i])))
  }

  /** A fetched view becomes a specification with six keys, in this order. */
  lemma ViewSpecKeys(v: MF.ViewResult)
    requires v.View?
    ensures Keys(ViewSpec(v)) == ["name", "title", "description", "type", "measures", "dimensions"]
  {
  }

  /** A fetched view's specification carries the view's name, title and type. */
  lemma ViewSpecIdentity(v: MF.ViewResult)
    requires v.View?
    ensures var s := ViewSpec(v);
      DictGet(s, "name") == Some(OptStr(v.view)) && DictGet(s, "title") == Some(OptStr(v.title)) &&
      DictGet(s, "type") == Some(Str(v.kind))
  {
    var s := ViewSpec(v);
    DictGetAt(s, 0);
    DictGetAt(s, 1);
    DictGetAt(s, 3);
  }

  /** A fetched view's specification lists its measures and its dimensions, converted one by one. */
  lemma ViewSpecLists(v: MF.ViewResult)
    requires v.View?
    ensures DictGet(ViewSpec(v), "measures") == Some(List(MeasureSpecs(v.measures)))
    ensures DictGet(ViewSpec(v), "dimensions") == Some(List(DimensionSpecs(v.dimensions)))
  {
    var s := ViewSpec(v);
    DictGetAt(s, 4);
    DictGetAt(s, 5);
  }

  /** One entry per measure, in the fetcher's order, each with the measure's name and without a type. */
  lemma MeasureSpecsNamed(ms: seq<MF.MeasureInfo>)
    ensures var specs := MeasureSpecs(ms);
      |specs| == |ms| &&
      forall j :: 0 <= j < |ms| ==>
        specs[j].Obj? && DictGet(specs[j].fields, "name") == Some(OptStr(ms[j].name)) && !HasKey(specs[j].fields, "type")
  {
    forall j | 0 <= j < |ms|
      ensures DictGet(MeasureSpec(ms[j]), "name") == Some(OptStr(ms[j].name)) && !HasKey(MeasureSpec(ms[j]), "type")
    {
      DictGetAt(MeasureSpec(ms[j]), 0);
    }
  }

  /** One entry per dimension, in the fetcher's order, each with the dimension's name and without its type. */
  lemma DimensionSpecsNamed(ds: seq<MF.DimensionInfo>)
    ensures var specs := DimensionSpecs(ds);
      |specs| == |ds| &&
      forall j :: 0 <= j < |ds| ==>
        specs[j].Obj? && DictGet(specs[j].fields, "name") == Some(OptStr(ds[j].name)) && !HasKey(specs[j].fields, "type")
  {
    forall j | 0 <= j < |ds|
      ensures DictGet(DimensionSpec(ds[j]), "name") == Some(OptStr(ds[j].name)) && !HasKey(DimensionSpec(ds[j]), "type")
    {
      DictGetAt(DimensionSpec(ds[j]), 0);
    }
  }

  /**
   * With metadata loaded, the conversion succeeds with one specification per
   * listed view, in order, each named after its view; without it, it fails
   * with the fetcher's error.
   */
  lemma DynamicViewsFollowFetcher(metadata: Option<MF.Metadata>, timestamp: Option<string>)
    ensures !MF.Loaded(metadata) ==>
      DynamicViews(MF.AllViewsFor(metadata, timestamp)) == Failure(FetchFailed + MF.NotLoadedError)
    ensures MF.Loaded(metadata) ==>
      var views := MF.AllViewsFor(metadata, timestamp).views;
      var r := DynamicViews(MF.AllViewsFor(metadata, timestamp));
      r.Success? && |r.value| == |views| &&
      forall i :: 0 <= i < |views| ==> views[i].View? && DictGet(r.value[i], "name") == Some(OptStr(views[i].view))
  {
    if MF.Loaded(metadata) {
      var views := MF.AllViewsFor(metadata, timestamp).views;
      MF.KeptAreViews(metadata, MF.Cubes(metadata.value));
      forall i | 0 <= i < |views| ensures DictGet(ViewSpec(views[i]), "name") == Some(OptStr(views[i].view)) {
        ViewSpecIdentity(views[i]);
      }
    }
  }

  // ---------------------------------------------------------------------
  // Views from the YAML files
  // ---------------------------------------------------------------------

  /**
   * parse_view_file on one file of the views directory: a file that cannot be
   * loaded, is empty, is not a mapping, or fails the parser gives nothing.
   */
  function StaticView(file: (string, YamlFile)): Option<Dict> {
    var (path, f) := file;
    if !f.Document? || !Truthy(f.content) || !f.content.Obj? then None
    else
      match YmlParser.ViewContent(f.content.fields, path)
      case Success(v) => Some(v)
      case Failure(_) => None
  }

  /** The parsed views of the files, in order, the failing ones skipped. */
  function Parsed(files: seq<(string, YamlFile)>): seq<Dict> {
    if files == [] then []
    else
      var v := StaticView(files[|files| - 1]);
      Parsed(files[..|files| - 1]) + if v.Some? then [v.value] else []
  }

  /** _parse_static_yaml_views over the `*.yml` then `*.yaml` files found. */
  function StaticViews(viewsDirExists: bool, files: seq<(string, YamlFile)>): seq<Dict> {
    if viewsDirExists then Parsed(files) else []
  }

  /**
   * Every static view comes from a file that parses and carries a non-empty
   * name; there are never more views than files, and exactly as many when
   * every file parses.
   */
  lemma {:induction false} ParsedViewsNamed(files: seq<(string, YamlFile)>)
    ensures |Parsed(files)| <= |files|
    ensures (forall i :: 0 <= i < |files| ==> StaticView(files[i]).Some?) ==> |Parsed(files)| == |files|
    ensures forall v :: v in Parsed(files) ==> Truthy(GetOr(v, "name", Null))
  {
    if files != [] {
      var front := files[..|files| - 1];
      var last := files[|files| - 1];
      ParsedViewsNamed(front);
      assert forall i :: 0 <= i < |front| ==> front[i] == files[i];
      var v := StaticView(last);
      if v.Some? {
        YmlParser.ParsedViewHasName(last.1.content.fields, last.0);
      }
    }
  }

  // ---------------------------------------------------------------------
  // Checking the layout
  // ---------------------------------------------------------------------

  datatype SetupReport = SetupReport(status: string, issues: seq<string>, warnings: seq<string>)

  const NoViewFiles := "No YML view files found in my-cube-views directory"

  function MissingDirectory(path: string): string {
    "Missing directory: " + path
  }

  /** One issue per required directory that does not exist, in order. */
  function MissingDirectories(dirs: seq<(string, bool)>): seq<string> {
    if dirs == [] then []
    else
      var last := dirs[|dirs| - 1];
      MissingDirectories(dirs[..|dirs| - 1]) + if !last.1 then [MissingDirectory(last.0)] else []
  }

  /** How many of the directories do not exist. */
  function CountMissing(dirs: seq<(string, bool)>): nat {
    if dirs == [] then 0 else CountMissing(dirs[..|dirs| - 1]) + if !dirs[|dirs| - 1].1 then 1 else 0
  }

  /** validate_context_setup for the views, templates and config directories and the YAML files found. */
  function Setup(dirs: seq<(string, bool)>, viewsDirExists: bool, viewFiles: nat): SetupReport {
    var issues := MissingDirectories(dirs);
    SetupReport(if issues == [] then "valid" else "invalid", issues,
                if viewsDirExists && viewFiles == 0 then [NoViewFiles] else [])
  }

  lemma {:induction false} MissingCounted(dirs: seq<(string, bool)>)
    ensures |MissingDirectories(dirs)| == CountMissing(dirs)
    ensures MissingDirectories(dirs) == [] <==> forall i :: 0 <= i < |dirs| ==> dirs[i].1
  {
    if dirs != [] {
      var front := dirs[..|dirs| - 1];
      MissingCounted(front);
      assert forall i :: 0 <= i < |front| ==> front[i] == dirs[i];
    }
  }

  /**
   * The layout is 'invalid' exactly when a directory is missing, with one
   * issue per missing directory; a views directory without YAML files is only
   * a warning.
   */
  lemma SetupStatus(dirs: seq<(string, bool)>, viewsDirExists: bool, viewFiles: nat)
    ensures var r := Setup(dirs, viewsDirExists, viewFiles);
      (r.status == "invalid" <==> exists i :: 0 <= i < |dirs| && !dirs[i].1) &&
      (r.status == "valid" || r.status == "invalid") &&
      |r.issues| == CountMissing(dirs) &&
      (r.warnings != [] <==> viewsDirExists && viewFiles == 0)
  {
    MissingCounted(dirs);
  }

  // ---------------------------------------------------------------------
  // The prompt's metadata and the view names
  // ---------------------------------------------------------------------

  const PromptFailed := "Failed to generate system prompt: "

  /**
   * The answer of generate_system_prompt once the business context, the
   * views and the examples are loaded and the prompt is built (or its
   * building raised): the prompt with its counts and timestamp.
   */
  function PromptResult(business: Dict, views: seq<Dict>, examples: Dict, built: Result<string>, timestamp: string): Result<Dict> {
    if built.Failure? then Failure(PromptFailed + built.error)
    else
      var queries := GetOr(examples, "successful_queries", List([]));
      var entities := GetOr(business, "entities", List([]));
      match (PyLen(queries), PyLen(entities))
      case (None, _) => Failure(PromptFailed + NoLen(queries))
      case (_, None) => Failure(PromptFailed + NoLen(entities))
      case (Some(examplesCount), Some(entityCount)) =>
        Success([("system_prompt", Str(built.value)),
                 ("metadata", Obj(Counts(|views|, examplesCount, entityCount, timestamp)))])
  }

  function Counts(views: nat, examples: nat, entities: nat, timestamp: string): Dict {
    [("views_count", Int(views)), ("examples_count", Int(examples)),
     ("business_entities", Int(entities)), ("generation_timestamp", Str(timestamp))]
  }

  lemma CountsRead(views: nat, examples: nat, entities: nat, timestamp: string)
    ensures var m := Counts(views, examples, entities, timestamp);
      DictGet(m, "views_count") == Some(Int(views)) && DictGet(m, "examples_count") == Some(Int(examples)) &&
      DictGet(m, "business_entities") == Some(Int(entities))
  {
    var m := Counts(views, examples, entities, timestamp);
    DictGetAt(m, 0);
    DictGetAt(m, 1);
    DictGetAt(m, 2);
  }

  /** The metadata of a generated prompt. */
  function PromptMetadata(r: Dict): Dict {
    var m := GetOr(r, "metadata", Obj([]));
    if m.Obj? then m.fields else []
  }

  /**
   * A generated prompt reports as many views as it was given, as many
   * examples as there are successful queries, and as many business entities
   * as the context's top-level `entities` list holds, none when it has none.
   */
  lemma PromptCounts(business: Dict, views: seq<Dict>, examples: Dict, built: Result<string>, timestamp: string,
                     queries: seq<Value>)
    requires built.Success? && !HasKey(business, "entities")
    requires DictGet(examples, "successful_queries") == Some(List(queries))
    ensures var r := PromptResult(business, views, examples, built, timestamp);
      r.Success? &&
      DictGet(PromptMetadata(r.value), "views_count") == Some(Int(|views|)) &&
      DictGet(PromptMetadata(r.value), "examples_count") == Some(Int(|queries|)) &&
      DictGet(PromptMetadata(r.value), "business_entities") == Some(Int(0))
  {
    var r := PromptResult(business, views, examples, built, timestamp).value;
    DictGetAt(r, 1);
    assert PromptMetadata(r) == Counts(|views|, |queries|, 0, timestamp);
    CountsRead(|views|, |queries|, 0, timestamp);
  }

  /**
   * The business context never has a top-level `entities` key, so a
   * generated prompt always reports zero business entities, next to its
   * view count and the number of successful queries loaded.
   */
  lemma BusinessEntitiesAlwaysZero(domain: YamlFile, settings: YamlFile, ambiguity: YamlFile, configPath: string,
                                   views: seq<Dict>, queries: YamlFile, patterns: YamlFile, ambiguous: YamlFile,
                                   examplesPath: string, built: Result<string>, timestamp: string)
    requires built.Success?
    requires ExampleManager.LoadSuccessfulQueries(queries).List?
    ensures var business := BusinessConfig.LoadBusinessContext(domain, settings, ambiguity, configPath);
      var examples := ExampleManager.LoadAllExamples(queries, patterns, ambiguous, examplesPath);
      var r := PromptResult(business, views, examples, built, timestamp);
      r.Success? &&
      DictGet(PromptMetadata(r.value), "business_entities") == Some(Int(0)) &&
      DictGet(PromptMetadata(r.value), "views_count") == Some(Int(|views|)) &&
      DictGet(PromptMetadata(r.value), "examples_count") == Some(Int(|ExampleManager.LoadSuccessfulQueries(queries).items|))
  {
    BusinessConfig.BusinessContextShape(domain, settings, ambiguity, configPath);
    ExampleManager.ExamplesFallBack(queries, patterns, ambiguous, examplesPath);
    PromptCounts(BusinessConfig.LoadBusinessContext(domain, settings, ambiguity, configPath), views,
                 ExampleManager.LoadAllExamples(queries, patterns, ambiguous, examplesPath), built, timestamp,
                 ExampleManager.LoadSuccessfulQueries(queries).items);
  }

  /** A prompt that cannot be generated fails with the generator's prefix on the cause. */
  lemma PromptFailuresPrefixed(business: Dict, views: seq<Dict>, examples: Dict, built: Result<string>, timestamp: string)
    ensures var r := PromptResult(business, views, examples, built, timestamp);
      r.Failure? ==> exists cause :: r.error == PromptFailed + cause
    ensures built.Failure? ==> PromptResult(business, views, examples, built, timestamp) == Failure(PromptFailed + built.error)
  {
    var r := PromptResult(business, views, examples, built, timestamp);
    if r.Failure? {
      if built.Failure? {
        assert r.error == PromptFailed + built.error;
      } else if PyLen(GetOr(examples, "successful_queries", List([]))).None? {
        assert r.error == PromptFailed + NoLen(GetOr(examples, "successful_queries", List([])));
      } else {
        assert r.error == PromptFailed + NoLen(GetOr(business, "entities", List([])));
      }
    }
  }

  /** get_available_views: each view's name, 'unnamed' for a view without one. */
  function ViewNames(views: seq<Dict>): (r: seq<Value>)
    ensures |r| == |views|
  {
    seq(|views|, i requires 0 <= i < |views| => GetOr(views[i], "name", Str("unnamed")))
  }

  /** A parsed YAML view always has a non-empty name, so 'unnamed' is never substituted for a static view. */
  lemma StaticNamesAreNames(viewsDirExists: bool, files: seq<(string, YamlFile)>)
    ensures var vs := StaticViews(viewsDirExists, files);
      forall i :: 0 <= i < |vs| ==> (Truthy(ViewNames(vs)[i]) && Some(ViewNames(vs)[i]) == DictGet(vs[i], "name"))
  {
    if viewsDirExists {
      ParsedViewsNamed(files);
      var vs := Parsed(files);
      forall i | 0 <= i < |vs| ensures Truthy(GetOr(vs[i], "name", Null)) {
        assert vs[i] in vs;
      }
    }
  }

  /** The names listed for fetched views are the fetcher's view names, in order. */
  lemma DynamicNamesAreViews(metadata: Option<MF.Metadata>, timestamp: Option<string>)
    requires MF.Loaded(metadata)
    ensures var views := MF.AllViewsFor(metadata, timestamp).views;
      var names := ViewNames(DynamicViews(MF.AllViewsFor(metadata, timestamp)).value);
      |names| == |views| && forall i :: 0 <= i < |views| ==> views[i].View? && names[i] == OptStr(views[i].view)
  {
    DynamicViewsFollowFetcher(metadata, timestamp);
  }

  // ---------------------------------------------------------------------
  // The manager
  // ---------------------------------------------------------------------

  /** The views to use: the fetched ones when there are any, the YAML ones otherwise. */
  function ChooseViews(dynamic: Option<Result<seq<Dict>>>, staticViews: seq<Dict>): seq<Dict> {
    if dynamic.Some? && dynamic.value.Success? && dynamic.value.value != [] then dynamic.value.value
    else staticViews
  }

  /**
   * A fetcher without metadata, or one listing no views, leaves the YAML
   * views in place; a fetcher listing views supplies them all, one per
   * listed view and named after it.
   */
  lemma ViewsSource(metadata: Option<MF.Metadata>, timestamp: Option<string>, staticViews: seq<Dict>)
    ensures var all := MF.AllViewsFor(metadata, timestamp);
      var chosen := ChooseViews(Some(DynamicViews(all)), staticViews);
      (!MF.Loaded(metadata) || all.views == [] ==> chosen == staticViews) &&
      (MF.Loaded(metadata) && all.views != [] ==>
        |chosen| == |all.views| &&
        forall i :: 0 <= i < |all.views| ==> all.views[i].View? && DictGet(chosen[i], "name") == Some(OptStr(all.views[i].view)))
  {
    DynamicViewsFollowFetcher(metadata, timestamp);
  }

  class Manager {
    const viewsPath: string
    const templatesPath: string
    const configPath: string
    const fetcher: MF.CubeMetadataFetcher?
    const useDynamicMetadata: bool

    /** The directories sit under the base path; dynamic metadata is used exactly when a fetcher is supplied. */
    constructor(basePath: string, fetcher: MF.CubeMetadataFetcher?)
      ensures this.fetcher == fetcher && useDynamicMetadata == (fetcher != null)
      ensures viewsPath == PathJoin(basePath, "my-cube-views") && templatesPath == PathJoin(basePath, "templates")
      ensures configPath == PathJoin(basePath, "config")
    {
      viewsPath := PathJoin(basePath, "my-cube-views");
      templatesPath := PathJoin(basePath, "templates");
      configPath := PathJoin(basePath, "config");
      this.fetcher := fetcher;
      useDynamicMetadata := fetcher != null;
    }

    /** The outcome of fetching views, None when no fetcher was supplied. */
    function Dynamic(): Option<Result<seq<Dict>>>
      reads fetcher
    {
      if useDynamicMetadata && fetcher != null then
        Some(DynamicViews(MF.AllViewsFor(fetcher.metadata, fetcher.metadataTimestamp)))
      else None
    }

    /** _fetch_dynamic_cube_views */
    method FetchDynamicCubeViews() returns (r: Result<seq<Dict>>)
      requires fetcher != null
      ensures r == DynamicViews(MF.AllViewsFor(fetcher.metadata, fetcher.metadataTimestamp))
    {
      var all := fetcher.GetAllViewsMetadata();
      if all.AllNotLoaded? {
        return Failure(FetchFailed + MF.NotLoadedError);
      }
      var views := all.views;
      var specs: seq<Dict> := [];
      for i := 0 to |views|
        invariant |specs| == i && forall j :: 0 <= j < i ==> specs[j] == ViewSpec(views[j])
      {
        var spec := ConvertView(views[i]);
        specs := specs + [spec];
      }
      assert specs == seq(|views|, i requires 0 <= i < |views| => ViewSpec(views[i]));
      r := Success(specs);
    }

    /** _parse_cube_views: the fetched views when a fetcher is supplied and yields some, the YAML ones otherwise. */
    method ParseCubeViews(viewsDirExists: bool, files: seq<(string, YamlFile)>) returns (views: seq<Dict>)
      ensures views == ChooseViews(Dynamic(), StaticViews(viewsDirExists, files))
      ensures fetcher == null ==> views == StaticViews(viewsDirExists, files)
    {
      if useDynamicMetadata && fetcher != null {
        var dynamic := FetchDynamicCubeViews();
        if dynamic.Success? && dynamic.value != [] {
          return dynamic.value;
        }
      }
      views := ParseStaticYamlViews(viewsDirExists, files);
    }

    /** validate_context_setup; the issues the two sub-validators return are not kept. */
    method ValidateContextSetup(viewsExists: bool, templatesExists: bool, configExists: bool, viewFiles: nat,
                                domain: YamlFile, settings: YamlFile,
                                examplesExist: bool, queries: YamlFile, patterns: YamlFile)
      returns (r: SetupReport)
      ensures r == Setup([(viewsPath, viewsExists), (templatesPath, templatesExists), (configPath, configExists)],
                         viewsExists, viewFiles)
    {
      var required := [(viewsPath, viewsExists), (templatesPath, templatesExists), (configPath, configExists)];
      var issues: seq<string> := [];
      var status := "valid";
      for i := 0 to |required|
        invariant issues == MissingDirectories(required[..i])
        invariant status == if issues == [] then "valid" else "invalid"
      {
        assert required[..i + 1][..i] == required[..i];
        if !required[i].1 {
          issues := issues + [MissingDirectory(required[i].0)];
          status := "invalid";
        }
      }
      assert required[..|required|] == required;
      var warnings: seq<string> := [];
      if viewsExists && viewFiles == 0 {
        warnings := [NoViewFiles];
      }
      var businessIssues := BusinessConfig.ValidateConfiguration(configExists, configPath, domain, settings);
      var exampleIssues := ExampleManager.ValidateExamples(examplesExist, PathJoin(templatesPath, "examples"),
        ExampleManager.LoadSuccessfulQueries(queries), ExampleManager.LoadNlPatterns(patterns));
      r := SetupReport(status, issues, warnings);
    }

    /** generate_system_prompt: the prompt's text is built from templates outside this model and arrives as `built`. */
    method GenerateSystemPrompt(domain: YamlFile, settings: YamlFile, ambiguity: YamlFile,
                                viewsDirExists: bool, files: seq<(string, YamlFile)>,
                                queries: YamlFile, patterns: YamlFile, ambiguous: YamlFile,
                                built: Result<string>, timestamp: string)
      returns (r: Result<Dict>)
      ensures r == PromptResult(BusinessConfig.LoadBusinessContext(domain, settings, ambiguity, configPath),
                                ChooseViews(Dynamic(), StaticViews(viewsDirExists, files)),
                                ExampleManager.LoadAllExamples(queries, patterns, ambiguous, PathJoin(templatesPath, "examples")),
                                built, timestamp)
    {
      var business := BusinessConfig.LoadBusinessContext(domain, settings, ambiguity, configPath);
      var views := ParseCubeViews(viewsDirExists, files);
      var examples := ExampleManager.LoadAllExamples(queries, patterns, ambiguous, PathJoin(templatesPath, "examples"));
      r := PromptResult(business, views, examples, built, timestamp);
    }

    /** get_available_views */
    method GetAvailableViews(viewsDirExists: bool, files: seq<(string, YamlFile)>) returns (names: seq<Value>)
      ensures names == ViewNames(ChooseViews(Dynamic(), StaticViews(viewsDirExists, files)))
    {
      var views := ParseCubeViews(viewsDirExists, files);
      names := ViewNames(views);
    }
  }

  /** One fetched view converted, its measures and dimensions in order. */
  method ConvertView(v: MF.ViewResult) returns (spec: Dict)
    ensures spec == ViewSpec(v)
  {
    if !v.View? {
      return ViewSpec(v);
    }
    var measures: seq<Value> := [];
    for j := 0 to |v.measures|
      invariant |measures| == j && forall k :: 0 <= k < j ==> measures[k] == Obj(MeasureSpec(v.measures[k]))
    {
      measures := measures + [Obj(MeasureSpec(v.measures[j]))];
    }
    var dimensions: seq<Value> := [];
    for j := 0 to |v.dimensions|
      invariant |dimensions| == j && forall k :: 0 <= k < j ==> dimensions[k] == Obj(DimensionSpec(v.dimensions[k]))
    {
      dimensions := dimensions + [Obj(DimensionSpec(v.dimensions[j]))];
    }
    assert measures == MeasureSpecs(v.measures);
    assert dimensions == DimensionSpecs(v.dimensions);
    spec := [("name", OptStr(v.view)), ("title", OptStr(v.title)), ("description", Str(v.description)),
             ("type", Str(v.kind)), ("measures", List(measures)), ("dimensions", List(dimensions))];
  }

  /** _parse_static_yaml_views */
  method ParseStaticYamlViews(viewsDirExists: bool, files: seq<(string, YamlFile)>) returns (views: seq<Dict>)
    ensures views == StaticViews(viewsDirExists, files)
  {
    views := [];
    if !viewsDirExists {
      return;
    }
    for i := 0 to |files|
      invariant views == Parsed(files[..i])
    {
      assert files[..i + 1][..i] == files[..i];
      var v := StaticView(files[i]);
      if v.Some? {
        views := views + [v.value];
      } else {
        assert views + [] == views;
      }
    }
    assert files[..|files|] == files;
  }
}
