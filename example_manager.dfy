/*
 * The query examples of the system-prompt generator: successful queries,
 * natural-language patterns and ambiguous examples loaded from three YAML
 * files with built-in defaults, the word-overlap ranking of successful
 * queries against a user's question, the pattern suggestions, and the check
 * of the example files.  Reading the files is not modelled: each arrives as
 * a Json.YamlFile.
 */
module ExampleManager {
  import opened Common
  import opened Json

  // ---------------------------------------------------------------------
  // Built-in defaults
  // ---------------------------------------------------------------------

  const EventView := "EventPerformanceOverview"

  function CubeQuery(measures: seq<string>, dimensions: seq<string>): Dict {
    [("measures", List(Strs(measures))), ("dimensions", List(Strs(dimensions)))]
  }

  function Example(name: string, naturalLanguage: string, cubeQuery: Dict, description: string): Value {
    Obj([("name", Str(name)), ("natural_language", Str(naturalLanguage)),
         ("cube_query", Obj(cubeQuery)), ("description", Str(description))])
  }

  const RevenueMeasure := EventView + ".total_order_value"

  const DefaultSuccessfulQueries: seq<Value> := [
    Example("Event Revenue and Sales Metrics", "Show me revenue and ticket sales for each event",
            CubeQuery([RevenueMeasure, EventView + ".total_tickets_sold"], [EventView + ".name", EventView + ".start_date"]),
            "Basic revenue and sales metrics grouped by event"),
    Example("Top Performing Events", "Which events generated the most revenue?",
            CubeQuery([RevenueMeasure], [EventView + ".name"]) +
              [("order", Obj([(RevenueMeasure, Str("desc"))])), ("limit", Int(10))],
            "Top 10 events by revenue with sorting and limiting")]

  function Pattern(phrase: string, key: string, value: Value): Value {
    Obj([("phrase", Str(phrase)), (key, value)])
  }

  function DateRange(range: Value): Value {
    Obj([("time_dimension", Obj([("dateRange", range)]))])
  }

  const DefaultNlPatterns: Dict := [
    ("temporal", List([
      Pattern("last month", "cube_filter", DateRange(List(Strs(["2024-08-01", "2024-08-31"])))),
      Pattern("this year", "cube_filter", DateRange(Str("This year")))])),
    ("aggregation", List([
      Pattern("total revenue", "cube_measure", Str("total_order_value")),
      Pattern("number of tickets sold", "cube_measure", Str("total_tickets_sold"))])),
    ("grouping", List([
      Pattern("by event", "cube_dimension", Str("name")),
      Obj([("phrase", Str("by month")), ("cube_dimension", Str("start_date")), ("granularity", Str("month"))])]))]

  function Clarification(message: string, questions: seq<string>, suggestions: seq<string>): Value {
    Obj([("type", Str("clarification_needed")), ("message", Str(message)),
         ("questions", List(Strs(questions))), ("suggestions", List(Strs(suggestions)))])
  }

  const PerformanceQuestion := "What type of performance are you interested in? (revenue, attendance, sales)"

  const DefaultAmbiguousExamples: seq<Value> := [
    Obj([("ambiguous_query", Str("Show me performance")),
         ("clarification_response", Clarification("I need clarification to provide accurate results:",
           [PerformanceQuestion, "What time period should I analyze?", "How would you like the results grouped?"],
           ["Show event revenue performance for last month", "Show ticket sales performance by event name"]))]),
    Obj([("ambiguous_query", Str("What are the numbers?")),
         ("clarification_response", Clarification("I need more specific information:",
           ["Which metrics are you looking for?", "For what time period?", "What level of detail do you need?"],
           ["Show total revenue for all events", "Show monthly ticket sales numbers"]))])]

  // ---------------------------------------------------------------------
  // Loading
  // ---------------------------------------------------------------------

  /**
   * `content.get(key, empty)` on a loaded mapping; an absent file, a load
   * error, or a document without `.get` all give the default.
   */
  function LoadEntry(f: YamlFile, key: string, empty: Value, default: Value): Value {
    var g := Loaded(f);
    if g.Document? && g.content.Obj? then GetOr(g.content.fields, key, empty) else default
  }

  function LoadSuccessfulQueries(f: YamlFile): Value {
    LoadEntry(f, "queries", List([]), List(DefaultSuccessfulQueries))
  }

  function LoadNlPatterns(f: YamlFile): Value {
    LoadEntry(f, "patterns", Obj([]), Obj(DefaultNlPatterns))
  }

  function LoadAmbiguousExamples(f: YamlFile): Value {
    LoadEntry(f, "ambiguous_queries", List([]), List(DefaultAmbiguousExamples))
  }

  /** load_all_examples */
  function LoadAllExamples(queries: YamlFile, patterns: YamlFile, ambiguous: YamlFile, examplesPath: string): Dict {
    [("successful_queries", LoadSuccessfulQueries(queries)),
     ("nl_patterns", LoadNlPatterns(patterns)),
     ("ambiguous_examples", LoadAmbiguousExamples(ambiguous)),
     ("metadata", Obj([("examples_loaded", Bool(true)), ("examples_path", Str(examplesPath))]))]
  }

  /**
   * Each kind of example is the file's entry when the loaded file is a
   * mapping and the built-in default otherwise; an empty file loads as {}
   * and so gives the empty entry, not the default; the context always
   * carries the successful queries under "successful_queries".
   */
  lemma ExamplesFallBack(queries: YamlFile, patterns: YamlFile, ambiguous: YamlFile, examplesPath: string)
    ensures !(Loaded(queries).Document? && Loaded(queries).content.Obj?) ==> LoadSuccessfulQueries(queries) == List(DefaultSuccessfulQueries)
    ensures !(Loaded(patterns).Document? && Loaded(patterns).content.Obj?) ==> LoadNlPatterns(patterns) == Obj(DefaultNlPatterns)
    ensures !(Loaded(ambiguous).Document? && Loaded(ambiguous).content.Obj?) ==> LoadAmbiguousExamples(ambiguous) == List(DefaultAmbiguousExamples)
    ensures queries.Document? && queries.content.Obj? && !HasKey(queries.content.fields, "queries") ==>
      LoadSuccessfulQueries(queries) == List([])
    ensures queries == Document(Null) ==> LoadSuccessfulQueries(queries) == List([])
    ensures patterns == Document(Null) ==> LoadNlPatterns(patterns) == Obj([])
    ensures ambiguous == Document(Null) ==> LoadAmbiguousExamples(ambiguous) == List([])
    ensures DictGet(LoadAllExamples(queries, patterns, ambiguous, examplesPath), "successful_queries") ==
      Some(LoadSuccessfulQueries(queries))
  {
    DictGetAt(LoadAllExamples(queries, patterns, ambiguous, examplesPath), 0);
  }

  // ---------------------------------------------------------------------
  // Ranking successful queries by word overlap
  // ---------------------------------------------------------------------

  /** set(text.lower().split()) */
  function WordSet(text: string): set<string> {
    Distinct(Words(Lower(text)))
  }

  /** The set of the strings of a list. */
  function Distinct(ws: seq<string>): set<string> {
    if ws == [] then {} else {ws[0]} + Distinct(ws[1..])
  }

  /** |A ∩ B| / |A ∪ B|, exactly. */
  function Score(user: set<string>, words: set<string>): real
    requires user * words != {}
  {
    (|user * words| as real) / (|user + words| as real)
  }

  /**
   * A copy of the successful query at `position` of the loaded list, with the
   * similarity score it is given.  The position is not part of the Python
   * dictionary; it records the list order that decides ties.
   */
  datatype Similar = Similar(position: nat, query: Dict, score: real)

  /** One successful query: a candidate when it shares a word with the user's; `.get` and `.lower` may raise. */
  function Candidate(user: set<string>, position: nat, query: Value): Result<Option<Similar>> {
    if !query.Obj? then Failure(NoAttribute(query, "get"))
    else
      var nl := GetOr(query.fields, "natural_language", Str(""));
      if !nl.Str? then Failure(NoAttribute(nl, "lower"))
      else
        var words := WordSet(nl.s);
        if user * words != {} then Success(Some(Similar(position, query.fields, Score(user, words))))
        else Success(None)
  }

  /** The candidates among the queries, in list order. */
  function Candidates(user: set<string>, queries: seq<Value>): Result<seq<Similar>> {
    if queries == [] then Success([])
    else
      match Candidates(user, queries[..|queries| - 1])
      case Failure(e) => Failure(e)
      case Success(cs) =>
        match Candidate(user, |queries| - 1, queries[|queries| - 1])
        case Failure(e) => Failure(e)
        case Success(c) => Success(cs + if c.Some? then [c.value] else [])
  }

  /** a comes before b in the sorted list: a higher score, or the same score and earlier in the list. */
  predicate Before(a: Similar, b: Similar) {
    a.score > b.score || (a.score == b.score && a.position < b.position)
  }

  predicate Ordered(s: seq<Similar>) {
    forall i, j :: 0 <= i < j < |s| ==> Before(s[i], s[j])
  }

  /** x, later in the list than every element of s, after each element scoring at least as much. */
  function InsertByScore(x: Similar, s: seq<Similar>): seq<Similar> {
    if s == [] then [x]
    else if s[0].score >= x.score then [s[0]] + InsertByScore(x, s[1..])
    else [x] + s
  }

  /** list.sort(key=score, reverse=True): stable, so equal scores keep their list order. */
  function SortByScore(cs: seq<Similar>): seq<Similar> {
    if cs == [] then []
    else InsertByScore(cs[|cs| - 1], SortByScore(cs[..|cs| - 1]))
  }

  /** find_similar_queries over the loaded successful queries. */
  function SimilarQueries(userQuery: string, loaded: Value): Result<seq<Similar>> {
    match Iterate(loaded)
    case None => Failure(NotIterable(loaded))
    case Some(queries) =>
      match Candidates(WordSet(userQuery), queries)
      case Failure(e) => Failure(e)
      case Success(cs) =>
        Success(TopThree(SortByScore(cs)))
  }

  method FindSimilarQueries(userQuery: string, loaded: Value) returns (r: Result<seq<Similar>>)
    ensures r == SimilarQueries(userQuery, loaded)
  {
    var queries := Iterate(loaded);
    if queries.None? {
      return Failure(NotIterable(loaded));
    }
    var userWords := WordSet(userQuery);
    var qs := queries.value;
    var similar: seq<Similar> := [];
    for i := 0 to |qs|
      invariant Candidates(userWords, qs[..i]) == Success(similar)
    {
      var c := Candidate(userWords, i, qs[i]);
      CandidatesStep(userWords, qs, i, similar);
      if c.Failure? {
        CandidateFailureSticks(userWords, qs, i + 1);
        return Failure(c.error);
      }
      if c.value.Some? {
        similar := similar + [c.value.value];
      } else {
        assert similar + [] == similar;
      }
    }
    assert qs[..|qs|] == qs;
    r := Success(TopThree(SortByScore(similar)));
  }

  /** One more query extends the candidates by its own, or fails with it. */
  lemma CandidatesStep(user: set<string>, queries: seq<Value>, i: nat, cs: seq<Similar>)
    requires i < |queries| && Candidates(user, queries[..i]) == Success(cs)
    ensures Candidates(user, queries[..i + 1]) ==
      match Candidate(user, i, queries[i])
      case Failure(e) => Failure(e)
      case Success(c) => Success(cs + if c.Some? then [c.value] else [])
  {
    assert queries[..i + 1][..i] == queries[..i];
  }

  lemma {:induction false} CandidateFailureSticks(user: set<string>, queries: seq<Value>, n: nat)
    requires n <= |queries| && Candidates(user, queries[..n]).Failure?
    ensures Candidates(user, queries) == Candidates(user, queries[..n])
  {
    if n < |queries| {
      var front := queries[..|queries| - 1];
      assert front[..n] == queries[..n];
      CandidateFailureSticks(user, front, n);
    } else {
      assert queries[..n] == queries;
    }
  }

  lemma SubsetSize<T>(a: set<T>, b: set<T>)
    requires a <= b
    ensures |a| <= |b|
    decreases a
  {
    if a != {} {
      var x :| x in a;
      SubsetSize(a - {x}, b - {x});
    }
  }

  /** A score is a fraction of shared words: positive, and at most 1. */
  lemma ScoreInRange(user: set<string>, words: set<string>)
    requires user * words != {}
    ensures 0.0 < Score(user, words) <= 1.0
  {
    SubsetSize(user * words, user + words);
    var o := |user * words| as real;
    var u := |user + words| as real;
    assert 0.0 < o <= u;
    assert Score(user, words) * u == o;
  }

  /** What makes c a candidate for the query at its position. */
  predicate Scored(user: set<string>, queries: seq<Value>, c: Similar) {
    c.position < |queries| && queries[c.position] == Obj(c.query) &&
    GetOr(c.query, "natural_language", Str("")).Str? &&
    var words := WordSet(GetOr(c.query, "natural_language", Str("")).s);
    user * words != {} && c.score == Score(user, words)
  }

  /** The candidates of a non-empty list: those of all but its last query, then the last one's. */
  lemma CandidatesLast(user: set<string>, queries: seq<Value>)
    requires queries != [] && Candidates(user, queries).Success?
    ensures var front := queries[..|queries| - 1];
      var c := Candidate(user, |queries| - 1, queries[|queries| - 1]);
      Candidates(user, front).Success? && c.Success? &&
      Candidates(user, queries).value == Candidates(user, front).value + if c.value.Some? then [c.value.value] else []
  {
  }

  /** Every candidate is the query at its position, scored by its word overlap. */
  lemma {:induction false} CandidatesScored(user: set<string>, queries: seq<Value>)
    requires Candidates(user, queries).Success?
    ensures var cs := Candidates(user, queries).value;
      forall k :: 0 <= k < |cs| ==> Scored(user, queries, cs[k])
  {
    if queries != [] {
      var front := queries[..|queries| - 1];
      CandidatesLast(user, queries);
      CandidatesScored(user, front);
      var cs := Candidates(user, front).value;
      forall k | 0 <= k < |cs| ensures Scored(user, queries, cs[k]) {
        assert Scored(user, front, cs[k]);
        assert queries[cs[k].position] == front[cs[k].position];
      }
    }
  }

  /** The candidates keep the list order of their queries. */
  lemma {:induction false} CandidatesInListOrder(user: set<string>, queries: seq<Value>)
    requires Candidates(user, queries).Success?
    ensures var cs := Candidates(user, queries).value;
      (forall k :: 0 <= k < |cs| ==> cs[k].position < |queries|) &&
      (forall k, l :: 0 <= k < l < |cs| ==> cs[k].position < cs[l].position)
  {
    if queries != [] {
      var front := queries[..|queries| - 1];
      CandidatesLast(user, queries);
      CandidatesInListOrder(user, front);
    }
  }

  /** The query at position p raises nothing, and is among cs when it is a candidate. */
  predicate Listed(user: set<string>, p: nat, query: Value, cs: seq<Similar>) {
    Candidate(user, p, query).Success? &&
    (Candidate(user, p, query).value.Some? ==> Candidate(user, p, query).value.value in cs)
  }

  lemma ListedInLonger(user: set<string>, p: nat, query: Value, cs: seq<Similar>, more: seq<Similar>)
    requires Listed(user, p, query, cs)
    ensures Listed(user, p, query, cs + more)
  {
  }

  /** The last query is listed once its own candidate, if any, is appended. */
  lemma LastListed(user: set<string>, p: nat, query: Value, cs: seq<Similar>)
    requires Candidate(user, p, query).Success?
    ensures var c := Candidate(user, p, query).value;
      Listed(user, p, query, cs + if c.Some? then [c.value] else [])
  {
  }

  /** Queries listed before a step stay listed after it. */
  lemma ListedAfterStep(user: set<string>, queries: seq<Value>, cs: seq<Similar>, more: seq<Similar>)
    requires queries != []
    requires forall p :: 0 <= p < |queries| - 1 ==> Listed(user, p, queries[p], cs)
    requires Listed(user, |queries| - 1, queries[|queries| - 1], cs + more)
    ensures forall p :: 0 <= p < |queries| ==> Listed(user, p, queries[p], cs + more)
  {
    forall p | 0 <= p < |queries| - 1 ensures Listed(user, p, queries[p], cs + more) {
      ListedInLonger(user, p, queries[p], cs, more);
    }
  }

  /** Every query sharing a word with the user's is among the candidates. */
  lemma {:induction false} CandidatesComplete(user: set<string>, queries: seq<Value>)
    requires Candidates(user, queries).Success?
    ensures forall p :: 0 <= p < |queries| ==> Listed(user, p, queries[p], Candidates(user, queries).value)
  {
    if queries != [] {
      var n := |queries| - 1;
      var front := queries[..n];
      CandidatesLast(user, queries);
      CandidatesComplete(user, front);
      var cs := Candidates(user, front).value;
      LastListed(user, n, queries[n], cs);
      var c := Candidate(user, n, queries[n]).value;
      var more := if c.Some? then [c.value] else [];
      assert forall p :: 0 <= p < n ==> front[p] == queries[p];
      ListedAfterStep(user, queries, cs, more);
    }
  }

  /** Inserting adds exactly the new element. */
  lemma {:induction false} InsertMembers(x: Similar, s: seq<Similar>)
    ensures multiset(InsertByScore(x, s)) == multiset(s) + multiset{x}
    ensures forall y :: y in InsertByScore(x, s) <==> y == x || y in s
  {
    if s != [] && s[0].score >= x.score {
      InsertMembers(x, s[1..]);
      assert s == [s[0]] + s[1..];
    }
  }

  /** Inserting a later element keeps the order and the elements. */
  lemma {:induction false} InsertKeepsOrder(x: Similar, s: seq<Similar>)
    requires Ordered(s)
    requires forall k :: 0 <= k < |s| ==> s[k].position < x.position
    ensures Ordered(InsertByScore(x, s))
    ensures multiset(InsertByScore(x, s)) == multiset(s) + multiset{x}
  {
    InsertMembers(x, s);
    if s != [] {
      if s[0].score >= x.score {
        var rest := s[1..];
        InsertKeepsOrder(x, rest);
        InsertMembers(x, rest);
        var t := InsertByScore(x, rest);
        forall j | 0 <= j < |t| ensures Before(s[0], t[j]) {
          if t[j] != x {
            assert t[j] in rest;
            var k :| 0 <= k < |rest| && rest[k] == t[j];
            assert Before(s[0], s[k + 1]);
          }
        }
        assert InsertByScore(x, s) == [s[0]] + t;
      } else {
        assert forall k :: 0 < k < |s| ==> Before(s[0], s[k]);
      }
    }
  }

  /** The sort is a permutation that puts higher scores first and keeps list order among equal scores. */
  lemma {:induction false} SortOrders(cs: seq<Similar>)
    requires forall k, l :: 0 <= k < l < |cs| ==> cs[k].position < cs[l].position
    ensures Ordered(SortByScore(cs))
    ensures multiset(SortByScore(cs)) == multiset(cs)
  {
    if cs != [] {
      var front := cs[..|cs| - 1];
      var x := cs[|cs| - 1];
      SortOrders(front);
      var s := SortByScore(front);
      forall k | 0 <= k < |s| ensures s[k].position < x.position {
        assert s[k] in multiset(front);
        var m :| 0 <= m < |front| && front[m] == s[k];
      }
      InsertKeepsOrder(x, s);
      assert cs == front + [x];
    }
  }

  /** The first three of a ranking, or all of it when shorter. */
  function TopThree(ranked: seq<Similar>): (r: seq<Similar>)
    ensures |r| <= 3 && |r| <= |ranked| && r == ranked[..|r|]
    ensures |ranked| <= 3 ==> r == ranked
  {
    ranked[..if |ranked| < 3 then |ranked| else 3]
  }

  /** A prefix of an ordered list is ordered, and outranks everything after it. */
  lemma PrefixOutranks(sorted: seq<Similar>, n: nat)
    requires Ordered(sorted) && n <= |sorted|
    ensures Ordered(sorted[..n])
    ensures forall c :: c in sorted && c !in sorted[..n] ==> forall k :: 0 <= k < n ==> Before(sorted[k], c)
  {
    forall c | c in sorted && c !in sorted[..n] ensures forall k :: 0 <= k < n ==> Before(sorted[k], c) {
      var m :| 0 <= m < |sorted| && sorted[m] == c;
      assert m >= n;
    }
  }

  /** Every ranked candidate is a scored query with a score in (0, 1]. */
  lemma RankedAreScored(user: set<string>, queries: seq<Value>)
    requires Candidates(user, queries).Success?
    ensures var sorted := SortByScore(Candidates(user, queries).value);
      forall k :: 0 <= k < |sorted| ==> Scored(user, queries, sorted[k]) && 0.0 < sorted[k].score <= 1.0
  {
    CandidatesScored(user, queries);
    CandidatesInListOrder(user, queries);
    var cs := Candidates(user, queries).value;
    SortOrders(cs);
    var sorted := SortByScore(cs);
    forall k | 0 <= k < |sorted| ensures Scored(user, queries, sorted[k]) && 0.0 < sorted[k].score <= 1.0 {
      assert sorted[k] in multiset(cs);
      var m :| 0 <= m < |cs| && cs[m] == sorted[k];
      assert Scored(user, queries, cs[m]);
      ScoreInRange(user, WordSet(GetOr(sorted[k].query, "natural_language", Str("")).s));
    }
  }

  /**
   * The top three of the ranked candidates: each is a scored query with a
   * score in (0, 1], they are in ranking order, and every candidate left out
   * ranks after all of them.
   */
  lemma RankedCandidates(user: set<string>, queries: seq<Value>)
    requires Candidates(user, queries).Success?
    ensures var cs := Candidates(user, queries).value;
      var r := TopThree(SortByScore(cs));
      Ordered(r) &&
      (forall k :: 0 <= k < |r| ==> Scored(user, queries, r[k]) && 0.0 < r[k].score <= 1.0) &&
      (forall c :: c in cs && c !in r ==> forall k :: 0 <= k < |r| ==> Before(r[k], c))
  {
    CandidatesInListOrder(user, queries);
    RankedAreScored(user, queries);
    var cs := Candidates(user, queries).value;
    SortOrders(cs);
    var sorted := SortByScore(cs);
    var r := TopThree(sorted);
    PrefixOutranks(sorted, |r|);
    forall c | c in cs ensures c in sorted {
      assert c in multiset(sorted);
    }
  }

  /**
   * find_similar_queries returns at most three queries, each the loaded query
   * itself with a score in (0, 1] equal to its word overlap ratio, ordered
   * by descending score with list order among ties; every candidate left out
   * comes after all of them in that order.
   */
  lemma TopThreeBestMatches(userQuery: string, loaded: Value)
    requires SimilarQueries(userQuery, loaded).Success?
    ensures var r := SimilarQueries(userQuery, loaded).value;
      var queries := Iterate(loaded).value;
      var user := WordSet(userQuery);
      var cs := Candidates(user, queries).value;
      |r| <= 3 && Ordered(r) &&
      (forall k :: 0 <= k < |r| ==> Scored(user, queries, r[k]) && 0.0 < r[k].score <= 1.0) &&
      (forall c :: c in cs && c !in r ==> forall k :: 0 <= k < |r| ==> Before(r[k], c))
  {
    RankedCandidates(WordSet(userQuery), Iterate(loaded).value);
  }

  // ---------------------------------------------------------------------
  // Pattern suggestions
  // ---------------------------------------------------------------------

  /** any(word in text for word in words) */
  function AnyWordIn(words: seq<string>, text: string): (r: bool)
    ensures r <==> exists i :: 0 <= i < |words| && Contains(text, words[i])
  {
    if words == [] then false
    else Contains(text, words[0]) || (assert forall i :: 0 < i < |words| ==> words[i] == words[1..][i - 1]; AnyWordIn(words[1..], text))
  }

  /** Whether a pattern is suggested for the lowercased query; `.get` and `.lower` may raise. */
  function PatternKept(queryLower: string, pattern: Value): Result<bool> {
    if !pattern.Obj? then Failure(NoAttribute(pattern, "get"))
    else
      var phrase := GetOr(pattern.fields, "phrase", Str(""));
      if !phrase.Str? then Failure(NoAttribute(phrase, "lower"))
      else Success(AnyWordIn(Words(Lower(phrase.s)), queryLower))
  }

  /** The patterns of one category that are suggested, in order. */
  function Matching(queryLower: string, patterns: seq<Value>): Result<seq<Value>> {
    if patterns == [] then Success([])
    else
      match Matching(queryLower, patterns[..|patterns| - 1])
      case Failure(e) => Failure(e)
      case Success(ms) =>
        match PatternKept(queryLower, patterns[|patterns| - 1])
        case Failure(e) => Failure(e)
        case Success(kept) => Success(ms + if kept then [patterns[|patterns| - 1]] else [])
  }

  /** One category's patterns, which must be iterable. */
  function CategoryMatches(queryLower: string, patterns: Value): Result<seq<Value>> {
    match Iterate(patterns)
    case None => Failure(NotIterable(patterns))
    case Some(ps) => Matching(queryLower, ps)
  }

  /** The suggestions for the categories, each set only when it has a match. */
  function Suggestions(queryLower: string, categories: Dict): Result<Dict> {
    if categories == [] then Success([])
    else
      var last := categories[|categories| - 1];
      match Suggestions(queryLower, categories[..|categories| - 1])
      case Failure(e) => Failure(e)
      case Success(d) =>
        match CategoryMatches(queryLower, last.1)
        case Failure(e) => Failure(e)
        case Success(ms) => Success(if ms != [] then DictSet(d, last.0, List(ms)) else d)
  }

  /** get_pattern_suggestions over the loaded patterns. */
  function PatternSuggestions(userQuery: string, nl: Value): Result<Dict> {
    if !nl.Obj? then Failure(NoAttribute(nl, "items"))
    else Suggestions(Lower(userQuery), nl.fields)
  }

  method GetPatternSuggestions(userQuery: string, nl: Value) returns (r: Result<Dict>)
    ensures r == PatternSuggestions(userQuery, nl)
  {
    if !nl.Obj? {
      return Failure(NoAttribute(nl, "items"));
    }
    var categories := nl.fields;
    var queryLower := Lower(userQuery);
    var suggestions: Dict := [];
    for c := 0 to |categories|
      invariant Suggestions(queryLower, categories[..c]) == Success(suggestions)
    {
      var matching := MatchCategory(queryLower, categories[c].1);
      SuggestionsStep(queryLower, categories, c, suggestions);
      if matching.Failure? {
        SuggestionFailureSticks(queryLower, categories, c + 1);
        return Failure(matching.error);
      }
      if matching.value != [] {
        suggestions := DictSet(suggestions, categories[c].0, List(matching.value));
      }
    }
    assert categories[..|categories|] == categories;
    r := Success(suggestions);
  }

  /** The patterns of one category suggested for the lowercased query. */
  method MatchCategory(queryLower: string, patterns: Value) returns (r: Result<seq<Value>>)
    ensures r == CategoryMatches(queryLower, patterns)
  {
    var it := Iterate(patterns);
    if it.None? {
      return Failure(NotIterable(patterns));
    }
    var ps := it.value;
    var matching: seq<Value> := [];
    for i := 0 to |ps|
      invariant Matching(queryLower, ps[..i]) == Success(matching)
    {
      var kept := PatternKept(queryLower, ps[i]);
      MatchingStep(queryLower, ps, i, matching);
      if kept.Failure? {
        MatchingFailureSticks(queryLower, ps, i + 1);
        return Failure(kept.error);
      }
      if kept.value {
        matching := matching + [ps[i]];
      } else {
        assert matching + [] == matching;
      }
    }
    assert ps[..|ps|] == ps;
    r := Success(matching);
  }

  lemma MatchingStep(queryLower: string, patterns: seq<Value>, i: nat, ms: seq<Value>)
    requires i < |patterns| && Matching(queryLower, patterns[..i]) == Success(ms)
    ensures Matching(queryLower, patterns[..i + 1]) ==
      match PatternKept(queryLower, patterns[i])
      case Failure(e) => Failure(e)
      case Success(kept) => Success(ms + if kept then [patterns[i]] else [])
  {
    assert patterns[..i + 1][..i] == patterns[..i];
  }

  lemma SuggestionsStep(queryLower: string, categories: Dict, i: nat, d: Dict)
    requires i < |categories| && Suggestions(queryLower, categories[..i]) == Success(d)
    ensures Suggestions(queryLower, categories[..i + 1]) ==
      match CategoryMatches(queryLower, categories[i].1)
      case Failure(e) => Failure(e)
      case Success(ms) => Success(if ms != [] then DictSet(d, categories[i].0, List(ms)) else d)
  {
    assert categories[..i + 1][..i] == categories[..i];
  }

  lemma {:induction false} MatchingFailureSticks(queryLower: string, patterns: seq<Value>, n: nat)
    requires n <= |patterns| && Matching(queryLower, patterns[..n]).Failure?
    ensures Matching(queryLower, patterns) == Matching(queryLower, patterns[..n])
  {
    if n < |patterns| {
      var front := patterns[..|patterns| - 1];
      assert front[..n] == patterns[..n];
      MatchingFailureSticks(queryLower, front, n);
    } else {
      assert patterns[..n] == patterns;
    }
  }

  lemma {:induction false} SuggestionFailureSticks(queryLower: string, categories: Dict, n: nat)
    requires n <= |categories| && Suggestions(queryLower, categories[..n]).Failure?
    ensures Suggestions(queryLower, categories) == Suggestions(queryLower, categories[..n])
  {
    if n < |categories| {
      var front := categories[..|categories| - 1];
      assert front[..n] == categories[..n];
      SuggestionFailureSticks(queryLower, front, n);
    } else {
      assert categories[..n] == categories;
    }
  }

  /** A category keeps exactly the patterns with a phrase word found in the query, in their order. */
  lemma {:induction false} MatchingIsFilter(queryLower: string, patterns: seq<Value>)
    requires Matching(queryLower, patterns).Success?
    ensures FilterOf(queryLower, patterns, Matching(queryLower, patterns).value)
  {
    if patterns != [] {
      var front := patterns[..|patterns| - 1];
      var last := patterns[|patterns| - 1];
      MatchingLast(queryLower, patterns);
      MatchingIsFilter(queryLower, front);
      FilterStep(queryLower, front, last, Matching(queryLower, front).value);
      assert patterns == front + [last];
    }
  }

  /** ms holds exactly the patterns kept, every one of which raises nothing. */
  predicate FilterOf(queryLower: string, patterns: seq<Value>, ms: seq<Value>) {
    |ms| <= |patterns| &&
    (forall p :: p in ms ==> p in patterns && PatternKept(queryLower, p) == Success(true)) &&
    (forall i :: 0 <= i < |patterns| ==> PatternKept(queryLower, patterns[i]).Success?) &&
    (forall i :: 0 <= i < |patterns| && PatternKept(queryLower, patterns[i]) == Success(true) ==> patterns[i] in ms)
  }

  lemma FilterStep(queryLower: string, front: seq<Value>, last: Value, ms: seq<Value>)
    requires FilterOf(queryLower, front, ms) && PatternKept(queryLower, last).Success?
    ensures FilterOf(queryLower, front + [last], ms + if PatternKept(queryLower, last).value then [last] else [])
  {
    var patterns := front + [last];
    assert forall i :: 0 <= i < |front| ==> patterns[i] == front[i];
  }

  /** The matches of a non-empty list: those of all but its last pattern, then the last one if kept. */
  lemma MatchingLast(queryLower: string, patterns: seq<Value>)
    requires patterns != [] && Matching(queryLower, patterns).Success?
    ensures var front := patterns[..|patterns| - 1];
      var last := patterns[|patterns| - 1];
      Matching(queryLower, front).Success? && PatternKept(queryLower, last).Success? &&
      Matching(queryLower, patterns).value ==
        Matching(queryLower, front).value + if PatternKept(queryLower, last).value then [last] else []
  {
  }

  /** The suggestions for a non-empty list of categories: those for all but the last, then the last one's. */
  lemma SuggestionsLast(queryLower: string, categories: Dict)
    requires categories != [] && Suggestions(queryLower, categories).Success?
    ensures var front := categories[..|categories| - 1];
      var last := categories[|categories| - 1];
      Suggestions(queryLower, front).Success? && CategoryMatches(queryLower, last.1).Success? &&
      var d := Suggestions(queryLower, front).value;
      var ms := CategoryMatches(queryLower, last.1).value;
      Suggestions(queryLower, categories).value == if ms != [] then DictSet(d, last.0, List(ms)) else d
  {
  }

  /** The suggestion for one category name, given the category's matches. */
  function SuggestionFor(queryLower: string, category: Option<Value>): Option<Value>
    requires category.Some? ==> CategoryMatches(queryLower, category.value).Success?
  {
    match category
    case None => None
    case Some(v) => var ms := CategoryMatches(queryLower, v).value; if ms != [] then Some(List(ms)) else None
  }

  /**
   * With distinct category names, a category is suggested exactly when it
   * has a matching pattern, and then with its matching patterns.
   */
  lemma {:induction false} SuggestionsPerCategory(queryLower: string, categories: Dict, name: string)
    requires DistinctKeys(categories)
    requires Suggestions(queryLower, categories).Success?
    ensures DictGet(categories, name).Some? ==> CategoryMatches(queryLower, DictGet(categories, name).value).Success?
    ensures DictGet(Suggestions(queryLower, categories).value, name) == SuggestionFor(queryLower, DictGet(categories, name))
  {
    if categories != [] {
      var front := categories[..|categories| - 1];
      var last := categories[|categories| - 1];
      assert DistinctKeys(front);
      SuggestionsLast(queryLower, categories);
      SuggestionsPerCategory(queryLower, front, name);
      var d := Suggestions(queryLower, front).value;
      var ms := CategoryMatches(queryLower, last.1).value;
      assert !HasKey(front, last.0);
      assert categories == front + [last];
      GetAppended(front, last, name);
      if ms != [] {
        if name == last.0 {
          DictSetGetSame(d, last.0, List(ms));
        } else {
          DictSetGetOther(d, last.0, List(ms), name);
        }
      }
    }
  }

  /** Looking up a dictionary with one more binding at its end: the earlier bindings win. */
  lemma {:induction false} GetAppended(d: Dict, entry: (string, Value), k: string)
    ensures DictGet(d + [entry], k) ==
      if HasKey(d, k) then DictGet(d, k) else if k == entry.0 then Some(entry.1) else None
  {
    if d == [] {
      assert d + [entry] == [entry];
    } else {
      assert (d + [entry])[1..] == d[1..] + [entry];
      GetAppended(d[1..], entry, k);
    }
  }

  // ---------------------------------------------------------------------
  // Checking the example files
  // ---------------------------------------------------------------------

  /** The issues so far and, once an entry raised, the exception's text. */
  datatype Scan = Scan(issues: seq<string>, error: Option<string>)

  function QueryIssues(i: nat, query: Dict): seq<string> {
    (if !Truthy(GetOr(query, "name", Null)) then ["Successful query " + NatToString(i) + " missing name"] else []) +
    (if !Truthy(GetOr(query, "cube_query", Null)) then ["Successful query " + NatToString(i) + " missing cube_query"] else [])
  }

  /** The successful queries checked in order until one lacks `.get`. */
  function QueryScan(queries: seq<Value>): Scan {
    if queries == [] then Scan([], None)
    else
      var s := QueryScan(queries[..|queries| - 1]);
      var q := queries[|queries| - 1];
      if s.error.Some? then s
      else if !q.Obj? then Scan(s.issues, Some(NoAttribute(q, "get")))
      else Scan(s.issues + QueryIssues(|queries| - 1, q.fields), None)
  }

  function PhraseIssue(category: string, i: nat): string {
    "NL pattern " + category + "[" + NatToString(i) + "] missing phrase"
  }

  /** One category's patterns checked in order until one lacks `.get`. */
  function PhraseScan(category: string, patterns: seq<Value>): Scan {
    if patterns == [] then Scan([], None)
    else
      var s := PhraseScan(category, patterns[..|patterns| - 1]);
      var p := patterns[|patterns| - 1];
      if s.error.Some? then s
      else if !p.Obj? then Scan(s.issues, Some(NoAttribute(p, "get")))
      else Scan(s.issues + if !Truthy(GetOr(p.fields, "phrase", Null)) then [PhraseIssue(category, |patterns| - 1)] else [], None)
  }

  /** The categories checked in order until a category or a pattern raises. */
  function CategoryScan(categories: Dict): Scan {
    if categories == [] then Scan([], None)
    else
      var s := CategoryScan(categories[..|categories| - 1]);
      var last := categories[|categories| - 1];
      if s.error.Some? then s
      else
        match Iterate(last.1)
        case None => Scan(s.issues, Some(NotIterable(last.1)))
        case Some(ps) =>
          var t := PhraseScan(last.0, ps);
          Scan(s.issues + t.issues, t.error)
  }

  /** A scan's issues, followed by the exception's report when one was raised. */
  function Report(s: Scan, prefix: string): seq<string> {
    s.issues + if s.error.Some? then [prefix + s.error.value] else []
  }

  const QueriesError := "Error validating successful queries: "
  const PatternsError := "Error validating NL patterns: "

  function SuccessfulQueryIssues(loaded: Value): seq<string> {
    match Iterate(loaded)
    case None => [QueriesError + NotIterable(loaded)]
    case Some(queries) => Report(QueryScan(queries), QueriesError)
  }

  function PatternIssues(nl: Value): seq<string> {
    if !nl.Obj? then [PatternsError + NoAttribute(nl, "items")]
    else Report(CategoryScan(nl.fields), PatternsError)
  }

  function DirectoryMissing(examplesPath: string): string {
    "Examples directory not found: " + examplesPath
  }

  /** validate_examples, over the successful queries and patterns as loaded. */
  function ExampleIssues(dirExists: bool, examplesPath: string, queries: Value, nl: Value): seq<string> {
    if !dirExists then [DirectoryMissing(examplesPath)]
    else SuccessfulQueryIssues(queries) + PatternIssues(nl)
  }

  method ValidateExamples(dirExists: bool, examplesPath: string, queries: Value, nl: Value)
    returns (issues: seq<string>)
    ensures issues == ExampleIssues(dirExists, examplesPath, queries, nl)
    ensures !dirExists ==> issues == [DirectoryMissing(examplesPath)]
  {
    if !dirExists {
      return [DirectoryMissing(examplesPath)];
    }
    issues := CheckQueries(queries);
    var patternIssues := CheckPatterns(nl);
    issues := issues + patternIssues;
  }

  /** The successful-queries half of validate_examples. */
  method CheckQueries(loaded: Value) returns (issues: seq<string>)
    ensures issues == SuccessfulQueryIssues(loaded)
  {
    var queries := Iterate(loaded);
    if queries.None? {
      return [QueriesError + NotIterable(loaded)];
    }
    var qs := queries.value;
    issues := [];
    var error: Option<string> := None;
    for i := 0 to |qs|
      invariant error.None? ==> QueryScan(qs[..i]) == Scan(issues, None)
      invariant error.Some? ==> QueryScan(qs) == Scan(issues, error)
    {
      if error.None? {
        QueryScanStep(qs, i);
        var q := qs[i];
        if !q.Obj? {
          error := Some(NoAttribute(q, "get"));
          QueryScanSticks(qs, i + 1);
          assert qs[..|qs|] == qs;
        } else {
          issues := issues + QueryIssues(i, q.fields);
        }
      }
    }
    assert qs[..|qs|] == qs;
    if error.Some? {
      issues := issues + [QueriesError + error.value];
    }
  }

  /** The NL-pattern half of validate_examples. */
  method CheckPatterns(nl: Value) returns (issues: seq<string>)
    ensures issues == PatternIssues(nl)
  {
    if !nl.Obj? {
      return [PatternsError + NoAttribute(nl, "items")];
    }
    var categories := nl.fields;
    issues := [];
    var error: Option<string> := None;
    for c := 0 to |categories|
      invariant error.None? ==> CategoryScan(categories[..c]) == Scan(issues, None)
      invariant error.Some? ==> CategoryScan(categories) == Scan(issues, error)
    {
      if error.None? {
        CategoryScanStep(categories, c);
        var patterns := Iterate(categories[c].1);
        if patterns.None? {
          error := Some(NotIterable(categories[c].1));
        } else {
          var t := CheckPhrases(categories[c].0, patterns.value);
          issues := issues + t.issues;
          error := t.error;
        }
        if error.Some? {
          CategoryScanSticks(categories, c + 1);
          assert categories[..|categories|] == categories;
        }
      }
    }
    assert categories[..|categories|] == categories;
    if error.Some? {
      issues := issues + [PatternsError + error.value];
    }
  }

  /** The inner loop over one category's patterns. */
  method CheckPhrases(category: string, ps: seq<Value>) returns (s: Scan)
    ensures s == PhraseScan(category, ps)
  {
    s := Scan([], None);
    for i := 0 to |ps|
      invariant s.error.None? ==> PhraseScan(category, ps[..i]) == s
      invariant s.error.Some? ==> PhraseScan(category, ps) == s
    {
      if s.error.None? {
        assert ps[..i + 1][..i] == ps[..i];
        var p := ps[i];
        if !p.Obj? {
          s := Scan(s.issues, Some(NoAttribute(p, "get")));
          PhraseScanSticks(category, ps, i + 1);
          assert ps[..|ps|] == ps;
        } else if !Truthy(GetOr(p.fields, "phrase", Null)) {
          s := Scan(s.issues + [PhraseIssue(category, i)], None);
        }
      }
    }
    assert ps[..|ps|] == ps;
  }

  /** One more successful query extends a scan that has not raised. */
  lemma QueryScanStep(queries: seq<Value>, i: nat)
    requires i < |queries| && QueryScan(queries[..i]).error.None?
    ensures var s := QueryScan(queries[..i]);
      QueryScan(queries[..i + 1]) ==
        if !queries[i].Obj? then Scan(s.issues, Some(NoAttribute(queries[i], "get")))
        else Scan(s.issues + QueryIssues(i, queries[i].fields), None)
  {
    assert queries[..i + 1][..i] == queries[..i];
  }

  /** One more category extends a scan that has not raised. */
  lemma CategoryScanStep(categories: Dict, c: nat)
    requires c < |categories| && CategoryScan(categories[..c]).error.None?
    ensures var s := CategoryScan(categories[..c]);
      CategoryScan(categories[..c + 1]) ==
        match Iterate(categories[c].1)
        case None => Scan(s.issues, Some(NotIterable(categories[c].1)))
        case Some(ps) => Scan(s.issues + PhraseScan(categories[c].0, ps).issues, PhraseScan(categories[c].0, ps).error)
  {
    assert categories[..c + 1][..c] == categories[..c];
  }

  lemma {:induction false} QueryScanSticks(queries: seq<Value>, n: nat)
    requires n <= |queries| && QueryScan(queries[..n]).error.Some?
    ensures QueryScan(queries) == QueryScan(queries[..n])
  {
    if n < |queries| {
      var front := queries[..|queries| - 1];
      assert front[..n] == queries[..n];
      QueryScanSticks(front, n);
    } else {
      assert queries[..n] == queries;
    }
  }

  lemma {:induction false} PhraseScanSticks(category: string, patterns: seq<Value>, n: nat)
    requires n <= |patterns| && PhraseScan(category, patterns[..n]).error.Some?
    ensures PhraseScan(category, patterns) == PhraseScan(category, patterns[..n])
  {
    if n < |patterns| {
      var front := patterns[..|patterns| - 1];
      assert front[..n] == patterns[..n];
      PhraseScanSticks(category, front, n);
    } else {
      assert patterns[..n] == patterns;
    }
  }

  lemma {:induction false} CategoryScanSticks(categories: Dict, n: nat)
    requires n <= |categories| && CategoryScan(categories[..n]).error.Some?
    ensures CategoryScan(categories) == CategoryScan(categories[..n])
  {
    if n < |categories| {
      var front := categories[..|categories| - 1];
      assert front[..n] == categories[..n];
      CategoryScanSticks(front, n);
    } else {
      assert categories[..n] == categories;
    }
  }

  /** Successful queries with no name and no cube_query; the count of issues they raise. */
  function QueryGaps(queries: seq<Value>): nat {
    if queries == [] then 0
    else
      var q := queries[|queries| - 1];
      QueryGaps(queries[..|queries| - 1]) +
      (if q.Obj? && !Truthy(GetOr(q.fields, "name", Null)) then 1 else 0) +
      (if q.Obj? && !Truthy(GetOr(q.fields, "cube_query", Null)) then 1 else 0)
  }

  /** When every successful query is a mapping, there is one issue per missing name and one per missing cube_query. */
  lemma {:induction false} QueryIssuesCounted(queries: seq<Value>)
    requires forall i :: 0 <= i < |queries| ==> queries[i].Obj?
    ensures QueryScan(queries).error.None?
    ensures |QueryScan(queries).issues| == QueryGaps(queries)
  {
    if queries != [] {
      QueryIssuesCounted(queries[..|queries| - 1]);
    }
  }

  /** A successful query the check accepts: a mapping with a name and a cube query. */
  predicate QueryComplete(q: Value) {
    q.Obj? && Truthy(GetOr(q.fields, "name", Null)) && Truthy(GetOr(q.fields, "cube_query", Null))
  }

  /** The successful queries raise no issue and no error exactly when every one of them is complete. */
  lemma {:induction false} CleanQueries(queries: seq<Value>)
    ensures QueryScan(queries) == Scan([], None) <==> forall i :: 0 <= i < |queries| ==> QueryComplete(queries[i])
  {
    if queries != [] {
      var front := queries[..|queries| - 1];
      CleanQueries(front);
      assert forall i :: 0 <= i < |front| ==> front[i] == queries[i];
    }
  }

  /** A pattern the check accepts: a mapping with a phrase. */
  predicate PatternComplete(p: Value) {
    p.Obj? && Truthy(GetOr(p.fields, "phrase", Null))
  }

  /** A category's patterns raise no issue and no error exactly when every one of them is complete. */
  lemma {:induction false} CleanPhrases(category: string, patterns: seq<Value>)
    ensures PhraseScan(category, patterns) == Scan([], None) <==> forall i :: 0 <= i < |patterns| ==> PatternComplete(patterns[i])
  {
    if patterns != [] {
      var front := patterns[..|patterns| - 1];
      CleanPhrases(category, front);
      assert forall i :: 0 <= i < |front| ==> front[i] == patterns[i];
    }
  }

  /** A category the check accepts: an iterable whose patterns are all complete. */
  predicate CategoryComplete(category: (string, Value)) {
    Iterate(category.1).Some? && PhraseScan(category.0, Iterate(category.1).value) == Scan([], None)
  }

  /** The categories raise no issue and no error exactly when every one of them is complete. */
  lemma {:induction false} CleanCategories(categories: Dict)
    ensures CategoryScan(categories) == Scan([], None) <==> forall i :: 0 <= i < |categories| ==> CategoryComplete(categories[i])
  {
    if categories != [] {
      var front := categories[..|categories| - 1];
      CleanCategories(front);
      assert forall i :: 0 <= i < |front| ==> front[i] == categories[i];
    }
  }

  /** The built-in successful queries pass the check: each has a name and a cube query. */
  lemma DefaultQueriesValidate()
    ensures SuccessfulQueryIssues(List(DefaultSuccessfulQueries)) == []
  {
    DefaultQueryComplete(0);
    DefaultQueryComplete(1);
    CleanQueries(DefaultSuccessfulQueries);
  }

  /** Each built-in successful query has a name and a cube query. */
  lemma DefaultQueryComplete(i: nat)
    requires i < |DefaultSuccessfulQueries|
    ensures QueryComplete(DefaultSuccessfulQueries[i])
  {
    var q := DefaultSuccessfulQueries[i];
    DictGetAt(q.fields, 0);
    DictGetAt(q.fields, 2);
  }

  /** Every built-in pattern category passes the check. */
  lemma DefaultCategoryComplete(c: nat)
    requires c < |DefaultNlPatterns|
    ensures CategoryComplete(DefaultNlPatterns[c])
  {
    var cat := DefaultNlPatterns[c];
    var ps := cat.1.items;
    DictGetAt(ps[0].fields, 0);
    DictGetAt(ps[1].fields, 0);
    assert PatternComplete(ps[0]) && PatternComplete(ps[1]);
    CleanPhrases(cat.0, ps);
  }

  /** The built-in examples pass the check: every default query has a name and a cube query, every default pattern a phrase. */
  lemma DefaultsValidate(examplesPath: string)
    ensures ExampleIssues(true, examplesPath, List(DefaultSuccessfulQueries), Obj(DefaultNlPatterns)) == []
  {
    DefaultQueriesValidate();
    forall c | 0 <= c < |DefaultNlPatterns| ensures CategoryComplete(DefaultNlPatterns[c]) {
      DefaultCategoryComplete(c);
    }
    CleanCategories(DefaultNlPatterns);
  }
}
