/*
 * The checks the visualization tool makes on Python plotting code: the
 * blank-code guard and the advisory review of the code's text.  Running the
 * code and the plots it draws are not modelled.
 */
module VisualizationGenerator {
  import opened Common
  import opened ToolModels

  // ---------------------------------------------------------------------
  // graph_generator's input guard
  // ---------------------------------------------------------------------

  const EmptyVisualizationFailure := "Failed to run code" + ". Error: " + "Visualization code cannot be empty" + ", try a different approach"

  /** The answer given without running anything, when the code is empty or whitespace only. */
  function VisualizationGuard(code: string): (r: Option<string>)
    ensures r.Some? <==> IsBlank(code)
    ensures r.Some? ==> StartsWith(r.value, "Failed to run code") && Contains(r.value, "Visualization code cannot be empty")
  {
    if IsBlank(code) then
      ContainsInConcat("Failed to run code" + ". Error: ", "Visualization code cannot be empty", ", try a different approach");
      Some(EmptyVisualizationFailure)
    else None
  }

  // ---------------------------------------------------------------------
  // validate_visualization_code
  // ---------------------------------------------------------------------

  const VizLibraries: seq<string> := ["matplotlib", "plotly", "seaborn", "bokeh"]
  const SaveOperations: seq<string> := ["savefig", "write_html", "save", "export"]

  /** any(item in code for item in items) */
  function AnyIn(items: seq<string>, code: string): (r: bool)
    ensures r <==> exists k :: 0 <= k < |items| && Contains(code, items[k])
  {
    if items == [] then false
    else
      var rest := AnyIn(items[1..], code);
      assert forall k :: 1 <= k < |items| ==> items[k] == items[1..][k - 1];
      Contains(code, items[0]) || rest
  }

  /** The four checks, in the order they are made. */
  datatype VizIssue = NoLibrary | NoCsvLoad | NoSave | NoPrint

  function Message(i: VizIssue): string {
    match i
    case NoLibrary => "No common visualization library detected (matplotlib, plotly, seaborn, bokeh)"
    case NoCsvLoad => "No CSV data loading detected - ensure data is loaded in the code"
    case NoSave => "No save operation detected - visualization may not be saved to file"
    case NoPrint => "No print statement detected - may not output file paths as required"
  }

  function Messages(issues: seq<VizIssue>): (r: seq<string>)
    ensures |r| == |issues|
    ensures forall k :: 0 <= k < |issues| ==> r[k] == Message(issues[k])
  {
    if issues == [] then [] else [Message(issues[0])] + Messages(issues[1..])
  }

  /** What the review looks for in the code. */
  datatype Findings = Findings(hasVizLibrary: bool, hasCsvLoad: bool, hasSave: bool, hasPrint: bool)

  function FindingsOf(code: string): Findings {
    Findings(
      AnyIn(VizLibraries, code),
      Contains(code, "pd.read_csv") || Contains(code, "pandas.read_csv"),
      AnyIn(SaveOperations, code),
      Contains(code, "print("))
  }

  /** Whether the code lacks what the check looks for. */
  predicate Lacks(i: VizIssue, f: Findings) {
    match i
    case NoLibrary => !f.hasVizLibrary
    case NoCsvLoad => !f.hasCsvLoad
    case NoSave => !f.hasSave
    case NoPrint => !f.hasPrint
  }

  function Flagged(i: VizIssue, f: Findings): seq<VizIssue> {
    if Lacks(i, f) then [i] else []
  }

  /** The warnings raised, in check order. */
  function VizIssues(f: Findings): seq<VizIssue> {
    Flagged(NoLibrary, f) + Flagged(NoCsvLoad, f) + Flagged(NoSave, f) + Flagged(NoPrint, f)
  }

  const Passed := "Visualization code validation passed"

  function WithWarnings(warnings: seq<string>): string {
    "Validation completed with warnings: " + Join(warnings, "; ")
  }

  function Verdict(f: Findings): ToolResponse {
    var issues := VizIssues(f);
    if issues == [] then ToolResponse(true, Passed, "")
    else ToolResponse(true, WithWarnings(Messages(issues)), "")
  }

  /** The checks one after another, each appending its warning. */
  method ValidateVisualizationCode(code: string) returns (r: ToolResponse)
    ensures r == Verdict(FindingsOf(code))
  {
    var hasVizLibrary := AnyIn(VizLibraries, code);
    var hasCsvLoad := Contains(code, "pd.read_csv") || Contains(code, "pandas.read_csv");
    var hasSave := AnyIn(SaveOperations, code);
    var hasPrint := Contains(code, "print(");
    ghost var f := Findings(hasVizLibrary, hasCsvLoad, hasSave, hasPrint);
    assert f == FindingsOf(code);
    var warnings: seq<VizIssue> := [];
    if !hasVizLibrary {
      warnings := warnings + [NoLibrary];
    }
    if !hasCsvLoad {
      warnings := warnings + [NoCsvLoad];
    }
    if !hasSave {
      warnings := warnings + [NoSave];
    }
    if !hasPrint {
      warnings := warnings + [NoPrint];
    }
    assert warnings == VizIssues(f);
    if warnings != [] {
      return ToolResponse(true, WithWarnings(Messages(warnings)), "");
    }
    r := ToolResponse(true, Passed, "");
  }

  /** A check's warning is raised exactly when the check fires, and no warning twice. */
  lemma IssuesExactly(f: Findings)
    ensures forall i :: i in VizIssues(f) <==> Lacks(i, f)
    ensures forall k, l :: 0 <= k < l < |VizIssues(f)| ==> VizIssues(f)[k] != VizIssues(f)[l]
  {
    forall i ensures i in VizIssues(f) <==> Lacks(i, f) {
      match i
      case NoLibrary =>
      case NoCsvLoad =>
      case NoSave =>
      case NoPrint =>
    }
  }

  lemma WarningsNotPassed(warnings: seq<string>)
    ensures WithWarnings(warnings) != Passed
  {
    assert WithWarnings(warnings)[1] == 'a';
    assert Passed[1] == 'i';
  }

  /**
   * The review never fails: it always succeeds with an empty error, and
   * passes cleanly exactly when no check fires.
   */
  lemma VerdictShape(f: Findings)
    ensures Verdict(f).success && Verdict(f).error == ""
    ensures Verdict(f).data == Passed <==> forall i :: !Lacks(i, f)
  {
    PassedIffNoIssues(f);
    NoIssuesIffNothingLacks(f);
  }

  lemma PassedIffNoIssues(f: Findings)
    ensures Verdict(f).data == Passed <==> VizIssues(f) == []
  {
    if VizIssues(f) != [] {
      WarningsNotPassed(Messages(VizIssues(f)));
    }
  }

  lemma NoIssuesIffNothingLacks(f: Findings)
    ensures VizIssues(f) == [] <==> forall i :: !Lacks(i, f)
  {
    IssuesExactly(f);
    if VizIssues(f) != [] {
      assert Lacks(VizIssues(f)[0], f);
    }
  }

  /** Each warning of a list appears in the joined text. */
  lemma MessageListed(issues: seq<VizIssue>, j: nat)
    requires j < |issues|
    ensures Contains(WithWarnings(Messages(issues)), Message(issues[j]))
  {
    var joined := Join(Messages(issues), "; ");
    JoinContainsPart(Messages(issues), "; ", j);
    ContainsInConcat("Validation completed with warnings: ", joined, "");
    assert "Validation completed with warnings: " + joined + "" == WithWarnings(Messages(issues));
    ContainsTransitive(WithWarnings(Messages(issues)), joined, Message(issues[j]));
  }

  /** Each warning of a fired check appears in the data. */
  lemma WarningsListed(f: Findings, i: VizIssue)
    requires Lacks(i, f)
    ensures Contains(Verdict(f).data, Message(i))
  {
    var j := IssueIndex(f, i);
    VerdictWarns(f);
    MessageListed(VizIssues(f), j);
  }

  /** Where a fired check's warning sits in the list. */
  lemma IssueIndex(f: Findings, i: VizIssue) returns (j: nat)
    requires Lacks(i, f)
    ensures j < |VizIssues(f)| && VizIssues(f)[j] == i
  {
    IssuesExactly(f);
    j :| 0 <= j < |VizIssues(f)| && VizIssues(f)[j] == i;
  }

  /** With a warning raised, the data is the warnings text. */
  lemma VerdictWarns(f: Findings)
    requires VizIssues(f) != []
    ensures Verdict(f).data == WithWarnings(Messages(VizIssues(f)))
  {
  }

  /** "savefig" contains "save", so the save check passes exactly on "save", "write_html" or "export". */
  lemma SaveCheck(code: string)
    ensures AnyIn(SaveOperations, code) <==>
      Contains(code, "save") || Contains(code, "write_html") || Contains(code, "export")
  {
    if Contains(code, "savefig") {
      ContainsInConcat("", "save", "fig");
      assert "" + "save" + "fig" == "savefig";
      ContainsTransitive(code, "savefig", "save");
    }
    assert SaveOperations[1] == "write_html" && SaveOperations[2] == "save" && SaveOperations[3] == "export";
  }

  /** The review of any code succeeds with an empty error. */
  lemma ReviewSucceeds(code: string)
    ensures Verdict(FindingsOf(code)).success && Verdict(FindingsOf(code)).error == ""
  {
    VerdictShape(FindingsOf(code));
  }

  /** The library warning is raised exactly when none of the four libraries is named. */
  lemma LibraryWarning(code: string)
    ensures NoLibrary in VizIssues(FindingsOf(code)) <==> forall k :: 0 <= k < |VizLibraries| ==> !Contains(code, VizLibraries[k])
  {
    IssuesExactly(FindingsOf(code));
  }

  /** The data-loading warning is raised exactly when neither read_csv spelling occurs. */
  lemma CsvLoadWarning(code: string)
    ensures NoCsvLoad in VizIssues(FindingsOf(code)) <==> !Contains(code, "pd.read_csv") && !Contains(code, "pandas.read_csv")
  {
    IssuesExactly(FindingsOf(code));
  }

  /** The print warning is raised exactly when "print(" does not occur. */
  lemma PrintWarning(code: string)
    ensures NoPrint in VizIssues(FindingsOf(code)) <==> !Contains(code, "print(")
  {
    IssuesExactly(FindingsOf(code));
  }

  /** The save warning is raised exactly when none of "save", "write_html" and "export" occurs. */
  lemma SaveWarning(code: string)
    ensures NoSave in VizIssues(FindingsOf(code)) <==>
      !Contains(code, "save") && !Contains(code, "write_html") && !Contains(code, "export")
  {
    IssuesExactly(FindingsOf(code));
    SaveCheck(code);
  }
}
