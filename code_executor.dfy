/*
 * The checks the code execution tool makes on Python code before running
 * it: the blank-code guard and the blacklist of dangerous operations.
 * Compiling and executing the code is not modelled.
 */
module CodeExecutor {
  import opened Common
  import opened ToolModels

  // ---------------------------------------------------------------------
  // python_execution_tool's input guard
  // ---------------------------------------------------------------------

  const EmptyCodeFailure := "Failed to run code" + ". Error: " + "Code cannot be empty" + ", try a different approach"

  /** The answer given without compiling anything, when the code is empty or whitespace only. */
  function ExecutionGuard(code: string): (r: Option<string>)
    ensures r.Some? <==> IsBlank(code)
    ensures r.Some? ==> StartsWith(r.value, "Failed to run code") && Contains(r.value, "Code cannot be empty")
  {
    if IsBlank(code) then
      ContainsInConcat("Failed to run code" + ". Error: ", "Code cannot be empty", ", try a different approach");
      Some(EmptyCodeFailure)
    else None
  }

  // ---------------------------------------------------------------------
  // validate_code_safety
  // ---------------------------------------------------------------------

  const DangerousOperations: seq<string> := [
    "import os", "import subprocess", "import sys", "eval(", "exec(",
    "__import__", "open(", "file(", "input(", "raw_input("]

  function Warning(operation: string): string {
    "Potentially dangerous operation detected: " + operation
  }

  /** The operations of `ops` that occur in the code, as plain substrings, in the order of `ops`. */
  function Detected(ops: seq<string>, code: string): seq<string> {
    if ops == [] then []
    else Detected(ops[..|ops| - 1], code) + (if Contains(code, ops[|ops| - 1]) then [ops[|ops| - 1]] else [])
  }

  function Warnings(ops: seq<string>): (r: seq<string>)
    ensures |r| == |ops|
    ensures forall k :: 0 <= k < |ops| ==> r[k] == Warning(ops[k])
  {
    if ops == [] then [] else Warnings(ops[..|ops| - 1]) + [Warning(ops[|ops| - 1])]
  }

  /** The verdict on the code against a blacklist: safe with a fixed message, or unsafe with one warning per detected operation. */
  function Verdict(ops: seq<string>, code: string): ToolResponse {
    var found := Detected(ops, code);
    if found == [] then ToolResponse(true, "Code is safe to execute", "")
    else ToolResponse(false, "", "Code safety validation failed: " + Join(Warnings(found), "; "))
  }

  /** An operation is detected exactly when it is one of `ops` and occurs in the code. */
  lemma {:induction false} DetectedExactly(ops: seq<string>, code: string)
    ensures forall op :: op in Detected(ops, code) <==> op in ops && Contains(code, op)
    ensures |Detected(ops, code)| <= |ops|
  {
    if ops != [] {
      DetectedExactly(ops[..|ops| - 1], code);
      assert ops == ops[..|ops| - 1] + [ops[|ops| - 1]];
    }
  }

  /** The loop over the blacklist. */
  method ValidateCodeSafety(code: string) returns (r: ToolResponse)
    ensures r == Verdict(DangerousOperations, code)
  {
    var found: seq<string> := [];
    var warnings: seq<string> := [];
    for k := 0 to |DangerousOperations|
      invariant found == Detected(DangerousOperations[..k], code)
      invariant warnings == Warnings(found)
    {
      var operation := DangerousOperations[k];
      assert DangerousOperations[..k + 1][..k] == DangerousOperations[..k];
      if Contains(code, operation) {
        found := found + [operation];
        warnings := warnings + [Warning(operation)];
        assert Warnings(found) == Warnings(found[..|found| - 1]) + [Warning(operation)];
      }
    }
    assert DangerousOperations[..|DangerousOperations|] == DangerousOperations;
    if warnings != [] {
      return ToolResponse(false, "", "Code safety validation failed: " + Join(warnings, "; "));
    }
    r := ToolResponse(true, "Code is safe to execute", "");
  }

  /**
   * The code is rejected exactly when it contains a blacklisted operation;
   * a rejection has empty data and names every detected operation in its
   * error, and an acceptance has the fixed message and an empty error.
   */
  lemma SafetyIff(ops: seq<string>, code: string)
    ensures !Verdict(ops, code).success <==> exists k :: 0 <= k < |ops| && Contains(code, ops[k])
    ensures Verdict(ops, code).success ==> Verdict(ops, code).data == "Code is safe to execute" && Verdict(ops, code).error == ""
    ensures !Verdict(ops, code).success ==> (Verdict(ops, code).data == "" &&
      forall k :: 0 <= k < |ops| && Contains(code, ops[k]) ==> Contains(Verdict(ops, code).error, Warning(ops[k])))
  {
    var found := Detected(ops, code);
    DetectedExactly(ops, code);
    if found != [] {
      assert found[0] in ops;
    }
    forall k | 0 <= k < |ops| && Contains(code, ops[k])
      ensures Contains(Verdict(ops, code).error, Warning(ops[k]))
    {
      var op := ops[k];
      assert op in found;
      var j :| 0 <= j < |found| && found[j] == op;
      WarningListed("Code safety validation failed: ", found, j);
    }
  }

  /** A message made of a prefix and the joined warnings contains the warning of each listed operation. */
  lemma WarningListed(prefix: string, found: seq<string>, j: nat)
    requires j < |found|
    ensures Contains(prefix + Join(Warnings(found), "; "), Warning(found[j]))
  {
    var joined := Join(Warnings(found), "; ");
    JoinContainsPart(Warnings(found), "; ", j);
    ContainsInConcat(prefix, joined, "");
    assert prefix + joined + "" == prefix + joined;
    ContainsTransitive(prefix + joined, joined, Warning(found[j]));
  }

  /** Matching is by substring, so an operation inside a longer flagged text is flagged too. */
  lemma InsideFlagged(code: string, text: string, k: nat)
    requires k < |DangerousOperations| && Contains(code, text) && Contains(text, DangerousOperations[k])
    ensures !Verdict(DangerousOperations, code).success
    ensures Contains(Verdict(DangerousOperations, code).error, Warning(DangerousOperations[k]))
  {
    ContainsTransitive(code, text, DangerousOperations[k]);
    SafetyIff(DangerousOperations, code);
  }

  /** Code calling reopen( is rejected as an open( call; code calling raw_input( is warned about input( as well. */
  lemma SubstringMatches(code: string)
    ensures Contains(code, "reopen(") ==> Contains(Verdict(DangerousOperations, code).error, Warning("open("))
    ensures Contains(code, "raw_input(") ==>
      Contains(Verdict(DangerousOperations, code).error, Warning("input(")) &&
      Contains(Verdict(DangerousOperations, code).error, Warning("raw_input("))
  {
    if Contains(code, "reopen(") {
      ContainsInConcat("re", "open(", "");
      assert "re" + "open(" + "" == "reopen(";
      InsideFlagged(code, "reopen(", 6);
    }
    if Contains(code, "raw_input(") {
      ContainsInConcat("raw_", "input(", "");
      assert "raw_" + "input(" + "" == "raw_input(";
      InsideFlagged(code, "raw_input(", 8);
      ContainsItself("raw_input(");
      InsideFlagged(code, "raw_input(", 9);
    }
  }
}
