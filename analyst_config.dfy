/*
 * The configuration of the data analyst service: the settings it reads
 * from the environment, the checks it makes before it starts, the
 * file-type and file-size admission tests, and the settings it hands to
 * the frontend.
 *
 * The environment is a map from variable names to values; a variable that
 * is not set is absent from it.  Setting up logging and creating the output
 * directories are effects on the process and are not modelled.
 */
module AnalystConfig {
  import opened Common

  type Env = map<string, string>

  /** os.getenv(key, default) */
  function GetEnv(env: Env, key: string, default: string): string {
    if key in env then env[key] else default
  }

  // ---------------------------------------------------------------------
  // int(text)
  // ---------------------------------------------------------------------

  /** The text after its leading whitespace: a suffix of s whose cut-off front is all spaces. */
  function TrimLeft(s: string): (r: string)
    ensures r == [] || !IsSpace(r[0])
    ensures |r| <= |s| && r == s[|s| - |r|..] && IsBlank(s[..|s| - |r|])
  {
    if s == [] || !IsSpace(s[0]) then s
    else
      var r := TrimLeft(s[1..]);
      BlankFrontGrows(s, r);
      r
  }

  /** A blank front of s[1..] grows by one space into a blank front of s. */
  lemma BlankFrontGrows(s: string, r: string)
    requires s != [] && IsSpace(s[0]) && |r| <= |s| - 1
    requires r == s[1..][|s| - 1 - |r|..] && IsBlank(s[1..][..|s| - 1 - |r|])
    ensures r == s[|s| - |r|..] && IsBlank(s[..|s| - |r|])
  {
    assert s[..|s| - |r|] == [s[0]] + s[1..][..|s| - 1 - |r|];
  }

  function TrimRight(s: string): (r: string)
    ensures r == [] || !IsSpace(r[|r| - 1])
    ensures StartsWith(s, r)
  {
    if s == [] then s
    else if IsSpace(s[|s| - 1]) then TrimRight(s[..|s| - 1])
    else s
  }

  /** str.strip() */
  function Strip(s: string): string {
    TrimRight(TrimLeft(s))
  }

  /** The value of a run of decimal digits. */
  function DigitsValue(ds: string): (n: nat)
    requires forall i :: 0 <= i < |ds| ==> IsAsciiDigit(ds[i])
  {
    if ds == [] then 0
    else
      var last := ds[|ds| - 1];
      assert IsAsciiDigit(last);
      DigitsValue(ds[..|ds| - 1]) * 10 + (last as int - '0' as int)
  }

  predicate AllDigits(ds: string) {
    ds != [] && forall i :: 0 <= i < |ds| ==> IsAsciiDigit(ds[i])
  }

  /** int(text) for base 10: surrounding whitespace, an optional sign, then digits. */
  function ParseInt(text: string): Option<int> {
    var t := Strip(text);
    if t != [] && (t[0] == '-' || t[0] == '+') then
      if AllDigits(t[1..]) then
        var v: int := DigitsValue(t[1..]);
        Some(if t[0] == '-' then -v else v)
      else None
    else if AllDigits(t) then Some(DigitsValue(t))
    else None
  }

  lemma {:induction false} DigitsOfNat(n: nat)
    ensures AllDigits(NatToString(n)) && DigitsValue(NatToString(n)) == n
    decreases n
  {
    if n >= 10 {
      DigitsOfNat(n / 10);
      var s := NatToString(n);
      assert s[..|s| - 1] == NatToString(n / 10);
    }
  }

  lemma StripWithoutSpace(s: string)
    requires s != [] && !IsSpace(s[0]) && !IsSpace(s[|s| - 1])
    ensures Strip(s) == s
  {
  }

  /** int() reads back what str() writes for every integer. */
  lemma ParseIntRoundTrip(n: int)
    ensures ParseInt(IntToString(n)) == Some(n)
  {
    var s := IntToString(n);
    if n >= 0 {
      DigitsOfNat(n);
      StripWithoutSpace(s);
    } else {
      NegativeText(n);
      StripWithoutSpace(s);
    }
  }

  /** str() of a negative number: a minus sign, then the digits of its magnitude. */
  lemma NegativeText(n: int)
    requires n < 0
    ensures var s := IntToString(n);
      s != [] && s[0] == '-' && !IsSpace(s[|s| - 1]) && AllDigits(s[1..]) && DigitsValue(s[1..]) == -n
  {
    DigitsOfNat(-n);
    var s := IntToString(n);
    var d := NatToString(-n);
    assert s[1..] == d;
    assert s[|s| - 1] == d[|d| - 1];
  }

  // ---------------------------------------------------------------------
  // _load_config
  // ---------------------------------------------------------------------

  /** The settings _load_config reads; the API key is None when the variable is unset. */
  datatype Settings = Settings(
    openaiApiKey: Option<string>,
    openaiModel: string,
    debug: bool,
    logLevel: string,
    maxFileSizeMb: int,
    allowedFileTypes: seq<string>,
    outputDir: string,
    graphOutputDir: string,
    frontendDebug: bool,
    frontendLogLevel: string,
    showAnalysisProgress: bool,
    logRequestIds: bool)

  /** os.getenv(key, 'false').lower() == 'true' */
  predicate Flag(env: Env, key: string) {
    Lower(GetEnv(env, key, "false")) == "true"
  }

  /** _load_config: only MAX_FILE_SIZE_MB can make it fail, when int() rejects it. */
  function LoadSettings(env: Env): Result<Settings> {
    var sizeText := GetEnv(env, "MAX_FILE_SIZE_MB", "50");
    match ParseInt(sizeText)
    case None => Failure("invalid literal for int() with base 10: '" + sizeText + "'")
    case Some(size) =>
      Success(Settings(
        if "OPENAI_API_KEY" in env then Some(env["OPENAI_API_KEY"]) else None,
        GetEnv(env, "OPENAI_MODEL", "gpt-4.1"),
        Flag(env, "DEBUG"),
        Upper(GetEnv(env, "LOG_LEVEL", "INFO")),
        size,
        SplitOn(GetEnv(env, "ALLOWED_FILE_TYPES", "csv,xlsx,xls"), ','),
        GetEnv(env, "OUTPUT_DIR", "./results"),
        GetEnv(env, "GRAPH_OUTPUT_DIR", "./results"),
        Flag(env, "FRONTEND_DEBUG"),
        Upper(GetEnv(env, "FRONTEND_LOG_LEVEL", "INFO")),
        Flag(env, "SHOW_ANALYSIS_PROGRESS"),
        Flag(env, "LOG_REQUEST_IDS")))
  }

  /** What each loaded setting is made of. */
  lemma LoadedFields(env: Env)
    ensures LoadSettings(env).Success? <==> ParseInt(GetEnv(env, "MAX_FILE_SIZE_MB", "50")).Some?
    ensures LoadSettings(env).Success? ==>
      var s := LoadSettings(env).value;
      s.allowedFileTypes != [] &&
      (s.openaiApiKey.None? <==> "OPENAI_API_KEY" !in env) &&
      s.maxFileSizeMb == ParseInt(GetEnv(env, "MAX_FILE_SIZE_MB", "50")).value &&
      s.frontendLogLevel == Upper(GetEnv(env, "FRONTEND_LOG_LEVEL", "INFO")) &&
      (s.frontendDebug <==> Flag(env, "FRONTEND_DEBUG")) &&
      (s.showAnalysisProgress <==> Flag(env, "SHOW_ANALYSIS_PROGRESS")) &&
      (s.logRequestIds <==> Flag(env, "LOG_REQUEST_IDS"))
  {
  }

  // ---------------------------------------------------------------------
  // _validate_config
  // ---------------------------------------------------------------------

  const ValidLogLevels: seq<string> := ["DEBUG", "INFO", "WARNING", "ERROR", "CRITICAL"]

  /** The checks of _validate_config, in the order it makes them. */
  datatype Issue = KeyNotSet | KeyEmpty | BadLogLevel | BadFrontendLogLevel | BadFileSize | NoFileTypes | NoModel

  function Message(i: Issue): string {
    match i
    case KeyNotSet => "OPENAI_API_KEY is required but not set"
    case KeyEmpty => "OPENAI_API_KEY cannot be empty"
    case BadLogLevel => "LOG_LEVEL must be one of ['DEBUG', 'INFO', 'WARNING', 'ERROR', 'CRITICAL']"
    case BadFrontendLogLevel => "FRONTEND_LOG_LEVEL must be one of ['DEBUG', 'INFO', 'WARNING', 'ERROR', 'CRITICAL']"
    case BadFileSize => "MAX_FILE_SIZE_MB must be a positive integer"
    case NoFileTypes => "ALLOWED_FILE_TYPES cannot be empty"
    case NoModel => "OPENAI_MODEL cannot be empty"
  }

  function Messages(issues: seq<Issue>): (r: seq<string>)
    ensures |r| == |issues|
    ensures forall k :: 0 <= k < |issues| ==> r[k] == Message(issues[k])
  {
    if issues == [] then [] else [Message(issues[0])] + Messages(issues[1..])
  }

  /** `not self.openai_api_key`: unset or empty. */
  predicate KeyUnset(s: Settings) {
    s.openaiApiKey.None? || s.openaiApiKey.value == ""
  }

  /** `not key or not key.strip()` */
  predicate KeyBlank(s: Settings) {
    s.openaiApiKey.None? || IsBlank(s.openaiApiKey.value)
  }

  /** Whether the check fails for these settings. */
  predicate Fails(i: Issue, s: Settings) {
    match i
    case KeyNotSet => KeyUnset(s)
    case KeyEmpty => KeyBlank(s)
    case BadLogLevel => s.logLevel !in ValidLogLevels
    case BadFrontendLogLevel => s.frontendLogLevel !in ValidLogLevels
    case BadFileSize => s.maxFileSizeMb <= 0
    case NoFileTypes => s.allowedFileTypes == []
    case NoModel => IsBlank(s.openaiModel)
  }

  /** The position of each check in the order _validate_config makes them. */
  function Rank(i: Issue): (k: nat)
    ensures k < 7 && IssueAt(k) == i
  {
    match i
    case KeyNotSet => 0
    case KeyEmpty => 1
    case BadLogLevel => 2
    case BadFrontendLogLevel => 3
    case BadFileSize => 4
    case NoFileTypes => 5
    case NoModel => 6
  }

  function IssueAt(k: nat): Issue
    requires k < 7
  {
    if k == 0 then KeyNotSet
    else if k == 1 then KeyEmpty
    else if k == 2 then BadLogLevel
    else if k == 3 then BadFrontendLogLevel
    else if k == 4 then BadFileSize
    else if k == 5 then NoFileTypes
    else NoModel
  }

  /** The failed checks among the first n, in order. */
  function FailedUpTo(n: nat, s: Settings): seq<Issue>
    requires n <= 7
  {
    if n == 0 then []
    else FailedUpTo(n - 1, s) + (if Fails(IssueAt(n - 1), s) then [IssueAt(n - 1)] else [])
  }

  function ValidationErrors(s: Settings): seq<Issue> {
    FailedUpTo(7, s)
  }

  /** The failed checks among the first n are exactly the failing ones, in strictly increasing check order. */
  lemma {:induction false} FailedUpToExactly(n: nat, s: Settings)
    requires n <= 7
    ensures forall i :: i in FailedUpTo(n, s) <==> Rank(i) < n && Fails(i, s)
    ensures forall k, l :: 0 <= k < l < |FailedUpTo(n, s)| ==> Rank(FailedUpTo(n, s)[k]) < Rank(FailedUpTo(n, s)[l])
  {
    if n > 0 {
      FailedUpToExactly(n - 1, s);
      assert Rank(IssueAt(n - 1)) == n - 1 by {
        var i := IssueAt(n - 1);
        assert IssueAt(Rank(i)) == i;
      }
    }
  }

  /** Running more checks only adds reports after the earlier ones. */
  lemma {:induction false} FailedUpToPrefix(n: nat, m: nat, s: Settings)
    requires n <= m <= 7
    ensures |FailedUpTo(n, s)| <= |FailedUpTo(m, s)| && FailedUpTo(m, s)[..|FailedUpTo(n, s)|] == FailedUpTo(n, s)
    decreases m
  {
    if n < m {
      FailedUpToPrefix(n, m - 1, s);
    }
  }

  /**
   * Each check is reported exactly when it fails; the reports follow the
   * order in which the checks are made.
   */
  lemma ValidationErrorsReported(s: Settings)
    ensures forall i :: i in ValidationErrors(s) <==> Fails(i, s)
    ensures forall k, l :: 0 <= k < l < |ValidationErrors(s)| ==> Rank(ValidationErrors(s)[k]) < Rank(ValidationErrors(s)[l])
  {
    FailedUpToExactly(7, s);
  }

  /**
   * An unset key gets both of its messages, first in the list; a key of
   * whitespace only gets just the second.
   */
  lemma MissingKeyTwoErrors(s: Settings)
    ensures s.openaiApiKey.None? ==> |ValidationErrors(s)| >= 2 && ValidationErrors(s)[..2] == [KeyNotSet, KeyEmpty]
    ensures s.openaiApiKey.Some? && s.openaiApiKey.value != "" && IsBlank(s.openaiApiKey.value) ==>
      ValidationErrors(s) != [] && ValidationErrors(s)[0] == KeyEmpty
  {
    FailedUpToPrefix(2, 7, s);
    assert FailedUpTo(1, s) == (if KeyUnset(s) then [KeyNotSet] else []);
  }

  /** ALLOWED_FILE_TYPES splits into at least one entry, so its emptiness check never fires. */
  lemma FileTypesNeverEmpty(env: Env)
    requires LoadSettings(env).Success?
    ensures NoFileTypes !in ValidationErrors(LoadSettings(env).value)
  {
    LoadedFields(env);
    TypesListedNeverFail(LoadSettings(env).value);
  }

  lemma TypesListedNeverFail(s: Settings)
    requires s.allowedFileTypes != []
    ensures NoFileTypes !in ValidationErrors(s)
  {
    ValidationErrorsReported(s);
  }

  /** The configuration is rejected at load time, rejected by validation with every failed check in one message, or accepted. */
  function ConfigOutcome(env: Env): Result<Settings> {
    match LoadSettings(env)
    case Failure(e) => Failure("Configuration loading failed: " + e)
    case Success(s) =>
      var issues := ValidationErrors(s);
      if issues == [] then Success(s)
      else Failure("Configuration validation failed: " + Join(Messages(issues), "; "))
  }

  /**
   * No report means every check passed: a non-blank key and model, two
   * known log levels and a positive size limit.
   */
  lemma NoIssues(s: Settings)
    ensures ValidationErrors(s) == [] <==> forall i :: !Fails(i, s)
    ensures ValidationErrors(s) == [] ==>
      !KeyBlank(s) && !IsBlank(s.openaiModel) &&
      s.logLevel in ValidLogLevels && s.frontendLogLevel in ValidLogLevels && s.maxFileSizeMb > 0
  {
    ValidationErrorsReported(s);
    if ValidationErrors(s) != [] {
      assert ValidationErrors(s)[0] in ValidationErrors(s);
    } else {
      assert !Fails(KeyEmpty, s) && !Fails(NoModel, s) && !Fails(BadLogLevel, s);
      assert !Fails(BadFrontendLogLevel, s) && !Fails(BadFileSize, s);
    }
  }

  /**
   * The service starts exactly when the settings load and pass every check,
   * and then runs on the loaded settings.
   */
  lemma AcceptedConfig(env: Env)
    ensures ConfigOutcome(env).Success? <==> LoadSettings(env).Success? && forall i :: !Fails(i, LoadSettings(env).value)
    ensures ConfigOutcome(env).Success? ==> ConfigOutcome(env).value == LoadSettings(env).value
  {
    if LoadSettings(env).Success? {
      NoIssues(LoadSettings(env).value);
    }
  }

  /** Without OPENAI_API_KEY the service never starts, and the message begins with the two key errors. */
  lemma NoKeyRejected(env: Env)
    requires "OPENAI_API_KEY" !in env
    ensures ConfigOutcome(env).Failure?
    ensures LoadSettings(env).Success? ==>
      StartsWith(ConfigOutcome(env).error,
        "Configuration validation failed: " + Message(KeyNotSet) + "; " + Message(KeyEmpty))
  {
    if LoadSettings(env).Success? {
      LoadedFields(env);
      UnsetKeyMessage(LoadSettings(env).value);
    }
  }

  /** The validation message for settings without a key. */
  lemma UnsetKeyMessage(s: Settings)
    requires s.openaiApiKey.None?
    ensures ValidationErrors(s) != []
    ensures StartsWith("Configuration validation failed: " + Join(Messages(ValidationErrors(s)), "; "),
      "Configuration validation failed: " + Message(KeyNotSet) + "; " + Message(KeyEmpty))
  {
    MissingKeyTwoErrors(s);
    var errors := ValidationErrors(s);
    var ms := Messages(errors);
    assert errors[0] == KeyNotSet && errors[1] == KeyEmpty by {
      assert errors[..2][0] == errors[0] && errors[..2][1] == errors[1];
    }
    assert ms[0] == Message(KeyNotSet) && ms[1] == Message(KeyEmpty);
    JoinedFirstTwo("Configuration validation failed: ", ms, "; ");
  }

  lemma JoinedFirstTwo(prefix: string, parts: seq<string>, sep: string)
    requires |parts| >= 2
    ensures StartsWith(prefix + Join(parts, sep), prefix + parts[0] + sep + parts[1])
  {
    JoinStartsWithFirst(parts[1..], sep);
    assert prefix + Join(parts, sep) == (prefix + parts[0] + sep) + Join(parts[1..], sep);
  }

  // ---------------------------------------------------------------------
  // Config
  // ---------------------------------------------------------------------

  /** get_frontend_config */
  datatype FrontendSettings = FrontendSettings(debug: bool, logLevel: string, showProgress: bool, logRequestIds: bool)

  /** The position just after the last '.', or 0 when there is none. */
  function AfterLastDot(s: string): (r: nat)
    ensures r <= |s|
    ensures r > 0 ==> s[r - 1] == '.'
  {
    if s == [] then 0
    else if s[|s| - 1] == '.' then |s|
    else AfterLastDot(s[..|s| - 1])
  }

  /** No dot follows the position, which is 0 exactly when there is no dot at all. */
  lemma {:induction false} AfterLastDotIsLast(s: string)
    ensures forall k :: AfterLastDot(s) <= k < |s| ==> s[k] != '.'
    ensures AfterLastDot(s) == 0 <==> '.' !in s
    decreases |s|
  {
    if s != [] && s[|s| - 1] != '.' {
      var front := s[..|s| - 1];
      AfterLastDotIsLast(front);
      assert forall k :: 0 <= k < |front| ==> front[k] == s[k];
      if '.' in s {
        var k :| 0 <= k < |s| && s[k] == '.';
        assert front[k] == '.';
      }
    }
  }

  /** The last piece of s.split('.') starts right after the last dot. */
  lemma {:induction false} SplitLastPiece(s: string)
    ensures SplitOn(s, '.')[|SplitOn(s, '.')| - 1] == s[AfterLastDot(s)..]
    decreases |s|
  {
    if s != [] && s[|s| - 1] != '.' {
      var front := s[..|s| - 1];
      SplitLastPiece(front);
      assert s[AfterLastDot(s)..] == front[AfterLastDot(front)..] + [s[|s| - 1]];
    }
  }

  /** Lower-casing moves no dot. */
  lemma {:induction false} LowerKeepsLastDot(s: string)
    ensures AfterLastDot(Lower(s)) == AfterLastDot(s)
    decreases |s|
  {
    if s != [] {
      assert Lower(s)[..|s| - 1] == Lower(s[..|s| - 1]);
      LowerKeepsLastDot(s[..|s| - 1]);
    }
  }

  /** filename.lower().split('.')[-1] if '.' in filename else '' */
  function Extension(filename: string): string {
    if '.' in filename then
      var parts := SplitOn(Lower(filename), '.');
      parts[|parts| - 1]
    else ""
  }

  /** The extension is the lower-cased text after the last dot, and empty when there is no dot. */
  lemma {:induction false} ExtensionAfterLastDot(filename: string)
    ensures Extension(filename) == if AfterLastDot(filename) == 0 then "" else Lower(filename[AfterLastDot(filename)..])
  {
    AfterLastDotIsLast(filename);
    if '.' in filename {
      LoweredLastPiece(filename);
      LowerSuffix(filename, AfterLastDot(filename));
    }
  }

  /** The last piece of the lower-cased name starts right after the name's last dot. */
  lemma {:induction false} LoweredLastPiece(filename: string)
    ensures SplitOn(Lower(filename), '.')[|SplitOn(Lower(filename), '.')| - 1] == Lower(filename)[AfterLastDot(filename)..]
  {
    LowerKeepsLastDot(filename);
    LastPieceWithSameDot(Lower(filename), filename);
  }

  /** The last piece of a text whose last dot sits where another's does. */
  lemma LastPieceWithSameDot(low: string, s: string)
    requires AfterLastDot(low) == AfterLastDot(s)
    ensures SplitOn(low, '.')[|SplitOn(low, '.')| - 1] == low[AfterLastDot(s)..]
  {
    SplitLastPiece(low);
  }

  /** Lower-casing a suffix is taking the suffix of the lower-cased text. */
  lemma LowerSuffix(s: string, j: nat)
    requires j <= |s|
    ensures Lower(s)[j..] == Lower(s[j..])
  {
  }

  /** The settings of the running service. */
  class Config {
    var openaiApiKey: Option<string>
    var openaiModel: string
    var debug: bool
    var logLevel: string
    var maxFileSizeMb: int
    var allowedFileTypes: seq<string>
    var outputDir: string
    var graphOutputDir: string
    var frontendDebug: bool
    var frontendLogLevel: string
    var showAnalysisProgress: bool
    var logRequestIds: bool

    function Current(): Settings
      reads this
    {
      Settings(openaiApiKey, openaiModel, debug, logLevel, maxFileSizeMb, allowedFileTypes,
               outputDir, graphOutputDir, frontendDebug, frontendLogLevel, showAnalysisProgress, logRequestIds)
    }

    /** The fields as _load_config sets them. */
    constructor (s: Settings)
      ensures Current() == s
    {
      openaiApiKey := s.openaiApiKey;
      openaiModel := s.openaiModel;
      debug := s.debug;
      logLevel := s.logLevel;
      maxFileSizeMb := s.maxFileSizeMb;
      allowedFileTypes := s.allowedFileTypes;
      outputDir := s.outputDir;
      graphOutputDir := s.graphOutputDir;
      frontendDebug := s.frontendDebug;
      frontendLogLevel := s.frontendLogLevel;
      showAnalysisProgress := s.showAnalysisProgress;
      logRequestIds := s.logRequestIds;
    }

    /** _validate_config: the list of failed checks it builds one check at a time. */
    method ValidateConfig() returns (issues: seq<Issue>)
      ensures issues == ValidationErrors(Current())
    {
      var s := Current();
      issues := [];
      for k := 0 to 7
        invariant issues == FailedUpTo(k, s)
      {
        if Fails(IssueAt(k), s) {
          issues := issues + [IssueAt(k)];
        }
      }
    }

    /** is_file_allowed: a non-empty name whose extension is one of the allowed types. */
    function IsFileAllowed(filename: string): (r: bool)
      reads this
      ensures r <==> filename != "" && Extension(filename) in allowedFileTypes
    {
      if filename == "" then false else Extension(filename) in allowedFileTypes
    }

    /** validate_file_size */
    function ValidateFileSize(fileSizeBytes: int): (r: bool)
      reads this
      ensures r <==> fileSizeBytes <= maxFileSizeMb * 1048576
    {
      fileSizeBytes <= maxFileSizeMb * 1024 * 1024
    }

    /** get_frontend_config */
    function FrontendConfig(): (r: FrontendSettings)
      reads this
      ensures r.debug == frontendDebug && r.logLevel == frontendLogLevel
      ensures r.showProgress == showAnalysisProgress && r.logRequestIds == logRequestIds
    {
      FrontendSettings(frontendDebug, frontendLogLevel, showAnalysisProgress, logRequestIds)
    }
  }

  /**
   * A file is admitted exactly when its name is non-empty and either the
   * lower-cased text after its last dot is an allowed type, or it has no
   * dot and the empty string is among the allowed types.
   */
  lemma FileAllowedByLastDot(c: Config, filename: string)
    ensures c.IsFileAllowed(filename) <==> (filename != "" &&
      if AfterLastDot(filename) == 0 then "" in c.allowedFileTypes
      else Lower(filename[AfterLastDot(filename)..]) in c.allowedFileTypes)
  {
    ExtensionAfterLastDot(filename);
  }

  /** A size within the limit stays admitted when smaller, and the limit itself is the largest size admitted. */
  lemma FileSizeLimit(c: Config, small: int, large: int)
    ensures small <= large && c.ValidateFileSize(large) ==> c.ValidateFileSize(small)
    ensures c.ValidateFileSize(c.maxFileSizeMb * 1048576) && !c.ValidateFileSize(c.maxFileSizeMb * 1048576 + 1)
  {
  }

  /** Config(): load, validate, and on success the service's settings. */
  method NewConfig(env: Env) returns (r: Result<Config>)
    ensures r.Success? <==> ConfigOutcome(env).Success?
    ensures r.Failure? ==> r.error == ConfigOutcome(env).error
    ensures r.Success? ==> fresh(r.value) && r.value.Current() == ConfigOutcome(env).value
  {
    var loaded := LoadSettings(env);
    if loaded.Failure? {
      return Failure("Configuration loading failed: " + loaded.error);
    }
    var c := new Config(loaded.value);
    var issues := c.ValidateConfig();
    if issues != [] {
      return Failure("Configuration validation failed: " + Join(Messages(issues), "; "));
    }
    r := Success(c);
  }

  /**
   * The frontend receives the upper-cased FRONTEND_LOG_LEVEL (INFO when
   * unset), which is one of the five levels once the configuration is
   * accepted, and each flag is set exactly when its variable reads "true"
   * in any letter case.
   */
  lemma FrontendFromEnv(env: Env)
    requires ConfigOutcome(env).Success?
    ensures var s := ConfigOutcome(env).value;
      s.frontendLogLevel == Upper(GetEnv(env, "FRONTEND_LOG_LEVEL", "INFO")) &&
      s.frontendLogLevel in ValidLogLevels &&
      (s.frontendDebug <==> Lower(GetEnv(env, "FRONTEND_DEBUG", "false")) == "true") &&
      (s.showAnalysisProgress <==> Lower(GetEnv(env, "SHOW_ANALYSIS_PROGRESS", "false")) == "true") &&
      (s.logRequestIds <==> Lower(GetEnv(env, "LOG_REQUEST_IDS", "false")) == "true")
  {
    AcceptedConfig(env);
    LoadedFields(env);
    NoIssues(LoadSettings(env).value);
  }
}
