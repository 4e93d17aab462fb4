/*
 * The business-domain configuration of the system-prompt generator: the
 * business context assembled from three YAML files, each replaced by a
 * built-in default when it is absent or cannot be loaded, and the check of
 * that configuration.  Reading the files is not modelled: each arrives as a
 * Json.YamlFile.
 */
module BusinessConfig {
  import opened Common
  import opened Json

  // ---------------------------------------------------------------------
  // Built-in defaults
  // ---------------------------------------------------------------------

  function Entity(name: string, description: string, keyAttributes: seq<string>, relationships: seq<string>): Value {
    Obj([("name", Str(name)), ("description", Str(description)),
         ("key_attributes", List(Strs(keyAttributes))), ("relationships", List(Strs(relationships)))])
  }

  function Metric(name: string, description: string, calculation: string): Value {
    Obj([("name", Str(name)), ("description", Str(description)), ("calculation", Str(calculation))])
  }

  const EventsText := "Core entity representing events with details like name, dates, venue, and pricing"
  const OrdersText := "Purchase transactions containing order details, amounts, and customer information"
  const CustomersText := "Individuals or organizations purchasing tickets and attending events"
  const TicketsText := "Individual tickets sold for events with pricing and category information"

  const DefaultEntities: seq<Value> := [
    Entity("Events", EventsText, ["name", "start_date", "end_date", "venue", "status"], ["has_many_orders", "has_many_tickets"]),
    Entity("Orders", OrdersText, ["order_value", "quantity", "order_date", "status"], ["belongs_to_event", "belongs_to_customer"]),
    Entity("Customers", CustomersText, ["name", "email", "registration_date", "total_purchases"], ["has_many_orders"]),
    Entity("Tickets", TicketsText, ["ticket_type", "price", "quantity_sold", "availability"], ["belongs_to_event"])]

  const DefaultMetrics: seq<Value> := [
    Metric("Total Revenue", "Sum of all order values for events", "SUM(order_value)"),
    Metric("Tickets Sold", "Total number of tickets sold across all events", "SUM(quantity)"),
    Metric("Event Performance", "Revenue and attendance metrics grouped by event", "Revenue and ticket sales per event")]

  const DefaultQuestions: seq<string> := [
    "Which events are performing best in terms of revenue?",
    "How many tickets have been sold for each event?",
    "What is the total revenue for a specific time period?",
    "Which customers are the highest spenders?",
    "What are the monthly sales trends?"]

  const BusinessDescriptionText :=
    "A comprehensive event management platform that tracks events, ticket sales, orders, and customer interactions."

  /** The business domain used when business_domain.yaml is absent or unloadable. */
  const DefaultBusinessDomain: Dict := [
    ("business_name", Str("Event Management System")),
    ("business_description", Str(BusinessDescriptionText)),
    ("domain", Str("event_management")),
    ("entities", List(DefaultEntities)),
    ("key_metrics", List(DefaultMetrics)),
    ("common_questions", List(Strs(DefaultQuestions)))]

  /** The prompt settings used when prompt_settings.yaml is absent or unloadable. */
  const DefaultPromptSettings: Dict := [
    ("max_prompt_length", Int(4000)),
    ("include_examples", Bool(true)),
    ("include_business_context", Bool(true)),
    ("include_view_specifications", Bool(true)),
    ("include_api_instructions", Bool(true)),
    ("ambiguity_handling", Bool(true)),
    ("response_format", Str("structured_json")),
    ("confidence_threshold", Float(7, 1)),
    ("max_clarification_questions", Int(3)),
    ("include_metadata", Bool(true))]

  function Trigger(kind: string, keywords: seq<string>, missing: seq<string>, clarification: string): Value {
    Obj([("type", Str(kind)), ("keywords", List(Strs(keywords))),
         ("missing_elements", List(Strs(missing))), ("clarification", Str(clarification))])
  }

  const GeneralTemplate := "I need more information to provide accurate results. Could you specify:"

  /** The ambiguity configuration used when ambiguity_config.yaml is absent or unloadable. */
  const DefaultAmbiguityConfig: Dict := [
    ("ambiguity_triggers", List([
      Trigger("missing_time_range", ["show", "get", "find"], ["time", "date", "period", "when"],
              "What time period are you interested in?"),
      Trigger("unclear_grouping", ["by", "group", "break down"], ["dimension", "category"],
              "How would you like the data grouped or categorized?"),
      Trigger("ambiguous_metrics", ["performance", "numbers", "data", "metrics"], ["specific_measure"],
              "Which specific metrics are you looking for?")])),
    ("confidence_scoring", Obj([
      ("has_specific_measure", Float(3, 1)), ("has_time_context", Float(2, 1)),
      ("has_grouping_context", Float(2, 1)), ("matches_known_patterns", Float(3, 1))])),
    ("minimum_confidence", Float(6, 1)),
    ("clarification_templates", Obj([
      ("general", Str(GeneralTemplate)),
      ("time_missing", Str("What time period should I analyze?")),
      ("metric_missing", Str("Which metrics are you interested in?")),
      ("grouping_missing", Str("How would you like the results organized?"))]))]

  // ---------------------------------------------------------------------
  // Loading
  // ---------------------------------------------------------------------

  /**
   * One configuration file as loaded through the file loader: the document
   * when there is one ({} for an empty file), else the default.
   */
  function LoadSection(f: YamlFile, default: Dict): Value {
    var g := Loaded(f);
    if g.Document? then g.content else Obj(default)
  }

  /**
   * load_business_context: the three sections and a metadata record; each
   * section is its file's document, or the default when the file is absent
   * or fails to load.
   */
  function LoadBusinessContext(domain: YamlFile, settings: YamlFile, ambiguity: YamlFile, configPath: string): Dict {
    [("domain_info", LoadSection(domain, DefaultBusinessDomain)),
     ("prompt_settings", LoadSection(settings, DefaultPromptSettings)),
     ("ambiguity_rules", LoadSection(ambiguity, DefaultAmbiguityConfig)),
     ("metadata", Obj([("config_loaded", Bool(true)), ("config_path", Str(configPath))]))]
  }

  /**
   * The context always has exactly the four keys, its sections fall back to
   * the defaults, it reports config_loaded, and it has no top-level
   * "entities" key (the entities sit inside domain_info).
   */
  lemma BusinessContextShape(domain: YamlFile, settings: YamlFile, ambiguity: YamlFile, configPath: string)
    ensures var c := LoadBusinessContext(domain, settings, ambiguity, configPath);
      Keys(c) == ["domain_info", "prompt_settings", "ambiguity_rules", "metadata"] &&
      DictGet(c, "domain_info") == Some(LoadSection(domain, DefaultBusinessDomain)) &&
      DictGet(c, "prompt_settings") == Some(LoadSection(settings, DefaultPromptSettings)) &&
      DictGet(c, "ambiguity_rules") == Some(LoadSection(ambiguity, DefaultAmbiguityConfig)) &&
      DictGet(c, "metadata") == Some(Obj([("config_loaded", Bool(true)), ("config_path", Str(configPath))])) &&
      !HasKey(c, "entities")
  {
    ContextDictShape(LoadSection(domain, DefaultBusinessDomain), LoadSection(settings, DefaultPromptSettings),
      LoadSection(ambiguity, DefaultAmbiguityConfig), Obj([("config_loaded", Bool(true)), ("config_path", Str(configPath))]));
  }

  /** The four context keys are distinct, and none of them is "entities". */
  lemma ContextKeysDistinct()
    ensures "domain_info" != "prompt_settings" && "domain_info" != "ambiguity_rules" && "domain_info" != "metadata"
    ensures "prompt_settings" != "ambiguity_rules" && "prompt_settings" != "metadata" && "ambiguity_rules" != "metadata"
    ensures "entities" != "domain_info" && "entities" != "prompt_settings"
    ensures "entities" != "ambiguity_rules" && "entities" != "metadata"
  {
    assert "domain_info"[0] != "prompt_settings"[0] && "domain_info"[0] != "ambiguity_rules"[0];
    assert "domain_info"[0] != "metadata"[0] && "prompt_settings"[0] != "ambiguity_rules"[0];
    assert "prompt_settings"[0] != "metadata"[0] && "ambiguity_rules"[0] != "metadata"[0];
    assert "entities"[0] != "domain_info"[0] && "entities"[0] != "prompt_settings"[0];
    assert "entities"[0] != "ambiguity_rules"[0] && "entities"[0] != "metadata"[0];
  }

  /** The shape of the context record, whatever its four sections hold. */
  lemma ContextDictShape(domainInfo: Value, promptSettings: Value, ambiguityRules: Value, metadata: Value)
    ensures var c := [("domain_info", domainInfo), ("prompt_settings", promptSettings),
                      ("ambiguity_rules", ambiguityRules), ("metadata", metadata)];
      Keys(c) == ["domain_info", "prompt_settings", "ambiguity_rules", "metadata"] &&
      DictGet(c, "domain_info") == Some(domainInfo) &&
      DictGet(c, "prompt_settings") == Some(promptSettings) &&
      DictGet(c, "ambiguity_rules") == Some(ambiguityRules) &&
      DictGet(c, "metadata") == Some(metadata) &&
      !HasKey(c, "entities")
  {
    ContextKeysDistinct();
    FourEntries("domain_info", "prompt_settings", "ambiguity_rules", "metadata",
      domainInfo, promptSettings, ambiguityRules, metadata);
    NotAmongFour("entities", "domain_info", "prompt_settings", "ambiguity_rules", "metadata",
      domainInfo, promptSettings, ambiguityRules, metadata);
  }

  /** A four-entry record with distinct keys binds each key to its own value. */
  lemma FourEntries(k0: string, k1: string, k2: string, k3: string, v0: Value, v1: Value, v2: Value, v3: Value)
    requires k0 != k1 && k0 != k2 && k0 != k3 && k1 != k2 && k1 != k3 && k2 != k3
    ensures var c := [(k0, v0), (k1, v1), (k2, v2), (k3, v3)];
      Keys(c) == [k0, k1, k2, k3] &&
      DictGet(c, k0) == Some(v0) && DictGet(c, k1) == Some(v1) &&
      DictGet(c, k2) == Some(v2) && DictGet(c, k3) == Some(v3)
  {
    var c := [(k0, v0), (k1, v1), (k2, v2), (k3, v3)];
    FourKeys(c, k0, k1, k2, k3);
    EntryAt(c, 2);
    EntryAt(c, 3);
  }

  lemma FourKeys(c: Dict, k0: string, k1: string, k2: string, k3: string)
    requires |c| == 4 && c[0].0 == k0 && c[1].0 == k1 && c[2].0 == k2 && c[3].0 == k3
    ensures Keys(c) == [k0, k1, k2, k3]
  {
  }

  lemma EntryAt(c: Dict, j: nat)
    requires j < |c| && forall i :: 0 <= i < j ==> c[i].0 != c[j].0
    ensures DictGet(c, c[j].0) == Some(c[j].1)
  {
    DictGetAt(c, j);
  }

  /** A key other than the four is absent from the record. */
  lemma NotAmongFour(k: string, k0: string, k1: string, k2: string, k3: string, v0: Value, v1: Value, v2: Value, v3: Value)
    requires k != k0 && k != k1 && k != k2 && k != k3
    ensures !HasKey([(k0, v0), (k1, v1), (k2, v2), (k3, v3)], k)
  {
  }

  // ---------------------------------------------------------------------
  // Checking the configuration
  // ---------------------------------------------------------------------

  const NameRequired := "Business name is required in business domain config"
  const EntityRequired := "At least one business entity is required"
  const RequiredSettings: seq<string> := ["max_prompt_length", "confidence_threshold"]

  function DirectoryMissing(configPath: string): string {
    "Configuration directory not found: " + configPath
  }

  function SettingMissing(setting: string): string {
    "Missing required prompt setting: " + setting
  }

  /** The business-domain part of the check; a document that is not a mapping fails on `.get`. */
  function DomainIssues(domainInfo: Value): seq<string> {
    if !domainInfo.Obj? then ["Error validating business domain: " + NoAttribute(domainInfo, "get")]
    else
      (if !Truthy(GetOr(domainInfo.fields, "business_name", Null)) then [NameRequired] else []) +
      (if !Truthy(GetOr(domainInfo.fields, "entities", Null)) then [EntityRequired] else [])
  }

  /**
   * The first n required settings checked with `in`; a document that is not
   * a container fails on the first of them, before any issue is added.
   */
  function MissingSettings(settings: Value, n: nat): Result<seq<string>>
    requires n <= |RequiredSettings|
  {
    if n == 0 then Success([])
    else
      match MissingSettings(settings, n - 1)
      case Failure(e) => Failure(e)
      case Success(issues) =>
        match PyIn(RequiredSettings[n - 1], settings)
        case None => Failure(NotContainer(settings))
        case Some(present) => Success(issues + if present then [] else [SettingMissing(RequiredSettings[n - 1])])
  }

  function SettingsIssues(settings: Value): seq<string> {
    match MissingSettings(settings, |RequiredSettings|)
    case Failure(e) => ["Error validating prompt settings: " + e]
    case Success(issues) => issues
  }

  /** validate_configuration */
  function ConfigurationIssues(configDirExists: bool, configPath: string, domain: YamlFile, settings: YamlFile): seq<string> {
    if !configDirExists then [DirectoryMissing(configPath)]
    else
      DomainIssues(LoadSection(domain, DefaultBusinessDomain)) +
      SettingsIssues(LoadSection(settings, DefaultPromptSettings))
  }

  /**
   * validate_configuration, as the source runs it: a missing directory is
   * the one issue; otherwise the domain is checked, then each required
   * setting in turn.
   */
  method ValidateConfiguration(configDirExists: bool, configPath: string, domain: YamlFile, settings: YamlFile)
    returns (issues: seq<string>)
    ensures issues == ConfigurationIssues(configDirExists, configPath, domain, settings)
    ensures !configDirExists ==> issues == [DirectoryMissing(configPath)]
  {
    issues := [];
    if !configDirExists {
      issues := issues + [DirectoryMissing(configPath)];
      return;
    }
    var domainInfo := LoadSection(domain, DefaultBusinessDomain);
    issues := DomainIssues(domainInfo);
    var promptSettings := LoadSection(settings, DefaultPromptSettings);
    var settingsIssues := CheckSettings(promptSettings);
    issues := issues + settingsIssues;
  }

  /** The loop over the required settings: each absent one adds an issue; a non-container stops it with one error. */
  method CheckSettings(promptSettings: Value) returns (issues: seq<string>)
    ensures issues == SettingsIssues(promptSettings)
  {
    issues := [];
    var failed := false;
    assert MissingSettings(promptSettings, 0) == Success([]);
    for i := 0 to |RequiredSettings|
      invariant !failed ==> MissingSettings(promptSettings, i) == Success(issues)
      invariant failed ==> issues == SettingsIssues(promptSettings)
    {
      if !failed {
        var setting := RequiredSettings[i];
        match PyIn(setting, promptSettings)
        case None =>
          issues := ["Error validating prompt settings: " + NotContainer(promptSettings)];
          failed := true;
          FailsOnlyOnNonContainers(promptSettings, |RequiredSettings|);
        case Some(present) =>
          ghost var before := issues;
          if !present {
            issues := issues + [SettingMissing(setting)];
          }
          assert issues == before + if present then [] else [SettingMissing(RequiredSettings[i])];
      }
    }
  }

  /** The settings check fails exactly when the document is not a container, and then with the `in` error. */
  lemma {:induction false} FailsOnlyOnNonContainers(settings: Value, n: nat)
    requires 1 <= n <= |RequiredSettings|
    ensures MissingSettings(settings, n).Failure? <==> !(settings.Obj? || settings.List? || settings.Str?)
    ensures MissingSettings(settings, n).Failure? ==> MissingSettings(settings, n) == Failure(NotContainer(settings))
  {
    if n > 1 {
      FailsOnlyOnNonContainers(settings, n - 1);
    }
  }

  /**
   * For a mapping, the settings report names exactly the required settings
   * that are absent, in the order they are listed.
   */
  lemma SettingsChecked(settings: Dict)
    ensures SettingsIssues(Obj(settings)) ==
      (if HasKey(settings, "max_prompt_length") then [] else [SettingMissing("max_prompt_length")]) +
      (if HasKey(settings, "confidence_threshold") then [] else [SettingMissing("confidence_threshold")])
  {
    var first := if HasKey(settings, "max_prompt_length") then [] else [SettingMissing("max_prompt_length")];
    assert RequiredSettings[0] == "max_prompt_length" && RequiredSettings[1] == "confidence_threshold";
    assert MissingSettings(Obj(settings), 0) == Success([]);
    assert PyIn(RequiredSettings[0], Obj(settings)) == Some(HasKey(settings, "max_prompt_length"));
    assert MissingSettings(Obj(settings), 1) == Success([] + first);
  }

  /**
   * With the directory present and both files absent or unloadable, the
   * built-in defaults pass the check: they have a business name, entities
   * and both required settings.
   */
  lemma DefaultsValidate(configPath: string, domain: YamlFile, settings: YamlFile)
    requires !domain.Document? && !settings.Document?
    ensures ConfigurationIssues(true, configPath, domain, settings) == []
  {
    DefaultDomainPasses();
    DefaultSettingsPass();
  }

  /** The default business domain has a business name and entities. */
  lemma DefaultDomainPasses()
    ensures DomainIssues(Obj(DefaultBusinessDomain)) == []
  {
    var d := DefaultBusinessDomain;
    DictGetAt(d, 0);
    DictGetAt(d, 3);
  }

  /** The default prompt settings hold both required settings. */
  lemma DefaultSettingsPass()
    ensures SettingsIssues(Obj(DefaultPromptSettings)) == []
  {
    var p := DefaultPromptSettings;
    DictGetAt(p, 0);
    DictGetAt(p, 7);
    SettingsChecked(p);
  }

  /**
   * Empty domain and settings files load as {}, so the check reports the
   * missing business name, the missing entities and both missing settings.
   */
  lemma EmptyFilesReportMissingFields(configPath: string)
    ensures LoadSection(Document(Null), DefaultBusinessDomain) == Obj([])
    ensures ConfigurationIssues(true, configPath, Document(Null), Document(Null)) ==
      [NameRequired, EntityRequired, SettingMissing("max_prompt_length"), SettingMissing("confidence_threshold")]
  {
    SettingsChecked([]);
  }

  /**
   * With a mapping for the domain and one for the settings, there is one
   * issue per missing business name, per missing or empty entities and per
   * absent required setting, and no other.
   */
  lemma IssuesCounted(configPath: string, domain: Dict, settings: Dict)
    ensures |ConfigurationIssues(true, configPath, Document(Obj(domain)), Document(Obj(settings)))| ==
      (if Truthy(GetOr(domain, "business_name", Null)) then 0 else 1) +
      (if Truthy(GetOr(domain, "entities", Null)) then 0 else 1) +
      (if HasKey(settings, "max_prompt_length") then 0 else 1) +
      (if HasKey(settings, "confidence_threshold") then 0 else 1)
  {
    SettingsChecked(settings);
  }
}
