# A verified model of the natural-language to Cube.js pipeline

This project models, in Dafny, the deterministic core of *agentic-analytics-with-CUBE*: the services that turn a business question into a Cube.js query, check it against the semantic layer, run it, and hand the result back.

One Dafny module per source file:

- **CubeQueryValidator** (`cube_query_validator.dfy`). Checks the measures, dimensions and time dimensions of a Cube query against a view schema, after stripping the `View.` prefix. Filters only warn. Each unknown name gets the closest catalogue name (the first one in iteration order at Levenshtein distance at most 3). It also renders the schema summary and the correction prompt. The edit distance is the rolling-row algorithm of the source, proved equal to the recursive definition.
- **Conversation** (`conversation_manager.dfy`). The bounded history of the orchestrator's chat with the model, a class whose list is trimmed to the last `max_messages` entries after every add. It also covers the OpenAI projection, the last Cube query, topic detection, export/import and the integrity check.
- **AgentSchemas, Agent, Prompts, MetadataTools, ContextTools** (`schemas.dfy`, `agent.dfy`, `prompts.dfy`, `metadata_tools.dfy`, `context_tools.dfy`). The query-ambiguity assessor:
  - its states, ambiguity flags and metadata getters;
  - the session context that accumulates clarifications;
  - the per-state routing of `assess_query`, `request_clarification`, `receive_clarification`, `confirm_query`, `handle_rejection` and `construct_api_call`;
  - the per-state prompts;
  - the metadata and context tools the model may call.
- **Orchestrator, LlmClient, ApiServer** (`orchestrator.dfy`, `llm_client.dfy`, `api_server.dfy`):
  - initialisation and the `process_query` dispatch;
  - the normalisation of the model's JSON;
  - the REST mapping, including the type checks of the QueryResponse model, the readiness check and the download guard.
- **MetadataFetcher, YmlParser, ContextManager, PromptBuilder, ExampleManager, BusinessConfig** (`cube_metadata_fetcher.dfy`, `yml_parser.dfy`, `context_manager.dfy`, `prompt_builder.dfy`, `example_manager.dfy`, `business_config.dfy`). The system-prompt generator:
  - view and field extraction from fetched Cube metadata;
  - YAML view normalisation;
  - the choice between dynamic and static views;
  - rendering of the prompt sections;
  - word-overlap ranking of example queries and pattern suggestions;
  - configuration checks.
- **CsvImport** (`csv_import.dfy`). The MySQL CSV import service:
  - the dtype to column type mapping;
  - column and table name cleaning;
  - SQL literal rendering as written (quotes doubled, backslashes kept) beside the escaped rendering, and batching of INSERTs;
  - the poll loop's processed-files bookkeeping.
- **AnalystConfig, CodeExecutor, VisualizationGenerator** (`analyst_config.dfy`, `code_executor.dfy`, `visualization_generator.dfy`, with `tool_models.dfy`). The analyst service:
  - the environment configuration, its validation, and the file-type and file-size checks;
  - the substring-based code-safety check;
  - the visualisation-code review;
  - the empty-code guards of both tools.
- **Common, Json** (`common.dfy`, `json.dfy`). Python semantics shared by the rest:
  - `Option` and `Result`;
  - `split`, `strip`, ASCII `lower`/`upper`, `str(int)`/`int()` and `sorted`;
  - a dynamic JSON value whose dictionaries are insertion-ordered sequences of pairs, and the loaded YAML document (an empty file read through the file loader is `{}`);
  - `dict.get`, truthiness, `str`/`repr`, and `json.dumps(indent=2)`.

Code that updates state in place is modelled in place:
- classes with `modifies` clauses for the conversation manager, the session context, the assessor, the orchestrator, the fetcher, the context manager, the LLM client, the configuration and the import service;
- methods with loop invariants for the loops that build lists, accumulate issues or track a best match.

Each method is proved equal to a specification function. The properties the source promises are proved as lemmas about those functions. Collaborators that cannot be modelled are parameters:
- the language model's output (the answer of a run, including the tool calls it made);
- the Cube client's result;
- file contents and the existence of paths;
- environment variables;
- whether a database import succeeded.

Where the published description of the system and the code differ, the model follows the code:
- There is no validate, correct and retry loop. `process_query` runs the model's Cube query directly, without the validator (orchestrator/orchestrator.py:324-327). The validator and its correction prompt are modelled on their own.
- The history bound "at most N entries after every add" holds for a positive maximum only. The trim is Python slicing: a maximum of 0 keeps everything, and a negative one drops a prefix.

## Model

| member | source | states |
|---|---|---|
| CubeQueryValidator.Min3 | orchestrator/cube_query_validator.py:229-232 | the minimum of the three candidate costs is one of them and no larger than any |
| CubeQueryValidator.DistSymmetric | orchestrator/cube_query_validator.py:216-234 | the edit distance is symmetric, so swapping the arguments as the source does is harmless |
| CubeQueryValidator.DistToItself | orchestrator/cube_query_validator.py:216-234 | a name is at distance 0 from itself |
| CubeQueryValidator.DistAtMostLonger | orchestrator/cube_query_validator.py:216-234 | the distance never exceeds the length of the longer string |
| CubeQueryValidator.DistAtLeastLengthGap | orchestrator/cube_query_validator.py:216-234 | the distance is at least the difference of the two lengths |
| CubeQueryValidator.DistCell | orchestrator/cube_query_validator.py:225-232 | each table cell is the minimum of deletion, insertion and substitution from the three cells before it |
| CubeQueryValidator.Levenshtein | orchestrator/cube_query_validator.py:216-234 | the two-row dynamic programme returns the edit distance of the two strings |
| CubeQueryValidator.ClosestInIsFirstClosest | orchestrator/cube_query_validator.py:187-214 | nothing is found iff no candidate is within distance 3; otherwise the result is the first candidate of least distance |
| CubeQueryValidator.FindClosestMatch | orchestrator/cube_query_validator.py:187-214 | the scan returns what the closest-match specification gives |
| CubeQueryValidator.EntryNames | orchestrator/cube_query_validator.py:47-76 | only non-empty names are collected |
| CubeQueryValidator.FromSchema | orchestrator/cube_query_validator.py:47-76 | every time dimension of the extracted catalogue is also one of its dimensions |
| CubeQueryValidator.FromDocument | orchestrator/cube_query_validator.py:29-76 | loading succeeds only on a dictionary document, and every time dimension is also a dimension |
| CubeQueryValidator.ListNameRefused | orchestrator/cube_query_validator.py:47-54 | a measure whose name is a non-empty list makes loading fail with "unhashable type: 'list'", as adding it to the set does |
| CubeQueryValidator.TimeNamesAreNames | orchestrator/cube_query_validator.py:57-76 | after removing duplicates, every time-dimension name is still a dimension name |
| CubeQueryValidator.TimeNamesSubset | orchestrator/cube_query_validator.py:57-76 | every time-dimension name is a dimension name |
| CubeQueryValidator.FieldName | orchestrator/cube_query_validator.py:173-185 | a name without a dot is its own field name; otherwise the field name is everything after the first dot |
| CubeQueryValidator.InvalidNames | orchestrator/cube_query_validator.py:100-156 | the invalid names are exactly the queried names whose field name is not available, in query order |
| CubeQueryValidator.RecordFields | orchestrator/cube_query_validator.py:138-143 | one field per dictionary entry (its 'dimension', '' when missing), other entries skipped, so never more fields than entries |
| CubeQueryValidator.Messages | orchestrator/cube_query_validator.py:106-110 | one error per invalid name, the prefix, the name, the middle text and the cube name closed by a quote, as in "Measure '<name>' does not exist in cube '<cube>'" |
| CubeQueryValidator.FilterWarnings | orchestrator/cube_query_validator.py:158-169 | at most one warning per filter |
| CubeQueryValidator.CheckNames | orchestrator/cube_query_validator.py:100-156 | the loop collects exactly the invalid names, their error messages and the suggestions for them |
| CubeQueryValidator.CollectFields | orchestrator/cube_query_validator.py:138-143 | the loop collects exactly the fields the RecordFields specification gives |
| CubeQueryValidator.CheckFilterMembers | orchestrator/cube_query_validator.py:158-169 | warns for exactly the filter members that are neither measures nor dimensions |
| CubeQueryValidator.ValidateQuery | orchestrator/cube_query_validator.py:78-171 | the result is what the validation specification gives |
| CubeQueryValidator.ValidIffAllNamesExist | orchestrator/cube_query_validator.py:78-171 | a query is valid iff every measure, dimension and time dimension it names exists |
| CubeQueryValidator.NoneInvalidIffAllExist | orchestrator/cube_query_validator.py:100-156 | no name is invalid iff every name's field name is available |
| CubeQueryValidator.ErrorsMatchInvalidEntries | orchestrator/cube_query_validator.py:78-171 | there is one error per invalid entry, and a query is valid iff it has no errors |
| CubeQueryValidator.FiltersOnlyWarn | orchestrator/cube_query_validator.py:158-169 | filters never change validity or the errors; they only warn |
| CubeQueryValidator.SuggestionsNameExistingFields | orchestrator/cube_query_validator.py:111-116 | every suggestion added is keyed by an invalid name and is the cube-qualified closest available field, the first one in iteration order at the least distance, itself at most 3 |
| CubeQueryValidator.SetEntry | orchestrator/cube_query_validator.py:115 | after setting a suggestion, each entry is the new binding or an old one |
| CubeQueryValidator.SuggestionsOfValidate | orchestrator/cube_query_validator.py:78-171 | every suggestion of validate_query is keyed by an invalid entry and names the closest field of the same kind (the first at the least distance, at most 3) |
| CubeQueryValidator.SuggestGet | orchestrator/cube_query_validator.py:111-116 | after the suggestion loop, a visited name with a close enough field maps to that cube-qualified field, and every other name keeps what it had |
| CubeQueryValidator.SuggestionsComplete | orchestrator/cube_query_validator.py:96-171 | every invalid name that has a close enough field gets a suggestion, and none other: the time-dimension one if any, else the dimension one, else the measure one, as the later loops overwrite the earlier |
| CubeQueryValidator.IndexOfAfterPrefix | orchestrator/cube_query_validator.py:183-184 | the first dot of "cube.name" is the one after a dot-free cube name |
| CubeQueryValidator.FieldNameOfQualified | orchestrator/cube_query_validator.py:173-185 | a name qualified with a dot-free cube name has the unqualified name as its field name |
| CubeQueryValidator.MixedQueryFlagsBoth | orchestrator/cube_query_validator.py:78-171 | a query with one existing and one missing measure, and one existing and one missing dimension, is invalid and flags exactly the two missing names, with two errors |
| CubeQueryValidator.OneGoodOneBad | orchestrator/cube_query_validator.py:100-117 | of a good and a bad qualified name, only the bad one is invalid |
| CubeQueryValidator.GetSchemaSummary | orchestrator/cube_query_validator.py:236-251 | each list is sorted and holds exactly the schema's names; the counts are the list lengths |
| CubeQueryValidator.BulletLines | orchestrator/cube_query_validator.py:273-274 | one "  - <item>" line per item, in order |
| CubeQueryValidator.ReplaceLines | orchestrator/cube_query_validator.py:277-281 | one "  - Replace '<invalid>' with '<suggestion>'" line per suggestion, in order |
| CubeQueryValidator.GenerateCorrectionPrompt | orchestrator/cube_query_validator.py:253-318 | a valid result gives ""; an invalid one gives the correction lines joined by newlines |
| CubeQueryValidator.CorrectionPromptMentionsErrors | orchestrator/cube_query_validator.py:253-318 | an invalid result's prompt lists every error and repeats the user's question |
| Conversation.Trim | orchestrator/conversation_manager.py:171-174 | the trimmed history is a suffix of the history: the newest max entries for a positive maximum, everything for 0, and the history without its first -max entries for a negative maximum, as Python's slice gives |
| Conversation.Imported | orchestrator/conversation_manager.py:126-133 | importing an absent history gives [], and otherwise the history trimmed to the maximum |
| Conversation.AssistantContent | orchestrator/conversation_manager.py:45-73 | the assistant content is the cube-query, clarification or error prefix followed by the interpretation for those three response types, and otherwise the interpretation (default "Response processed") |
| Conversation.RecordFields | orchestrator/conversation_manager.py:25-43 | a user record carries role "user", content and timestamp |
| Conversation.AssistantFields | orchestrator/conversation_manager.py:45-73 | an assistant record carries role "assistant", content and timestamp, and keeps the whole LLM response as response_data |
| Conversation.Projection | orchestrator/conversation_manager.py:76-96 | projecting the history succeeds iff every entry has role and content, and then gives each entry cut down to role and content, in order |
| Conversation.ProjectionFailureSticks | orchestrator/conversation_manager.py:88-94 | once an entry lacks role or content, the whole projection fails with that entry's KeyError |
| Conversation.OpenaiMessagesShape | orchestrator/conversation_manager.py:76-96 | the API message list is one longer than the history, starts with the system prompt, and carries each entry's role and content without response_data |
| Conversation.Outcomes | orchestrator/conversation_manager.py:135-146 | one lookup outcome per message, in history order |
| Conversation.LastCubeQueryIsNewest | orchestrator/conversation_manager.py:135-146 | a query found belongs to the newest assistant message with response_type cube_query, with only skipped messages after it; None only when every message is skipped |
| Conversation.NoMatchGivesNull | orchestrator/conversation_manager.py:135-146 | with no matching message the result is None |
| Conversation.LastCubeQueryAfterReply | orchestrator/conversation_manager.py:45-73 | after an assistant reply with a cube query is added (positive maximum), that query is the last cube query |
| Conversation.TopicsIn | orchestrator/conversation_manager.py:157-167 | a topic is found in a text iff the text contains the topic's keyword |
| Conversation.TopicHitsFailureSticks | orchestrator/conversation_manager.py:148-169 | once a user message without content is met, the topic scan fails with that KeyError |
| Conversation.TopicsInTable | orchestrator/conversation_manager.py:157-167 | the four keyword tests run in the order revenue, event, ticket, sales, each adding its topic |
| Conversation.TopicHitsMentioned | orchestrator/conversation_manager.py:148-169 | a topic is collected iff some user message mentions its keyword |
| Conversation.TopicsMentioned | orchestrator/conversation_manager.py:148-169 | the distinct topics reported are exactly the topics some user message mentions |
| Conversation.CountRole | orchestrator/conversation_manager.py:186-187 | the number of messages with a role never exceeds the history's length |
| Conversation.MessageIssues | orchestrator/conversation_manager.py:194-216 | at most four issues are reported for one message |
| Conversation.NoIssuesIffWellFormed | orchestrator/conversation_manager.py:194-216 | no integrity issue is reported iff every message has role, content and timestamp and its role is user or assistant |
| Conversation.AddingKeepsIntegrity | orchestrator/conversation_manager.py:25-73 | a clean history stays clean after the manager adds a user or assistant message and trims |
| Conversation.ConversationManager.constructor | orchestrator/conversation_manager.py:15-23 | starts with the given maximum and an empty history |
| Conversation.ConversationManager.TrimHistory | orchestrator/conversation_manager.py:171-174 | the history becomes its trimmed suffix, and with a positive maximum it holds at most that many entries |
| Conversation.ConversationManager.AddUserMessage | orchestrator/conversation_manager.py:25-43 | appends the user record, then trims |
| Conversation.ConversationManager.AddAssistantMessage | orchestrator/conversation_manager.py:45-73 | appends the assistant record, then trims |
| Conversation.ConversationManager.GetOpenaiMessages | orchestrator/conversation_manager.py:76-96 | returns what the API-view specification gives for the current history |
| Conversation.ConversationManager.GetConversationContext | orchestrator/conversation_manager.py:98-111 | returns the context report of the current history and maximum |
| Conversation.ConversationManager.ClearConversation | orchestrator/conversation_manager.py:113-115 | empties the history and keeps the maximum |
| Conversation.ConversationManager.ExportConversation | orchestrator/conversation_manager.py:117-124 | returns the history as an independent copy |
| Conversation.ConversationManager.ImportConversation | orchestrator/conversation_manager.py:126-133 | installs the imported history trimmed to the maximum, or [] |
| Conversation.ConversationManager.GetLastCubeQuery | orchestrator/conversation_manager.py:135-146 | returns what the newest-cube-query specification gives |
| Conversation.ConversationManager.KeywordTopics | orchestrator/conversation_manager.py:157-167 | the four tests find exactly the table's topics whose keyword the text contains, in table order |
| Conversation.ConversationManager.TopicsOfMessage | orchestrator/conversation_manager.py:152-167 | one message contributes the topics of its lowered content when it is a user message, nothing otherwise |
| Conversation.ConversationManager.GetConversationTopics | orchestrator/conversation_manager.py:148-169 | returns what the topic specification gives for the history |
| Conversation.ConversationManager.GenerateSummary | orchestrator/conversation_manager.py:176-192 | returns "No conversation history" or the counts-and-topics summary of the specification |
| Conversation.ConversationManager.ValidateConversationIntegrity | orchestrator/conversation_manager.py:194-216 | returns exactly the integrity issues of the history, message by message |
| AgentSchemas.ParseState | orchestrator/agents/query-ambiguity-assessor/schemas.py:10-19 | a value is accepted only when it is the value of the state returned |
| AgentSchemas.EightStates | orchestrator/agents/query-ambiguity-assessor/schemas.py:10-19 | there are exactly eight distinct states and every state is recovered from its value |
| AgentSchemas.ParseResponseType | orchestrator/agents/query-ambiguity-assessor/schemas.py:224-231 | a response-type literal is accepted only when it is the value of the type returned |
| AgentSchemas.SixResponseTypes | orchestrator/agents/query-ambiguity-assessor/schemas.py:224-231 | each of the six response types is recovered from its literal |
| AgentSchemas.AmbiguousAspects | orchestrator/agents/query-ambiguity-assessor/schemas.py:45-68 | the aspect list is non-empty exactly when is_ambiguous holds, and has at most five entries |
| AgentSchemas.AspectsFollowFlags | orchestrator/agents/query-ambiguity-assessor/schemas.py:55-68 | an aspect is listed iff its flag is set, and the listed aspects keep the fixed order time, grouping, filter, measure, dimension |
| AgentSchemas.AspectNamesDistinct | orchestrator/agents/query-ambiguity-assessor/schemas.py:57-67 | the five aspect names are pairwise different, so no aspect is listed twice |
| AgentSchemas.NamesOf | orchestrator/agents/query-ambiguity-assessor/schemas.py:83-89 | one name per entry, in order, "" for an entry without a name |
| AgentSchemas.TimeDimensionsAreTimeTypedNames | orchestrator/agents/query-ambiguity-assessor/schemas.py:91-93 | the time dimensions are the dimension names at exactly the positions typed "time", in increasing order |
| AgentSchemas.TimeDimensionsAreDimensions | orchestrator/agents/query-ambiguity-assessor/schemas.py:87-93 | every time dimension is one of the dimension names |
| AgentSchemas.LastUserMessageIsNewest | orchestrator/agents/query-ambiguity-assessor/schemas.py:116-121 | a returned content belongs to a user message with no user message after it; None means no message has role "user" |
| AgentSchemas.LastUserMessageAfterAdd | orchestrator/agents/query-ambiguity-assessor/schemas.py:108-121 | right after a user message is added, get_last_user_message returns its content |
| AgentSchemas.ConversationContext.constructor | orchestrator/agents/query-ambiguity-assessor/schemas.py:96-106 | a new context has the session id, no messages and an empty query context |
| AgentSchemas.ConversationContext.AddMessage | orchestrator/agents/query-ambiguity-assessor/schemas.py:108-114 | appends exactly one role/content/timestamp message and leaves the query context alone |
| AgentSchemas.ConversationContext.GetLastUserMessage | orchestrator/agents/query-ambiguity-assessor/schemas.py:116-121 | scans from the newest message and returns what the newest-user-message specification gives, including the KeyError of a message without a role |
| AgentSchemas.ConversationContext.UpdateContext | orchestrator/agents/query-ambiguity-assessor/schemas.py:123-125 | binds the key in the query context (replacing in place, or appending a new key) and leaves the history alone |
| AgentSchemas.UpdateContextBinds | orchestrator/agents/query-ambiguity-assessor/schemas.py:123-125 | after update_context the key reads back as the value and every other key reads as before |
| AgentSchemas.AsStringsOfStrs | orchestrator/agents/query-ambiguity-assessor/schemas.py:192-196 | a dumped list of strings reads back as the same list |
| AgentSchemas.AsDictsOfObjs | orchestrator/agents/query-ambiguity-assessor/schemas.py:197-204 | a dumped list of filter or time-dimension objects reads back as the same list |
| AgentSchemas.AsStrMapOfValue | orchestrator/agents/query-ambiguity-assessor/schemas.py:205-208 | a dumped order mapping reads back as the same mapping |
| AgentSchemas.DumpRoundTrip | orchestrator/agents/query-ambiguity-assessor/schemas.py:190-209 | model_dump of CubeQueryParameters loses nothing: reading the dump back gives the same parameters |
| Agent.PromptText | orchestrator/agents/query-ambiguity-assessor/agent.py:177-182 | the text sent to the model for a templated state starts with that state's header |
| Agent.NoUpdateKeepsEmpty | orchestrator/agents/query-ambiguity-assessor/agent.py:128-146 | tool runs that make no update_context call leave an empty query context empty |
| Agent.ClearForgets | orchestrator/agents/query-ambiguity-assessor/agent.py:142-146 | once a run calls clear_context, the resulting context does not depend on the context the run started from |
| Agent.ClarifySpec | orchestrator/agents/query-ambiguity-assessor/agent.py:245-313 | the response is well formed (a success is CLARIFICATION_REQUEST with type clarification; a failure is ERROR, type error, empty data, with a message), and the history only grows |
| Agent.ConfirmSpec | orchestrator/agents/query-ambiguity-assessor/agent.py:409-473 | the response is well formed, a success is in QUERY_CONFIRMATION, and the history only grows |
| Agent.AssessSpec | orchestrator/agents/query-ambiguity-assessor/agent.py:149-243 | the response is well formed, a success ends in clarification or confirmation, and the history starts with the old history plus the user's query |
| Agent.ReceiveSpec | orchestrator/agents/query-ambiguity-assessor/agent.py:315-407 | the response is well formed, a success ends in clarification or confirmation, and the history starts with the old history plus the user's response |
| Agent.RejectSpec | orchestrator/agents/query-ambiguity-assessor/agent.py:475-539 | the response is well formed, a success is in QUERY_REJECTION_HANDLER, and the history only grows |
| Agent.ConstructSpec | orchestrator/agents/query-ambiguity-assessor/agent.py:541-609 | the response is well formed, a success is in API_CALL_CONSTRUCTION, and the history only grows |
| Agent.AssessRecordsBeforeRouting | orchestrator/agents/query-ambiguity-assessor/agent.py:172-234 | after a successful model run the history holds the query and then "Assessment: <reasoning>" before anything later; any next state other than clarification or confirmation gives "Unexpected state transition: AgentState.<NAME>" |
| Agent.AssessAsksAboutFirstAspect | orchestrator/agents/query-ambiguity-assessor/agent.py:206-215 | when the assessment asks for clarification, the clarification prompt is built from the assessment's ambiguous aspects, so it asks about the first flagged one |
| Agent.MergeInfoKeepsOthers | orchestrator/agents/query-ambiguity-assessor/agent.py:364-366 | writing the extracted information leaves a key it does not mention as it was |
| Agent.MergeInfoBindsAt | orchestrator/agents/query-ambiguity-assessor/agent.py:364-366 | the last binding of a key in the extracted information is the value the context then holds |
| Agent.MergeInfoBinds | orchestrator/agents/query-ambiguity-assessor/agent.py:364-366 | with distinct extracted keys, every extracted key is bound to its value and every other key is unchanged |
| Agent.ReceiveWritesEveryKey | orchestrator/agents/query-ambiguity-assessor/agent.py:315-389 | when the clarification leads to confirmation, the context the confirmation prompt sees holds every extracted key with its value |
| Agent.RejectionForgetsContext | orchestrator/agents/query-ambiguity-assessor/agent.py:475-539 | the outcome of handle_rejection does not depend on the old query context, and without an update call the context ends empty, whether or not the run succeeded |
| Agent.QueryAmbiguityAssessor.constructor | orchestrator/agents/query-ambiguity-assessor/agent.py:59-90 | keeps the model name and key, takes the base system prompt, and starts in QUERY_ASSESSMENT |
| Agent.QueryAmbiguityAssessor.RunTools | orchestrator/agents/query-ambiguity-assessor/agent.py:128-146 | performs the run's context tool calls on the session's context in order and leaves the history alone |
| Agent.QueryAmbiguityAssessor.RequestClarification | orchestrator/agents/query-ambiguity-assessor/agent.py:245-313 | its response and the new session are exactly ClarifySpec of the old session |
| Agent.QueryAmbiguityAssessor.ConfirmQuery | orchestrator/agents/query-ambiguity-assessor/agent.py:409-473 | its response and the new session are exactly ConfirmSpec of the old session |
| Agent.QueryAmbiguityAssessor.Assess | orchestrator/agents/query-ambiguity-assessor/agent.py:171-243 | on a given context, its response and the new session are exactly AssessSpec of the old session |
| Agent.QueryAmbiguityAssessor.AssessQuery | orchestrator/agents/query-ambiguity-assessor/agent.py:149-243 | with a context, as Assess; without one, the response AssessSpec gives for a new empty session |
| Agent.QueryAmbiguityAssessor.ReceiveClarification | orchestrator/agents/query-ambiguity-assessor/agent.py:315-407 | its response and the new session are exactly ReceiveSpec of the old session |
| Agent.QueryAmbiguityAssessor.HandleRejection | orchestrator/agents/query-ambiguity-assessor/agent.py:475-539 | its response and the new session are exactly RejectSpec of the old session |
| Agent.QueryAmbiguityAssessor.ConstructApiCall | orchestrator/agents/query-ambiguity-assessor/agent.py:541-609 | its response and the new session are exactly ConstructSpec of the old session |
| Prompts.HeaderIsPrefix | orchestrator/agents/query-ambiguity-assessor/prompts.py:69 | every state prompt opens with its "STATE: <NAME>" line, whatever follows |
| Prompts.MeasureLines | orchestrator/agents/query-ambiguity-assessor/prompts.py:55-58 | one "  - name: title - description" line per measure, in order, with "" defaults |
| Prompts.DimensionLines | orchestrator/agents/query-ambiguity-assessor/prompts.py:60-63 | one line per dimension, in order, naming its type with "string" as the default |
| Prompts.ContextInfo | orchestrator/agents/query-ambiguity-assessor/prompts.py:65-67 | the "Previous clarifications" section is empty exactly when the query context is empty, and otherwise is the heading followed by the context's repr |
| Prompts.QueryAssessmentPrompt | orchestrator/agents/query-ambiguity-assessor/prompts.py:47-69 | the assessment prompt starts with its state header |
| Prompts.ClarifiedAspect | orchestrator/agents/query-ambiguity-assessor/prompts.py:165 | the aspect asked about is the first listed aspect, or "general" when none is listed |
| Prompts.Priority | orchestrator/agents/query-ambiguity-assessor/prompts.py:167-194 | the printed priority lies in 1..5 and is 5 exactly for an aspect outside the five known ones |
| Prompts.SampleLabels | orchestrator/agents/query-ambiguity-assessor/prompts.py:198-199 | at most the first five entries are sampled, each shown by its title or, without one, its name |
| Prompts.ClarificationRequestPrompt | orchestrator/agents/query-ambiguity-assessor/prompts.py:156-201 | the clarification prompt starts with its state header |
| Prompts.ClarifiesFirstSetFlag | orchestrator/agents/query-ambiguity-assessor/prompts.py:164-194 | the aspect asked about is the first set flag in the fixed order (or "general" when none is set), so an unclear time is asked before an ambiguous measure whose printed priority is higher |
| Prompts.ReceiveClarificationPrompt | orchestrator/agents/query-ambiguity-assessor/prompts.py:226-234 | the receive-clarification prompt starts with its state header |
| Prompts.ConfirmationTimeNames | orchestrator/agents/query-ambiguity-assessor/prompts.py:259-262 | the confirmation prompt's own filter of the dimensions gives exactly get_time_dimensions() |
| Prompts.QueryConfirmationPrompt | orchestrator/agents/query-ambiguity-assessor/prompts.py:252-264 | the confirmation prompt starts with its state header |
| Prompts.ApiCallConstructionPrompt | orchestrator/agents/query-ambiguity-assessor/prompts.py:315-327 | the construction prompt starts with its state header |
| Prompts.SameAvailableLists | orchestrator/agents/query-ambiguity-assessor/prompts.py:259-262 | the confirmation and construction prompts offer the same measures, dimensions and time dimensions |
| Prompts.RejectionHandlerPrompt | orchestrator/agents/query-ambiguity-assessor/prompts.py:367-373 | the rejection prompt starts with its state header |
| Prompts.TemplatePrompt | orchestrator/agents/query-ambiguity-assessor/prompts.py:394-459 | each of the six templated states gets a prompt that starts with its own header, with missing keyword arguments defaulted as the source does |
| Prompts.BuildStatePrompt | orchestrator/agents/query-ambiguity-assessor/prompts.py:394-467 | a templated state's prompt starts with that state's header; COMPLETED and ERROR give "Unknown state: AgentState.<NAME>" |
| MetadataTools.Summaries | orchestrator/agents/query-ambiguity-assessor/tools/metadata_tools.py:21-28 | one summary per metadata entry, in order: name/title/description with "" defaults, plus the type (default "string") for dimensions |
| MetadataTools.SummaryNames | orchestrator/agents/query-ambiguity-assessor/tools/metadata_tools.py:21-29 | the i-th summary carries the i-th listed name, so the detail list and the name list agree position by position |
| MetadataTools.GetAvailableMeasures | orchestrator/agents/query-ambiguity-assessor/tools/metadata_tools.py:8-30 | the count equals the number of measures, the names are the measures' names in order, and each summary's name is the listed name |
| MetadataTools.GetAvailableDimensions | orchestrator/agents/query-ambiguity-assessor/tools/metadata_tools.py:33-56 | as for measures, and a dimension without a type is reported with type "string" |
| MetadataTools.NamesOfSelect | orchestrator/agents/query-ambiguity-assessor/tools/metadata_tools.py:70-82 | taking the names of the filtered dimensions equals filtering the list of names with the same flags |
| MetadataTools.GetTimeDimensions | orchestrator/agents/query-ambiguity-assessor/tools/metadata_tools.py:59-83 | the listed names are exactly the metadata's time dimensions (type "time", in order), with count and summaries agreeing |
| MetadataTools.ValidateMeasureExists | orchestrator/agents/query-ambiguity-assessor/tools/metadata_tools.py:86-106 | exists holds iff some measure's name equals the queried name exactly; the valid list is all measure names |
| MetadataTools.ValidateDimensionExists | orchestrator/agents/query-ambiguity-assessor/tools/metadata_tools.py:109-129 | exists holds iff some dimension's name equals the queried name exactly; the valid list is all dimension names |
| ContextTools.UpdateQueryContext | orchestrator/agents/query-ambiguity-assessor/tools/context_tools.py:8-28 | sets the key in the session's query context (last write wins, other entries and the message history untouched) and reports success, the key, the value, "Updated query context: key = value" and the new context, in which the key now reads back as the value |
| ContextTools.GetQueryContext | orchestrator/agents/query-ambiguity-assessor/tools/context_tools.py:31-45 | returns the context unchanged with its keys listed one per entry, in insertion order |
| ContextTools.ClearQueryContext | orchestrator/agents/query-ambiguity-assessor/tools/context_tools.py:48-64 | empties the query context, keeps the history, and reports success with "Query context cleared" and an empty context |
| Json.DictSetIdempotent | orchestrator/agents/query-ambiguity-assessor/tools/context_tools.py:20 | setting the same key to the same value twice gives the same context as once, so a repeated update changes nothing |
| Json.DictSetGetSame | orchestrator/agents/query-ambiguity-assessor/tools/context_tools.py:20 | after the update the key reads back as the new value |
| Json.DictSetGetOther | orchestrator/agents/query-ambiguity-assessor/tools/context_tools.py:20 | the update leaves every other key's value as it was |
| Common.PathJoin | orchestrator/orchestrator.py:71-72 | joining a directory and a relative file name gives a path that ends with the name |
| Orchestrator.InitializedIff | orchestrator/orchestrator.py:182-264 | initialisation succeeds iff the Cube client came up, the key validated and a system prompt is installed (from the cache, the generator, or an earlier call); success implies a prompt |
| Orchestrator.InitErrorsIff | orchestrator/orchestrator.py:182-264 | when initialisation runs to the end, its error list is empty iff the three components came up on this call |
| Orchestrator.StalePromptStillInitializes | orchestrator/orchestrator.py:222-255 | a failed regeneration on a later call keeps the earlier prompt, so the orchestrator reports success while listing the prompt error |
| Orchestrator.QuestionSentTwice | orchestrator/orchestrator.py:293-307 | the user's message is stored before the call and the client appends it again, so the model receives the question twice in a row after the system prompt |
| Orchestrator.UserTurnProjection | orchestrator/orchestrator.py:293-307 | the chat view of the stored user message is the client's own user turn |
| Orchestrator.TrimKeepsNewest | orchestrator/orchestrator.py:293-296 | after the append and a trim to at least one entry the new message is last and every entry still has role and content |
| Orchestrator.BaseFields | orchestrator/orchestrator.py:284-291 | the result starts out unsuccessful |
| Orchestrator.FailedCallAddsNoReply | orchestrator/orchestrator.py:309-314 | a failed model call returns "LLM processing failed" with success false and records no assistant message |
| Orchestrator.SuccessfulCallAddsOneReply | orchestrator/orchestrator.py:316-375 | a successful call records exactly one assistant message built from the model's response, and the result is the dispatch on that response |
| Orchestrator.UpdateReports | orchestrator/orchestrator.py:324-375 | updating the result with success and response_type first sets exactly those two reports |
| Orchestrator.DispatchClarification | orchestrator/orchestrator.py:350-358 | a clarification succeeds as "clarification" without running anything |
| Orchestrator.DispatchLlmError | orchestrator/orchestrator.py:360-366 | an error reported by the model is an unsuccessful "llm_error" |
| Orchestrator.DispatchUnknown | orchestrator/orchestrator.py:368-373 | any other or missing response type is an unsuccessful "unknown" whose error names the type |
| Orchestrator.DispatchCubeQuery | orchestrator/orchestrator.py:324-348 | a Cube query is executed directly, and the result is a successful "data_result" iff the Cube result says success, otherwise "cube_error" |
| Orchestrator.CubeOutcomeReports | orchestrator/orchestrator.py:329-348 | the Cube result's success flag decides between data_result and cube_error |
| Orchestrator.EnvelopeIsUnknown | orchestrator/orchestrator.py:368-373 | the client's error envelope has no response_type, so its dispatch is "unknown" with the type printed as None |
| Orchestrator.RejectedAnswerEndsUnknown | orchestrator/orchestrator.py:316-373 | an answer the client turns into its error envelope reaches the dispatch as a successful call and the query ends as "unknown" with the type None |
| Orchestrator.QueryOrchestrator.constructor | orchestrator/orchestrator.py:46-78 | a new conversation with the given maximum, the cache directory from CACHE_DIR or "/app/cache", the two cache file paths inside it, and not initialised with no prompt and no errors |
| Orchestrator.QueryOrchestrator.Initialize | orchestrator/orchestrator.py:182-264 | the report and the installed prompt are what the initialisation specification gives; a completed run sets is_initialized to the reported success and stores the errors, while an exception leaves both as they were |
| Orchestrator.QueryOrchestrator.Respond | orchestrator/orchestrator.py:324-375 | the dispatch on the model's response, run against the Cube executor, is the dispatch specification |
| Orchestrator.QueryOrchestrator.ProcessQuery | orchestrator/orchestrator.py:266-383 | before initialisation the query is refused and the history is untouched; afterwards the result and the new history are the pipeline specification's |
| Orchestrator.QueryOrchestrator.GetConversationHistory | orchestrator/orchestrator.py:385-392 | returns the conversation history |
| Orchestrator.QueryOrchestrator.ClearConversation | orchestrator/orchestrator.py:394-396 | empties the history and keeps the maximum |
| LlmClient.ErrorResponse | orchestrator/llm_client.py:154-175 | the error envelope has success false, carries the error body under "response", and has no response_type of its own |
| LlmClient.ErrorBodyFields | orchestrator/llm_client.py:165-175 | the error body has response_type "error", the message as description, confidence 0.0 and the original query |
| LlmClient.NormalizeResponse | orchestrator/llm_client.py:106-152 | an answer that is not a JSON object fails with the AttributeError of .get |
| LlmClient.NormalizeKeepsOrEnvelops | orchestrator/llm_client.py:106-152 | a normalised answer either is the error envelope (unknown type, or a cube query with neither measures nor dimensions) or keeps the model's known response type with the three base fields first |
| LlmClient.NormalizeDefaults | orchestrator/llm_client.py:118-147 | an empty answer normalises to type "error", "Processing your query...", confidence 0.5 and the default error description |
| LlmClient.ClarificationKeepsLists | orchestrator/llm_client.py:137-141 | a clarification keeps its questions and suggestions, each [] when missing |
| LlmClient.ReplyNeverRaises | orchestrator/llm_client.py:39-104 | process_query never raises: the result is a success, or the error envelope with the "LLM API error: " or "Invalid JSON response from LLM: " message |
| LlmClient.RejectedAnswerLooksSuccessful | orchestrator/llm_client.py:87-150 | an answer of unknown type comes back as success true, with the error envelope (success false, no response_type) nested under "response" |
| LlmClient.EstimateTokens | orchestrator/llm_client.py:207-218 | the estimate is len(text) // 4 |
| LlmClient.Client.constructor | orchestrator/llm_client.py:21-37 | keeps the key, the model and the chat service |
| LlmClient.Client.Create | orchestrator/llm_client.py:21-37 | refuses exactly when both the argument key and the environment key are missing or empty, with the "API key not provided" error; otherwise uses the argument key if non-empty, else the environment key |
| LlmClient.Client.ProcessQuery | orchestrator/llm_client.py:39-104 | sends a copy of the caller's messages plus the user turn and returns what the reply specification gives, the caller's list being a value that is not changed |
| ApiServer.MappedSuccessIsDataOrClarification | orchestrator/api_server.py:139-190 | a mapped response is successful iff its type is data_result or clarification, and unsuccessful iff its type is "error" |
| ApiServer.Construct | orchestrator/api_server.py:21-28 | a QueryResponse is built iff no field has the wrong type (description a string; data null, a dict or a list of dicts; csv_filename and error null or a string; row_count null or an int), a boolean row_count becoming 0 or 1 |
| ApiServer.FailureKeepsError | orchestrator/api_server.py:184-190 | a failed orchestrator result becomes "Failed to process query" of type error, keeping its error text or "Unknown error occurred" when that is a string or null, and a 500 naming the error field otherwise |
| ApiServer.NullDescriptionIsServerError | orchestrator/api_server.py:157-165 | a data result whose model description is null fails QueryResponse validation, so the client gets a 500 |
| ApiServer.NotInitializedIsReported | orchestrator/api_server.py:129-190 | before initialisation the handler answers normally with the orchestrator's refusal as the error |
| ApiServer.ClarificationReachesClient | orchestrator/api_server.py:167-176 | a clarification the model asked for reaches the client as a success carrying its questions and suggestions, each [] when absent |
| ApiServer.DataResultMapping | orchestrator/api_server.py:139-165 | a successful data_result is passed on with the model's description (default "Query processed successfully"), the Cube data, the CSV name and the row count when QueryResponse accepts them, and otherwise is a 500 carrying the validation error |
| ApiServer.DataResultReachesClient | orchestrator/api_server.py:157-164 | a data result built by the orchestrator reaches the client with the Cube result's data, CSV name and row count, and does so iff the description is a string, the data null, a dict or a list of dicts, the CSV name null or a string and the row count null or an integer |
| ApiServer.Query | orchestrator/api_server.py:123-195 | with no orchestrator the answer is 503; otherwise it is the mapping of what process_query returns, refusal included, with a response QueryResponse refuses becoming a 500 |
| ApiServer.ReadinessCheck | orchestrator/api_server.py:93-105 | ready iff there is an orchestrator and its prompt cache file exists; the status is "ready" or "not_ready" |
| ApiServer.Candidates | orchestrator/api_server.py:211-215 | the three fixed result directories, in order, each followed by the file name |
| ApiServer.Download | orchestrator/api_server.py:197-230 | a non-CSV name is a 400; a name with "..", "/" or "\" is a 400 before any lookup; otherwise a name whose candidate exists is served, from the first candidate path that exists, as text/csv, and it is a 404 iff none exists |
| MetadataFetcher.FirstMatch | orchestrator/cube_metadata_fetcher.py:141-153 | the position found is the first entry with the name (and a view, when only views are sought); none means no entry qualifies |
| MetadataFetcher.TargetPrefersViews | orchestrator/cube_metadata_fetcher.py:141-153 | an entry is found iff one has the name; a view of that name wins over a regular cube wherever it stands; without a view the first entry of that name is taken |
| MetadataFetcher.Names | orchestrator/cube_metadata_fetcher.py:155-160 | the available names are every entry's name, in order |
| MetadataFetcher.ViewFieldsInOrder | orchestrator/cube_metadata_fetcher.py:162-191 | a found view reports counts equal to its lists, keeps the fields in the API's order, and takes the title as description when there is none |
| MetadataFetcher.MissingViewListsCubes | orchestrator/cube_metadata_fetcher.py:155-160 | a name that is not there fails with "View/cube '<name>' not found in metadata" and lists every entry's name in order |
| MetadataFetcher.ListedNameIsFound | orchestrator/cube_metadata_fetcher.py:141-191 | the name of any listed entry finds a view reporting that name |
| MetadataFetcher.KeptOnePerNamedEntry | orchestrator/cube_metadata_fetcher.py:206-213 | with every entry named, one view is kept per entry, carrying that entry's name |
| MetadataFetcher.KeptAreViews | orchestrator/cube_metadata_fetcher.py:206-213 | only successful extractions are kept, never more than there are entries |
| MetadataFetcher.EveryNamedEntryListed | orchestrator/cube_metadata_fetcher.py:193-220 | with every entry named, get_all_views_metadata lists one view per entry and views_count is their number |
| MetadataFetcher.Partition | orchestrator/cube_metadata_fetcher.py:235-237 | every entry is a view or a regular cube and never both |
| MetadataFetcher.SummaryPartitions | orchestrator/cube_metadata_fetcher.py:222-246 | views_count plus cubes_count is total_cubes, and each name list has its count's length |
| MetadataFetcher.NothingLoadedFailsAll | orchestrator/cube_metadata_fetcher.py:134-233 | without loaded metadata, get_view_metadata, get_all_views_metadata and get_summary all fail |
| MetadataFetcher.CubeMetadataFetcher.constructor | orchestrator/cube_metadata_fetcher.py:18-40 | starts with no metadata and no timestamp |
| MetadataFetcher.CubeMetadataFetcher.Install | orchestrator/cube_metadata_fetcher.py:42-105 | installs the metadata and timestamp that fetch_metadata read from the cache or the API |
| MetadataFetcher.CubeMetadataFetcher.ClearCache | orchestrator/cube_metadata_fetcher.py:249-260 | reports success iff the cache file existed and was removed, and only then resets both fields |
| MetadataFetcher.CubeMetadataFetcher.GetViewMetadata | orchestrator/cube_metadata_fetcher.py:124-191 | the scan with its early break returns what the view specification gives |
| MetadataFetcher.CubeMetadataFetcher.GetAllViewsMetadata | orchestrator/cube_metadata_fetcher.py:193-220 | the loop returns what the all-views specification gives |
| MetadataFetcher.CubeMetadataFetcher.GetSummary | orchestrator/cube_metadata_fetcher.py:222-246 | a summary is given iff metadata is loaded, with the total number of entries and the stored timestamp |
| YmlParser.SelectView | orchestrator/system-prompt-generator/context_preparation/yml_parser.py:66-73 | the view is the first entry of a non-empty views list, else the 'view' entry, else the whole document |
| YmlParser.IncludeEntry | orchestrator/system-prompt-generator/context_preparation/yml_parser.py:82-96 | an include becomes a measure exactly when its lowercased name contains total_, avg_, count or value, and otherwise a dimension, its alias defaulting to the name |
| YmlParser.IncludesSplit | orchestrator/system-prompt-generator/context_preparation/yml_parser.py:78-96 | each include lands in exactly one list, after what was already there, on the side the name heuristic picks |
| YmlParser.ClassifyIncludes | orchestrator/system-prompt-generator/context_preparation/yml_parser.py:78-96 | the loop over the cubes and their includes gives what the split specification gives |
| YmlParser.FilterMapLength | orchestrator/system-prompt-generator/context_preparation/yml_parser.py:138-228 | normalising a list never adds entries, and keeps its length exactly when no entry is dropped |
| YmlParser.DimensionOf | orchestrator/system-prompt-generator/context_preparation/yml_parser.py:150-168 | a mapping or a string gives one dimension (type 'string' and primary_key False by default); anything else is dropped |
| YmlParser.MeasureOf | orchestrator/system-prompt-generator/context_preparation/yml_parser.py:184-202 | a mapping or a string gives one measure (type 'number', aggregation the given type or 'sum'); anything else is dropped |
| YmlParser.JoinOf | orchestrator/system-prompt-generator/context_preparation/yml_parser.py:218-226 | only mappings give a join, its relationship defaulting to 'belongs_to' |
| YmlParser.Normalize | orchestrator/system-prompt-generator/context_preparation/yml_parser.py:138-228 | the append loop gives the normalised list of the raw entries |
| YmlParser.ParseDimensions | orchestrator/system-prompt-generator/context_preparation/yml_parser.py:138-170 | the parsed dimensions are the normalised raw entries, as many as there are iff every entry is a mapping or a string |
| YmlParser.ParseMeasures | orchestrator/system-prompt-generator/context_preparation/yml_parser.py:172-204 | the parsed measures are the normalised raw entries, as many as there are iff every entry is a mapping or a string |
| YmlParser.ParseJoins | orchestrator/system-prompt-generator/context_preparation/yml_parser.py:206-228 | the parsed joins are the normalised raw entries, as many as there are iff every entry is a mapping |
| YmlParser.CheckRequired | orchestrator/system-prompt-generator/context_preparation/yml_parser.py:122-136 | a mapping view passes iff its name is present and truthy; otherwise it fails with the missing-fields error |
| YmlParser.BaseName | orchestrator/system-prompt-generator/context_preparation/yml_parser.py:108 | the file name taken from a path holds no '/'; trailing separators are dropped first, as pathlib does |
| YmlParser.ParseViewContent | orchestrator/system-prompt-generator/context_preparation/yml_parser.py:54-120 | parsing a document (which rewrites the view's fields in the cubes form) gives what the view-content specification gives |
| YmlParser.NamelessViewRefused | orchestrator/system-prompt-generator/context_preparation/yml_parser.py:101-136 | a view mapping without cubes and without a truthy name is refused with the missing-name error |
| YmlParser.IncludesReplaceFields | orchestrator/system-prompt-generator/context_preparation/yml_parser.py:75-98 | in the cubes form the includes replace whatever dimensions and measures the view had |
| YmlParser.ParsedFromView | orchestrator/system-prompt-generator/context_preparation/yml_parser.py:100-120 | a parsed view records the file path and the normalised dimensions and measures of the view after the cubes form was applied |
| YmlParser.CountsAreRaw | orchestrator/system-prompt-generator/context_preparation/yml_parser.py:111-117 | the metadata counts the raw entries, so it exceeds the parsed count exactly when some entry was dropped |
| YmlParser.NamelessIssuesCount | orchestrator/system-prompt-generator/context_preparation/yml_parser.py:279-286 | over mappings, one issue per nameless entry and nothing else |
| YmlParser.ValidateViewSpecification | orchestrator/system-prompt-generator/context_preparation/yml_parser.py:259-288 | the checks in order give what the issue specification gives |
| YmlParser.NamelessFailureSticks | orchestrator/system-prompt-generator/context_preparation/yml_parser.py:279-286 | once an entry without .get raises, the whole check raises the same error |
| YmlParser.IssuesCounted | orchestrator/system-prompt-generator/context_preparation/yml_parser.py:259-288 | the report has one issue for a missing name, one for neither SQL nor dimensions, and one per nameless dimension and per nameless measure, so it is empty exactly when none of these holds |
| YmlParser.ParsedViewHasName | orchestrator/system-prompt-generator/context_preparation/yml_parser.py:101-272 | a parsed view always has its name, so validating it never reports a missing name |
| ContextManager.ViewSpecKeys | orchestrator/system-prompt-generator/context_preparation/context_manager.py:139-165 | a fetched view becomes a specification with the keys name, title, description, type, measures, dimensions, in that order |
| ContextManager.ViewSpecIdentity | orchestrator/system-prompt-generator/context_preparation/context_manager.py:140-147 | the specification carries the fetched view's name, title and type |
| ContextManager.ViewSpecLists | orchestrator/system-prompt-generator/context_preparation/context_manager.py:147-165 | the specification lists the view's measures and dimensions, each converted one by one |
| ContextManager.MeasureSpecsNamed | orchestrator/system-prompt-generator/context_preparation/context_manager.py:150-156 | one entry per measure, in the fetcher's order, with the measure's name and no type |
| ContextManager.DimensionSpecsNamed | orchestrator/system-prompt-generator/context_preparation/context_manager.py:158-164 | one entry per dimension, in the fetcher's order, with the dimension's name and without its type, which is not copied |
| ContextManager.DynamicViewsFollowFetcher | orchestrator/system-prompt-generator/context_preparation/context_manager.py:123-167 | with metadata loaded the conversion gives one specification per listed view, in order, named after it; without metadata it fails with "Failed to fetch views metadata: " and the fetcher's error |
| ContextManager.ParsedViewsNamed | orchestrator/system-prompt-generator/context_preparation/context_manager.py:169-192 | every static view comes from a file that parses and has a non-empty name; there are never more views than files, and as many when every file parses |
| ContextManager.MissingCounted | orchestrator/system-prompt-generator/context_preparation/context_manager.py:209-212 | one issue per missing directory, and none iff every directory exists |
| ContextManager.SetupStatus | orchestrator/system-prompt-generator/context_preparation/context_manager.py:194-234 | the status is 'invalid' iff a directory is missing, otherwise 'valid'; one issue per missing directory; a views directory without YAML files is only a warning |
| ContextManager.CountsRead | orchestrator/system-prompt-generator/context_preparation/context_manager.py:88-96 | the metadata reports the views, examples and business-entity counts it is given |
| ContextManager.PromptCounts | orchestrator/system-prompt-generator/context_preparation/context_manager.py:60-97 | a generated prompt reports as many views as it was given, as many examples as successful queries, and zero business entities when the context has no top-level entities |
| ContextManager.BusinessEntitiesAlwaysZero | orchestrator/system-prompt-generator/context_preparation/context_manager.py:93 | the loaded business context never has a top-level entities key, so a generated prompt always reports zero business entities |
| ContextManager.PromptFailuresPrefixed | orchestrator/system-prompt-generator/context_preparation/context_manager.py:98-99 | a prompt that cannot be generated fails with "Failed to generate system prompt: " and the cause |
| ContextManager.ViewNames | orchestrator/system-prompt-generator/context_preparation/context_manager.py:236-244 | one name per view |
| ContextManager.StaticNamesAreNames | orchestrator/system-prompt-generator/context_preparation/context_manager.py:236-244 | a parsed YAML view always has a name, so 'unnamed' is never substituted for a static view |
| ContextManager.DynamicNamesAreViews | orchestrator/system-prompt-generator/context_preparation/context_manager.py:236-244 | the names listed for fetched views are the fetcher's view names, in order |
| ContextManager.ViewsSource | orchestrator/system-prompt-generator/context_preparation/context_manager.py:101-121 | a fetcher without metadata or listing no views leaves the YAML views in place; a fetcher listing views supplies them all, one per view and named after it |
| ContextManager.Manager.constructor | orchestrator/system-prompt-generator/context_preparation/context_manager.py:31-58 | the views, templates and config directories are joined under the base path (no doubled separator after a trailing "/"), and dynamic metadata is used iff a fetcher is supplied |
| ContextManager.Manager.FetchDynamicCubeViews | orchestrator/system-prompt-generator/context_preparation/context_manager.py:123-167 | the conversion loop gives what the dynamic-view specification gives |
| ContextManager.Manager.ParseCubeViews | orchestrator/system-prompt-generator/context_preparation/context_manager.py:101-121 | the fetched views when a fetcher is supplied and yields some, the YAML views otherwise; without a fetcher always the YAML views |
| ContextManager.Manager.ValidateContextSetup | orchestrator/system-prompt-generator/context_preparation/context_manager.py:194-234 | the report is the setup specification over the three directories, the sub-validators' issue lists being discarded |
| ContextManager.Manager.GenerateSystemPrompt | orchestrator/system-prompt-generator/context_preparation/context_manager.py:60-99 | the result combines the loaded business context, the chosen views and the loaded examples as the prompt specification says |
| ContextManager.Manager.GetAvailableViews | orchestrator/system-prompt-generator/context_preparation/context_manager.py:236-244 | the names of the chosen views, 'unnamed' where a view has none |
| ContextManager.ConvertView | orchestrator/system-prompt-generator/context_preparation/context_manager.py:139-165 | converting one view by loops gives the view-specification function |
| ContextManager.ParseStaticYamlViews | orchestrator/system-prompt-generator/context_preparation/context_manager.py:169-192 | a missing directory gives []; otherwise the views of the files that parse, in order |
| PromptBuilder.Get | orchestrator/system-prompt-generator/context_preparation/prompt_builder.py:131-143 | `.get` succeeds exactly on a dictionary and gives the default for a missing key |
| PromptBuilder.FieldText | orchestrator/system-prompt-generator/context_preparation/prompt_builder.py:141-151 | a field line starts with the view-qualified name and is only that name when the description is falsy |
| PromptBuilder.FieldLine | orchestrator/system-prompt-generator/context_preparation/prompt_builder.py:141-151 | a dimension or measure renders exactly when it is a dictionary |
| PromptBuilder.ExampleLines | orchestrator/system-prompt-generator/context_preparation/prompt_builder.py:182-196 | an example renders exactly when it is a dictionary |
| PromptBuilder.PhraseLine | orchestrator/system-prompt-generator/context_preparation/prompt_builder.py:220-225 | a pattern renders exactly when it is a dictionary |
| PromptBuilder.NamedLine | orchestrator/system-prompt-generator/context_preparation/prompt_builder.py:235-238 | an entity or metric renders exactly when it is a dictionary |
| PromptBuilder.LinesStep | orchestrator/system-prompt-generator/context_preparation/prompt_builder.py:130-161 | one more element extends the lines by its own, or fails with its error |
| PromptBuilder.LinesFailureSticks | orchestrator/system-prompt-generator/context_preparation/prompt_builder.py:130-161 | once an element raises, the whole loop raises the same error |
| PromptBuilder.LinesSucceed | orchestrator/system-prompt-generator/context_preparation/prompt_builder.py:130-161 | a rendering loop completes iff no element raises |
| PromptBuilder.LinesOneEach | orchestrator/system-prompt-generator/context_preparation/prompt_builder.py:141-151 | where each element gives one line, the loop gives one line per element, in order |
| PromptBuilder.LinesAllFrom | llm-integration/context_preparation/prompt_builder.py:130-161 | every line of a loop comes from one of its elements |
| PromptBuilder.LinesInclude | llm-integration/context_preparation/prompt_builder.py:130-161 | every line of every element is among the lines of the loop |
| PromptBuilder.RenderLines | orchestrator/system-prompt-generator/context_preparation/prompt_builder.py:235-240 | the append loop gives what the lines specification gives |
| PromptBuilder.RenderBlock | orchestrator/system-prompt-generator/context_preparation/prompt_builder.py:138-158 | a dimensions or measures block is rendered as its specification says |
| PromptBuilder.RenderView | orchestrator/system-prompt-generator/context_preparation/prompt_builder.py:130-161 | one view is rendered as its specification says |
| PromptBuilder.RenderViews | orchestrator/system-prompt-generator/context_preparation/prompt_builder.py:130-161 | the loop over views gives what the lines specification gives |
| PromptBuilder.BuildViewSpecifications | orchestrator/system-prompt-generator/context_preparation/prompt_builder.py:115-163 | _build_view_specifications gives what its specification gives, including the placeholder |
| PromptBuilder.FieldLinesText | orchestrator/system-prompt-generator/context_preparation/prompt_builder.py:141-157 | a list of dimensions or measures renders one line per element, each the element's field line |
| PromptBuilder.BlockLayout | orchestrator/system-prompt-generator/context_preparation/prompt_builder.py:138-158 | a block is its heading, the field lines and a blank line, framed only when the list is non-empty |
| PromptBuilder.FramedPositions | llm-integration/context_preparation/prompt_builder.py:130-161 | the dimension lines sit right after the heading and the measure lines right after the dimension block |
| PromptBuilder.ViewLinesLayout | orchestrator/system-prompt-generator/context_preparation/prompt_builder.py:130-161 | a view is its heading and description, then one line per dimension, then one line per measure, each block present only when non-empty |
| PromptBuilder.HeaderIsNotPlaceholder | llm-integration/context_preparation/prompt_builder.py:125-128 | a section that starts with its header is never the placeholder |
| PromptBuilder.ViewsPlaceholder | orchestrator/system-prompt-generator/context_preparation/prompt_builder.py:125-126 | the view section is the placeholder iff there are no views |
| PromptBuilder.ViewHeadingsRendered | orchestrator/system-prompt-generator/context_preparation/prompt_builder.py:130-134 | every view's "## name" heading appears in the rendered section |
| PromptBuilder.BuildExamplesSection | orchestrator/system-prompt-generator/context_preparation/prompt_builder.py:165-198 | _build_examples_section gives what its specification gives |
| PromptBuilder.ExampleLayout | orchestrator/system-prompt-generator/context_preparation/prompt_builder.py:182-196 | an example is its heading, a purpose line iff the description is truthy, its question and its indented JSON query between fences |
| PromptBuilder.ExamplesPlaceholder | orchestrator/system-prompt-generator/context_preparation/prompt_builder.py:177-178 | the examples section is the placeholder iff there are no successful queries |
| PromptBuilder.TitleFrom | orchestrator/system-prompt-generator/context_preparation/prompt_builder.py:218 | str.title keeps the length |
| PromptBuilder.TitleFromIdempotent | orchestrator/system-prompt-generator/context_preparation/prompt_builder.py:218 | titling a titled suffix changes nothing |
| PromptBuilder.TitleFromKeepsLetters | orchestrator/system-prompt-generator/context_preparation/prompt_builder.py:218 | titling changes only the case of letters |
| PromptBuilder.TitleProperties | llm-integration/context_preparation/prompt_builder.py:218 | the category heading's title() is idempotent and changes only letter case |
| PromptBuilder.RenderCategory | orchestrator/system-prompt-generator/context_preparation/prompt_builder.py:217-225 | one category is rendered as its specification says |
| PromptBuilder.RenderCategories | orchestrator/system-prompt-generator/context_preparation/prompt_builder.py:217-225 | the loop over categories gives what the lines specification gives |
| PromptBuilder.BuildPatternsSection | orchestrator/system-prompt-generator/context_preparation/prompt_builder.py:200-227 | _build_patterns_section gives what its specification gives |
| PromptBuilder.PhrasesKept | orchestrator/system-prompt-generator/context_preparation/prompt_builder.py:220-225 | one line per pattern with a truthy phrase and none for the others, each a phrase line |
| PromptBuilder.HeadingsAppend | llm-integration/context_preparation/prompt_builder.py:217-218 | the headings of two runs of lines add up |
| PromptBuilder.NoHeadings | llm-integration/context_preparation/prompt_builder.py:220-225 | phrase lines are never headings |
| PromptBuilder.OneHeadingPerCategory | orchestrator/system-prompt-generator/context_preparation/prompt_builder.py:217-225 | each category contributes exactly one heading, whatever its patterns |
| PromptBuilder.PatternsPlaceholder | orchestrator/system-prompt-generator/context_preparation/prompt_builder.py:212-213 | the patterns section is the placeholder iff there are no pattern categories |
| PromptBuilder.DescribePatternPrecedence | orchestrator/system-prompt-generator/context_preparation/prompt_builder.py:262-273 | the description is decided by the first present key among cube_measure, cube_dimension, cube_filter, cube_operator, and is "pattern mapping" when none is |
| PromptBuilder.FormatNamedList | orchestrator/system-prompt-generator/context_preparation/prompt_builder.py:229-253 | _format_entities and _format_metrics give what their specification gives |
| PromptBuilder.NamedListed | orchestrator/system-prompt-generator/context_preparation/prompt_builder.py:229-253 | the entity or metric list is the placeholder iff empty; otherwise every entry's line is in it |
| PromptBuilder.QuestionsListed | orchestrator/system-prompt-generator/context_preparation/prompt_builder.py:255-260 | the question list is the placeholder iff empty; otherwise every question is listed |
| PromptBuilder.LenOf | orchestrator/system-prompt-generator/context_preparation/prompt_builder.py:293-305 | len() of a list is its length |
| PromptBuilder.SumLens | orchestrator/system-prompt-generator/context_preparation/prompt_builder.py:301-302 | the dimension and measure totals are defined iff every view is a dictionary whose list has a length |
| PromptBuilder.SumLensAppend | orchestrator/system-prompt-generator/context_preparation/prompt_builder.py:301-302 | the total over two runs of views is the sum of their totals |
| PromptBuilder.SumLensOne | llm-integration/context_preparation/prompt_builder.py:301-302 | one view counts the length of its list, zero when it has none |
| PromptBuilder.ContextGaps | orchestrator/system-prompt-generator/context_preparation/prompt_builder.py:319-337 | at most three context issues, each reported iff its component (domain info, views, successful queries) is falsy |
| PromptBuilder.ValidatePromptComponents | orchestrator/system-prompt-generator/context_preparation/prompt_builder.py:311-345 | validate_prompt_components gives what its specification gives |
| PromptBuilder.MissingTemplatesReported | orchestrator/system-prompt-generator/context_preparation/prompt_builder.py:339-343 | a template is reported iff it is required and missing |
| PromptBuilder.MissingTemplatesAgree | llm-integration/context_preparation/prompt_builder.py:339-343 | only the required names matter: directories that agree on them give the same issues |
| PromptBuilder.BusinessTemplateNotChecked | orchestrator/system-prompt-generator/context_preparation/prompt_builder.py:339-343 | the business-context template is never checked |
| PromptBuilder.IssuesReported | orchestrator/system-prompt-generator/context_preparation/prompt_builder.py:311-345 | at most six issues; each required template is reported iff it is absent |
| PromptBuilder.MissingTemplatesLength | orchestrator/system-prompt-generator/context_preparation/prompt_builder.py:339-343 | at most one issue per required template |
| PromptBuilder.NotAGap | llm-integration/context_preparation/prompt_builder.py:319-343 | a missing-template issue is never mistaken for a context issue |
| ExampleManager.ExamplesFallBack | orchestrator/system-prompt-generator/context_preparation/example_manager.py:34-111 | each kind of example is the file's entry when the file loads as a mapping and the built-in default otherwise (a mapping without 'queries' gives []); an empty file loads as an empty mapping and so gives [] or {}; the context always carries the successful queries |
| ExampleManager.FindSimilarQueries | orchestrator/system-prompt-generator/context_preparation/example_manager.py:240-269 | the scan, the sort and the cut give what the similar-queries specification gives; each result is a (position, query, score) record standing for the example's shallow copy with its similarity_score added |
| ExampleManager.CandidatesStep | orchestrator/system-prompt-generator/context_preparation/example_manager.py:256-265 | one more query extends the candidates by its own, or fails with its error |
| ExampleManager.CandidateFailureSticks | orchestrator/system-prompt-generator/context_preparation/example_manager.py:256-265 | once a query raises, the whole search raises the same error |
| ExampleManager.SubsetSize | orchestrator/system-prompt-generator/context_preparation/example_manager.py:259-261 | the shared words are never more than the words of either query |
| ExampleManager.ScoreInRange | orchestrator/system-prompt-generator/context_preparation/example_manager.py:259-264 | a score is the shared words over all words, so it is positive and at most 1 when some word is shared |
| ExampleManager.CandidatesLast | orchestrator/system-prompt-generator/context_preparation/example_manager.py:256-265 | the candidates of a list are those of all but its last query, then the last one's |
| ExampleManager.CandidatesScored | orchestrator/system-prompt-generator/context_preparation/example_manager.py:256-265 | every candidate is the query at its position with its word-overlap score added |
| ExampleManager.CandidatesInListOrder | orchestrator/system-prompt-generator/context_preparation/example_manager.py:256-265 | the candidates keep the list order of their queries |
| ExampleManager.CandidatesComplete | orchestrator/system-prompt-generator/context_preparation/example_manager.py:256-265 | every query sharing a word with the user's query is a candidate |
| ExampleManager.InsertKeepsOrder | orchestrator/system-prompt-generator/context_preparation/example_manager.py:268 | inserting a later candidate keeps the ranking order and the elements |
| ExampleManager.SortOrders | orchestrator/system-prompt-generator/context_preparation/example_manager.py:268 | the sort is a permutation that puts higher scores first and keeps list order among equal scores, as Python's stable reverse sort does |
| ExampleManager.TopThree | orchestrator/system-prompt-generator/context_preparation/example_manager.py:269 | the first three of the ranking, or all of it when shorter |
| ExampleManager.PrefixOutranks | orchestrator/system-prompt-generator/context_preparation/example_manager.py:268-269 | a prefix of a ranking is ordered and outranks everything after it |
| ExampleManager.RankedAreScored | orchestrator/system-prompt-generator/context_preparation/example_manager.py:256-268 | every ranked candidate is a scored query with a score in (0, 1] |
| ExampleManager.RankedCandidates | orchestrator/system-prompt-generator/context_preparation/example_manager.py:256-269 | the top three are in ranking order, scored in (0, 1], and every candidate left out ranks after all of them |
| ExampleManager.TopThreeBestMatches | orchestrator/system-prompt-generator/context_preparation/example_manager.py:240-269 | find_similar_queries returns at most three queries, each the loaded query with its overlap ratio in (0, 1], in descending score with list order among ties; every candidate left out ranks after all of them |
| ExampleManager.AnyWordIn | orchestrator/system-prompt-generator/context_preparation/example_manager.py:290 | true iff some word of the phrase occurs in the text |
| ExampleManager.GetPatternSuggestions | orchestrator/system-prompt-generator/context_preparation/example_manager.py:271-296 | the loops give what the pattern-suggestion specification gives |
| ExampleManager.MatchCategory | orchestrator/system-prompt-generator/context_preparation/example_manager.py:288-291 | the inner loop keeps exactly the patterns the category specification keeps |
| ExampleManager.MatchingStep | orchestrator/system-prompt-generator/context_preparation/example_manager.py:288-291 | one more pattern is kept or skipped by its own phrase, or fails with its error |
| ExampleManager.SuggestionsStep | orchestrator/system-prompt-generator/context_preparation/example_manager.py:286-294 | one more category is added exactly when it has a match |
| ExampleManager.MatchingFailureSticks | orchestrator/system-prompt-generator/context_preparation/example_manager.py:288-291 | once a pattern raises, the whole category raises the same error |
| ExampleManager.SuggestionFailureSticks | orchestrator/system-prompt-generator/context_preparation/example_manager.py:286-294 | once a category raises, the whole scan raises the same error |
| ExampleManager.MatchingIsFilter | orchestrator/system-prompt-generator/context_preparation/example_manager.py:288-291 | a category keeps exactly the patterns with a phrase word in the lowercased query, in their order |
| ExampleManager.SuggestionsLast | orchestrator/system-prompt-generator/context_preparation/example_manager.py:286-294 | the suggestions of a list of categories are those of all but the last, then the last one's if it matches |
| ExampleManager.SuggestionsPerCategory | orchestrator/system-prompt-generator/context_preparation/example_manager.py:286-296 | with distinct category names a category is suggested iff it has a matching pattern, and then with its matching patterns; categories with no match are omitted |
| ExampleManager.GetAppended | orchestrator/system-prompt-generator/context_preparation/example_manager.py:293-294 | looking up a dictionary after a new key is added at its end finds the earlier bindings first |
| ExampleManager.ValidateExamples | orchestrator/system-prompt-generator/context_preparation/example_manager.py:298-333 | the issues are the example-issue specification, and a missing directory is the one issue |
| ExampleManager.CheckQueries | orchestrator/system-prompt-generator/context_preparation/example_manager.py:312-321 | the successful-query half gives what its specification gives |
| ExampleManager.CheckPatterns | orchestrator/system-prompt-generator/context_preparation/example_manager.py:323-331 | the pattern half gives what its specification gives |
| ExampleManager.CheckPhrases | orchestrator/system-prompt-generator/context_preparation/example_manager.py:327-329 | the inner loop over one category's patterns gives the phrase scan |
| ExampleManager.QueryScanSticks | orchestrator/system-prompt-generator/context_preparation/example_manager.py:312-321 | once a query raises, the rest of the queries add nothing and the exception is reported |
| ExampleManager.PhraseScanSticks | orchestrator/system-prompt-generator/context_preparation/example_manager.py:323-331 | once a pattern raises, the rest add nothing and the exception is reported |
| ExampleManager.CategoryScanSticks | orchestrator/system-prompt-generator/context_preparation/example_manager.py:323-331 | once a category raises, the rest add nothing and the exception is reported |
| ExampleManager.QueryIssuesCounted | orchestrator/system-prompt-generator/context_preparation/example_manager.py:315-319 | when every query is a mapping there is one issue per missing name and one per missing cube_query |
| ExampleManager.CleanQueries | orchestrator/system-prompt-generator/context_preparation/example_manager.py:312-321 | the queries raise no issue and no error iff every one is complete |
| ExampleManager.CleanPhrases | orchestrator/system-prompt-generator/context_preparation/example_manager.py:327-329 | a category's patterns raise no issue and no error iff every one has a phrase |
| ExampleManager.CleanCategories | orchestrator/system-prompt-generator/context_preparation/example_manager.py:323-331 | the categories raise no issue and no error iff every one is complete |
| ExampleManager.DefaultQueriesValidate | orchestrator/system-prompt-generator/context_preparation/example_manager.py:113-321 | the built-in successful queries pass: each has a name and a cube query |
| ExampleManager.DefaultCategoryComplete | orchestrator/system-prompt-generator/context_preparation/example_manager.py:149-331 | every built-in pattern category passes |
| ExampleManager.DefaultsValidate | orchestrator/system-prompt-generator/context_preparation/example_manager.py:113-333 | the built-in examples pass the whole check |
| BusinessConfig.BusinessContextShape | orchestrator/system-prompt-generator/context_preparation/business_config.py:34-111 | the context always has exactly domain_info, prompt_settings, ambiguity_rules and metadata, each section falling back to its default when its file is missing or unloadable and being {} when its file is empty, with config_loaded true and no top-level entities key |
| BusinessConfig.ValidateConfiguration | orchestrator/system-prompt-generator/context_preparation/business_config.py:269-303 | the issues are the configuration-issue specification, and a missing directory is the one issue |
| BusinessConfig.EmptyFilesReportMissingFields | orchestrator/system-prompt-generator/utils/file_loader.py:45-72 | empty configuration files load as {}, so the domain section is {} and validation reports the missing business name, the missing entities and both required settings |
| BusinessConfig.CheckSettings | orchestrator/system-prompt-generator/context_preparation/business_config.py:293-301 | the loop over the required settings yields the settings-issue specification: one issue per absent setting, or the single error of a non-container |
| BusinessConfig.FailsOnlyOnNonContainers | orchestrator/system-prompt-generator/context_preparation/business_config.py:294-301 | the settings check raises exactly when the settings document is not a container, and then with the error of the in test |
| BusinessConfig.SettingsChecked | orchestrator/system-prompt-generator/context_preparation/business_config.py:294-299 | for a mapping, the report names exactly the absent required settings, max_prompt_length then confidence_threshold |
| BusinessConfig.DefaultsValidate | orchestrator/system-prompt-generator/context_preparation/business_config.py:113-303 | with the directory present and both files missing or unloadable, the defaults pass: they have a business name, entities and both required settings |
| BusinessConfig.IssuesCounted | orchestrator/system-prompt-generator/context_preparation/business_config.py:283-301 | one issue per missing business name, per missing or empty entities and per absent required setting, and no other |
| CsvImport.MySqlType | mysql-container/scripts/csv-import-service.py:14-35 | integers map to BIGINT iff int64 and INT otherwise; floats to DECIMAL(10,2), booleans to BOOLEAN, datetimes to DATETIME; text gets TEXT iff its hint exceeds 255, otherwise a VARCHAR between 10 and 255 at least as wide as a positive hint |
| CsvImport.MaxLen | mysql-container/scripts/csv-import-service.py:92 | the longest cell's length: no cell is longer and, for a non-empty column, one cell has it |
| CsvImport.LengthHint | mysql-container/scripts/csv-import-service.py:88-95 | only object columns get a hint; it is between 0 and 1000, 20 when every cell is missing, and otherwise covers every cell or is the cap |
| CsvImport.ReplaceOthers | mysql-container/scripts/csv-import-service.py:79 | every character that is not a letter, digit or underscore becomes '_', and the rest stay in place |
| CsvImport.ColumnNameClean | mysql-container/scripts/csv-import-service.py:79-80 | a cleaned column name is letters, digits and underscores, never starts with a digit, gains "col_" exactly when it started with one, keeps every identifier character in place, and cleaning again changes nothing |
| CsvImport.LastDot | mysql-container/scripts/csv-import-service.py:180 | the position of the last '.', or -1 when there is none |
| CsvImport.Underscored | mysql-container/scripts/csv-import-service.py:181 | '-' and ' ' become '_' and everything else stays |
| CsvImport.KeepIdent | mysql-container/scripts/csv-import-service.py:182 | the kept text is no longer than the input and holds only letters, digits and underscores |
| CsvImport.KeepIdentKeepsIdents | mysql-container/scripts/csv-import-service.py:182 | an identifier is kept whole |
| CsvImport.TableNameFromStem | mysql-container/scripts/csv-import-service.py:178-182 | a table name is the file's stem with '-' and ' ' made '_' and other characters dropped; a stem of only identifier characters, '-' and ' ' keeps its length |
| CsvImport.DotCsvTable | mysql-container/scripts/csv-import-service.py:180 | a file named just ".csv" has no extension to split off, so its table is "csv" |
| CsvImport.DoubleQuotes | mysql-container/scripts/csv-import-service.py:117 | doubling quotes never shortens the text |
| CsvImport.EscapeSql | mysql-container/scripts/csv-import-service.py:115-118 | escaping never shortens the text |
| CsvImport.EscapeReadsBack | mysql-container/scripts/csv-import-service.py:115-118 | MySQL's reader takes back exactly the original text from its escaped body |
| CsvImport.SqlLiteralRoundTrip | mysql-container/scripts/csv-import-service.py:115-118 | with quotes and backslashes escaped, MySQL reads back exactly the cell's text, whatever follows the literal |
| CsvImport.DoubledReadsBack | mysql-container/scripts/csv-import-service.py:117 | doubled quotes read back correctly when the text has no backslash |
| CsvImport.AsWrittenWithoutBackslash | mysql-container/scripts/csv-import-service.py:115-118 | the literal as written reads back correctly for text without a backslash |
| CsvImport.AsWrittenTrailingBackslash | mysql-container/scripts/csv-import-service.py:115-118 | as written, the cell `a\` becomes a literal that never closes, while the escaped literal reads back |
| CsvImport.RenderingsAgreeWithoutBackslash | mysql-container/scripts/csv-import-service.py:112-121 | for a cell without a backslash the as-written rendering and the escaped one are the same text |
| CsvImport.TextCellReadsBack | mysql-container/scripts/csv-import-service.py:115-118 | a text cell rendered as written reads back as its text when it holds no backslash; rendered escaped it always does |
| CsvImport.RenderRow | mysql-container/scripts/csv-import-service.py:110-121 | the loop over a row's values gives the row's value tuple, text cells rendered as written: quotes doubled, backslashes kept |
| CsvImport.RenderRows | mysql-container/scripts/csv-import-service.py:108-121 | the loop over the rows gives one tuple per row, in order, each rendered as written |
| CsvImport.BatchesCover | mysql-container/scripts/csv-import-service.py:124-130 | the batches cover every row exactly once and in order, each holds 1 to 1000 rows, all but the last exactly 1000, and there are ceil(n/1000) of them |
| CsvImport.SliceBatches | mysql-container/scripts/csv-import-service.py:127-128 | slicing by range(0, total_rows, 1000) gives those batches |
| CsvImport.CsvStatementsShape | mysql-container/scripts/csv-import-service.py:66-143 | an empty frame sends nothing; columns whose cleaned names collide send only the DROP and abort; otherwise DROP then CREATE first, ceil(rows/1000) INSERTs holding every row tuple once and in order, and the row count last |
| CsvImport.InsertContainsTuple | mysql-container/scripts/csv-import-service.py:129-130 | every tuple of a batch appears in its INSERT statement |
| CsvImport.EveryRowInserted | mysql-container/scripts/csv-import-service.py:108-130 | every row of a non-empty frame whose cleaned column names are distinct appears, as its value tuple, in one of the INSERT statements of a completed load |
| CsvImport.FlattenIndex | mysql-container/scripts/csv-import-service.py:124-130 | each row of the flattened batches comes from a position in one batch |
| CsvImport.BuildColumnDefinitions | mysql-container/scripts/csv-import-service.py:88-100 | the loop builds one definition per column, as the column specification says, and raises the AttributeError of `.dtype` on a DataFrame iff two columns clean to the same name |
| CsvImport.CollidingHeadersAbort | mysql-container/scripts/csv-import-service.py:78-91 | headers "a b" and "a-b" both clean to "a_b", so only the DROP is sent and the import fails |
| CsvImport.CreateTableFromCsv | mysql-container/scripts/csv-import-service.py:66-143 | create_table_from_csv sends exactly the statements CsvStatements lists: nothing for an empty frame, only the DROP when cleaned column names collide, the whole load otherwise |
| CsvImport.CsvFiles | mysql-container/scripts/csv-import-service.py:170 | the kept names all end in ".csv" and are no more than the listing |
| CsvImport.CsvFilesExactly | mysql-container/scripts/csv-import-service.py:170 | the CSV files are exactly the listing's names ending in ".csv", and all are kept iff all end so |
| CsvImport.SuccessCount | mysql-container/scripts/csv-import-service.py:178-187 | the count is at most the files, all of them iff every import succeeded, none iff none did |
| CsvImport.SuccessCountStep | mysql-container/scripts/csv-import-service.py:185-186 | each file adds one exactly when its import succeeded |
| CsvImport.ProcessCsvFiles | mysql-container/scripts/csv-import-service.py:146-195 | process_csv_files succeeds iff it connected and the directory exists, whatever happened to each file, and counts the imported files |
| CsvImport.NewFiles | mysql-container/scripts/csv-import-service.py:216-217 | the new files are the CSV files of the listing not yet processed |
| CsvImport.PollBookkeeping | mysql-container/scripts/csv-import-service.py:213-224 | a pass never forgets a file, and a file joins exactly when it is a new CSV file and the run succeeded, rejected files included |
| CsvImport.ImportService.constructor | mysql-container/scripts/csv-import-service.py:211 | the service starts with no processed files |
| CsvImport.ImportService.Poll | mysql-container/scripts/csv-import-service.py:213-224 | one pass runs iff the directory exists and has new CSV files, and the processed set becomes what PollBookkeeping describes |
| AnalystConfig.TrimLeft | analyst-agent/analyst-service/src/config.py:66 | str.strip's left cut removes a blank prefix and leaves no leading whitespace |
| AnalystConfig.TrimRight | analyst-agent/analyst-service/src/config.py:66 | str.strip's right cut keeps a prefix and leaves no trailing whitespace |
| AnalystConfig.DigitsOfNat | analyst-agent/analyst-service/src/config.py:38 | the decimal text of a natural number is all digits and has its value |
| AnalystConfig.ParseIntRoundTrip | analyst-agent/analyst-service/src/config.py:38 | int() reads back what str() writes, for every integer |
| AnalystConfig.LoadedFields | analyst-agent/analyst-service/src/config.py:26-55 | loading fails iff MAX_FILE_SIZE_MB is not an integer; otherwise the key is unset iff OPENAI_API_KEY is, the file types are never an empty list, and each setting is its variable or default, upper- or lower-cased as read |
| AnalystConfig.Messages | analyst-agent/analyst-service/src/config.py:90-91 | one message per failed check, in order |
| AnalystConfig.Rank | analyst-agent/analyst-service/src/config.py:62-88 | each check has its place in the order _validate_config makes them |
| AnalystConfig.FailedUpToExactly | analyst-agent/analyst-service/src/config.py:62-88 | the reports after n checks are exactly the failing ones among them, in check order |
| AnalystConfig.FailedUpToPrefix | analyst-agent/analyst-service/src/config.py:62-88 | running more checks only adds reports after the earlier ones |
| AnalystConfig.ValidationErrorsReported | analyst-agent/analyst-service/src/config.py:57-93 | each check is reported iff it fails, in the order the checks are made |
| AnalystConfig.MissingKeyTwoErrors | analyst-agent/analyst-service/src/config.py:62-67 | an unset key gets both key messages first; a whitespace-only key gets only the second |
| AnalystConfig.FileTypesNeverEmpty | analyst-agent/analyst-service/src/config.py:39-84 | ALLOWED_FILE_TYPES splits into at least one entry, so its emptiness check never fires |
| AnalystConfig.TypesListedNeverFail | analyst-agent/analyst-service/src/config.py:82-84 | a non-empty list of file types passes its check |
| AnalystConfig.NoIssues | analyst-agent/analyst-service/src/config.py:57-93 | no report iff every check passes: a non-blank key and model, known log levels and a positive size limit |
| AnalystConfig.AcceptedConfig | analyst-agent/analyst-service/src/config.py:20-23 | the service starts iff the settings load and pass every check, and then runs on the loaded settings |
| AnalystConfig.NoKeyRejected | analyst-agent/analyst-service/src/config.py:20-93 | without OPENAI_API_KEY the service never starts, and its message begins with the two key errors |
| AnalystConfig.UnsetKeyMessage | analyst-agent/analyst-service/src/config.py:90-93 | the validation message for settings without a key begins with the two key errors |
| AnalystConfig.JoinedFirstTwo | analyst-agent/analyst-service/src/config.py:91 | a "; "-joined list begins with its first two entries |
| AnalystConfig.AfterLastDotIsLast | analyst-agent/analyst-service/src/config.py:160 | no dot follows the position after the last '.', which is 0 iff there is none |
| Common.SplitJoinRoundTrip | analyst-agent/analyst-service/src/config.py:39 | joining the pieces of split(sep) with sep gives back the text |
| AnalystConfig.SplitLastPiece | analyst-agent/analyst-service/src/config.py:160 | the last piece of split('.') starts right after the last dot |
| AnalystConfig.LowerKeepsLastDot | analyst-agent/analyst-service/src/config.py:160 | lower-casing moves no dot |
| AnalystConfig.ExtensionAfterLastDot | analyst-agent/analyst-service/src/config.py:160 | the extension is the lower-cased text after the last dot, empty when there is no dot |
| AnalystConfig.Config.constructor | analyst-agent/analyst-service/src/config.py:26-49 | the fields are the loaded settings |
| AnalystConfig.Config.ValidateConfig | analyst-agent/analyst-service/src/config.py:57-88 | _validate_config's list of failed checks is the validation specification |
| AnalystConfig.Config.IsFileAllowed | analyst-agent/analyst-service/src/config.py:155-161 | a file is allowed iff its name is non-empty and its extension is an allowed type |
| AnalystConfig.Config.ValidateFileSize | analyst-agent/analyst-service/src/config.py:163-166 | a size is valid iff it is at most the limit in mebibytes times 1048576 |
| AnalystConfig.Config.FrontendConfig | analyst-agent/analyst-service/src/config.py:168-175 | the frontend settings are the frontend fields |
| AnalystConfig.FileAllowedByLastDot | analyst-agent/analyst-service/src/config.py:155-161 | a file is allowed iff its name is non-empty and the lower-cased text after its last dot is allowed, or it has no dot and "" is allowed |
| AnalystConfig.FileSizeLimit | analyst-agent/analyst-service/src/config.py:163-166 | smaller sizes stay admitted and the limit itself is the largest size admitted |
| AnalystConfig.NewConfig | analyst-agent/analyst-service/src/config.py:20-93 | Config() succeeds iff the settings load and validate, with the loader's or validator's message otherwise |
| AnalystConfig.FrontendFromEnv | analyst-agent/analyst-service/src/config.py:46-49 | an accepted frontend level is the upper-cased FRONTEND_LOG_LEVEL and one of the five levels; each flag is set iff its variable reads "true" in any case |
| CodeExecutor.ExecutionGuard | analyst-agent/analyst-service/src/core/tools/code_executor.py:31-34 | code is refused without compiling iff it is empty or whitespace, with the "Code cannot be empty" answer |
| CodeExecutor.Warnings | analyst-agent/analyst-service/src/core/tools/code_executor.py:155-158 | one warning per detected operation, in order |
| CodeExecutor.DetectedExactly | analyst-agent/analyst-service/src/core/tools/code_executor.py:155-158 | an operation is detected iff it is blacklisted and occurs in the code |
| CodeExecutor.ValidateCodeSafety | analyst-agent/analyst-service/src/core/tools/code_executor.py:141-173 | the loop over the blacklist gives the safety verdict |
| CodeExecutor.SafetyIff | analyst-agent/analyst-service/src/core/tools/code_executor.py:154-173 | code is rejected iff it contains a blacklisted operation; a rejection has empty data and names every detected operation, an acceptance has the fixed message and an empty error |
| CodeExecutor.WarningListed | analyst-agent/analyst-service/src/core/tools/code_executor.py:161-166 | the joined error contains the warning of each detected operation |
| CodeExecutor.InsideFlagged | analyst-agent/analyst-service/src/core/tools/code_executor.py:155-158 | matching is by substring, so a blacklisted text inside a longer one is flagged |
| CodeExecutor.SubstringMatches | analyst-agent/analyst-service/src/core/tools/code_executor.py:141-158 | code calling reopen( is rejected as open(, and raw_input( is warned about as input( too |
| VisualizationGenerator.VisualizationGuard | analyst-agent/analyst-service/src/core/tools/visualization_generator.py:39-42 | code is refused without running iff it is empty or whitespace, with the "Visualization code cannot be empty" answer |
| VisualizationGenerator.AnyIn | analyst-agent/analyst-service/src/core/tools/visualization_generator.py:176 | any(item in code) holds iff some item occurs in the code |
| VisualizationGenerator.Messages | analyst-agent/analyst-service/src/core/tools/visualization_generator.py:196-200 | one message per warning, in order |
| VisualizationGenerator.ValidateVisualizationCode | analyst-agent/analyst-service/src/core/tools/visualization_generator.py:159-209 | the checks one after another give the verdict of the code's findings |
| VisualizationGenerator.IssuesExactly | analyst-agent/analyst-service/src/core/tools/visualization_generator.py:174-194 | a warning is raised iff its check fires, and none twice |
| VisualizationGenerator.WarningsNotPassed | analyst-agent/analyst-service/src/core/tools/visualization_generator.py:196-209 | a verdict with warnings is never the clean pass |
| VisualizationGenerator.VerdictShape | analyst-agent/analyst-service/src/core/tools/visualization_generator.py:196-209 | the review always succeeds with an empty error and passes cleanly iff no check fires |
| VisualizationGenerator.MessageListed | analyst-agent/analyst-service/src/core/tools/visualization_generator.py:200 | each warning appears in the joined data |
| VisualizationGenerator.WarningsListed | analyst-agent/analyst-service/src/core/tools/visualization_generator.py:196-202 | the warning of each fired check appears in the data |
| VisualizationGenerator.SaveCheck | analyst-agent/analyst-service/src/core/tools/visualization_generator.py:186-187 | "savefig" contains "save", so the save check passes iff "save", "write_html" or "export" occurs |
| VisualizationGenerator.ReviewSucceeds | analyst-agent/analyst-service/src/core/tools/visualization_generator.py:159-209 | the review of any code succeeds with an empty error |
| VisualizationGenerator.LibraryWarning | analyst-agent/analyst-service/src/core/tools/visualization_generator.py:175-179 | the library warning is raised iff none of the four libraries is named |
| VisualizationGenerator.CsvLoadWarning | analyst-agent/analyst-service/src/core/tools/visualization_generator.py:182-183 | the data-loading warning is raised iff neither read_csv spelling occurs |
| VisualizationGenerator.PrintWarning | analyst-agent/analyst-service/src/core/tools/visualization_generator.py:193-194 | the print warning is raised iff "print(" does not occur |
| VisualizationGenerator.SaveWarning | analyst-agent/analyst-service/src/core/tools/visualization_generator.py:185-190 | the save warning is raised iff none of "save", "write_html" and "export" occurs |

## Left out

- These are parameters or outside the model: the language model (pydantic-ai `Agent.run`, tool registration, OpenAI chat calls), `validate_api_key`, `get_available_models` and `create_test_query`. The model's answers are inputs; their content is not modelled.
- `CubeMetadataFetcher.fetch_metadata` and its cache file are left out because they are network and file I/O. The fetcher works on metadata installed by `Install`.
- The `cube_client` module is not part of this model. Query execution is an input result.
- Left out because they are I/O: the validator's `_load_schema`, the file loader's reading of files (only its rule that an empty YAML file is `{}` is modelled, by `Json.Loaded`), template loading, `_load_template`, `_build_business_context` and `build_system_prompt`. The schema, the templates present, and the loaded YAML and JSON documents are supplied values.
- The system-prompt cache in orchestrator/orchestrator.py:80-180 and `reload_system_prompt_cache`, `regenerate_system_prompt`, `get_status`, `get_available_cubes` and `validate_cube_query` are file I/O or calls into the Cube client. Initialisation takes the outcome of reading the cache and of regenerating as inputs.
- The FastAPI application, CORS, startup wiring and the endpoints other than `/query`, `/readyz` and `/download` are HTTP plumbing.
- MySQL connections, the executed SQL and `wait_for_mysql` are left out. `wait_for_mysql` retries only on exceptions, so a connection that reports not connected without raising is retried without limit. Whether a file imported is an input.
- The 30-second `time.sleep` of the import poll loop and the exception handling around it are not modelled. One pass of the loop is `ImportService.Poll`.
- The bodies of `python_execution_tool` and `graph_generator` are not modelled, because they are `exec`, pandas and matplotlib. Only their empty-code guards are modelled. In analyst-agent/analyst-service/src/core/tools/code_executor.py `time` is never imported and `start_time` never assigned, so each `except` handler of `python_execution_tool` (lines 56-79) raises NameError instead of returning the ToolResponse it builds.
- `_setup_logging`, `os.makedirs`, `get_openai_config`, `get_file_config` and `__str__` of the analyst configuration only log, create directories or format text.
- Timestamps, `uuid` values and `datetime.now()` are opaque strings supplied by the caller.
- `lower`, `upper`, `title`, `isalnum`, `strip` and the regular expression `\d` are modelled on ASCII only. Unicode case mapping and Unicode digits are not modelled.
- `int()` is modelled on optional sign, surrounding whitespace and ASCII digits. Underscore separators and non-ASCII digits are not accepted.
- The `repr` quoting inside the `int()` error message is simplified.
- Python `set` iteration order (validator candidates, topic keywords, new CSV files) is not modelled. Where the order decides a result, it is a sequence parameter of distinct elements.
- The similarity score is the exact rational `shared / all` as a `real`, not a binary float. Two ratios that differ but round to the same float are not treated as a tie.
- The client's `process_query` never reads its `system_prompt` argument. The prompt reaches the model as the first of the conversation messages. The model keeps the parameter unused, as the source does.
- `f"{AgentState.X}"` is rendered as `AgentState.X`, as Python 3.11 and later format a `str`-mixin enum member.
- Prompts.QueryAssessmentPrompt: states only that the prompt opens with its state header, not the fixed instruction text that follows. The assembled pieces are stated by their own lemmas: MeasureLines, DimensionLines, ContextInfo, ClarifiesFirstSetFlag, Priority, SampleLabels and SameAvailableLists.
- Prompts.ClarificationRequestPrompt: states only that the prompt opens with its state header, not the fixed instruction text that follows. The assembled pieces are stated by their own lemmas: MeasureLines, DimensionLines, ContextInfo, ClarifiesFirstSetFlag, Priority, SampleLabels and SameAvailableLists.
- Prompts.ReceiveClarificationPrompt: states only that the prompt opens with its state header, not the fixed instruction text that follows. The assembled pieces are stated by their own lemmas: MeasureLines, DimensionLines, ContextInfo, ClarifiesFirstSetFlag, Priority, SampleLabels and SameAvailableLists.
- Prompts.QueryConfirmationPrompt: states only that the prompt opens with its state header, not the fixed instruction text that follows. The assembled pieces are stated by their own lemmas: MeasureLines, DimensionLines, ContextInfo, ClarifiesFirstSetFlag, Priority, SampleLabels and SameAvailableLists.
- Prompts.ApiCallConstructionPrompt: states only that the prompt opens with its state header, not the fixed instruction text that follows. The assembled pieces are stated by their own lemmas: MeasureLines, DimensionLines, ContextInfo, ClarifiesFirstSetFlag, Priority, SampleLabels and SameAvailableLists.
- Prompts.RejectionHandlerPrompt: states only that the prompt opens with its state header, not the fixed instruction text that follows. The assembled pieces are stated by their own lemmas: MeasureLines, DimensionLines, ContextInfo, ClarifiesFirstSetFlag, Priority, SampleLabels and SameAvailableLists.
- Prompts.TemplatePrompt: states only that the prompt opens with its state header per state, not the fixed instruction text that follows. The assembled pieces are stated by their own lemmas: MeasureLines, DimensionLines, ContextInfo, ClarifiesFirstSetFlag, Priority, SampleLabels and SameAvailableLists.
- Prompts.BuildStatePrompt: states only that the prompt opens with its state header per state, and the "Unknown state" answer for COMPLETED and ERROR, not the fixed instruction text that follows. The assembled pieces are stated by their own lemmas: MeasureLines, DimensionLines, ContextInfo, ClarifiesFirstSetFlag, Priority, SampleLabels and SameAvailableLists.
- Interactive test drivers, debug scripts, the Streamlit frontend, the analyst agent's orchestration wrappers, `response_models.py`, `statistical_processor.py`, `column_analyzer.py` and the package `__init__` files are not part of this model.
- CubeQueryValidator.ValidateQuery: the query's measures and dimensions are lists of strings and a time dimension's or filter's field is an optional string, where the source takes any JSON value. A string given as 'measures' or 'dimensions' is iterated character by character, each character validated as a name. A number or null entry, or a number or null 'dimension' or 'member', raises TypeError at the `'.' in field` test of `_extract_field_name`. A list or dict entry raises "unhashable type" at the set-membership test. None of these inputs can be given to the model.
- EntryNames: a truthy 'name' that is a number or `true` is dropped, while the source adds it to its name set and a later `.lower()`, `sorted` or `join` on the names then raises. A list or dict name does make loading fail, as in the source (`FromDocument`, `ListNameRefused`).
- MapResult: pydantic's lax coercions are not modelled, so a numeric string or an integral float given as row_count is refused rather than converted; only a boolean row_count is converted. Of the ValidationError text, only its heading and the refused field names are modelled.
- ExampleManager.FindSimilarQueries: the results are (position, query, score) records, not copies of the example dictionaries; the record's query and score are the copy's 'query' and 'similarity_score'.

## Findings

| source | as written | input that shows it | evidently intended | confidence | as-written member | corrected member |
|---|---|---|---|---|---|---|
| mysql-container/scripts/csv-import-service.py:115-118 | a text cell becomes `'` + `val.replace("'", "''")` + `'`: quotes are doubled but backslashes are left as they are, and MySQL's default mode reads a backslash as an escape | the cell `a\` becomes `'a\'`, whose backslash escapes the closing quote, so the literal never closes | the literal reads back as exactly the cell's text | not executed | `CsvImport.AsWrittenTrailingBackslash` | `CsvImport.SqlLiteralRoundTrip`, `CsvImport.TextCellReadsBack` (the escaped rendering `RenderCellEscaped`) |
