# Dynamic schemas and an agent-handoff pipeline, in Dafny

This project models two parts of a small multi-agent toolkit and proves properties of the model.

**The dynamic model builder** (`utils/DynamicModelBuilder.py`) takes a declarative model definition: a model name and an ordered list of field definitions, each giving a name, a type tag, a description, a `required` flag and an optional default. It compiles the definition into a descriptor, which is what the builder hands to pydantic's `create_model`. For each field name the descriptor records the Python type annotation, the default policy and the description. Module `DynamicModelBuilder` models:

- the nine type tags and their string values;
- the `type_mapping` table;
- the three-way policy choice of `create_pydantic_model`: required with no default, a given default, or `Optional` with default `None`;
- the loop that fills the insertion-ordered field dictionary;
- the value-to-tag inference of `_infer_type`.

**The handoff pipeline** (`examples/langgraph_handoff_example.py`) passes a shared `HandoffState` through three agents: research, analysis and writing. Each agent calls a mock tool, appends a message and sets `current_agent`. A router then picks the next node through a per-node edge table. Module `Handoff` models:

- the state, as a class whose fields the agents update in place;
- the three tools, as pure functions;
- each agent's `process`, as a method that changes the state;
- `route_to_agent`, and the edge table registered with `add_conditional_edges`;
- the compiled graph's run, as an explicit loop that starts at the entry point and stops at the end node;
- the demonstration loop over the three queries.

Module `Text` supplies ASCII lower-casing and the substring test (`in` on strings) that the tools use. Module `Wrappers` supplies `Option`.

A Python `dict` keeps insertion order, and assigning to a key it already holds keeps that key's position. The model therefore represents the field dictionary as an order sequence beside a map.

## Model

| member | source | states |
|---|---|---|
| DynamicModelBuilder.ParseFieldType | utils/DynamicModelBuilder.py:6-15 | A string converts to a type tag only when it is that tag's value; any other string is rejected (None), as the enum lookup raises |
| DynamicModelBuilder.TagValue | utils/DynamicModelBuilder.py:6-15 | The string value of each of the nine tags (a definition, no contract; ParseTagValue proves the values distinct) |
| DynamicModelBuilder.ParseTagValue | utils/DynamicModelBuilder.py:6-15 | Every tag is recovered from its own value, so the nine values are distinct |
| DynamicModelBuilder.FieldDefinitionDefaults | utils/DynamicModelBuilder.py:17-22 | A field definition that omits `required` and `default_value` is required and has default None |
| DynamicModelBuilder.Admits | utils/DynamicModelBuilder.py:32-42 | Which values each annotation admits, in the sense of `isinstance`, with bools counted as ints (a definition, no contract; used by OptionalOf and InferredTypeAdmitsValue) |
| DynamicModelBuilder.OptionalOf | utils/DynamicModelBuilder.py:68 | `Optional[T]` admits exactly None plus what T admits; Optional of an Optional type is that type |
| DynamicModelBuilder.OptionalOfIdempotent | utils/DynamicModelBuilder.py:68 | Wrapping in Optional twice is the same as wrapping once |
| DynamicModelBuilder.TypeTableTotal | utils/DynamicModelBuilder.py:32-43 | The table covers every tag, so the `str` fallback is never taken |
| DynamicModelBuilder.TypeMapping | utils/DynamicModelBuilder.py:30-43 | The annotation is the table's entry for the field's declared tag |
| DynamicModelBuilder.TypeMappingValues | utils/DynamicModelBuilder.py:32-42 | The fixed annotation of each of the nine tags; for example `list_string` maps to `List[str]` |
| DynamicModelBuilder.CompileField | utils/DynamicModelBuilder.py:51-70 | The compiled field keeps the definition's description; its annotation and policy are stated by CompileFieldPolicy |
| DynamicModelBuilder.CompileFieldPolicy | utils/DynamicModelBuilder.py:53-70 | Required with no default: if and only if `required` holds and the default is None. Optional with default None: if and only if neither holds. With a default: if and only if the default is not None, and that default is carried unchanged. A required field without default is annotated with the mapped type, and an optional one with `Optional` of the mapped type |
| DynamicModelBuilder.DefaultWinsOverRequired | utils/DynamicModelBuilder.py:53-64 | A non-None default gives the mapped annotation with that default, whatever `required` says |
| DynamicModelBuilder.FalsyDefaultsAreDefaults | utils/DynamicModelBuilder.py:59 | `[]`, `0`, `""`, `False` and `{}` count as defaults, because the test is `is not None` and not truthiness |
| DynamicModelBuilder.OptionalFieldAnnotation | utils/DynamicModelBuilder.py:65-70 | A field that is neither required nor defaulted is annotated `Optional[T]`, which admits exactly None plus T; `optional_string` stays `Optional[str]` |
| DynamicModelBuilder.Names | utils/DynamicModelBuilder.py:50 | The names of the field definitions, in definition order |
| DynamicModelBuilder.NamesSnoc | utils/DynamicModelBuilder.py:50 | Appending a definition appends its name |
| DynamicModelBuilder.FirstOccurrences | utils/DynamicModelBuilder.py:48-70 | The dictionary's key order holds no repeats and has exactly the names as members |
| DynamicModelBuilder.FirstIndex | utils/DynamicModelBuilder.py:50 | The position of the first occurrence of a name |
| DynamicModelBuilder.LastIndex | utils/DynamicModelBuilder.py:50-70 | The position of the last definition of a name, or -1 when there is none |
| DynamicModelBuilder.FirstIndexSnoc | utils/DynamicModelBuilder.py:50 | Appending a name leaves the first positions of names already present unchanged |
| DynamicModelBuilder.FirstOccurrencesInOrder | utils/DynamicModelBuilder.py:48-70 | Keys appear in the order of their first definition |
| DynamicModelBuilder.FirstOccurrencesSnoc | utils/DynamicModelBuilder.py:55-69 | Assigning a new key appends it to the order; reassigning an existing key leaves the order alone |
| DynamicModelBuilder.LastIndexSnoc | utils/DynamicModelBuilder.py:55-69 | After one more definition, that definition is the last one for its name; other names are unaffected |
| DynamicModelBuilder.CompileStepValue | utils/DynamicModelBuilder.py:55-69 | After one more definition, each key's entry is the compilation of its last definition so far |
| DynamicModelBuilder.CompileStep | utils/DynamicModelBuilder.py:50-70 | One iteration of the loop keeps the invariant: order = first occurrences, keys = names, value = the compilation of the last definition |
| DynamicModelBuilder.CompiledPrefixWellFormed | utils/DynamicModelBuilder.py:48-70 | The invariant implies that the order lists each key exactly once |
| DynamicModelBuilder.CreatePydanticModel | utils/DynamicModelBuilder.py:46-72 | The descriptor carries the model name and is well formed. Its key order is the names in order of first occurrence, its keys are exactly the names, and each key holds the compilation of that name's last definition |
| DynamicModelBuilder.CompileProductInfo | utils/DynamicModelBuilder.py:98-130 | The ProductInfo definition compiles to `product_name` (required str), `price` (required float) and `categories` (`List[str]` with default `[]`), in that order |
| DynamicModelBuilder.ProductInfoNames | utils/DynamicModelBuilder.py:98-123 | The ProductInfo field names are three distinct names |
| DynamicModelBuilder.ProductInfoFields | utils/DynamicModelBuilder.py:98-123 | Each ProductInfo field's compilation |
| DynamicModelBuilder.InferType | utils/DynamicModelBuilder.py:75-95 | `_infer_type`: the `isinstance` tests in their source order, a list judged by its first element (a definition, no contract; InferTypeCases states its cases) |
| DynamicModelBuilder.InferTypeCases | utils/DynamicModelBuilder.py:75-95 | `_infer_type`, case by case: strings map to STRING; ints and bools to INTEGER; reals to FLOAT; lists to LIST_STRING or LIST_INTEGER by their first element; dicts to DICT; anything else to STRING. BOOLEAN and the Optional tags are never returned |
| DynamicModelBuilder.InferredTypeAdmitsValue | utils/DynamicModelBuilder.py:75-95 | For any value other than None or a foreign object, whose list (if it is one) is homogeneous, the inferred tag's annotation admits the value it was inferred from |
| DynamicModelBuilder.InferredTypeMayRejectValue | utils/DynamicModelBuilder.py:85-91 | None, and a list of floats, are given string-like tags whose annotations reject them |
| DynamicModelBuilder.InferTypeOfBoolIsInteger | utils/DynamicModelBuilder.py:79-84 | As written, `True` is inferred as INTEGER |
| DynamicModelBuilder.InferTypeCorrected | utils/DynamicModelBuilder.py:75-95 | With the bool test moved before the int test, BOOLEAN is returned exactly for bools, and every other value gets the same tag as before |
| DynamicModelBuilder.CorrectedInferenceAdmitsValue | utils/DynamicModelBuilder.py:75-95 | The corrected inference still admits the value it was inferred from |
| Text.Lower | examples/langgraph_handoff_example.py:31 | `str.lower` on ASCII: the same length, each character lowered, and no upper-case letter left |
| Text.LowerIdempotent | examples/langgraph_handoff_example.py:31 | Lowering twice is lowering once |
| Text.LowerOfLowercase | examples/langgraph_handoff_example.py:31 | A string with no upper-case letter is its own lower-case form |
| Text.Contains | examples/langgraph_handoff_example.py:37-42 | Python's `needle in haystack` on strings (a definition, no contract; ContainsIff characterises it) |
| Text.ContainsIff | examples/langgraph_handoff_example.py:37-42 | The substring test holds exactly when the needle occurs at some position |
| Text.SliceOfTail | examples/langgraph_handoff_example.py:37-42 | A slice of the tail of a string is the shifted slice of the string |
| Text.ContainsEmpty | examples/langgraph_handoff_example.py:37-42 | The empty string occurs in every string |
| Handoff.HandoffState.constructor | examples/langgraph_handoff_example.py:14-19 | A state holds exactly the five given fields |
| Handoff.ResearchTool | examples/langgraph_handoff_example.py:22-31 | `research_tool`: the table entry for the lower-cased query, else the not-found sentence (a definition, no contract; ResearchToolCases and ResearchResultLongIff state its behaviour) |
| Handoff.ResearchToolCases | examples/langgraph_handoff_example.py:22-31 | A known topic, matched case-insensitively, gives its table entry; otherwise the answer is the not-found sentence quoting the query as given |
| Handoff.ResearchResultLongIff | examples/langgraph_handoff_example.py:26-31 | The answer is longer than 50 characters exactly when the topic is known or the query is longer than 14 characters |
| Handoff.AnalysisTool | examples/langgraph_handoff_example.py:33-44 | `analysis_tool`: the first keyword found in the lower-cased data picks the canned analysis (a definition, no contract; AnalysisToolPriority states the choice) |
| Handoff.AnalysisToolPriority | examples/langgraph_handoff_example.py:33-44 | Each canned analysis is chosen exactly when its keyword is present and no earlier keyword is; the keywords are tried in the order quantum, machine learning, blockchain |
| Handoff.AnalysisToolIgnoresCase | examples/langgraph_handoff_example.py:37-42 | The analysis does not depend on letter case |
| Handoff.WritingTool | examples/langgraph_handoff_example.py:46-62 | The report's length is the template's header and footer lengths plus the content's; WritingToolRoundTrip shows the content sits intact between them |
| Handoff.WritingToolRoundTrip | examples/langgraph_handoff_example.py:46-62 | The content can be read back out of the report intact |
| Handoff.UserQuery | examples/langgraph_handoff_example.py:75 | The content of the last message, or "" when there are none (a definition, no contract; used by ResearchAgent.Process) |
| Handoff.ResearchReply | examples/langgraph_handoff_example.py:81-94 | The research agent's message is tagged with its name |
| Handoff.FirstResearchIndex | examples/langgraph_handoff_example.py:111-114 | The first message from the research agent, or -1 when there is none |
| Handoff.ResearchData | examples/langgraph_handoff_example.py:109-114 | The content of the first research message, or "" (a definition, no contract; AnalysisAgent.Process's loop is proved to compute it) |
| Handoff.AnalysisReply | examples/langgraph_handoff_example.py:117-123 | The analysis agent's message: the analysis of the research data, tagged "Analysis Agent" (a definition, no contract; AnalysisAgent.Process appends it) |
| Handoff.PriorWork | examples/langgraph_handoff_example.py:140-144 | The research and analysis contents, each followed by a newline, in message order (a definition, no contract; PriorWorkAppend and PriorWorkSkips state its properties, WritingAgent.Process's loop is proved to compute it) |
| Handoff.PriorWorkAppend | examples/langgraph_handoff_example.py:141-144 | Compiling prior work over a concatenation of message lists concatenates the compilations |
| Handoff.PriorWorkSkips | examples/langgraph_handoff_example.py:143 | Messages from the user or the writing agent contribute nothing |
| Handoff.WritingReply | examples/langgraph_handoff_example.py:146-153 | The writing agent's message: the report over all prior work, tagged "Writing Agent" (a definition, no contract; WritingAgent.Process appends it) |
| Handoff.ResearchAgent.Process | examples/langgraph_handoff_example.py:71-98 | Appends the research message for the last message's content. It hands off to analysis when the tool's answer is over 50 characters; otherwise it ends with "Research incomplete". Nothing else changes |
| Handoff.AnalysisAgent.Process | examples/langgraph_handoff_example.py:106-129 | Analyses the first research message's content ("" when there is none), appends the result and hands off to writing |
| Handoff.WritingAgent.Process | examples/langgraph_handoff_example.py:137-158 | Formats the research and analysis contents, each followed by a newline and in message order, into the report. It appends the report, stores it as the final result and ends |
| Handoff.RouteToAgent | examples/langgraph_handoff_example.py:161-164 | `route_to_agent`: the current agent, "research" when absent (a definition, no contract; RouteFollowsCurrentAgent states it) |
| Handoff.RouteFollowsCurrentAgent | examples/langgraph_handoff_example.py:161-164 | The router returns the current agent, or "research" when none is recorded |
| Handoff.PathMap | examples/langgraph_handoff_example.py:197-221 | The path map of each node's conditional edges (a definition, no contract; PathMapOnlyAllowed and AllowedInPathMap relate it to the allowed transitions) |
| Handoff.PathMapOnlyAllowed | examples/langgraph_handoff_example.py:197-221 | Every edge in the table is an allowed transition and moves strictly closer to the end |
| Handoff.AllowedInPathMap | examples/langgraph_handoff_example.py:197-221 | Every allowed transition is in the table, under its target's name |
| Handoff.StepDecreasesRank | examples/langgraph_handoff_example.py:194-221 | A step of the graph strictly decreases the distance to the end |
| Handoff.RunsVisitAtMostThreeNodes | examples/langgraph_handoff_example.py:194-221 | Any run from the entry point visits at most three nodes, so the graph terminates |
| Handoff.RunNode | examples/langgraph_handoff_example.py:167-221 | One node runs a fresh agent, then routes through the node's table. The route is always in the table, the transition is allowed, the new current agent is the chosen target's name, and messages, handoff reason and final result change as that agent's `process` says |
| Handoff.Invoke | examples/langgraph_handoff_example.py:182-223 | A run takes 3 steps and ends with the writing agent's report when research hands off. Otherwise it takes 1 step and ends with "Research incomplete". It always ends with current agent "end" and one message per step |
| Handoff.InitialState | examples/langgraph_handoff_example.py:244-250 | The initial state holds the user's query and the fixed initial field values |
| Handoff.QueryResearchData | examples/langgraph_handoff_example.py:109-114 | After research on a fresh query, the analysis agent reads the research message |
| Handoff.PriorWorkOfThree | examples/langgraph_handoff_example.py:141-144 | A user message followed by two prior-work messages compiles to their two contents, each followed by a newline |
| Handoff.QueryPriorWork | examples/langgraph_handoff_example.py:140-144 | After analysis on a fresh query, the writing agent compiles the research and analysis contents |
| Handoff.RunQuery | examples/langgraph_handoff_example.py:243-260 | A query ends with 4 messages and its report when its research answer is over 50 characters, and with 2 messages and "Research incomplete" otherwise |
| Handoff.DemoQueryIsLowerCase | examples/langgraph_handoff_example.py:232-236 | Each demonstration query is its own lower-case form |
| Handoff.DemoQueriesAreKnown | examples/langgraph_handoff_example.py:26-31 | Each demonstration query is a known topic, so research hands off |
| Handoff.RunDemoQueries | examples/langgraph_handoff_example.py:232-260 | Each of the three demonstration queries goes through all three agents, ending with 4 messages and a non-empty report rather than "Research incomplete" |

## Left out

- pydantic's `create_model`, its validation and coercion, and the instances built from the model (`DynamicModel(**test_data)`): these are library behaviour. The model stops at the descriptor passed to `create_model`.
- Validation of a model definition: an empty model name is not checked, and neither are duplicate field names. The code has no duplicate-name check: the later definition's compilation replaces the earlier one, and the key keeps its first position (CreatePydanticModel).
- JSON parsing of the definition (`json.loads`, `ModelDefinition(**model_dict)`) is not modelled beyond tag lookup (ParseFieldType). Copying of default values by pydantic is not modelled either.
- Floats are modelled as mathematical reals, and `Any` values as the closed datatype PyValue, with an opaque catch-all case.
- Text.Lower: lowers ASCII A-Z only; Unicode case mapping is not modelled.
- LLM clients (`get_gemini_client` and the `llm` fields of the agents), the agents' `tools` lists, `print` output and the `try`/`except` around each run are left out. They do not affect the state.
- The LangGraph engine is modelled only as far as this graph uses it. Nodes run in sequence, and each returns the whole state, which replaces the old one. The engine's error for a route missing from a path map is not modelled as a value, because RunNode proves that every route is in its table. Recursion limits, checkpointing and streaming are not modelled.
- Handoff.RunDemoQueries: it returns the message counts and the final results rather than printing the summaries. Its contract says that each report is non-empty and not "Research incomplete"; it does not spell out the report text, which RunQuery states for any query. It also does not restate the final agent or the handoff reason, which Invoke states.
- The other files of the repository (the encryption helper, the LLM client factories and the other agent examples) are not part of this model.

## Findings

| source | as written | input that shows it | evidently intended | confidence | as-written member | corrected member |
|---|---|---|---|---|---|---|
| utils/DynamicModelBuilder.py:79-84 | `isinstance(value, int)` is tested before `isinstance(value, bool)`, and bool is a subclass of int | `True` is inferred as INTEGER, so the BOOLEAN branch can never be reached | bools are inferred as BOOLEAN | not executed | DynamicModelBuilder.InferTypeOfBoolIsInteger | DynamicModelBuilder.InferTypeCorrected |
