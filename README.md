# AIOS tool-calling adapter, academic agent and place-name normaliser in Dafny

This project models three sequential pieces of the AIOS agent operating system and proves properties about them.

- **`BaseLLM`'s tool-calling adapter** (`aios/llm_cores/base.py`). It is made of four operations:
  - `tool_calling_input_format` rewrites a chat history in place for models without native tool calling. It is modelled as a method over an `array` of messages, proved against the function `Format`.
  - `parse_json_format` scrapes JSON out of free model text. Its two regular expressions are modelled with Python's `re` semantics: the leftmost start, the shortest lazy end, `\s*` with backtracking, and `.` not crossing a newline.
  - `parse_tool_calls` tags every decoded call with a fresh id and `"type": "function"`. The id generator is an object whose `n`-th id is `idOf(n)`.
  - `convert_map` builds a new dict keyed by `int(k)`, including Python's `int()` parsing of strings.
- **`AcademicAgent`'s plan-then-execute workflow** (`pyopenagi/agents/example/academic_agent/agent.py`). The agent is a class whose methods update its history and round counter in place. The LLM gateway is a class that records every query it receives. Each method is proved against a function of `AgentWorkflow`, and that module proves the counting and history properties.
- **`extract_before_parenthesis`** (`pyopenagi/tools/travel_planner/googleDistanceMatrix.py`), a pure string normaliser.

Some behaviour is not modelled directly and becomes a parameter instead:
- **`json.loads` / `json.dumps`** form a `Codec` of two functions. Their round-trip is the predicate `Lawful`, which every lemma that needs it requires.
- **Helpers the agent calls but does not define** (`check_workflow`, `pre_select_tools`) are functions in `Config`. A helper that raised returns `None`.
- **The gateway** is a function from the log of queries sent so far to a `Reply`, or to a `Failure` for an exception.
- **Clock readings** are plain integers passed in (`Timing`, `now`, `createdTime`).
- **Exceptions** are the `PyError` values `KeyError`, `TypeError`, `IndexError`, `ValueError`, `DecodeError` and `AssertionError`. A helper outside the model that raised gives `External`.

Three behaviours of the code the model keeps:
- `parse_tool_calls` can raise. It raises `TypeError` on a decoded array element that is not a dict, or on a non-empty dict or string.
- `run` has only one `try`. An exception from `build_system_instruction` (an unknown workflow mode) or from automatic planning (gateway, `check_workflow`) escapes `run` instead of becoming `{}`.
- `start_time` is only ever set to `None` in `agent.py`. The subtraction in the success record then raises `TypeError`, and a successful run returns `{}` unless code outside this file set `start_time`. The model keeps `start_time` as a field and covers both cases.

## Model

| member | source | states |
|---|---|---|
| OrderedDict.Get | aios/llm_cores/base.py:32 | definition: `d.get(k)` on an insertion-ordered dict; `GetMeaning` states what it finds |
| OrderedDict.Put | aios/llm_cores/base.py:32 | definition: `d[k] = v`, replacing an existing entry where it stands or appending a new one; `PutShape` and `PutThenGet` state its effect |
| OrderedDict.GetMeaning | aios/llm_cores/base.py:32 | a dict lookup finds a value exactly when the key is present, and the value found is stored under that key |
| OrderedDict.PutShape | aios/llm_cores/base.py:32 | assigning an existing key keeps the keys and their order; assigning a new key appends it at the end |
| OrderedDict.PutThenGet | aios/llm_cores/base.py:32 | after `d[k] = v`, `d[k]` is `v` and every other key reads as before |
| OrderedDict.PutKeysFrom | aios/llm_cores/base.py:32 | every key after an assignment is the assigned key or was already present |
| OrderedDict.PutKeepsUniqueKeys | aios/llm_cores/base.py:32 | an assignment never duplicates a key |
| PyText.NatToString | pyopenagi/agents/example/academic_agent/agent.py:116 | the decimal rendering of a count is non-empty digits without a leading zero |
| PyText.IntToString | pyopenagi/agents/example/academic_agent/agent.py:170 | `str()` of an integer is non-empty and starts with `-` exactly for negatives |
| JsonModel.EmptyArrayDecodes | aios/llm_cores/base.py:104-108 | under a lawful codec the fallback text `"[]"` decodes to the empty list |
| ToolCallingFormat.RewriteMessage | aios/llm_cores/base.py:67-74 | definition: the loop body for one message, in the branch order `tool_calls`, missing `role`, `role == "tool"`, other, with the exception each `pop` or lookup raises; `FormatRewrites` and `FormatNeedsIdsAndAMessage` state its effect |
| ToolCallingFormat.RewriteFrom | aios/llm_cores/base.py:67-74 | the rewriting loop never adds or removes messages |
| ToolCallingFormat.Format | aios/llm_cores/base.py:66-77 | the whole call returns a history of the same length |
| ToolCallingFormat.RewriteFromEffect | aios/llm_cores/base.py:67-74 | the loop leaves earlier messages alone; it completes exactly when no message raises, and then every message is rewritten by the loop body |
| ToolCallingFormat.RewriteFromStops | aios/llm_cores/base.py:67-74 | a loop that raises stops at the first failing message: the earlier ones are rewritten, the failing one is changed only as far as its body got, later ones are untouched |
| ToolCallingFormat.FormatSucceedsExactly | aios/llm_cores/base.py:66-77 | the call succeeds exactly when the history is non-empty, no message raises in the loop, and the last message then holds text |
| ToolCallingFormat.FormatNeedsIdsAndAMessage | aios/llm_cores/base.py:68-76 | an empty history (`messages[-1]`), a message with neither `tool_calls` nor `role` (`message["role"]`), or a tool message without `tool_call_id` (`pop`) makes the call raise |
| ToolCallingFormat.FormatRewrites | aios/llm_cores/base.py:66-77 | after success: a message with `tool_calls` holds their serialisation and loses the key, whatever its role; every other message has a role; a `tool` message becomes a `user` message quoting its id and old content; other messages are unchanged; the last one gets prefix, serialised tools and suffix appended |
| ToolCallingFormat.ToolCallingInputFormat | aios/llm_cores/base.py:48-77 | the in-place loop leaves the array and the raised exception exactly as `Format` describes, so every property of `Format` holds for it |
| RegexScan.SkipSpaces | aios/llm_cores/base.py:80-81 | greedy `\s*` stops at the first non-whitespace character |
| RegexScan.ArrayLazy | aios/llm_cores/base.py:80 | the lazy `.*?` of the array pattern ends at the first `}\s*]` reachable without crossing a newline, or nowhere |
| RegexScan.ArrayAt | aios/llm_cores/base.py:80 | at a given start the array pattern matches, and its end is the shortest match, or it does not match at all |
| RegexScan.SearchArray | aios/llm_cores/base.py:83 | a found array match lies in the text, starts with `[` and ends with `]` |
| RegexScan.SearchArrayLeftmost | aios/llm_cores/base.py:80-83 | `re.search` of the array pattern returns the leftmost start with its shortest lazy end, and `None` only when no start matches |
| RegexScan.ObjectLazy | aios/llm_cores/base.py:81 | the lazy `.*?` of the object pattern ends at the first `\s*}` reachable without crossing a newline |
| RegexScan.LazyFailsInsideRun | aios/llm_cores/base.py:81 | if the lazy part fails after a whitespace run, backtracking into the run fails too |
| RegexScan.SkipRun | aios/llm_cores/base.py:81 | skipping whitespace inside a run lands at the run's end |
| RegexScan.BacktrackFromRun | aios/llm_cores/base.py:81 | backtracking `\s*` over a whitespace run gives the same result as the lazy part after the run |
| RegexScan.FirstSpaceRunIsEnough | aios/llm_cores/base.py:81 | after `{`, giving back characters of the first `\s*` never finds a match the longest run misses |
| RegexScan.ObjectAt | aios/llm_cores/base.py:81 | at a given start the object pattern matches, and its end is the shortest match, or it does not match at all |
| RegexScan.SearchObject | aios/llm_cores/base.py:94 | a found object match lies in the text, starts with `{` and ends with `}` |
| RegexScan.SearchObjectLeftmost | aios/llm_cores/base.py:81-94 | `re.search` of the object pattern returns the leftmost start with its shortest end, and `None` only when no start matches |
| ToolCallParsing.ParseJsonFormat | aios/llm_cores/base.py:79-104 | definition: `json.dumps` of the decoded first array match, else of the decoded first object match, else `"[]"`; `ExtractorOutputDecodes` states what it yields |
| ToolCallParsing.ExtractorOutputDecodes | aios/llm_cores/base.py:79-104 | the extractor never raises, and its output decodes to the first array match if that decodes, else to the first object match if that decodes, else to `[]`; no later candidate is used |
| ToolCallParsing.NoBracketNoCalls | aios/llm_cores/base.py:83-104 | text without `[` or `{` yields exactly `"[]"` |
| ToolCallParsing.MultiLineCallIsDropped | aios/llm_cores/base.py:80-104 | a tool call written over two lines matches neither pattern and yields `"[]"` |
| ToolCallParsing.MultiLineNoArray | aios/llm_cores/base.py:80-83 | the array pattern cannot cross the newline of that call |
| ToolCallParsing.MultiLineNoObject | aios/llm_cores/base.py:81-94 | the object pattern cannot cross the newline of that call either |
| ToolCallParsing.SearchArrayNone | aios/llm_cores/base.py:80-83 | without a `[` from some position on, the array search finds nothing there |
| ToolCallParsing.SearchObjectNone | aios/llm_cores/base.py:81-94 | without a `{` from some position on, the object search finds nothing there |
| ToolCallParsing.FirstArrayOnly | aios/llm_cores/base.py:83-104 | only the first array candidate is tried: if it and the first object fail to decode, a later valid array is ignored and the result is `"[]"` |
| ToolCallParsing.FirstArrayMatch | aios/llm_cores/base.py:80-83 | in `[{x}] [{"a": 1}]` the array search stops at the first, undecodable, candidate |
| ToolCallParsing.FirstObjectMatch | aios/llm_cores/base.py:81-94 | in the same text the object search stops at `{x}` |
| ToolCallParsing.IdGenerator.constructor | aios/llm_cores/base.py:110 | a fresh generator has issued no ids |
| ToolCallParsing.IdGenerator.Next | aios/llm_cores/base.py:110 | `generator_tool_call_id()` returns the next id in its sequence and advances it by one |
| ToolCallParsing.Tag | aios/llm_cores/base.py:110-111 | definition: the two assignments of the loop body on one decoded element, failing on a non-dict; `TagSetsIdAndType` states its effect |
| ToolCallParsing.TagFrom | aios/llm_cores/base.py:109-111 | definition: the tagging loop from element `i`, element `k` taking the id drawn `k`-th; `TagFromResult` states its result |
| ToolCallParsing.TagAll | aios/llm_cores/base.py:109-111 | definition: the whole tagging loop; `TagAllShape` and `TagAllResult` state its result |
| ToolCallParsing.ParseToolCallsSpec | aios/llm_cores/base.py:106-112 | definition: `parse_tool_calls` on the extractor output: tag an array, return an empty dict or string as it is, raise `TypeError` on anything else; `ParseToolCalls` and `NothingDecodableNoCalls` state it |
| ToolCallParsing.IdsDrawn | aios/llm_cores/base.py:109-111 | definition: the ids `parse_tool_calls` draws, one per visited element including the one that raises; `ParseToolCalls` states it |
| ToolCallParsing.TagSetsIdAndType | aios/llm_cores/base.py:110-111 | tagging a dict sets `id` and `type == "function"` and keeps every other key |
| ToolCallParsing.TagFromResult | aios/llm_cores/base.py:109-111 | the tagging loop succeeds exactly when every element is a dict, and then element `k` is tagged with the `k`-th id, in order, same length |
| ToolCallParsing.TagAllResult | aios/llm_cores/base.py:106-112 | the decoded list keeps its length and order; each element gets its own id and `type: "function"` and keeps its other keys |
| ToolCallParsing.TagAllShape | aios/llm_cores/base.py:109-111 | the whole loop succeeds exactly when every element is a dict, and the elements are tagged with successive ids |
| ToolCallParsing.TaggedIdsDistinct | aios/llm_cores/base.py:110 | when the generator never repeats an id, two tagged calls never share one |
| ToolCallParsing.NothingDecodableNoCalls | aios/llm_cores/base.py:106-112 | unparseable text gives `[]` and draws no id |
| ToolCallParsing.DrawnFrom | aios/llm_cores/base.py:109-111 | the loop draws at most one id per remaining element |
| ToolCallParsing.TagCalls | aios/llm_cores/base.py:109-111 | the in-place tagging loop returns what `TagAll` describes and draws exactly `DrawnFrom` ids, including one for the element that raises |
| ToolCallParsing.ParseToolCalls | aios/llm_cores/base.py:106-112 | `parse_tool_calls` returns `ParseToolCallsSpec`, raising on a non-dict element or a non-empty dict or string, and draws exactly `IdsDrawn` ids |
| MapConversion.IntSpace | aios/llm_cores/base.py:32 | definition: the whitespace `int()` skips, which is `str.isspace` without U+001C..U+001F; `SeparatorNotSkipped` shows the difference |
| MapConversion.ParseInt | aios/llm_cores/base.py:32 | definition: `int(k)` on a string, with whitespace, sign, underscores between digits and the 4300-digit limit; the round-trip lemmas and `TooManyDigits` state it |
| MapConversion.StripLeft | aios/llm_cores/base.py:32 | `int()` ignores leading whitespace (the `str.isspace` characters except U+001C..U+001F) |
| MapConversion.StripRight | aios/llm_cores/base.py:32 | `int()` ignores trailing whitespace (the same set) |
| MapConversion.NatDigitsValue | aios/llm_cores/base.py:32 | the decimal rendering of `n` is valid digit groups and reads back as `n` |
| MapConversion.Unstripped | aios/llm_cores/base.py:32 | text without surrounding whitespace is left alone by stripping |
| MapConversion.NatRoundTrip | aios/llm_cores/base.py:32 | `int(str(n)) == n` for non-negative `n` of at most 4300 digits |
| MapConversion.NegativeRoundTrip | aios/llm_cores/base.py:32 | `int("-" + str(m)) == -m` for positive `m` of at most 4300 digits |
| MapConversion.IntRoundTrip | aios/llm_cores/base.py:32 | `int(str(n)) == n` for every integer `str()` can write (at most 4300 digits) |
| MapConversion.DigitCountAll | aios/llm_cores/base.py:32 | a string of digits counts each character toward the 4300-digit limit |
| MapConversion.TooManyDigits | aios/llm_cores/base.py:32 | a number of more than 4300 digits is refused by `int()`, whatever its value |
| MapConversion.SeparatorNotSkipped | aios/llm_cores/base.py:32 | `int("\x1c1")` raises: U+001C is not skipped as whitespace |
| MapConversion.ConvertFrom | aios/llm_cores/base.py:30-33 | definition: the loop of `convert_map` from entry `i` with the dict built so far; `ConvertFromResult` states its result |
| MapConversion.LastValueFor | aios/llm_cores/base.py:30-33 | definition, independent of the loop: the value of the last entry whose key converts to `k`, against which `ConvertMapMeaning` states the result |
| MapConversion.ConvertFromResult | aios/llm_cores/base.py:30-33 | the loop succeeds exactly when every remaining key converts; each integer then maps to the last entry converting to it, or keeps its earlier value; keys stay unique |
| MapConversion.ConvertMapMeaning | aios/llm_cores/base.py:28-33 | `convert_map` raises exactly when some key is not an integer; otherwise each integer maps to the value of the last entry whose key converts to it |
| MapConversion.CollidingKeys | aios/llm_cores/base.py:31-32 | keys `"1"` and `" +1"` collapse into one entry holding the later value |
| MapConversion.ConvertMap | aios/llm_cores/base.py:28-33 | the loop builds the new dict `ConvertFrom` describes and only reads its input |
| DistanceMatrix.FirstOpen | pyopenagi/tools/travel_planner/googleDistanceMatrix.py:35 | finds the first `(` from a position on, or the end |
| DistanceMatrix.LazyGroupEnd | pyopenagi/tools/travel_planner/googleDistanceMatrix.py:35 | the lazy group ends at the first `(` exactly when no newline precedes it and a `)` follows it |
| DistanceMatrix.ExtractBeforeParenthesis | pyopenagi/tools/travel_planner/googleDistanceMatrix.py:34-36 | the result is always a prefix of the input |
| DistanceMatrix.ExtractMeaning | pyopenagi/tools/travel_planner/googleDistanceMatrix.py:35-36 | the result is the text before the first `(` when no newline precedes it and a `)` follows it; otherwise the input unchanged |
| DistanceMatrix.ExtractIdempotent | pyopenagi/tools/travel_planner/googleDistanceMatrix.py:35-36 | applying the function twice equals applying it once |
| DistanceMatrix.FirstOpenNone | pyopenagi/tools/travel_planner/googleDistanceMatrix.py:35 | without a `(`, the search for one runs to the end |
| DistanceMatrix.ExtractExamples | pyopenagi/tools/travel_planner/googleDistanceMatrix.py:34-36 | `"Boston (MA)"` gives `"Boston "`; `"A (x) B (y)"` gives `"A "`; a newline before `(` or a missing `)` leaves the text unchanged |
| AgentWorkflow.Instructions | pyopenagi/agents/example/academic_agent/agent.py:61-94 | definition: the messages `build_system_instruction` appends in a mode, or its failed assertion; `InstructionsByMode` states them |
| AgentWorkflow.InstructionsByMode | pyopenagi/agents/example/academic_agent/agent.py:61-94 | manual mode appends exactly the system message; automatic mode the system message then the planning message; any other mode fails the assertion |
| AgentWorkflow.PlanQuotesTools | pyopenagi/agents/example/academic_agent/agent.py:64-66 | the planning message opens with `You are given the available tools from the tool list: ` followed by `json.dumps(tool_info)` |
| AgentWorkflow.FailLog | pyopenagi/agents/example/academic_agent/agent.py:113-118 | the notes of attempts `from+1`..`from+k`: `k` assistant messages `Fail i times ...`, numbered in order |
| AgentWorkflow.FailLogStep | pyopenagi/agents/example/academic_agent/agent.py:113-118 | the notes are numbered consecutively, in order |
| AgentWorkflow.PlanQueries | pyopenagi/agents/example/academic_agent/agent.py:98-103 | `n` planning requests, the `j`-th carrying the history plus the first `j` notes, no tools, and JSON as return type |
| AgentWorkflow.PlanQueriesStep | pyopenagi/agents/example/academic_agent/agent.py:97-118 | each planning request carries the history plus the notes of the attempts before it |
| AgentWorkflow.PlanFrom | pyopenagi/agents/example/academic_agent/agent.py:96-119 | definition: `automatic_workflow` from attempt `i` on, with its state and any escaping exception; the `PlanFrom*` lemmas state its properties |
| AgentWorkflow.PlanFromRequests | pyopenagi/agents/example/academic_agent/agent.py:97-119 | planning sends at most `plan_max_fail_times` requests, each with the history and the earlier failure notes, in order |
| AgentWorkflow.PlanFromRounds | pyopenagi/agents/example/academic_agent/agent.py:97-110 | every answered planning request adds exactly one round; a request that raised adds none |
| AgentWorkflow.PlanFromNotes | pyopenagi/agents/example/academic_agent/agent.py:109-118 | with `k` rejected plans exactly `k` notes `Fail i times ...` are appended, numbered 1..k; nothing else is appended |
| AgentWorkflow.PlanFromOutcome | pyopenagi/agents/example/academic_agent/agent.py:97-119 | an accepted plan is what `check_workflow` made of the last answer; after all attempts fail the result is `None` and every attempt was used |
| AgentWorkflow.PlanFromErrors | pyopenagi/agents/example/academic_agent/agent.py:97-119 | planning raises only what the gateway or `check_workflow` raised |
| AgentWorkflow.PlanFromAnswered | pyopenagi/agents/example/academic_agent/agent.py:97-119 | with a gateway that always answers and a `check_workflow` that never raises, planning raises nothing |
| AgentWorkflow.ManualWorkflow | pyopenagi/agents/example/academic_agent/agent.py:121-134 | definition: the two fixed steps; `ManualWorkflowFields` states how they read |
| AgentWorkflow.WorkflowSteps | pyopenagi/agents/example/academic_agent/agent.py:165 | definition: what `enumerate(workflow)` visits: a list's elements, or `TypeError` for any other truthy value |
| AgentWorkflow.Fields | pyopenagi/agents/example/academic_agent/agent.py:166-168 | reading a step fails only with `TypeError` (not a dict) or `KeyError` (a missing entry) |
| AgentWorkflow.ManualWorkflowFields | pyopenagi/agents/example/academic_agent/agent.py:121-134 | the manual plan is two steps: chat, "Search for relevant papers", `["arxiv"]`; then tool_use, "Provide responses based on the user's query", `[]` |
| AgentWorkflow.StepFieldsInOrder | pyopenagi/agents/example/academic_agent/agent.py:166-168 | a step written with its three keys reads back as those three values |
| AgentWorkflow.StepPrompt | pyopenagi/agents/example/academic_agent/agent.py:170 | definition: the `At step {i + 1}, you need to: {action}. ` prompt |
| AgentWorkflow.StepTools | pyopenagi/agents/example/academic_agent/agent.py:173-177 | definition: `pre_select_tools(tool_use)` when `tool_use` is truthy, else `None` |
| AgentWorkflow.StepsFrom | pyopenagi/agents/example/academic_agent/agent.py:165-188 | definition: the step loop of `run` from step `i` on; `StepsFromCounts`, `StepsFromDone` and `StepAnswered` state its properties |
| AgentWorkflow.StepsFromCounts | pyopenagi/agents/example/academic_agent/agent.py:165-188 | the step loop adds one round per completed step; it appends one prompt and one request per step (plus the failing step's, if it got that far) after the existing history; on success it has run every step |
| AgentWorkflow.StepsFromDone | pyopenagi/agents/example/academic_agent/agent.py:165-188 | every completed step left its `At step i+1` prompt and one request carrying the history up to that prompt, its action type, and tools exactly when `tool_use` is non-empty; responses are never added |
| AgentWorkflow.StepAnswered | pyopenagi/agents/example/academic_agent/agent.py:165-188 | a readable step whose tools are picked and whose request is answered moves the loop on by exactly one step |
| AgentWorkflow.TwoStepsAnswered | pyopenagi/agents/example/academic_agent/agent.py:165-188 | two such steps give two prompts, two requests with the picked tools, and two rounds |
| AgentWorkflow.KeepFirst | pyopenagi/agents/example/academic_agent/agent.py:148 | `messages[:1]` is the first message alone, or empty for an empty history |
| AgentWorkflow.Planning | pyopenagi/agents/example/academic_agent/agent.py:144-152 | definition: automatic planning followed by the cut to the first message, or the manual plan |
| AgentWorkflow.Prepared | pyopenagi/agents/example/academic_agent/agent.py:137-159 | definition: everything `run` does before its `try`; `AutomaticHistoryCut` and `ManualRunExecutes` state it |
| AgentWorkflow.Execute | pyopenagi/agents/example/academic_agent/agent.py:161-216 | definition: the `try` block of `run`; `ExecuteRounds`, `ManualExecute` and `ExecuteTwoSteps` state it |
| AgentWorkflow.RunSpec | pyopenagi/agents/example/academic_agent/agent.py:136-216 | definition: the whole of `run`; `RunRaisesOnlyBeforeTry`, `RunRoundsCountRequests`, `ManualRun` and `ExhaustedRun` state it |
| AgentWorkflow.AutomaticHistoryCut | pyopenagi/agents/example/academic_agent/agent.py:146-159 | after automatic planning, found or not, the history is its first message plus the `[Thinking]` note showing `json.dumps` of the plan (of `None` when none was found) |
| AgentWorkflow.RunRaisesOnlyBeforeTry | pyopenagi/agents/example/academic_agent/agent.py:136-216 | `run` raises only an unknown mode's assertion (with nothing changed) or an exception from automatic planning; a manual run never raises |
| AgentWorkflow.ExecuteRounds | pyopenagi/agents/example/academic_agent/agent.py:161-216 | the `try` block never raises; a returned record counts one round per request and reports the current rounds; `{}` has counted at most one round per request |
| AgentWorkflow.RunRoundsCountRequests | pyopenagi/agents/example/academic_agent/agent.py:136-216 | a run returning a record counted one round per request sent and reports that count; a run returning `{}` counted at most one per request |
| AgentWorkflow.ManualRunExecutes | pyopenagi/agents/example/academic_agent/agent.py:136-159 | a manual run appends the system message, the task and the `[Thinking]` note, then executes the manual plan |
| AgentWorkflow.ManualExecute | pyopenagi/agents/example/academic_agent/agent.py:161-201 | executing the manual plan against an answering gateway adds two prompts, two requests (tools only for the first), two rounds, and the record or `{}` depending on `start_time` |
| AgentWorkflow.ExecuteTwoSteps | pyopenagi/agents/example/academic_agent/agent.py:161-201 | the same for any two-step workflow whose steps are readable and whose tools are picked |
| AgentWorkflow.ManualRun | pyopenagi/agents/example/academic_agent/agent.py:136-201 | a whole manual run: the five messages in order, two requests, two rounds, status done, and the success record (or `{}` when `start_time` is unset) |
| AgentWorkflow.ExhaustedRun | pyopenagi/agents/example/academic_agent/agent.py:136-212 | when every plan is rejected: three requests, three rounds, the history cut to one message plus the note about `None`, and the planning-failure record with `None` timings |
| AcademicAgent.Gateway.Send | pyopenagi/agents/example/academic_agent/agent.py:98-103 | each request is logged once, in order, and answered from the log |
| AcademicAgent.Agent.constructor | pyopenagi/agents/example/academic_agent/agent.py:34-46 | a new agent has an empty history, no rounds, manual mode and no start or end time |
| AcademicAgent.Agent.BuildSystemInstruction | pyopenagi/agents/example/academic_agent/agent.py:61-94 | appends the mode's instructions, or fails the assertion with the history unchanged; nothing else changes |
| AcademicAgent.Agent.AutomaticWorkflow | pyopenagi/agents/example/academic_agent/agent.py:96-119 | the retry loop leaves the result, history, rounds and gateway log that `PlanFrom` describes |
| AcademicAgent.Agent.PlanAttempt | pyopenagi/agents/example/academic_agent/agent.py:97-118 | one pass of the retry loop either ends planning as `PlanFrom` does or leaves the state for the next attempt |
| AcademicAgent.Agent.RunSteps | pyopenagi/agents/example/academic_agent/agent.py:165-188 | the step loop leaves the state and result that `StepsFrom` describes |
| AcademicAgent.Agent.StepAt | pyopenagi/agents/example/academic_agent/agent.py:166-188 | one pass of the step loop either ends it as `StepsFrom` does or leaves the state for the next step |
| AcademicAgent.Agent.ExecuteWorkflow | pyopenagi/agents/example/academic_agent/agent.py:161-216 | the `try` block gives the outcome and state `Execute` describes; status and end time are set exactly when the steps all ran |
| AcademicAgent.Agent.Prepare | pyopenagi/agents/example/academic_agent/agent.py:137-159 | the part of `run` before its `try` leaves the plan and state `Prepared` describes |
| AcademicAgent.Agent.Run | pyopenagi/agents/example/academic_agent/agent.py:136-216 | `run` gives the outcome and state `RunSpec` describes, so every `RunSpec` lemma holds for it |

## Left out

- The JSON grammar: `json.loads`/`json.dumps` are the caller's `Codec`. Their round-trip is the precondition `Lawful` rather than a proved grammar. JSON floats are not in `Json`, whose numbers are integers.
- Id generation internals: `generator_tool_call_id` is the function `idOf`. Distinct ids are a precondition of `TaggedIdsDistinct`, not a proved fact.
- Aliasing between message dicts: the history is an array of values. Two list positions that hold the same dict object are not modelled.
- Message content that is neither a string nor `None` (such as a list of parts): `Content` has only those two cases, plus a missing key.
- `int()` on non-ASCII decimal digits (Arabic-Indic, full-width, ...): `ParseInt` accepts the ASCII digits only.
- `PyText.IntToString`: does not raise for an integer of more than 4300 digits, where Python's `str()` raises `ValueError`. This affects a step prompt whose action is such an integer. The round-trip lemmas require at most 4300 digits.
- `convert_map` on non-string keys: the input entries have string keys.
- Logging and configuration: `setup_logger`, `logger.log`, `load_config` and `print(e)` are I/O. The configuration is the `Config` value.
- `load_tools`: `tool_info` is taken as given in `Config`.
- `check_workflow` and `pre_select_tools` are undefined in the source. They are functions returning `None` when they raise, and their exceptions become `External`.
- `send_request` and `LLMQuery` are the gateway function. Their response is an abstract `Reply`, and a raised exception is `Failure`.
- `set_status`, `set_end_time` and `set_created_time` are undefined in the source. The model assumes each one stores its argument in the matching field.
- `time.time()` is a parameter (`now`, `createdTime`).
- `str()` of a list or dict inside the step prompt is the `reprOf` function in `Config`.
- `tool_call_max_fail_times` is set but never read.
- `GoogleDistanceMatrix.run`: a CSV lookup with float cost arithmetic, outside the normaliser.
- `BaseLLM` construction, `check_model_type`, and the abstract `load_llm_and_tokenizer`, `process` and `execute`: these are backends outside the adapter.
- `MapConversion.StripLeft`: its contract states only that the result has no leading whitespace, not that it is a suffix of the input.
- `MapConversion.StripRight`: its contract states only that the result has no trailing whitespace, not that it is a prefix of the input.
