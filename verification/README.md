# Security assistant core: plan pipelines, query tools and routing

This project models the deterministic core of a multi-agent cybersecurity
chatbot. A language model proposes a *tool plan*: a mapping from step
numbers to lists of tool calls. The plan is untrusted input. Two
orchestrators handle it:

- the tool agent (variant A), used by the knowledge agent;
- the detection agent (variant B).

Each one validates and normalizes the plan, runs the steps in ascending
order and runs the calls of a step in parallel. A rejected plan raises in
both. In the tool agent a failing tool call comes back as an error string
in the results. In the detection agent a failing tool call comes back as
an error dictionary, but a call whose `function` is not a string raises
out of the run. The chat model's answer is then streamed back over a
socket.

Around the two pipelines the project also models:

- the in-memory SIEM and threat-intelligence query tools;
- the CVE patch-reference filter and the exploit link;
- the flattening of multimodal chat messages by the image responder;
- the routing rules of the knowledge agent and the master agent.

Language models, the network, the thread pool's completion order and the
socket are not modelled as code. What they produce enters as parameters:

- the planner's plan;
- each tool call's `Outcome` (an `Oracle` indexed by step and call position);
- the completion order of the futures;
- the streamed deltas;
- the refiner's answer and the classified intent;
- `json.dumps`.

Modules, one per file:

- `PyValues`, `PyStrings`: Python values, `str`/`repr`, `int()`, `\d+`, ASCII case folding and `strip`.
- `Plans`: what both orchestrators share (the registry, the call check, the key-by-key normalization loop).
- `Sorting`: `sorted(keys)` on step numbers.
- `Sequences`, `Counting`: comprehensions and slices; counting dictionaries and the stable count sort.
- `ToolAgent`, `DetectionAgent`: the two pipelines.
- `Streaming`: the streaming accumulator.
- `Chat`: the history list and its messages, as classes updated in place.
- `SiemTool`, `ThreatIntelTool`, `CveTool`: the query tools.
- `ImageAgent`, `KnowledgeAgent`, `MasterAgent`: the agents.

## Model

| member | source | states |
|---|---|---|
| ToolAgent.CheckEntry | agents/tool_agent.py:71-85 | one item is accepted iff `int()` converts its key, the number is at least 1, the value is a list and every call has `tool`/`function`/`params` with a registered string tool; it then becomes that number with the unchanged call list |
| ToolAgent.ValidatePlan | agents/tool_agent.py:66-86 | the validation loop over the items, and the inner loop over a step's calls, computes exactly `Validate` |
| ToolAgent.ValidateChecked | agents/tool_agent.py:76-84 | every step of a validated plan is at least 1 and every call in it is well formed and names a registered tool |
| ToolAgent.ValidateRejects | agents/tool_agent.py:70-86 | a plan is rejected iff some item fails, and the error is that of the first failing item |
| ToolAgent.ValidateFixedPoint | agents/tool_agent.py:70-86 | re-validating a normalized plan, written back with int or decimal-string keys, gives the same plan |
| ToolAgent.ValidateOverwriteExample | agents/tool_agent.py:73-85 | `2` and `" 2 "` both name step 2, and the later item overwrites the earlier |
| ToolAgent.CheckEntryAccepts | agents/tool_agent.py:72-85 | a convertible key of at least 1 with a list of checked calls is stored under its number |
| ToolAgent.ValidateStepKeyRejected | agents/tool_agent.py:72-75 | a key `"step1"` rejects the plan with the invalid-step error |
| ToolAgent.ValidateZeroRejected | agents/tool_agent.py:76-77 | step number 0 rejects the plan |
| ToolAgent.ExecuteSingleOutcome | agents/tool_agent.py:111-124 | a resolved callable's return value is passed through; its exception becomes `Error executing T.f: msg`; an unresolved name becomes `Error: Unknown function f for tool T`; the function name is used verbatim |
| ToolAgent.FirstEqual | agents/tool_agent.py:134-138 | the ordering loop settles on the first submitted call equal to the given one |
| ToolAgent.FirstEqualBound | agents/tool_agent.py:134-138 | a call is found no later than its own position |
| ToolAgent.FirstEqualIs | agents/tool_agent.py:135-138 | the search stops at the first equal call |
| ToolAgent.FindFirstEqual | agents/tool_agent.py:135-138 | the inner loop over the futures returns that first equal position |
| ToolAgent.Outputs | agents/tool_agent.py:126-130 | future j returns `execute_single` of call j with its own outcome |
| ToolAgent.ParallelOrder | agents/tool_agent.py:132-139 | a call with no equal earlier call gets its own result |
| ToolAgent.ParallelDuplicate | agents/tool_agent.py:132-139 | a call equal to an earlier call gets the result of the first equal call |
| ToolAgent.ParallelDeterministic | agents/tool_agent.py:126-139 | when equal calls fare alike, entry i is the result of call i |
| ToolAgent.ExecuteParallel | agents/tool_agent.py:126-139 | the submit-then-reorder loops return `Parallel` (one result per call) and submit each call once |
| ToolAgent.RunSteps | agents/tool_agent.py:98-104 | one entry per step run |
| ToolAgent.RunStepsShape | agents/tool_agent.py:98-104 | entry i is step `order[i]` with one result per call |
| ToolAgent.PlanAndExecute | agents/tool_agent.py:93-104 | a rejected plan runs no call; a validated plan runs every step once in ascending order |
| ToolAgent.RunAll | agents/tool_agent.py:98-104 | the step loop returns `RunSteps` over the ascending keys and submits the calls step by step in that order |
| ToolAgent.PlanResultsShape | agents/tool_agent.py:98-104 | the result keys ascend strictly and are exactly the plan's step numbers, each with one result per call |
| Plans.CheckCall | agents/tool_agent.py:80-84 | a call passes iff it is a dict with the three keys and a registered string tool (same lines as agents/detection_agent.py:95-99) |
| Plans.CheckCalls | agents/detection_agent.py:95-99 | a step passes iff all its calls pass; otherwise the error is that of a failing call |
| Plans.CheckCallsFirst | agents/detection_agent.py:95-99 | the reported error is that of the first failing call |
| Plans.CheckStepCalls | agents/tool_agent.py:80-84 | the inner loop computes `CheckCalls` |
| Plans.NormalizeOutcome | agents/tool_agent.py:70-86 | normalization succeeds iff every item is accepted, and then the plan is what storing the steps in order builds |
| Plans.NormalizeRejected | agents/detection_agent.py:76-102 | once an item is rejected, later items change nothing |
| Plans.StoreKeys | agents/detection_agent.py:101 | the plan's steps are exactly the numbers of the items |
| Plans.StoreLastWins | agents/detection_agent.py:101 | the last item with a given number wins |
| Plans.NormalizeChecked | agents/detection_agent.py:87-99 | a plan built only from checked steps is checked |
| Plans.NormalizeFixedPoint | agents/detection_agent.py:76-102 | a plan whose written-back items are accepted unchanged normalizes to itself |
| Plans.ResultsValue | agents/detection_agent.py:109-112 | the results dictionary has one `step: [results]` item per step run, in run order |
| Sorting.SortedKeysSpec | agents/tool_agent.py:99 | `sorted(keys)` lists every step once, strictly ascending |
| Sorting.SortedKeysFirst | agents/detection_agent.py:110 | taking the least remaining key advances through `sorted(keys)` |
| Sorting.SortedSteps | agents/tool_agent.py:99 | `sorted(tool_plan.keys())` returns `SortedKeys`: every step once, ascending (same call as agents/detection_agent.py:110) |
| PyStrings.DecimalRoundTrip | agents/tool_agent.py:73 | `int(str(i)) == i` |
| PyStrings.PaddedIntegerExample | agents/tool_agent.py:73 | `int(" 2 ") == 2` |
| PyStrings.NotAnIntegerExample | agents/tool_agent.py:73-75 | `int("step1")` raises |
| PyStrings.TrimLeftSpec | agents/image_agent.py:24 | the leading part `strip()` removes is all whitespace and what is left starts with a non-blank |
| PyStrings.TrimRightSpec | agents/image_agent.py:24 | the trailing part `strip()` removes is all whitespace and what is left ends with a non-blank |
| PyStrings.StripTrailingBlank | agents/image_agent.py:24 | `strip()` ignores one more trailing blank, so the blank after the last part is dropped |
| PyStrings.FirstDigitRun | agents/detection_agent.py:80 | `re.search(r'\d+')`: none iff there is no digit; otherwise a non-empty run of digits |
| PyStrings.FirstDigitRunSpec | agents/detection_agent.py:80-83 | a found run starts where the first digit of the text is, and ends at the end of the text or before a non-digit |
| PyStrings.FirstDigitRunSplit | agents/detection_agent.py:80-83 | a digit-free prefix, a run of digits and a continuation that does not start with a digit give exactly that run |
| DetectionAgent.CheckEntry | agents/detection_agent.py:77-101 | one item is accepted iff its key yields a number of at least 1, its value is a dict or a list, and every call passes; a bare dict becomes a one-call list |
| DetectionAgent.ValidatePlan | agents/detection_agent.py:70-102 | the validation loop computes `Validate` |
| DetectionAgent.ValidateChecked | agents/detection_agent.py:87-99 | every step of a validated plan is at least 1 and every call in it is checked |
| DetectionAgent.ValidateRejects | agents/detection_agent.py:76-102 | rejected iff some item fails, with the first failing item's error |
| DetectionAgent.WrapEquivalent | agents/detection_agent.py:90-91 | a bare call is accepted or rejected exactly like the list holding only it |
| DetectionAgent.StepKeyExamples | agents/detection_agent.py:79-88 | `"step12"`→12, `"a1b2"`→1, `"first"` is rejected, `"step0"`→0, which is then below 1 |
| DetectionAgent.KeyDialects | agents/detection_agent.py:79-83 | `"step1"` is step 1 here but is rejected by the tool agent's `int()` |
| DetectionAgent.DigitRunKey | agents/detection_agent.py:79-83 | a key made of a digit-free prefix, the digits of n and a tail not starting with a digit names step n |
| DetectionAgent.StepNameKey | agents/detection_agent.py:79-83 | `"step" + str(n)` names step n |
| DetectionAgent.ValidateFixedPoint | agents/detection_agent.py:70-102 | re-validating a normalized plan, written back with int or `stepN` keys, gives the same plan |
| DetectionAgent.RunCallOutcome | agents/detection_agent.py:148-157 | with a string function, `run` never raises: it returns the callable's value, `{error, tool, function}` for its exception, or `{"error": "Unknown function f on T"}` using the raw function text |
| DetectionAgent.CallableNameExample | agents/detection_agent.py:150 | `"detect_url: {}"` resolves `detect_url` |
| DetectionAgent.Parallel | agents/detection_agent.py:159-165 | none iff some call raises out of `run`; otherwise one result per call |
| DetectionAgent.ParallelByIndex | agents/detection_agent.py:161-164 | entry i is the outcome of call i, even for duplicate calls |
| DetectionAgent.InOrder | agents/detection_agent.py:162 | completion in submission order is a valid completion order |
| DetectionAgent.ExecuteParallel | agents/detection_agent.py:159-165 | for any completion order, the index-writing loop returns `Parallel` and submits each call once |
| DetectionAgent.RunSteps | agents/detection_agent.py:110-112 | a successful run has one entry per step |
| DetectionAgent.RunStepsShape | agents/detection_agent.py:110-112 | entry i is step `order[i]` with one result per call |
| DetectionAgent.RunStepsAbort | agents/detection_agent.py:110-112 | the first step that raises ends the run with that step |
| DetectionAgent.RunPlan | agents/detection_agent.py:110-112 | the step loop computes `RunSteps` over the ascending keys and submits every call of the plan in order |
| DetectionAgent.PromptHolds | agents/detection_agent.py:113-139 | the prompt holds the serialized results after the opening text and ends with the query and the closing text |
| DetectionAgent.PlanAndExecute | agents/detection_agent.py:105-142 | a rejected plan runs nothing and leaves the history alone; a raising step leaves the history alone; otherwise exactly one fresh user message holding the prompt is appended and the streamed reply is returned |
| Streaming.Accumulate | agents/detection_agent.py:41-58 | the reply is the in-order concatenation of the truthy reasoning and content deltas, and the frames sent are those of `Frames` |
| Streaming.FramesMatchReply | agents/detection_agent.py:45-54 | the socket receives exactly the returned reasoning and answer, one frame per non-empty part |
| Streaming.AccumulateSplits | agents/detection_agent.py:45-54 | the reply does not depend on how the stream is split into chunks |
| Streaming.EmptyDeltas | agents/detection_agent.py:47-50 | a delta with nothing in it changes neither the reply nor the frames |
| Chat.History.Append | agents/knowledge_agent.py:122 | `history.append(m)` adds `m` at the end and changes nothing else |
| Chat.History.Pop | agents/image_agent.py:68 | `history.pop()` returns the last message and removes it |
| SiemTool.SearchLogsSpec | tools/siem_tool.py:23-27 | the results are the first `limit` matches in log order (for a negative `limit`, all but the last `-limit`), each mentioning the keyword case-insensitively; when they fit, every matching log comes back as often as it occurs |
| SiemTool.SearchIgnoresCase | tools/siem_tool.py:26 | any two keywords equal once lower-cased give the same results |
| SiemTool.SearchCaseExample | tools/siem_tool.py:26 | `ERROR` and `error` find the same logs |
| SiemTool.GetAlertsSpec | tools/siem_tool.py:29-47 | with a severity: exactly the logs of that severity, case-insensitively, in log order and as often as they occur; with none or an empty one: all logs |
| SiemTool.GetEventDetails | tools/siem_tool.py:49-55 | the first log with that event id, or none iff no log has it |
| SiemTool.SourcesCount | tools/siem_tool.py:61-64 | each source IP is counted once per log that has it; empty IPs are skipped |
| SiemTool.TopSources | tools/siem_tool.py:57-67 | the counting loop, then the count sort, then the slice `[:n]` |
| SiemTool.TopSourcesCounts | tools/siem_tool.py:57-67 | each returned IP is non-empty and carries the number of logs from it |
| SiemTool.TopOrdered | tools/siem_tool.py:66-67 | counts are non-increasing, IPs distinct, at most n of them |
| SiemTool.TopDominates | tools/siem_tool.py:66-67 | no IP left out has a higher count than one returned |
| SiemTool.TopStable | tools/siem_tool.py:66 | among equal counts the first-appearance order is kept |
| Counting.TallySpec | tools/siem_tool.py:72-75 | the counting loop counts each key exactly, lists each once in first-appearance order, and the counts sum to the number of keys |
| Counting.BumpSpec | tools/siem_tool.py:64 | `d[k] = d.get(k, 0) + 1` adds one to k only and appends a new key at the end |
| Counting.SortDescendingSpec | tools/siem_tool.py:66 | the sort is non-increasing, a permutation, and stable |
| SiemTool.Summary | tools/siem_tool.py:69-76 | the summary loop computes the tally of upper-cased severities |
| SiemTool.SummarySpec | tools/siem_tool.py:69-76 | counts add up to the number of logs, each key once, each exact |
| SiemTool.SummaryUnknown | tools/siem_tool.py:74 | a log without a severity is counted under `UNKNOWN` |
| SiemTool.CorrelateWithIoc | tools/siem_tool.py:78-100 | the nested loop with `break` returns exactly the logs that match, once each, with `count` their number |
| SiemTool.CorrelationSpec | tools/siem_tool.py:89-98 | a log is returned iff the lower-cased IOC occurs in one of its four lower-cased fields, as often as it occurs in the logs; log order is kept |
| SiemTool.EmptyIocMatchesAll | tools/siem_tool.py:94-96 | an empty IOC matches every log |
| ThreatIntelTool.Init | tools/threat_intel_tool.py:26 | a missing database becomes the empty list |
| ThreatIntelTool.IpReputationSpec | tools/threat_intel_tool.py:28-34 | the first `IP` entry with an equal IOC, otherwise the unknown record for the IP |
| ThreatIntelTool.CaselessReputationSpec | tools/threat_intel_tool.py:36-50 | the first entry of the kind whose IOC matches ignoring case, otherwise the unknown record; an entry of the kind without an IOC raises; never `None` |
| ThreatIntelTool.DomainCaseExample | tools/threat_intel_tool.py:40 | `EVIL.com` finds the `evil.com` domain entry |
| ThreatIntelTool.IpExample | tools/threat_intel_tool.py:32-34 | an exact IP is found; another IP gets the unknown record |
| ThreatIntelTool.ActiveThreatsSpec | tools/threat_intel_tool.py:52-59 | exactly the malicious or HIGH-level entries, in database order and as often as they occur |
| ThreatIntelTool.ActiveExample | tools/threat_intel_tool.py:57 | `high` counts as HIGH; the reputation test is case-sensitive |
| CveTool.RelatedExploitsSpec | tools/cve_tool.py:41-47 | one Exploit-DB record whose URL is the search link for the CVE id, which can be read back from it |
| CveTool.GetPatchInfo | tools/cve_tool.py:60-94 | the two loops and the message compute `PatchInfoOf` |
| CveTool.TaggedPatchesSpec | tools/cve_tool.py:71-77 | the first pass collects the URL of each usable reference tagged `patch`, once per reference, in reference order |
| CveTool.TaggedPatchesInOrder | tools/cve_tool.py:71-77 | the first pass is the URLs of the kept references, in order |
| CveTool.KeywordPatchesSpec | tools/cve_tool.py:80-88 | the fallback collects the URL of each usable reference naming patch, update or fix, once per reference, in reference order |
| CveTool.KeywordPatchesInOrder | tools/cve_tool.py:80-88 | the fallback is the URLs of the kept references, in order |
| CveTool.PatchesUsable | tools/cve_tool.py:74-75 | every returned URL starts with `http` and comes from a reference not tagged broken link |
| CveTool.PatchInfoSpec | tools/cve_tool.py:68-94 | tagged patches win, and the fallback runs only when there are none; the message is empty iff some URL was found |
| CveTool.PatchInfoNotFound | tools/cve_tool.py:61-63 | missing details give no patches and `CVE details not found.` |
| CveTool.PatchInfoExample | tools/cve_tool.py:71-88 | a broken patch link is skipped even when tagged `Patch`, and an advisory URL naming an update is kept |
| ImageAgent.FlattenContent | agents/image_agent.py:11-26 | a string is kept; the result is always a string; non-list content becomes `str(content)` |
| ImageAgent.FlattenUserMessage | agents/image_agent.py:9-27 | the same object comes back with only its content replaced by the flattened text; when an item raises, the message is unchanged |
| ImageAgent.CombinedAbort | agents/image_agent.py:16-23 | once an item raises, the loop raises |
| ImageAgent.FlattenIdempotent | agents/image_agent.py:11-13 | flattening a flattened content changes nothing |
| ImageAgent.TextPartFlat | agents/image_agent.py:18-19 | a text part adds its text and a blank |
| ImageAgent.ImagePartFlat | agents/image_agent.py:20-21 | an image part adds `[image: url] ` |
| ImageAgent.OtherPartsFlat | agents/image_agent.py:17-23 | a non-dict item adds `str(item) + " "`; a dict of another type adds nothing |
| ImageAgent.UserContent | agents/image_agent.py:36-45 | the text part always comes first; the image part is present iff the URL is truthy |
| ImageAgent.FlattenUserContent | agents/image_agent.py:36-45 | the user message flattens to `strip(query + " [image: " + url + "]")`, or to the stripped query without an image |
| ImageAgent.StreamAnswer | agents/image_agent.py:58-67 | the answer is the in-order concatenation of the truthy content deltas, each sent as one answer frame |
| ImageAgent.StreamImageResponder | agents/image_agent.py:29-75 | the history grows by exactly one fresh user message holding the flattened query; the reply has no reasoning |
| ImageAgent.StreamedAnswer | agents/image_agent.py:60-67 | the socket receives exactly the returned answer and no reasoning |
| KnowledgeAgent.Decide | agents/knowledge_agent.py:121-130 | the conversation branch is taken iff the intent is `normal_conversation`; the direct branch only on a `yes` above the double 0.8 |
| KnowledgeAgent.DecideSpec | agents/knowledge_agent.py:121-130 | a conversation ignores the refiner; otherwise direct iff `yes` and confidence > 0.8; exactly 0.8, a missing confidence or `no` take the tools |
| KnowledgeAgent.ThresholdBounds | agents/knowledge_agent.py:126 | the double 0.8 lies just above the real 0.8, so 0.8 takes the tools and 0.81 answers directly |
| KnowledgeAgent.NoThreatIntelligence | agents/knowledge_agent.py:131-139 | the registry has exactly MITRE, CVE, SIEM, Websearch and MyanmarLaw, and no validated call names `Threat Intelligence` |
| KnowledgeAgent.UserContent | agents/knowledge_agent.py:120-142 | a conversation appends the query; the direct branch appends the refined query; the tool branch fails iff the plan is rejected |
| KnowledgeAgent.ToolPathKeepsQuery | agents/knowledge_agent.py:140-141 | the tool branch's message ends with `\n\nUser Query: ` and the original query |
| KnowledgeAgent.Aforward | agents/knowledge_agent.py:120-143 | a rejected plan leaves the history alone; every other branch appends exactly one fresh user message with the branch's content, then streams the answer |
| MasterAgent.RouteOf | agents/master_agent.py:111-133 | an image URL wins whatever else is given; then a file URL; then the `detection_agent` intent; everything else goes to the knowledge agent |
| MasterAgent.KnowledgeIntents | agents/master_agent.py:122-133 | the knowledge agent gets the intent unchanged, so `normal_conversation` reaches it as a conversation |
| MasterAgent.ChatMessages | agents/master_agent.py:135 | `history[2:]`, empty for shorter histories |
| MasterAgent.TitleDueSpec | agents/master_agent.py:136 | a title is due iff the history holds three to five messages |
| MasterAgent.TitleOfOneMessage | agents/master_agent.py:139 | after a first turn the title text is `user: ` and the message |
| MasterAgent.Forward | agents/master_agent.py:108-143 | the route taken follows `RouteOf`; the chosen agent raises exactly when its own contract says so, with that error, asks for no title and leaves the history alone; any other turn appends one fresh user message holding what the agent built (the flattened image query, the scan prompt, the detection prompt, the knowledge content) and asks for a title iff the turn started with two to four messages |
| MasterAgent.FileTurn | agents/detection_agent.py:167-203 | the file branch appends one fresh user message holding the scan's prompt and changes nothing else in the history |
| MasterAgent.ImageTurn | agents/master_agent.py:112-114 | the image branch never raises and appends one fresh user message holding the query flattened with the image URL |
| MasterAgent.DetectionTurn | agents/master_agent.py:117-121 | the detection branch raises iff the plan is rejected or a call raises, with that error, and leaves the history alone; otherwise it appends one fresh user message holding the prompt built from the results |
| DetectionAgent.UserPrompt | agents/detection_agent.py:105-139 | a rejected plan yields its validation error; otherwise the first raising step, or the prompt built from the results of the steps run in ascending order |
| MasterAgent.KnowledgeTurn | agents/master_agent.py:122-133 | the knowledge branch raises iff the knowledge agent rejects its plan, with that error, and leaves the history alone; otherwise it appends one fresh user message holding the agent's content |

## Left out

- Threads: both `_execute_parallel` methods are sequential; the futures' completion order is the `completion` parameter of `DetectionAgent.ExecuteParallel`, and the tool agent's reordering reads only submission order.
- Language models: the planners, refine-and-check, the intent judge, the title generator and the chat completion streams are parameters (the plan, the `Refinement`, the intent, the deltas); the title is modelled as the text handed to the generator.
- Intent classification runs before dispatch in the source; the model receives its result as the `intent` parameter of `MasterAgent.Forward`.
- Tool bodies reached through the registry (MITRE, web search, Myanmar law, VirusTotal) are the `Oracle`; tools/mitre_tool.py, tools/web_search.py, tools/myanmar_law_tool.py and tools/detection_tool.py are not part of this model.
- Registry: each tool's set lists the methods and the attributes its class sets; attributes every Python object has (`__init__`, `__class__`, …) and `DetectionTool.vt_api_key` are not listed; calling a listed data attribute is whatever the oracle says (in Python, a `TypeError`).
- `CVETool.search_cves` and `get_cve_details` (NVD over HTTP) are not part of this model; `get_patch_info` takes the details' `references` instead, `None` standing for missing details.
- `get_alerts`' `timeframe` filter (wall clock, ISO date parsing) is not modelled.
- `DetectionAgent.detect_file` is not part of this model.
- FileTurn: the scan of the file (`DetectionTool.detect_file`), the prompt text built from its statistics and the streamed answer are not modelled; the prompt enters as the `scanPrompt` parameter of `MasterAgent.Forward`, and a scan that raises is not modelled.
- Database title update, the title frame on the socket and `chat_id` are left out.
- The socket is modelled as the sequence of frames sent; `json.dumps` of the results is a function parameter; `repr` does not model string escaping.
- Floating point: the refiner's confidence is a `real`; the literal `0.8` is its exact binary value.
- SearchLogs, GetAlerts, Summary, ActiveThreats: a missing key and a `None` value are both `None` in the model; for a key present with value `None` the source's `.get(key, default)` returns `None`, and `search_logs`, `get_alerts`, `get_summary` and `get_active_threats` then raise on `.lower()`/`.upper()`, while the model uses the default.
- CorrelateWithIoc: a field present with value `None` is searched as `"none"` by the source, through `str(None).lower()`, and as `""` by the model, so an IOC inside `"none"` matches such a log there and not here.
- StepKey: a key `True` or `False` is read as step 1 or 0, while the source keeps the bool itself as the key (serialized later as `true`); only a planner output that is not JSON text can produce it.
- Case folding and whitespace are ASCII only; `\d+` and `int()` recognise ASCII digits only, while Python 3 also accepts every other Unicode decimal digit (a key `"step၁"`, with the Burmese digit one, is step 1 in the source and is rejected with `NoStepDigits` by the model).
- Values (`PyValues.Value`) have no floats: a plan or tool result holding a float cannot be expressed, so neither `5 == 5.0` when the tool agent compares calls nor the `repr` of a float in the knowledge context is modelled.
- `print` calls and environment variables are left out.
- SIEM and threat-intel records are values: the tools only read their lists, so no method can change them.
