/**
 * agents/knowledge_agent.py: `KnowledgeAgent.aforward`, which answers a
 * query in one of three ways. A normal conversation goes to the chat model
 * as it is; a query the refiner is confident about goes as refined; any
 * other query first runs a tool plan (variant A of the orchestrator) over
 * the knowledge tools and goes with the serialized results in front of it.
 * Each way appends exactly one user message to the history before the
 * answer is streamed.
 */
module KnowledgeAgent {
  import opened Wrappers
  import opened PyValues
  import opened Plans
  import opened Chat
  import opened Streaming
  import ToolAgent

  /** What the refiner returns: the refined query, `yes` or `no` for "can be
      answered without tools", and an optional confidence. */
  datatype Refinement = Refinement(refinedQuery: string, intent: string, confidence: Option<real>)

  /** The literal `0.8` as the binary double Python compares with. */
  const ConfidenceThreshold: real := 3602879701896397.0 / 4503599627370496.0

  /** `confident.confidence or 0`: a missing confidence counts as zero. */
  function ConfidenceOf(refinement: Refinement): real {
    match refinement.confidence
    case Some(c) => c
    case None => 0.0
  }

  datatype Branch = Conversation | Direct | ToolPath

  /** Which of the three ways a query takes. */
  function Decide(intent: string, refinement: Refinement): (b: Branch)
    ensures b == Conversation <==> intent == "normal_conversation"
    ensures b == Direct ==> refinement.intent == "yes" && ConfidenceOf(refinement) > ConfidenceThreshold
  {
    if intent == "normal_conversation" then Conversation
    else if refinement.intent == "yes" && ConfidenceOf(refinement) > ConfidenceThreshold then Direct
    else ToolPath
  }

  /** A conversation never consults the refiner; outside a conversation
      only a confident `yes` skips the tools, and a confidence of exactly
      0.8, a missing confidence or a `no` take the tools. */
  lemma DecideSpec(intent: string, refinement: Refinement, other: Refinement)
    ensures Decide("normal_conversation", refinement) == Decide("normal_conversation", other)
    ensures intent != "normal_conversation" ==>
              (Decide(intent, refinement) == Direct <==>
               refinement.intent == "yes" && ConfidenceOf(refinement) > ConfidenceThreshold)
    ensures intent != "normal_conversation" ==>
              Decide(intent, Refinement(refinement.refinedQuery, "yes", Some(ConfidenceThreshold))) == ToolPath &&
              Decide(intent, Refinement(refinement.refinedQuery, "yes", None)) == ToolPath &&
              Decide(intent, Refinement(refinement.refinedQuery, "no", Some(1.0))) == ToolPath
  {
  }

  /** The double `0.8` lies just above the real 0.8, so a confidence of
      0.8 does not skip the tools, and 0.81 does. */
  lemma ThresholdBounds()
    ensures 0.8 < ConfidenceThreshold < 0.8000000001
    ensures Decide("knowledge_agent", Refinement("q", "yes", Some(0.8))) == ToolPath
    ensures Decide("knowledge_agent", Refinement("q", "yes", Some(0.81))) == Direct
  {
  }

  /** The `tools_dict` of the tool path, as the names the planner may
      resolve on each tool: the methods and the attributes its class sets.
      `Threat Intelligence` is commented out in the source. */
  const KnowledgeRegistry: Registry := map[
    "MITRE" := {"DOMAINS", "data", "_get_external_id", "search_techniques", "get_technique_by_id",
                "get_mitigations_for_technique", "get_mitigations_by_keyword", "get_techniques_for_mitigation"},
    "CVE" := {"BASE_URL", "search_cves", "get_cve_details", "get_related_exploits", "get_patch_info"},
    "SIEM" := {"logs", "search_logs", "get_alerts", "get_event_details", "get_top_sources", "get_summary",
               "correlate_with_ioc"},
    "Websearch" := {"websearch_client", "websearch"},
    "MyanmarLaw" := {"law_qa", "law_text", "ask"}
  ]

  /** The registry offers exactly five tools, and no call that survives
      validation names the threat intelligence tool. */
  lemma NoThreatIntelligence(toolPlan: Value)
    ensures KnowledgeRegistry.Keys == {"MITRE", "CVE", "SIEM", "Websearch", "MyanmarLaw"}
    ensures "Threat Intelligence" !in KnowledgeRegistry
    ensures ToolAgent.Validate(toolPlan, KnowledgeRegistry).Success? ==>
              var plan := ToolAgent.Validate(toolPlan, KnowledgeRegistry).value;
              forall n, k :: n in plan && 0 <= k < |plan[n]| ==>
                IsCall(plan[n][k]) && ToolOf(plan[n][k]) != Str("Threat Intelligence")
  {
    ToolAgent.ValidateChecked(toolPlan, KnowledgeRegistry);
    if ToolAgent.Validate(toolPlan, KnowledgeRegistry).Success? {
      var plan := ToolAgent.Validate(toolPlan, KnowledgeRegistry).value;
      forall n, k | n in plan && 0 <= k < |plan[n]|
        ensures IsCall(plan[n][k]) && ToolOf(plan[n][k]) != Str("Threat Intelligence")
      {
        assert StepChecked((n, plan[n]), KnowledgeRegistry);
        assert CheckCall(plan[n][k], KnowledgeRegistry, n).None?;
      }
    }
  }

  /** The text the tool path puts in front of the original query:
      `f"{context}\n\nUser Query: {query}"`, where `context` is the results
      dictionary. */
  function ContextualQuery(results: StepResults, query: string): string {
    Repr(ResultsValue(results)) + "\n\nUser Query: " + query
  }

  /** What `aforward` appends to the history, or the validation error that
      escapes from the tool path. */
  ghost function UserContent(query: string, intent: string, refinement: Refinement, toolPlan: Value, oracle: Oracle)
    : (r: Result<string, PlanError>)
    ensures Decide(intent, refinement) == Conversation ==> r == Success(query)
    ensures Decide(intent, refinement) == Direct ==> r == Success(refinement.refinedQuery)
    ensures r.Failure? <==>
              Decide(intent, refinement) == ToolPath && ToolAgent.Validate(toolPlan, KnowledgeRegistry).Failure?
  {
    match Decide(intent, refinement)
    case Conversation => Success(query)
    case Direct => Success(refinement.refinedQuery)
    case ToolPath =>
      match ToolAgent.Validate(toolPlan, KnowledgeRegistry)
      case Failure(e) => Failure(e)
      case Success(plan) =>
        ToolAgent.ValidateChecked(toolPlan, KnowledgeRegistry);
        Success(ContextualQuery(ToolAgent.RunSteps(Sorting.SortedKeys(plan.Keys), plan, KnowledgeRegistry, oracle), query))
  }

  /** The tool path always ends its message with the ORIGINAL query, while
      the direct path sends the refined one. */
  lemma ToolPathKeepsQuery(query: string, intent: string, refinement: Refinement, toolPlan: Value, oracle: Oracle)
    requires Decide(intent, refinement) == ToolPath
    requires UserContent(query, intent, refinement, toolPlan, oracle).Success?
    ensures var s := UserContent(query, intent, refinement, toolPlan, oracle).value;
            |s| >= |query| + 14 && s[|s| - |query| - 14..] == "\n\nUser Query: " + query
  {
    var plan := ToolAgent.Validate(toolPlan, KnowledgeRegistry).value;
    ToolAgent.ValidateChecked(toolPlan, KnowledgeRegistry);
    var results := ToolAgent.RunSteps(Sorting.SortedKeys(plan.Keys), plan, KnowledgeRegistry, oracle);
    var s := ContextualQuery(results, query);
    assert s == Repr(ResultsValue(results)) + ("\n\nUser Query: " + query);
  }

  /** `aforward(query, intent, history, reasoning_include, ws)`. The
      refiner's answer, the planner's plan for the refined query, the
      tools' outcomes and the streamed deltas are parameters. The history
      is left alone when the plan is rejected; otherwise it grows by one
      fresh user message and the answer is streamed. */
  method Aforward(query: string, intent: string, refinement: Refinement, toolPlan: Value, oracle: Oracle,
                  deltas: seq<Delta>, history: History)
    returns (r: Result<Reply, PlanError>, sent: seq<Frame>)
    modifies history
    ensures UserContent(query, intent, refinement, toolPlan, oracle).Failure? ==>
              r == Failure(UserContent(query, intent, refinement, toolPlan, oracle).error) &&
              sent == [] && history.msgs == old(history.msgs)
    ensures UserContent(query, intent, refinement, toolPlan, oracle).Success? ==>
              && r == Success(Reply(Reasoning(deltas), Answer(deltas)))
              && sent == Frames(deltas)
              && |history.msgs| == |old(history.msgs)| + 1
              && history.msgs[..|old(history.msgs)|] == old(history.msgs)
              && fresh(history.msgs[|old(history.msgs)|])
              && history.msgs[|old(history.msgs)|].role == "user"
              && history.msgs[|old(history.msgs)|].content ==
                   Str(UserContent(query, intent, refinement, toolPlan, oracle).value)
  {
    var content: string;
    var branch := Decide(intent, refinement);
    if branch == Conversation {
      content := query;
    } else if branch == Direct {
      content := refinement.refinedQuery;
    } else {
      var context, invoked := ToolAgent.PlanAndExecute(toolPlan, KnowledgeRegistry, oracle);
      if context.Failure? {
        return Failure(context.error), [];
      }
      content := ContextualQuery(context.value, query);
    }
    var message := new Message("user", Str(content));
    history.Append(message);
    var reply;
    reply, sent := Accumulate(deltas);
    return Success(reply), sent;
  }
}
