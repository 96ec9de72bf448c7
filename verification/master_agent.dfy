/**
 * agents/master_agent.py: `MasterAgent.forward`, which hands a turn to one
 * agent and then, while the conversation is young, asks for a chat title.
 * An image goes to the image responder, a file to the file scan, and
 * otherwise the classified intent picks the detection agent or the
 * knowledge agent.
 */
module MasterAgent {
  import opened Wrappers
  import opened PyValues
  import opened Plans
  import opened Chat
  import opened Streaming
  import ImageAgent
  import DetectionAgent
  import KnowledgeAgent

  datatype Route = ImageRoute | FileRoute | DetectionRoute | KnowledgeRoute

  /** The dispatch order of `forward`: an image URL first, then a file URL
      (each as soon as it is not `None`, even when empty), then the intent. */
  function RouteOf(intent: string, fileUrl: Option<string>, imageUrl: Option<string>): (r: Route)
    ensures r == ImageRoute <==> imageUrl.Some?
    ensures r == FileRoute <==> imageUrl.None? && fileUrl.Some?
    ensures r == DetectionRoute <==> imageUrl.None? && fileUrl.None? && intent == "detection_agent"
  {
    if imageUrl.Some? then ImageRoute
    else if fileUrl.Some? then FileRoute
    else if intent == "detection_agent" then DetectionRoute
    else KnowledgeRoute
  }

  /** The knowledge agent receives the classified intent unchanged, so an
      intent of `normal_conversation` reaches it as a conversation and every
      other intent that is not `detection_agent` as a knowledge query. */
  lemma KnowledgeIntents(intent: string, refinement: KnowledgeAgent.Refinement)
    requires RouteOf(intent, None, None) == KnowledgeRoute
    ensures intent != "detection_agent"
    ensures KnowledgeAgent.Decide(intent, refinement) == KnowledgeAgent.Conversation <==> intent == "normal_conversation"
  {
  }

  /** The detection agent's tools: the one `DetectionTool` and its scans. */
  const DetectionRegistry: Registry := map["DetectionTool" := {"detect_url", "detect_file"}]

  /** `history[2:]`: the messages after the first two. */
  function ChatMessages(msgs: seq<Message>): (r: seq<Message>)
    ensures |r| == if |msgs| >= 2 then |msgs| - 2 else 0
    ensures forall i :: 0 <= i < |r| ==> r[i] == msgs[i + 2]
  {
    if |msgs| >= 2 then msgs[2..] else []
  }

  /** `1 <= len(history[2:]) < 4` */
  predicate TitleDue(n: nat) {
    var chat := if n >= 2 then n - 2 else 0;
    1 <= chat < 4
  }

  /** A title is asked for exactly when the history holds three to five
      messages after the turn. */
  lemma TitleDueSpec(n: nat)
    ensures TitleDue(n) <==> 3 <= n <= 5
  {
  }

  /** One line `role: content` per message. */
  function TitleLines(msgs: seq<Message>): (r: seq<string>)
    reads set m | m in msgs
    ensures |r| == |msgs|
    ensures forall i :: 0 <= i < |msgs| ==> r[i] == msgs[i].role + ": " + ToStr(msgs[i].content)
  {
    seq(|msgs|, i reads set m | m in msgs requires 0 <= i < |msgs| => msgs[i].role + ": " + ToStr(msgs[i].content))
  }

  /** What the title generator reads: the lines joined by newlines. */
  function TitleContent(msgs: seq<Message>): string
    reads set m | m in msgs
  {
    Join("\n", TitleLines(msgs))
  }

  /** After a first turn the title generator sees the single user message
      as `user: <text>`. */
  lemma TitleOfOneMessage(msgs: seq<Message>)
    requires |msgs| == 3 && msgs[2].role == "user" && msgs[2].content.Str?
    ensures TitleContent(ChatMessages(msgs)) == "user: " + msgs[2].content.s
  {
    var chat := ChatMessages(msgs);
    assert chat == [msgs[2]];
    var line := msgs[2].role + ": " + ToStr(msgs[2].content);
    assert line == "user: " + msgs[2].content.s;
    assert TitleLines(chat)[0] == line;
    assert TitleLines(chat) == [line];
  }

  /** What `forward` returns: the chosen agent's result. The file scan's
      streamed answer is not part of this model. */
  datatype AgentResult =
    | ImageReply(reply: Reply)
    | FileScan
    | DetectionReply(detection: Result<Reply, DetectionAgent.DetectionError>)
    | KnowledgeReply(knowledge: Result<Reply, PlanError>)

  function RouteTaken(result: AgentResult): Route {
    match result
    case ImageReply(_) => ImageRoute
    case FileScan => FileRoute
    case DetectionReply(_) => DetectionRoute
    case KnowledgeReply(_) => KnowledgeRoute
  }

  /** The agent returned instead of raising. */
  predicate Succeeded(result: AgentResult) {
    match result
    case DetectionReply(d) => d.Success?
    case KnowledgeReply(k) => k.Success?
    case _ => true
  }

  /** The content deltas of a stream, as the image responder reads them. */
  function ContentsOf(deltas: seq<Delta>): (cs: seq<Option<string>>)
    ensures |cs| == |deltas|
    ensures forall i :: 0 <= i < |cs| ==> cs[i] == deltas[i].content
  {
    seq(|deltas|, i requires 0 <= i < |deltas| => deltas[i].content)
  }

  /** `forward(query, reasoning_include, ws, chat_id, fileUrl, history,
      imageUrl)`. The classified intent, the refiner's answer, both
      planners' plans, the tools' outcomes, the file scan's prompt,
      `json.dumps` and the streamed deltas are parameters; `title` is the
      text handed to the title generator, `None` when no title is asked
      for. A turn that raises asks for no title and leaves the history as
      it was; any other turn adds exactly one message, so a title is asked
      for on the turns that start with two to four messages. */
  method Forward(query: string, intent: string, fileUrl: Option<string>, imageUrl: Option<string>,
                 refinement: KnowledgeAgent.Refinement, knowledgePlan: Value, detectionPlan: Value,
                 scanPrompt: string, oracle: Oracle, dumps: Value -> string, deltas: seq<Delta>,
                 history: History)
    returns (result: AgentResult, title: Option<string>)
    modifies history
    ensures RouteTaken(result) == RouteOf(intent, fileUrl, imageUrl)
    ensures result.KnowledgeReply? ==>
              (result.knowledge.Failure? <==>
                 KnowledgeAgent.UserContent(query, intent, refinement, knowledgePlan, oracle).Failure?)
    ensures result.ImageReply? ==>
              && result.reply.reason == ""
              && AddsUserMessage(old(history.msgs), history.msgs, ImageAgent.FlatQuery(query, imageUrl))
    ensures result.FileScan? ==> AddsUserMessage(old(history.msgs), history.msgs, scanPrompt)
    ensures result.DetectionReply? ==>
              var expected := DetectionAgent.UserPrompt(detectionPlan, query, DetectionRegistry, oracle, dumps);
              && (result.detection.Failure? <==> expected.Failure?)
              && (expected.Failure? ==> result.detection.error == expected.error)
              && (expected.Success? ==> AddsUserMessage(old(history.msgs), history.msgs, expected.value))
    ensures result.KnowledgeReply? ==>
              var expected := KnowledgeAgent.UserContent(query, intent, refinement, knowledgePlan, oracle);
              && (expected.Failure? ==> result.knowledge.error == expected.error)
              && (expected.Success? ==> AddsUserMessage(old(history.msgs), history.msgs, expected.value))
    ensures !Succeeded(result) ==> title == None && history.msgs == old(history.msgs)
    ensures Succeeded(result) ==>
              title == if TitleDue(|history.msgs|) then Some(TitleContent(ChatMessages(history.msgs))) else None
    ensures Succeeded(result) ==>
              |history.msgs| == |old(history.msgs)| + 1 && history.msgs[..|old(history.msgs)|] == old(history.msgs)
    ensures Succeeded(result) ==> (title.Some? <==> 2 <= |old(history.msgs)| <= 4)
    ensures Succeeded(result) ==> fresh(history.msgs[|old(history.msgs)|])
  {
    var route := RouteOf(intent, fileUrl, imageUrl);
    if route == ImageRoute {
      result := ImageTurn(imageUrl, query, deltas, history);
    } else if route == FileRoute {
      result := FileTurn(scanPrompt, history);
    } else if route == DetectionRoute {
      result := DetectionTurn(detectionPlan, query, oracle, dumps, deltas, history);
    } else {
      result := KnowledgeTurn(query, intent, refinement, knowledgePlan, oracle, deltas, history);
    }
    if !Succeeded(result) {
      return result, None;
    }
    TitleDueSpec(|history.msgs|);
    if TitleDue(|history.msgs|) {
      title := Some(TitleContent(ChatMessages(history.msgs)));
    } else {
      title := None;
    }
  }

  /** `after` is `before` with one more user message, holding `content`. */
  predicate AddsUserMessage(before: seq<Message>, after: seq<Message>, content: string)
    reads set m | m in after
  {
    && |after| == |before| + 1
    && after[..|before|] == before
    && after[|before|].role == "user"
    && after[|before|].content == Str(content)
  }

  /** The image branch: the responder always answers and adds one fresh
      message, the query flattened with the image URL. */
  method ImageTurn(imageUrl: Option<string>, query: string, deltas: seq<Delta>, history: History)
    returns (result: AgentResult)
    modifies history
    ensures result.ImageReply? && result.reply.reason == ""
    ensures AddsUserMessage(old(history.msgs), history.msgs, ImageAgent.FlatQuery(query, imageUrl))
    ensures fresh(history.msgs[|old(history.msgs)|])
  {
    var reply, sent := ImageAgent.StreamImageResponder(imageUrl, query, ContentsOf(deltas), history);
    result := ImageReply(reply);
  }

  /** The file branch, `detect_file`: the scan's prompt goes into the
      history as one fresh user message before the answer is streamed. The
      prompt, built from the scan's statistics, is a parameter. */
  method FileTurn(scanPrompt: string, history: History) returns (result: AgentResult)
    modifies history
    ensures result.FileScan?
    ensures AddsUserMessage(old(history.msgs), history.msgs, scanPrompt)
    ensures fresh(history.msgs[|old(history.msgs)|])
  {
    var userMessage := new Message("user", Str(scanPrompt));
    history.Append(userMessage);
    result := FileScan;
  }

  /** The detection branch: it raises exactly when the plan is rejected or
      a call raises, with that error, and then leaves the history alone;
      otherwise it adds one fresh message, the prompt built from the
      results. */
  method DetectionTurn(detectionPlan: Value, query: string, oracle: Oracle, dumps: Value -> string,
                       deltas: seq<Delta>, history: History)
    returns (result: AgentResult)
    modifies history
    ensures result.DetectionReply?
    ensures var expected := DetectionAgent.UserPrompt(detectionPlan, query, DetectionRegistry, oracle, dumps);
            && (result.detection.Failure? <==> expected.Failure?)
            && (expected.Failure? ==> result.detection.error == expected.error && history.msgs == old(history.msgs))
            && (expected.Success? ==>
                  AddsUserMessage(old(history.msgs), history.msgs, expected.value) &&
                  fresh(history.msgs[|old(history.msgs)|]))
  {
    var r, sent, invoked := DetectionAgent.PlanAndExecute(detectionPlan, query, DetectionRegistry, oracle,
                                                           dumps, deltas, history);
    result := DetectionReply(r);
  }

  /** The knowledge branch: it raises exactly when the tool path's plan is
      rejected, with that error, and then leaves the history alone;
      otherwise it adds one fresh message, the content the agent built. */
  method KnowledgeTurn(query: string, intent: string, refinement: KnowledgeAgent.Refinement, knowledgePlan: Value,
                       oracle: Oracle, deltas: seq<Delta>, history: History)
    returns (result: AgentResult)
    modifies history
    ensures result.KnowledgeReply?
    ensures result.knowledge.Failure? <==>
              KnowledgeAgent.UserContent(query, intent, refinement, knowledgePlan, oracle).Failure?
    ensures var expected := KnowledgeAgent.UserContent(query, intent, refinement, knowledgePlan, oracle);
            && (expected.Failure? ==> result.knowledge.error == expected.error && history.msgs == old(history.msgs))
            && (expected.Success? ==>
                  AddsUserMessage(old(history.msgs), history.msgs, expected.value) &&
                  fresh(history.msgs[|old(history.msgs)|]))
  {
    var r, sent := KnowledgeAgent.Aforward(query, intent, refinement, knowledgePlan, oracle, deltas, history);
    result := KnowledgeReply(r);
  }
}
