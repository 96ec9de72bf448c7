/**
 * The detection orchestrator of agents/detection_agent.py: the same
 * validate-run-aggregate pipeline as the general orchestrator, with step
 * numbers found by a digit search, bare calls wrapped into lists, callable
 * names cut at the first `:`, failures reported as dictionaries and results
 * placed by index. The aggregated results are handed to the chat model in
 * one new history message.
 */
module DetectionAgent {
  import opened Wrappers
  import opened PyStrings
  import opened PyValues
  import opened Sorting
  import opened Plans
  import opened Chat
  import opened Streaming
  import ToolAgent

  // ---------------------------------------------------------------------------
  // `_validate_plan`

  /** The step number of a key: a string gives the value of its first run
      of digits, any other key is compared with 1 as it is (a `bool` as 0
      or 1; `None < 1` raises). */
  function StepKey(key: Value): Result<int, PlanError> {
    match key
    case Str(s) =>
      (match FirstDigitRun(s)
       case None => Failure(NoStepDigits(key))
       case Some(digits) => Success(DigitsValue(digits) as int))
    case Int(i) => Success(i)
    case Bool(b) => Success(if b then 1 else 0)
    case _ => Failure(TypeFault)
  }

  /** A bare call dictionary becomes a one-call list; a list is kept. */
  function AsCalls(calls: Value): Option<seq<Value>> {
    if calls.Dict? then Some([calls])
    else if calls.List? then Some(calls.items)
    else None
  }

  /** One turn of the validation loop on the item `(key, calls)`. */
  function CheckEntry(registry: Registry, key: Value, calls: Value): (r: Result<Step, PlanError>)
    ensures r.Success? ==> StepChecked(r.value, registry)
    ensures r.Success? <==>
              && StepKey(key).Success? && StepKey(key).value >= 1
              && AsCalls(calls).Some?
              && forall k :: 0 <= k < |AsCalls(calls).value| ==>
                   CheckCall(AsCalls(calls).value[k], registry, StepKey(key).value).None?
    ensures r.Success? ==> r.value == (StepKey(key).value, AsCalls(calls).value)
  {
    match StepKey(key)
    case Failure(e) => Failure(e)
    case Success(n) =>
      if n < 1 then Failure(StepBelowOne(n))
      else match AsCalls(calls)
        case None => Failure(NotAListOrDict(n))
        case Some(items) =>
          match CheckCalls(items, registry, n)
          case Some(e) => Failure(e)
          case None => Success((n, items))
  }

  function Check(registry: Registry): EntryCheck {
    (key, calls) => CheckEntry(registry, key, calls)
  }

  /** The result of `_validate_plan(tool_plan)`. */
  function Validate(toolPlan: Value, registry: Registry): Result<Plan, PlanError> {
    if !toolPlan.Dict? then Failure(TypeFault) else Normalize(toolPlan.entries, Check(registry))
  }

  /** The validation loop. */
  method ValidatePlan(toolPlan: Value, registry: Registry) returns (r: Result<Plan, PlanError>)
    ensures r == Validate(toolPlan, registry)
  {
    if !toolPlan.Dict? {
      return Failure(TypeFault);
    }
    var entries := toolPlan.entries;
    var check := Check(registry);
    var normalized: Plan := map[];
    var i := 0;
    while i < |entries|
      invariant 0 <= i <= |entries|
      invariant Normalize(entries[..i], check) == Success(normalized)
    {
      var (key, calls) := entries[i];
      NormalizeNext(entries, check, i, normalized);
      assert EntryAt(entries, check, i) == CheckEntry(registry, key, calls);
      var step := CheckItem(registry, key, calls);
      if step.Failure? {
        NormalizeRejected(entries, check, i + 1);
        return Failure(step.error);
      }
      normalized := normalized[step.value.0 := step.value.1];
      i := i + 1;
    }
    assert entries[..i] == entries;
    return Success(normalized);
  }

  /** One turn of the validation loop: the step number from the key, the
      calls wrapped into a list, then each call checked. */
  method CheckItem(registry: Registry, key: Value, calls: Value) returns (r: Result<Step, PlanError>)
    ensures r == CheckEntry(registry, key, calls)
  {
    var n: int;
    if key.Str? {
      var digits := FirstDigitRun(key.s);
      if digits.None? {
        return Failure(NoStepDigits(key));
      }
      n := DigitsValue(digits.value);
    } else if key.Int? {
      n := key.i;
    } else if key.Bool? {
      n := if key.b then 1 else 0;
    } else {
      return Failure(TypeFault);
    }
    if n < 1 {
      return Failure(StepBelowOne(n));
    }
    var items: seq<Value>;
    if calls.Dict? {
      items := [calls];
    } else if calls.List? {
      items := calls.items;
    } else {
      return Failure(NotAListOrDict(n));
    }
    var failure := CheckStepCalls(items, registry, n);
    if failure.Some? {
      return Failure(failure.value);
    }
    return Success((n, items));
  }

  /** A validated plan has step numbers of at least 1 and only calls that
      are dictionaries naming a registered tool. */
  lemma ValidateChecked(toolPlan: Value, registry: Registry)
    ensures Validate(toolPlan, registry).Success? ==> Checked(Validate(toolPlan, registry).value, registry)
  {
    if toolPlan.Dict? {
      NormalizeChecked(toolPlan.entries, Check(registry), registry);
    }
  }

  /** Validation rejects a plan exactly when one of its items fails, and
      then with the error of the first item that fails. */
  lemma ValidateRejects(toolPlan: Value, registry: Registry)
    requires toolPlan.Dict?
    ensures Validate(toolPlan, registry).Failure? <==>
              exists k :: 0 <= k < |toolPlan.entries| &&
                CheckEntry(registry, toolPlan.entries[k].0, toolPlan.entries[k].1).Failure?
    ensures Validate(toolPlan, registry).Failure? ==>
              exists k :: 0 <= k < |toolPlan.entries| &&
                CheckEntry(registry, toolPlan.entries[k].0, toolPlan.entries[k].1) == Failure(Validate(toolPlan, registry).error) &&
                forall j :: 0 <= j < k ==> CheckEntry(registry, toolPlan.entries[j].0, toolPlan.entries[j].1).Success?
  {
    var entries := toolPlan.entries;
    NormalizeOutcome(entries, Check(registry));
    assert forall k :: 0 <= k < |entries| ==>
      EntryAt(entries, Check(registry), k) == CheckEntry(registry, entries[k].0, entries[k].1);
  }

  /** A bare call is accepted or rejected exactly as the list holding only
      that call. */
  lemma WrapEquivalent(registry: Registry, key: Value, call: Value)
    requires call.Dict?
    ensures CheckEntry(registry, key, call) == CheckEntry(registry, key, List([call]))
  {
  }

  /** `"step12"` is step 12 and `"a1b2"` step 1; `"step0"` is below 1 and
      `"first"` has no digits. */
  lemma StepKeyExamples()
    ensures StepKey(Str("step12")) == Success(12)
    ensures StepKey(Str("a1b2")) == Success(1)
    ensures StepKey(Str("first")) == Failure(NoStepDigits(Str("first")))
    ensures StepKey(Str("step0")).Success? && StepKey(Str("step0")).value == 0
  {
    StepTwelveKey();
    FirstRunKey();
    NoDigitsKey();
    StepZeroKey();
  }

  /** A key made of a digit-free prefix, a run of digits and anything
      that does not continue the run is the value of the digits. */
  lemma DigitRunKey(p: string, d: string, rest: string, n: nat)
    requires forall i :: 0 <= i < |p| ==> !IsDigit(p[i])
    requires |d| > 0 && forall i :: 0 <= i < |d| ==> IsDigit(d[i])
    requires |rest| == 0 || !IsDigit(rest[0])
    requires DigitsValue(d) == n
    ensures StepKey(Str(p + d + rest)) == Success(n)
  {
    FirstDigitRunSplit(p, d, rest);
  }

  lemma StepTwelveKey()
    ensures StepKey(Str("step12")) == Success(12)
  {
    assert DigitsValue("12") == 12 by {
      assert "12"[..1] == "1" && "1"[..0] == "";
    }
    DigitRunKey("step", "12", "", 12);
    assert "step" + "12" + "" == "step12";
  }

  lemma FirstRunKey()
    ensures StepKey(Str("a1b2")) == Success(1)
  {
    PyStrings.StepKeyExamples();
    assert DigitsValue("1") == 1 by {
      assert "1"[..0] == "";
    }
  }

  lemma NoDigitsKey()
    ensures StepKey(Str("first")) == Failure(NoStepDigits(Str("first")))
  {
    var s := "first";
    assert forall i :: 0 <= i < |s| ==> !IsDigit(s[i]);
  }

  lemma StepZeroKey()
    ensures StepKey(Str("step0")).Success? && StepKey(Str("step0")).value == 0
  {
    assert DigitsValue("0") == 0 by {
      assert "0"[..0] == "";
    }
    DigitRunKey("step", "0", "", 0);
    assert "step" + "0" + "" == "step0";
  }

  /** The two orchestrators read the same key differently: `int("step1")`
      raises, the digit search finds 1. */
  lemma KeyDialects()
    ensures ToolAgent.StepNumber(Str("step1")) == None
    ensures StepKey(Str("step1")) == Success(1)
  {
    NotAnIntegerExample();
    StepOneKey();
  }

  lemma StepOneKey()
    ensures StepKey(Str("step1")) == Success(1)
  {
    assert DigitsValue("1") == 1 by {
      assert "1"[..0] == "";
    }
    DigitRunKey("step", "1", "", 1);
    assert "step" + "1" + "" == "step1";
  }

  /** `"step" + str(n)` names step `n`. */
  lemma StepNameKey(n: nat)
    ensures StepKey(Str("step" + NatToDecimal(n))) == Success(n)
  {
    var p := "step";
    assert forall i :: 0 <= i < |p| ==> !IsDigit(p[i]);
    FirstDigitRunAfter(p, NatToDecimal(n));
    DecimalDigitsValue(n);
  }

  /** Validation is a fixed point: a validated plan, written back with its
      step numbers as integers or as `"step<n>"` strings, validates to
      itself. */
  lemma ValidateFixedPoint(plan: Plan, registry: Registry)
    requires Checked(plan, registry)
    ensures Validate(Dict(AsRaw(plan, n => Int(n))), registry) == Success(plan)
    ensures Validate(Dict(AsRaw(plan, n => Str("step" + IntToDecimal(n)))), registry) == Success(plan)
  {
    forall n | n in plan
      ensures Check(registry)(Int(n), List(plan[n])) == Success((n, plan[n]))
      ensures Check(registry)(Str("step" + IntToDecimal(n)), List(plan[n])) == Success((n, plan[n]))
    {
      assert StepChecked((n, plan[n]), registry);
      StepNameKey(n);
    }
    NormalizeFixedPoint(plan, n => Int(n), Check(registry));
    NormalizeFixedPoint(plan, n => Str("step" + IntToDecimal(n)), Check(registry));
  }

  // ---------------------------------------------------------------------------
  // `_execute_parallel`

  /** `call['function'].split(":")[0].strip()` */
  function CallableName(fn: string): string {
    Strip(BeforeFirst(fn, ':'))
  }

  /** `run(call)`: `None` when an exception escapes it, which happens when
      the tool name cannot be looked up or the function is not a string. */
  function RunCall(call: Value, registry: Registry, outcome: Outcome): Option<Value>
    requires IsCall(call)
  {
    var tool := ToolOf(call);
    var fn := FunctionOf(call);
    if !Hashable(tool) || !fn.Str? then None
    else if !(tool.Str? && tool.s in registry && CallableName(fn.s) in registry[tool.s]) then
      Some(Dict([(Str("error"), Str("Unknown function " + fn.s + " on " + ToStr(tool)))]))
    else match outcome
      case Ok(v) => Some(v)
      case Raise(message) => Some(Dict([(Str("error"), Str(message)), (Str("tool"), tool), (Str("function"), fn)]))
  }

  /** A call with a string function never raises: a registered callable
      gives its value, or a dictionary `{error, tool, function}` holding the
      raw function text when it raises; any other name gives `{error}`
      naming the raw function and the tool. */
  lemma RunCallOutcome(call: Value, registry: Registry, outcome: Outcome)
    requires IsCall(call) && ToolOf(call).Str? && FunctionOf(call).Str?
    ensures RunCall(call, registry, outcome).Some?
    ensures var tool, fn := ToolOf(call).s, FunctionOf(call).s;
            var found := tool in registry && CallableName(fn) in registry[tool];
            && (found && outcome.Ok? ==> RunCall(call, registry, outcome).value == outcome.value)
            && (found && outcome.Raise? ==>
                  RunCall(call, registry, outcome).value ==
                    Dict([(Str("error"), Str(outcome.message)), (Str("tool"), Str(tool)), (Str("function"), Str(fn))]))
            && (!found ==>
                  RunCall(call, registry, outcome).value ==
                    Dict([(Str("error"), Str("Unknown function " + fn + " on " + tool))]))
  {
  }

  /** The planner's `'detect_url: {"url": ...}'` names `detect_url`. */
  lemma CallableNameExample()
    ensures CallableName("detect_url: {}") == "detect_url"
  {
    var name := "detect_url";
    assert ':' !in name;
    BeforeFirstAppend(name, " {}", ':');
    assert name + [':'] + " {}" == "detect_url: {}";
    assert forall i :: 0 <= i < |name| ==> !IsSpace(name[i]);
    NoBlankStrip(name);
  }

  /** The text before the first separator, when the separator follows a
      prefix without one. */
  lemma {:induction false} BeforeFirstAppend(name: string, rest: string, sep: char)
    requires sep !in name
    ensures BeforeFirst(name + [sep] + rest, sep) == name
    decreases |name|
  {
    if |name| > 0 {
      assert (name + [sep] + rest)[1..] == name[1..] + [sep] + rest;
      BeforeFirstAppend(name[1..], rest, sep);
    }
  }

  /** `_execute_parallel(calls)`: `None` when some call raises out of
      `run`; otherwise result `i` is the result of call `i`. */
  function Parallel(calls: seq<Value>, step: int, registry: Registry, oracle: Oracle): (r: Option<seq<Value>>)
    requires forall k :: 0 <= k < |calls| ==> IsCall(calls[k])
    ensures r.None? <==> exists k :: 0 <= k < |calls| && RunCall(calls[k], registry, oracle(step, k)).None?
    ensures r.Some? ==> |r.value| == |calls|
  {
    if exists k :: 0 <= k < |calls| && RunCall(calls[k], registry, oracle(step, k)).None? then None
    else Some(seq(|calls|, i requires 0 <= i < |calls| => RunCall(calls[i], registry, oracle(step, i)).value))
  }

  /** Results are placed by index: entry `i` is the outcome of call `i`,
      duplicates included. */
  lemma ParallelByIndex(calls: seq<Value>, step: int, registry: Registry, oracle: Oracle, i: nat)
    requires forall k :: 0 <= k < |calls| ==> IsCall(calls[k])
    requires Parallel(calls, step, registry, oracle).Some? && i < |calls|
    ensures RunCall(calls[i], registry, oracle(step, i)).Some?
    ensures Parallel(calls, step, registry, oracle).value[i] == RunCall(calls[i], registry, oracle(step, i)).value
  {
  }

  /** `as_completed` hands back each future once, in some order. */
  ghost predicate CompletionOrder(completion: seq<nat>, n: nat) {
    && |completion| == n
    && (forall i :: 0 <= i < n ==> completion[i] < n)
    && (forall k :: 0 <= k < n ==> k in completion)
  }

  /** The futures may also complete in the order they were submitted. */
  lemma InOrder(n: nat)
    ensures CompletionOrder(seq(n, k requires 0 <= k < n => k), n)
  {
    var order := seq(n, k requires 0 <= k < n => k);
    forall k | 0 <= k < n ensures k in order {
      assert order[k] == k;
    }
  }

  /** Submit every call, then store each result at its call's index as the
      futures complete, in any order: the result does not depend on it. */
  method ExecuteParallel(calls: seq<Value>, step: int, registry: Registry, oracle: Oracle, completion: seq<nat>)
    returns (r: Option<seq<Value>>, ghost invoked: seq<(int, nat)>)
    requires forall k :: 0 <= k < |calls| ==> IsCall(calls[k])
    requires CompletionOrder(completion, |calls|)
    ensures r == Parallel(calls, step, registry, oracle)
    ensures invoked == Calls(step, |calls|)
  {
    invoked := Calls(step, |calls|);
    var results: seq<Value> := seq(|calls|, _ => Null);
    var i := 0;
    while i < |completion|
      invariant 0 <= i <= |completion|
      invariant |results| == |calls|
      invariant forall j :: 0 <= j < i ==>
                  RunCall(calls[completion[j]], registry, oracle(step, completion[j])).Some? &&
                  results[completion[j]] == RunCall(calls[completion[j]], registry, oracle(step, completion[j])).value
    {
      var idx := completion[i];
      var out := RunCall(calls[idx], registry, oracle(step, idx));
      if out.None? {
        return None, invoked;
      }
      results := results[idx := out.value];
      i := i + 1;
    }
    AllCompleted(calls, step, registry, oracle, completion, results);
    return Some(results), invoked;
  }

  /** Once every future has completed without raising, each index holds
      its own call's result. */
  lemma AllCompleted(calls: seq<Value>, step: int, registry: Registry, oracle: Oracle, completion: seq<nat>,
                     results: seq<Value>)
    requires forall k :: 0 <= k < |calls| ==> IsCall(calls[k])
    requires CompletionOrder(completion, |calls|) && |results| == |calls|
    requires forall j :: 0 <= j < |completion| ==>
               RunCall(calls[completion[j]], registry, oracle(step, completion[j])).Some? &&
               results[completion[j]] == RunCall(calls[completion[j]], registry, oracle(step, completion[j])).value
    ensures Parallel(calls, step, registry, oracle) == Some(results)
  {
    forall k | 0 <= k < |calls|
      ensures RunCall(calls[k], registry, oracle(step, k)).Some?
      ensures results[k] == RunCall(calls[k], registry, oracle(step, k)).value
    {
      assert k in completion;
      var j :| 0 <= j < |completion| && completion[j] == k;
    }
    assert results == Parallel(calls, step, registry, oracle).value;
  }

  // ---------------------------------------------------------------------------
  // `plan_and_execute`

  /** Why `plan_and_execute` raises. */
  datatype DetectionError = Rejected(error: PlanError) | CallRaised(step: int)

  /** Running the steps `order` of a validated plan; the first step whose
      execution raises ends the run. */
  function RunSteps(order: seq<int>, plan: Plan, registry: Registry, oracle: Oracle): (r: Result<StepResults, int>)
    requires forall i :: 0 <= i < |order| ==> order[i] in plan
    requires Checked(plan, registry)
    ensures r.Success? ==> |r.value| == |order|
  {
    if |order| == 0 then Success([])
    else
      var s := order[|order| - 1];
      assert StepChecked((s, plan[s]), registry);
      match RunSteps(order[..|order| - 1], plan, registry, oracle)
      case Failure(f) => Failure(f)
      case Success(done) =>
        match Parallel(plan[s], s, registry, oracle)
        case None => Failure(s)
        case Some(out) => Success(done + [(s, out)])
  }

  /** Entry `i` of the step results is step `order[i]`, with one result per
      call of that step. */
  lemma {:induction false} RunStepsShape(order: seq<int>, plan: Plan, registry: Registry, oracle: Oracle)
    requires forall i :: 0 <= i < |order| ==> order[i] in plan
    requires Checked(plan, registry)
    ensures RunSteps(order, plan, registry, oracle).Success? ==>
              forall i :: 0 <= i < |order| ==>
                RunSteps(order, plan, registry, oracle).value[i].0 == order[i] &&
                |RunSteps(order, plan, registry, oracle).value[i].1| == |plan[order[i]]|
  {
    if |order| > 0 {
      RunStepsShape(order[..|order| - 1], plan, registry, oracle);
    }
  }

  /** The fixed text of the prompt around the serialized results and the
      query. */
  const PromptOpening: string :=
    "\n            You are a friendly cybersecurity advisor. A threat was scanned and produced the following results:\n            \n            RESULT : "
  const PromptInstructions: string :=
    "\n\n            Explain these results in a clear, engaging, and friendly way using emojis:\n"
    + "            - Start with a cheerful intro (do NOT say \"The numbers mean\").\n"
    + "            - Highlight what is safe \U{2705}, suspicious \U{26A0}\U{FE0F}, or dangerous \U{274C}.\n"
    + "            - Give a concise verdict in plain language.\n"
    + "            - Provide 3\U{2013}5 actionable tips for the user.\n"
    + "            - Make it concise, approachable, and easy to read, like a helpful guide.\n\n"
    + "            Example style:\n"
    + "            \U{1F680} Scan Summary:\n"
    + "            - \U{2705} Mostly safe\n"
    + "            - \U{26A0}\U{FE0F} Some caution\n"
    + "            - \U{274C} Dangerous\n\n"
    + "            \U{1F9D0} Why it matters:\n"
    + "            ...\n\n"
    + "            \U{1F4A1} What you should do:\n"
    + "            1. ...\n"
    + "            2. ...\n\n"
    + "            This is the query : "
  const PromptClosing: string := "\n            "

  /** The prompt, given `json.dumps(results, indent=2)` and the query. */
  function Prompt(resultsJson: string, query: string): string {
    PromptOpening + resultsJson + PromptInstructions + query + PromptClosing
  }

  /** The prompt holds the serialized results right after the opening
      text, and ends with the query followed by the closing text. */
  lemma PromptHolds(resultsJson: string, query: string)
    ensures var p := Prompt(resultsJson, query);
            OccursAt(p, resultsJson, |PromptOpening|) && OccursAt(p, query, |p| - |PromptClosing| - |query|)
  {
    var p := Prompt(resultsJson, query);
    assert p[|PromptOpening|..|PromptOpening| + |resultsJson|] == resultsJson;
    assert p[|p| - |PromptClosing| - |query|..|p| - |PromptClosing|] == query;
  }

  /** What `plan_and_execute` appends to the history: the prompt built
      from the results of the steps run in ascending order, or the error
      that escapes, a rejected plan or the step whose call raised. */
  ghost function UserPrompt(toolPlan: Value, query: string, registry: Registry, oracle: Oracle,
                            dumps: Value -> string): (r: Result<string, DetectionError>)
    ensures Validate(toolPlan, registry).Failure? ==> r == Failure(Rejected(Validate(toolPlan, registry).error))
    ensures r.Failure? && r.error.Rejected? ==> Validate(toolPlan, registry).Failure?
  {
    match Validate(toolPlan, registry)
    case Failure(e) => Failure(Rejected(e))
    case Success(plan) =>
      ValidateChecked(toolPlan, registry);
      SortedKeysSpec(plan.Keys);
      match RunSteps(SortedKeys(plan.Keys), plan, registry, oracle)
      case Failure(step) => Failure(CallRaised(step))
      case Success(results) => Success(Prompt(dumps(ResultsValue(results)), query))
  }

  /** `plan_and_execute` from the planner's output on. `dumps` stands for
      `json.dumps(..., indent=2)` and `deltas` for the completion streamed
      back. A rejected plan runs nothing and leaves the history alone; a
      call raising out of `run` ends the run before the history is touched;
      otherwise the steps run in ascending order and exactly one user
      message, the prompt with the results and the query, is appended
      before the answer is streamed. */
  method PlanAndExecute(toolPlan: Value, query: string, registry: Registry, oracle: Oracle,
                        dumps: Value -> string, deltas: seq<Delta>, history: History)
    returns (r: Result<Reply, DetectionError>, sent: seq<Frame>, ghost invoked: seq<(int, nat)>)
    modifies history
    ensures Validate(toolPlan, registry).Failure? ==>
              && r == Failure(Rejected(Validate(toolPlan, registry).error))
              && invoked == [] && sent == [] && history.msgs == old(history.msgs)
    ensures Validate(toolPlan, registry).Success? ==>
              var plan := Validate(toolPlan, registry).value;
              && Checked(plan, registry)
              && match RunSteps(SortedKeys(plan.Keys), plan, registry, oracle)
                 case Failure(step) =>
                   r == Failure(CallRaised(step)) && sent == [] && history.msgs == old(history.msgs)
                 case Success(results) =>
                   && invoked == Issued(SortedKeys(plan.Keys), plan)
                   && r == Success(Reply(Reasoning(deltas), Answer(deltas)))
                   && sent == Frames(deltas)
                   && |history.msgs| == |old(history.msgs)| + 1
                   && history.msgs[..|old(history.msgs)|] == old(history.msgs)
                   && fresh(history.msgs[|old(history.msgs)|])
                   && history.msgs[|old(history.msgs)|].role == "user"
                   && history.msgs[|old(history.msgs)|].content == Str(Prompt(dumps(ResultsValue(results)), query))
  {
    var validated := ValidatePlan(toolPlan, registry);
    if validated.Failure? {
      return Failure(Rejected(validated.error)), [], [];
    }
    var plan := validated.value;
    ValidateChecked(toolPlan, registry);
    var run;
    run, invoked := RunPlan(plan, registry, oracle);
    if run.Failure? {
      return Failure(CallRaised(run.error)), [], invoked;
    }
    var reply;
    reply, sent := Explain(run.value, query, dumps, deltas, history);
    return Success(reply), sent, invoked;
  }

  /** What follows a successful run: the prompt goes into the history as
      one fresh user message, then the answer is streamed. */
  method Explain(results: StepResults, query: string, dumps: Value -> string, deltas: seq<Delta>, history: History)
    returns (reply: Reply, sent: seq<Frame>)
    modifies history
    ensures reply == Reply(Reasoning(deltas), Answer(deltas)) && sent == Frames(deltas)
    ensures |history.msgs| == |old(history.msgs)| + 1
    ensures history.msgs[..|old(history.msgs)|] == old(history.msgs)
    ensures fresh(history.msgs[|old(history.msgs)|])
    ensures history.msgs[|old(history.msgs)|].role == "user"
    ensures history.msgs[|old(history.msgs)|].content == Str(Prompt(dumps(ResultsValue(results)), query))
  {
    var prompt := Prompt(dumps(ResultsValue(results)), query);
    var message := new Message("user", Str(prompt));
    history.Append(message);
    reply, sent := Accumulate(deltas);
  }

  /** The steps of a validated plan, run in ascending order, each step's
      calls in parallel. */
  method RunPlan(plan: Plan, registry: Registry, oracle: Oracle)
    returns (r: Result<StepResults, int>, ghost invoked: seq<(int, nat)>)
    requires Checked(plan, registry)
    ensures r == RunSteps(SortedKeys(plan.Keys), plan, registry, oracle)
    ensures r.Success? ==> invoked == Issued(SortedKeys(plan.Keys), plan)
  {
    var order := SortedSteps(plan.Keys);
    var results: StepResults := [];
    invoked := [];
    var i := 0;
    while i < |order|
      invariant 0 <= i <= |order|
      invariant RunSteps(order[..i], plan, registry, oracle) == Success(results)
      invariant invoked == Issued(order[..i], plan)
    {
      var step := order[i];
      NextStep(order, i, plan, registry, oracle);
      var out, stepInvoked := RunStep(plan[step], step, registry, oracle);
      if out.None? {
        return Failure(step), invoked + stepInvoked;
      }
      results := results + [(step, out.value)];
      invoked := invoked + stepInvoked;
      i := i + 1;
    }
    assert order[..i] == order;
    return Success(results), invoked;
  }

  /** One turn of the step loop: when the steps before `order[i]` ran, the
      run either fails at `order[i]` or goes on with its results. */
  lemma NextStep(order: seq<int>, i: nat, plan: Plan, registry: Registry, oracle: Oracle)
    requires i < |order| && forall j :: 0 <= j < |order| ==> order[j] in plan
    requires Checked(plan, registry)
    requires RunSteps(order[..i], plan, registry, oracle).Success?
    ensures StepChecked((order[i], plan[order[i]]), registry)
    ensures Parallel(plan[order[i]], order[i], registry, oracle).None? ==>
              RunSteps(order, plan, registry, oracle) == Failure(order[i])
    ensures Parallel(plan[order[i]], order[i], registry, oracle).Some? ==>
              RunSteps(order[..i + 1], plan, registry, oracle) ==
                Success(RunSteps(order[..i], plan, registry, oracle).value +
                        [(order[i], Parallel(plan[order[i]], order[i], registry, oracle).value)])
    ensures Issued(order[..i + 1], plan) == Issued(order[..i], plan) + Calls(order[i], |plan[order[i]]|)
  {
    RunStepsSnoc(order, i, plan, registry, oracle);
    if Parallel(plan[order[i]], order[i], registry, oracle).None? {
      RunStepsAbort(order, i + 1, plan, registry, oracle);
    }
  }

  /** The calls of one step, run with the futures completing in submission
      order. */
  method RunStep(calls: seq<Value>, step: int, registry: Registry, oracle: Oracle)
    returns (out: Option<seq<Value>>, ghost invoked: seq<(int, nat)>)
    requires forall k :: 0 <= k < |calls| ==> IsCall(calls[k])
    ensures out == Parallel(calls, step, registry, oracle)
    ensures invoked == Calls(step, |calls|)
  {
    var n := |calls|;
    var ascending := seq(n, k requires 0 <= k < n => k);
    InOrder(n);
    out, invoked := ExecuteParallel(calls, step, registry, oracle, ascending);
  }

  /** Running one more step after a successful prefix: its calls are
      issued next, and the run fails with that step exactly when one of
      its calls raises. */
  lemma RunStepsSnoc(order: seq<int>, i: nat, plan: Plan, registry: Registry, oracle: Oracle)
    requires i < |order| && forall j :: 0 <= j < |order| ==> order[j] in plan
    requires Checked(plan, registry)
    requires RunSteps(order[..i], plan, registry, oracle).Success?
    ensures StepChecked((order[i], plan[order[i]]), registry)
    ensures Parallel(plan[order[i]], order[i], registry, oracle).None? ==>
              RunSteps(order[..i + 1], plan, registry, oracle) == Failure(order[i])
    ensures Parallel(plan[order[i]], order[i], registry, oracle).Some? ==>
              RunSteps(order[..i + 1], plan, registry, oracle) ==
                Success(RunSteps(order[..i], plan, registry, oracle).value +
                        [(order[i], Parallel(plan[order[i]], order[i], registry, oracle).value)])
    ensures Issued(order[..i + 1], plan) == Issued(order[..i], plan) + Calls(order[i], |plan[order[i]]|)
  {
    assert StepChecked((order[i], plan[order[i]]), registry);
    assert order[..i + 1][..i] == order[..i];
  }

  /** A failed prefix of the run fails the whole run, with the same step. */
  lemma {:induction false} RunStepsAbort(order: seq<int>, i: nat, plan: Plan, registry: Registry, oracle: Oracle)
    requires i <= |order|
    requires forall j :: 0 <= j < |order| ==> order[j] in plan
    requires Checked(plan, registry)
    requires RunSteps(order[..i], plan, registry, oracle).Failure?
    ensures RunSteps(order, plan, registry, oracle) == RunSteps(order[..i], plan, registry, oracle)
    decreases |order|
  {
    if i < |order| {
      var n := |order| - 1;
      assert order[..n][..i] == order[..i];
      RunStepsAbort(order[..n], i, plan, registry, oracle);
    } else {
      assert order[..i] == order;
    }
  }
}
