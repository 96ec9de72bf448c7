/**
 * The general orchestrator of agents/tool_agent.py: it validates the plan
 * the planner wrote, runs its steps in ascending order, runs the calls of
 * a step side by side, and reports failed calls as strings.
 */
module ToolAgent {
  import opened Wrappers
  import opened PyStrings
  import opened PyValues
  import opened Sorting
  import opened Plans

  // ---------------------------------------------------------------------------
  // `_validate_plan`

  /** `int(step)` for a dictionary key: `None` stands for the `ValueError`
      or `TypeError` it raises. */
  function StepNumber(key: Value): Option<int> {
    match key
    case Int(i) => Some(i)
    case Bool(b) => Some(if b then 1 else 0)
    case Str(s) => ParseInt(s)
    case _ => None
  }

  /** One turn of the validation loop on the item `(key, calls)`. */
  function CheckEntry(registry: Registry, key: Value, calls: Value): (r: Result<Step, PlanError>)
    ensures r.Success? ==> StepChecked(r.value, registry)
    ensures r.Success? <==>
              && StepNumber(key).Some? && StepNumber(key).value >= 1
              && calls.List?
              && forall k :: 0 <= k < |calls.items| ==> CheckCall(calls.items[k], registry, StepNumber(key).value).None?
    ensures r.Success? ==> r.value == (StepNumber(key).value, calls.items)
  {
    match StepNumber(key)
    case None => Failure(InvalidStepKey(key))
    case Some(n) =>
      if n < 1 then Failure(StepBelowOne(n))
      else if !calls.List? then Failure(NotAList(n))
      else match CheckCalls(calls.items, registry, n)
        case Some(e) => Failure(e)
        case None => Success((n, calls.items))
  }

  function Check(registry: Registry): EntryCheck {
    (key, calls) => CheckEntry(registry, key, calls)
  }

  /** The result of `_validate_plan(tool_plan)`: a plan that is not a
      dictionary has no `items` and raises. */
  function Validate(toolPlan: Value, registry: Registry): Result<Plan, PlanError> {
    if !toolPlan.Dict? then Failure(TypeFault) else Normalize(toolPlan.entries, Check(registry))
  }

  /** The validation loop: every item in order, every call of an item in
      order, stopping at the first failure. */
  method ValidatePlan(toolPlan: Value, registry: Registry) returns (r: Result<Plan, PlanError>)
    ensures r == Validate(toolPlan, registry)
  {
    if !toolPlan.Dict? {
      return Failure(TypeFault);
    }
    var entries := toolPlan.entries;
    var check := Check(registry);
    var normalized: Plan := map[];
    var i := 0;
    while i < |entries|
      invariant 0 <= i <= |entries|
      invariant Normalize(entries[..i], check) == Success(normalized)
    {
      var (key, calls) := entries[i];
      NormalizeNext(entries, check, i, normalized);
      assert EntryAt(entries, check, i) == CheckEntry(registry, key, calls);
      var stepNum := StepNumber(key);
      if stepNum.None? {
        NormalizeRejected(entries, check, i + 1);
        return Failure(InvalidStepKey(key));
      }
      var n := stepNum.value;
      if n < 1 {
        NormalizeRejected(entries, check, i + 1);
        return Failure(StepBelowOne(n));
      }
      if !calls.List? {
        NormalizeRejected(entries, check, i + 1);
        return Failure(NotAList(n));
      }
      var items := calls.items;
      var failure := CheckStepCalls(items, registry, n);
      if failure.Some? {
        NormalizeRejected(entries, check, i + 1);
        return Failure(failure.value);
      }
      normalized := normalized[n := items];
      i := i + 1;
    }
    assert entries[..i] == entries;
    return Success(normalized);
  }

  /** A validated plan has step numbers of at least 1 and only calls that
      are dictionaries naming a registered tool. */
  lemma ValidateChecked(toolPlan: Value, registry: Registry)
    ensures Validate(toolPlan, registry).Success? ==> Checked(Validate(toolPlan, registry).value, registry)
  {
    if toolPlan.Dict? {
      NormalizeChecked(toolPlan.entries, Check(registry), registry);
    }
  }

  /** Validation rejects a plan exactly when one of its items fails, and
      then with the error of the first item that fails. */
  lemma ValidateRejects(toolPlan: Value, registry: Registry)
    requires toolPlan.Dict?
    ensures Validate(toolPlan, registry).Failure? <==>
              exists k :: 0 <= k < |toolPlan.entries| &&
                CheckEntry(registry, toolPlan.entries[k].0, toolPlan.entries[k].1).Failure?
    ensures Validate(toolPlan, registry).Failure? ==>
              exists k :: 0 <= k < |toolPlan.entries| &&
                CheckEntry(registry, toolPlan.entries[k].0, toolPlan.entries[k].1) == Failure(Validate(toolPlan, registry).error) &&
                forall j :: 0 <= j < k ==> CheckEntry(registry, toolPlan.entries[j].0, toolPlan.entries[j].1).Success?
  {
    var entries := toolPlan.entries;
    NormalizeOutcome(entries, Check(registry));
    assert forall k :: 0 <= k < |entries| ==>
      EntryAt(entries, Check(registry), k) == CheckEntry(registry, entries[k].0, entries[k].1);
  }

  /** Validation is a fixed point: a validated plan, written back with its
      step numbers as integers or as their decimal strings, validates to
      itself. */
  lemma ValidateFixedPoint(plan: Plan, registry: Registry)
    requires Checked(plan, registry)
    ensures Validate(Dict(AsRaw(plan, n => Int(n))), registry) == Success(plan)
    ensures Validate(Dict(AsRaw(plan, n => Str(IntToDecimal(n)))), registry) == Success(plan)
  {
    forall n | n in plan
      ensures Check(registry)(Int(n), List(plan[n])) == Success((n, plan[n]))
    {
      assert StepChecked((n, plan[n]), registry);
    }
    NormalizeFixedPoint(plan, n => Int(n), Check(registry));
    DecimalKeysAccepted(plan, registry);
    NormalizeFixedPoint(plan, n => Str(IntToDecimal(n)), Check(registry));
  }

  lemma DecimalKeysAccepted(plan: Plan, registry: Registry)
    requires Checked(plan, registry)
    ensures forall n :: n in plan ==> Check(registry)(Str(IntToDecimal(n)), List(plan[n])) == Success((n, plan[n]))
  {
    forall n | n in plan
      ensures Check(registry)(Str(IntToDecimal(n)), List(plan[n])) == Success((n, plan[n]))
    {
      DecimalRoundTrip(n);
      assert StepChecked((n, plan[n]), registry);
    }
  }

  /** `" 2 "` is step 2 for `int()`, and a step repeated under another
      spelling overwrites the earlier item. */
  lemma ValidateOverwriteExample(registry: Registry, a: seq<Value>, b: seq<Value>)
    requires forall k :: 0 <= k < |a| ==> CheckCall(a[k], registry, 2).None?
    requires forall k :: 0 <= k < |b| ==> CheckCall(b[k], registry, 2).None?
    ensures Validate(Dict([(Int(2), List(a)), (Str(" 2 "), List(b))]), registry) == Success(map[2 := b])
  {
    var e := [(Int(2), List(a)), (Str(" 2 "), List(b))];
    var check := Check(registry);
    PaddedIntegerExample();
    CheckEntryAccepts(registry, Int(2), a, 2);
    CheckEntryAccepts(registry, Str(" 2 "), b, 2);
    assert EntryAt(e, check, 0) == Success((2, a));
    assert EntryAt(e, check, 1) == Success((2, b));
    NormalizePair(e, check);
    UpdateTwice(2, a, b);
  }

  lemma CheckEntryAccepts(registry: Registry, key: Value, items: seq<Value>, n: int)
    requires StepNumber(key) == Some(n) && n >= 1
    requires forall k :: 0 <= k < |items| ==> CheckCall(items[k], registry, n).None?
    ensures CheckEntry(registry, key, List(items)) == Success((n, items))
  {
  }

  /** `int("step1")` raises, so a plan keyed `"step1"` is rejected. */
  lemma ValidateStepKeyRejected(registry: Registry, a: seq<Value>)
    ensures Validate(Dict([(Str("step1"), List(a))]), registry) == Failure(InvalidStepKey(Str("step1")))
  {
    var key := Str("step1");
    assert StepNumber(key) == None by {
      NotAnIntegerExample();
    }
    ValidateBadKey(registry, key, a);
  }

  lemma ValidateBadKey(registry: Registry, key: Value, a: seq<Value>)
    requires StepNumber(key).None?
    ensures Validate(Dict([(key, List(a))]), registry) == Failure(InvalidStepKey(key))
  {
    assert CheckEntry(registry, key, List(a)) == Failure(InvalidStepKey(key));
    NormalizeRejectOne(key, List(a), Check(registry));
  }

  /** Step numbers start at 1. */
  lemma ValidateZeroRejected(registry: Registry, a: seq<Value>)
    ensures Validate(Dict([(Int(0), List(a))]), registry) == Failure(StepBelowOne(0))
  {
    assert CheckEntry(registry, Int(0), List(a)) == Failure(StepBelowOne(0));
    NormalizeRejectOne(Int(0), List(a), Check(registry));
  }

  // ---------------------------------------------------------------------------
  // `_execute_parallel`

  /** The callable `getattr` finds on the tool object. */
  predicate Dispatched(call: Value, registry: Registry)
    requires IsCall(call)
  {
    && ToolOf(call).Str? && ToolOf(call).s in registry
    && FunctionOf(call).Str? && FunctionOf(call).s in registry[ToolOf(call).s]
  }

  function ExecutingError(call: Value, message: string): string
    requires IsCall(call)
  {
    "Error executing " + ToStr(ToolOf(call)) + "." + ToStr(FunctionOf(call)) + ": " + message
  }

  /** `execute_single(call)`, where `outcome` is what the callable does with
      the call's `params` (the keyword unpacking and its failures included). */
  function ExecuteSingle(call: Value, registry: Registry, outcome: Outcome): Value
    requires IsCall(call)
  {
    var tool := ToolOf(call);
    var func := FunctionOf(call);
    if !Hashable(tool) then
      Str(ExecutingError(call, "unhashable type: '" + TypeName(tool) + "'"))
    else if !(tool.Str? && tool.s in registry) then
      Str("Error: Unknown tool: " + ToStr(tool))
    else if !func.Str? then
      Str(ExecutingError(call, "attribute name must be string, not '" + TypeName(func) + "'"))
    else if func.s !in registry[tool.s] then
      Str("Error: Unknown function " + func.s + " for tool " + tool.s)
    else match outcome
      case Ok(v) => v
      case Raise(message) => Str(ExecutingError(call, message))
  }

  /** A call reaching a registered function returns what the function
      returns, or reports its exception as `Error executing T.f: ...`; every
      other call yields an error string and runs nothing. */
  lemma ExecuteSingleOutcome(call: Value, registry: Registry, outcome: Outcome)
    requires IsCall(call)
    ensures Dispatched(call, registry) && outcome.Ok? ==> ExecuteSingle(call, registry, outcome) == outcome.value
    ensures Dispatched(call, registry) && outcome.Raise? ==>
              ExecuteSingle(call, registry, outcome) == Str(ExecutingError(call, outcome.message))
    ensures !Dispatched(call, registry) ==>
              ExecuteSingle(call, registry, outcome).Str? && StartsWith(ExecuteSingle(call, registry, outcome).s, "Error")
  {
    if !Dispatched(call, registry) {
      var tool, func := ToolOf(call), FunctionOf(call);
      if !Hashable(tool) {
        ExecutingErrorPrefix(call, "unhashable type: '" + TypeName(tool) + "'");
      } else if !(tool.Str? && tool.s in registry) {
        ErrorPrefix("Error: Unknown tool: ", ToStr(tool));
      } else if !func.Str? {
        ExecutingErrorPrefix(call, "attribute name must be string, not '" + TypeName(func) + "'");
      } else {
        ErrorPrefix("Error: Unknown function ", func.s);
        StartsWithLonger("Error: Unknown function " + func.s, " for tool ", "Error");
        StartsWithLonger("Error: Unknown function " + func.s + " for tool ", tool.s, "Error");
      }
    }
  }

  lemma ErrorPrefix(p: string, rest: string)
    requires StartsWith(p, "Error")
    ensures StartsWith(p + rest, "Error")
  {
    StartsWithPrefix(p, rest);
    StartsWithShorter(p + rest, p, "Error");
  }

  /** Every `Error executing ...` message starts with `Error`. */
  lemma ExecutingErrorPrefix(call: Value, message: string)
    requires IsCall(call)
    ensures StartsWith(ExecutingError(call, message), "Error")
  {
    var a := "Error executing " + ToStr(ToolOf(call));
    ErrorPrefix("Error executing ", ToStr(ToolOf(call)));
    StartsWithLonger(a, ".", "Error");
    StartsWithLonger(a + ".", ToStr(FunctionOf(call)), "Error");
    StartsWithLonger(a + "." + ToStr(FunctionOf(call)), ": ", "Error");
    StartsWithLonger(a + "." + ToStr(FunctionOf(call)) + ": ", message, "Error");
  }

  /** The index the ordering loop settles on for a call equal to `x`: the
      first submitted call that equals it. */
  function FirstEqual(calls: seq<Value>, x: Value): (j: nat)
    ensures j <= |calls|
    ensures j < |calls| ==> PyEq(calls[j], x)
    ensures forall k :: 0 <= k < j ==> !PyEq(calls[k], x)
  {
    if |calls| == 0 then 0
    else if PyEq(calls[0], x) then 0
    else
      var j := FirstEqual(calls[1..], x);
      assert forall k :: 1 <= k < j + 1 ==> calls[k] == calls[1..][k - 1];
      j + 1
  }

  /** A call equals itself, so the ordering loop finds it at the latest. */
  lemma FirstEqualBound(calls: seq<Value>, i: nat)
    requires i < |calls|
    ensures FirstEqual(calls, calls[i]) <= i
  {
    PyEqRefl(calls[i]);
  }

  /** The search stops at the first equal call. */
  lemma {:induction false} FirstEqualIs(calls: seq<Value>, x: Value, i: nat)
    requires i < |calls| && PyEq(calls[i], x)
    requires forall k :: 0 <= k < i ==> !PyEq(calls[k], x)
    ensures FirstEqual(calls, x) == i
  {
    if i > 0 {
      assert forall k :: 0 <= k < i - 1 ==> calls[1..][k] == calls[k + 1];
      FirstEqualIs(calls[1..], x, i - 1);
    }
  }

  /** What the futures of the calls of step `step` return, in submission
      order. */
  function Outputs(calls: seq<Value>, step: int, registry: Registry, oracle: Oracle): (r: seq<Value>)
    requires forall k :: 0 <= k < |calls| ==> IsCall(calls[k])
    ensures |r| == |calls|
    ensures forall j :: 0 <= j < |calls| ==> r[j] == ExecuteSingle(calls[j], registry, oracle(step, j))
  {
    seq(|calls|, j requires 0 <= j < |calls| => ExecuteSingle(calls[j], registry, oracle(step, j)))
  }

  /** `_execute_parallel(calls)`: result `i` is the result of the future of
      the first call equal to call `i`. */
  function Parallel(calls: seq<Value>, step: int, registry: Registry, oracle: Oracle): (r: seq<Value>)
    requires forall k :: 0 <= k < |calls| ==> IsCall(calls[k])
    ensures |r| == |calls|
  {
    var outs := Outputs(calls, step, registry, oracle);
    seq(|calls|, i requires 0 <= i < |calls| =>
      FirstEqualBound(calls, i);
      outs[FirstEqual(calls, calls[i])])
  }

  /** Results come back in the order of the calls: a call with no equal
      call before it gets its own result. */
  lemma ParallelOrder(calls: seq<Value>, step: int, registry: Registry, oracle: Oracle, i: nat)
    requires forall k :: 0 <= k < |calls| ==> IsCall(calls[k])
    requires i < |calls|
    requires forall k :: 0 <= k < i ==> !PyEq(calls[k], calls[i])
    ensures Parallel(calls, step, registry, oracle)[i] == ExecuteSingle(calls[i], registry, oracle(step, i))
  {
    PyEqRefl(calls[i]);
    FirstEqualIs(calls, calls[i], i);
  }

  /** A call equal to an earlier one gets the result of the first such
      call, and the result of its own future is dropped. */
  lemma ParallelDuplicate(calls: seq<Value>, step: int, registry: Registry, oracle: Oracle, i: nat)
    requires forall k :: 0 <= k < |calls| ==> IsCall(calls[k])
    requires i < |calls|
    ensures exists j :: 0 <= j <= i && PyEq(calls[j], calls[i]) &&
              (forall k :: 0 <= k < j ==> !PyEq(calls[k], calls[i])) &&
              Parallel(calls, step, registry, oracle)[i] == ExecuteSingle(calls[j], registry, oracle(step, j))
  {
    FirstEqualBound(calls, i);
    var j := FirstEqual(calls, calls[i]);
    assert Parallel(calls, step, registry, oracle)[i] == ExecuteSingle(calls[j], registry, oracle(step, j));
  }

  /** When equal calls fare alike, every call gets its own result. */
  lemma ParallelDeterministic(calls: seq<Value>, step: int, registry: Registry, oracle: Oracle)
    requires forall k :: 0 <= k < |calls| ==> IsCall(calls[k])
    requires forall j, k :: 0 <= j < |calls| && 0 <= k < |calls| && PyEq(calls[j], calls[k]) ==>
               ExecuteSingle(calls[j], registry, oracle(step, j)) == ExecuteSingle(calls[k], registry, oracle(step, k))
    ensures forall i :: 0 <= i < |calls| ==>
              Parallel(calls, step, registry, oracle)[i] == ExecuteSingle(calls[i], registry, oracle(step, i))
  {
    forall i | 0 <= i < |calls|
      ensures Parallel(calls, step, registry, oracle)[i] == ExecuteSingle(calls[i], registry, oracle(step, i))
    {
      FirstEqualBound(calls, i);
    }
  }

  /** The inner loop of the ordering: the futures in submission order,
      up to the first whose call equals call `i`. */
  method FindFirstEqual(calls: seq<Value>, i: nat) returns (f: nat)
    requires i < |calls|
    ensures f == FirstEqual(calls, calls[i]) && f <= i
  {
    FirstEqualBound(calls, i);
    ghost var first := FirstEqual(calls, calls[i]);
    f := 0;
    while !PyEq(calls[f], calls[i])
      invariant 0 <= f <= first
      decreases first - f
    {
      f := f + 1;
    }
  }

  /** Submit every call, then fill `ordered_results` by looking up, for
      each call, the first future whose call equals it. */
  method ExecuteParallel(calls: seq<Value>, step: int, registry: Registry, oracle: Oracle)
    returns (ordered: seq<Value>, ghost invoked: seq<(int, nat)>)
    requires forall k :: 0 <= k < |calls| ==> IsCall(calls[k])
    ensures ordered == Parallel(calls, step, registry, oracle)
    ensures invoked == Calls(step, |calls|)
  {
    var outs;
    outs, invoked := SubmitAll(calls, step, registry, oracle);
    ordered := OrderResults(calls, outs, step, registry, oracle);
  }

  /** The submission loop: one future per call, in order, each invoking
      its call once. */
  method SubmitAll(calls: seq<Value>, step: int, registry: Registry, oracle: Oracle)
    returns (outs: seq<Value>, ghost invoked: seq<(int, nat)>)
    requires forall k :: 0 <= k < |calls| ==> IsCall(calls[k])
    ensures outs == Outputs(calls, step, registry, oracle)
    ensures invoked == Calls(step, |calls|)
  {
    ghost var all := Outputs(calls, step, registry, oracle);
    outs := [];
    invoked := [];
    var j := 0;
    while j < |calls|
      invariant 0 <= j <= |calls|
      invariant outs == all[..j]
      invariant invoked == Calls(step, j)
    {
      outs := outs + [ExecuteSingle(calls[j], registry, oracle(step, j))];
      assert all[..j + 1] == all[..j] + [all[j]];
      invoked := invoked + [(step, j)];
      j := j + 1;
    }
    assert all[..j] == all;
  }

  /** The ordering loop over the futures' outputs. */
  method OrderResults(calls: seq<Value>, outs: seq<Value>, step: int, registry: Registry, oracle: Oracle)
    returns (ordered: seq<Value>)
    requires forall k :: 0 <= k < |calls| ==> IsCall(calls[k])
    requires outs == Outputs(calls, step, registry, oracle)
    ensures ordered == Parallel(calls, step, registry, oracle)
  {
    ordered := seq(|calls|, _ => Null);
    var i := 0;
    while i < |calls|
      invariant 0 <= i <= |calls|
      invariant |ordered| == |calls|
      invariant forall k :: 0 <= k < i ==> ordered[k] == Parallel(calls, step, registry, oracle)[k]
    {
      var f := FindFirstEqual(calls, i);
      ordered := ordered[i := outs[f]];
      i := i + 1;
    }
  }

  // ---------------------------------------------------------------------------
  // `plan_and_execute`

  /** The step results of running the steps `order` of a validated plan,
      one entry per step in that order. */
  function RunSteps(order: seq<int>, plan: Plan, registry: Registry, oracle: Oracle): (r: StepResults)
    requires forall i :: 0 <= i < |order| ==> order[i] in plan
    requires Checked(plan, registry)
    ensures |r| == |order|
  {
    if |order| == 0 then []
    else
      var s := order[|order| - 1];
      assert StepChecked((s, plan[s]), registry);
      RunSteps(order[..|order| - 1], plan, registry, oracle) + [(s, Parallel(plan[s], s, registry, oracle))]
  }

  /** Entry `i` of the step results is step `order[i]` with one result per
      call of that step. */
  lemma {:induction false} RunStepsShape(order: seq<int>, plan: Plan, registry: Registry, oracle: Oracle)
    requires forall i :: 0 <= i < |order| ==> order[i] in plan
    requires Checked(plan, registry)
    ensures forall i :: 0 <= i < |order| ==>
              RunSteps(order, plan, registry, oracle)[i].0 == order[i] &&
              |RunSteps(order, plan, registry, oracle)[i].1| == |plan[order[i]]|
  {
    if |order| > 0 {
      RunStepsShape(order[..|order| - 1], plan, registry, oracle);
    }
  }

  /** `plan_and_execute` from the planner's output on: nothing runs unless
      the whole plan validates; then the steps run in ascending order, every
      step once, each returning one result per call. */
  method PlanAndExecute(toolPlan: Value, registry: Registry, oracle: Oracle)
    returns (r: Result<StepResults, PlanError>, ghost invoked: seq<(int, nat)>)
    ensures Validate(toolPlan, registry).Failure? ==>
              r == Failure(Validate(toolPlan, registry).error) && invoked == []
    ensures Validate(toolPlan, registry).Success? ==>
              var plan := Validate(toolPlan, registry).value;
              && Checked(plan, registry)
              && r == Success(RunSteps(SortedKeys(plan.Keys), plan, registry, oracle))
              && invoked == Issued(SortedKeys(plan.Keys), plan)
  {
    var validated := ValidatePlan(toolPlan, registry);
    if validated.Failure? {
      return Failure(validated.error), [];
    }
    var plan := validated.value;
    ValidateChecked(toolPlan, registry);
    var results;
    results, invoked := RunAll(plan, registry, oracle);
    return Success(results), invoked;
  }

  /** The step loop of `plan_and_execute`: the steps of the validated
      plan in ascending order, each step's calls in parallel. */
  method RunAll(plan: Plan, registry: Registry, oracle: Oracle)
    returns (results: StepResults, ghost invoked: seq<(int, nat)>)
    requires Checked(plan, registry)
    ensures results == RunSteps(SortedKeys(plan.Keys), plan, registry, oracle)
    ensures invoked == Issued(SortedKeys(plan.Keys), plan)
  {
    var order := SortedSteps(plan.Keys);
    results := [];
    invoked := [];
    var i := 0;
    while i < |order|
      invariant 0 <= i <= |order|
      invariant results == RunSteps(order[..i], plan, registry, oracle)
      invariant invoked == Issued(order[..i], plan)
    {
      var step := order[i];
      RunStepsSnoc(order, i, plan, registry, oracle);
      var out, stepInvoked := ExecuteParallel(plan[step], step, registry, oracle);
      results := results + [(step, out)];
      invoked := invoked + stepInvoked;
      i := i + 1;
    }
    assert order[..i] == order;
  }

  /** Running one more step appends its results and its invocations. */
  lemma RunStepsSnoc(order: seq<int>, i: nat, plan: Plan, registry: Registry, oracle: Oracle)
    requires i < |order| && forall j :: 0 <= j < |order| ==> order[j] in plan
    requires Checked(plan, registry)
    ensures StepChecked((order[i], plan[order[i]]), registry)
    ensures RunSteps(order[..i + 1], plan, registry, oracle) ==
              RunSteps(order[..i], plan, registry, oracle) +
                [(order[i], Parallel(plan[order[i]], order[i], registry, oracle))]
    ensures Issued(order[..i + 1], plan) == Issued(order[..i], plan) + Calls(order[i], |plan[order[i]]|)
  {
    assert StepChecked((order[i], plan[order[i]]), registry);
    assert order[..i + 1][..i] == order[..i];
  }

  /** The step results list each step of the validated plan once, in
      ascending order, with one result per call. */
  lemma PlanResultsShape(plan: Plan, registry: Registry, oracle: Oracle)
    requires Checked(plan, registry)
    ensures var r := RunSteps(SortedKeys(plan.Keys), plan, registry, oracle);
            && (forall i, j :: 0 <= i < j < |r| ==> r[i].0 < r[j].0)
            && (forall n :: n in plan <==> exists i :: 0 <= i < |r| && r[i].0 == n)
            && (forall i :: 0 <= i < |r| ==> r[i].0 in plan && |r[i].1| == |plan[r[i].0]|)
  {
    SortedKeysSpec(plan.Keys);
    var order := SortedKeys(plan.Keys);
    RunStepsShape(order, plan, registry, oracle);
    ResultsFollowOrder(RunSteps(order, plan, registry, oracle), order, plan);
  }

  /** Results listed step by step along an ascending order of the plan's
      keys are ascending, cover the plan and have one result per call. */
  lemma ResultsFollowOrder(r: StepResults, order: seq<int>, plan: Plan)
    requires Ascending(order) && forall n :: n in plan <==> n in order
    requires |r| == |order|
    requires forall i :: 0 <= i < |order| ==> r[i].0 == order[i] && |r[i].1| == |plan[order[i]]|
    ensures forall i, j :: 0 <= i < j < |r| ==> r[i].0 < r[j].0
    ensures forall n :: n in plan <==> exists i :: 0 <= i < |r| && r[i].0 == n
    ensures forall i :: 0 <= i < |r| ==> r[i].0 in plan && |r[i].1| == |plan[r[i].0]|
  {
    forall n | n in plan ensures exists i :: 0 <= i < |r| && r[i].0 == n {
      StepListed(order, n);
      var i :| 0 <= i < |order| && order[i] == n;
      assert r[i].0 == n;
    }
  }

  lemma StepListed(order: seq<int>, n: int)
    requires n in order
    ensures exists i :: 0 <= i < |order| && order[i] == n
  {
  }
}
