/**
 * What both orchestrators share: the tool registry, the outcome of a
 * callable, the normalized plan, the structural check of one planned call
 * (the same lines in agents/tool_agent.py and agents/detection_agent.py),
 * the key-by-key loop that builds the normalized plan, and the ascending
 * order in which steps run.
 */
module Plans {
  import opened Wrappers
  import opened PyStrings
  import opened PyValues
  import opened Sorting

  /** Tool name -> the names of the callables that tool object exposes. */
  type Registry = map<string, set<string>>

  /** What a resolved callable does when invoked with its `params`: it
      returns a value or raises an exception with a message. */
  datatype Outcome = Ok(value: Value) | Raise(message: string)

  /** The outcome of the callable of call number `index` of step `step`;
      tools reach the network, so equal calls may fare differently. */
  type Oracle = (int, nat) -> Outcome

  /** A normalized plan: step number -> the calls of that step. */
  type Plan = map<int, seq<Value>>

  /** One step of a normalized plan: its number and its calls. */
  type Step = (int, seq<Value>)

  /** The results of a run, one entry per step in the order the steps ran. */
  type StepResults = seq<(int, seq<Value>)>

  /** Why a plan is rejected. Every case is an exception in the source;
      `TypeFault` stands for a `TypeError` or `AttributeError` that escapes
      from an ill-typed plan. */
  datatype PlanError =
    | InvalidStepKey(key: Value)
    | NoStepDigits(key: Value)
    | StepBelowOne(step: int)
    | NotAList(step: int)
    | NotAListOrDict(step: int)
    | BadCallFormat(step: int, call: Value)
    | UnknownTool(step: int, tool: Value)
    | TypeFault

  /** `all(k in call for k in ['tool', 'function', 'params'])`: `None` when
      the `in` test raises. */
  function HasCallKeys(call: Value): Option<bool> {
    match KeyIn("tool", call)
    case None => None
    case Some(t) =>
      if !t then Some(false)
      else match KeyIn("function", call)
        case None => None
        case Some(f) => if !f then Some(false) else KeyIn("params", call)
  }

  /** A dictionary with the keys `tool`, `function` and `params`. */
  predicate IsCall(call: Value) {
    call.Dict? && HasCallKeys(call) == Some(true)
  }

  function ToolOf(call: Value): Value
    requires IsCall(call)
  {
    Get(call.entries, Str("tool")).value
  }

  function FunctionOf(call: Value): Value
    requires IsCall(call)
  {
    Get(call.entries, Str("function")).value
  }

  function ParamsOf(call: Value): Value
    requires IsCall(call)
  {
    Get(call.entries, Str("params")).value
  }

  /** The structural check of one call of step `step`: `None` when it passes. */
  function CheckCall(call: Value, registry: Registry, step: int): (r: Option<PlanError>)
    ensures r.None? <==> IsCall(call) && ToolOf(call).Str? && ToolOf(call).s in registry
  {
    match HasCallKeys(call)
    case None => Some(TypeFault)
    case Some(has) =>
      if !has then Some(BadCallFormat(step, call))
      else if !call.Dict? then Some(TypeFault)
      else
        var tool := Get(call.entries, Str("tool")).value;
        if !Hashable(tool) then Some(TypeFault)
        else if tool.Str? && tool.s in registry then None
        else Some(UnknownTool(step, tool))
  }

  /** The inner loop over a step's calls: the first call that fails the check. */
  function CheckCalls(calls: seq<Value>, registry: Registry, step: int): (r: Option<PlanError>)
    ensures r.None? <==> forall k :: 0 <= k < |calls| ==> CheckCall(calls[k], registry, step).None?
    ensures r.Some? ==> exists k :: 0 <= k < |calls| && r == CheckCall(calls[k], registry, step)
  {
    if |calls| == 0 then None
    else if CheckCall(calls[0], registry, step).Some? then CheckCall(calls[0], registry, step)
    else
      var r := CheckCalls(calls[1..], registry, step);
      assert forall k :: 1 <= k < |calls| ==> calls[k] == calls[1..][k - 1];
      r
  }

  /** The error reported for a step is that of its first failing call. */
  lemma {:induction false} CheckCallsFirst(calls: seq<Value>, registry: Registry, step: int, j: nat)
    requires j < |calls|
    requires forall k :: 0 <= k < j ==> CheckCall(calls[k], registry, step).None?
    requires CheckCall(calls[j], registry, step).Some?
    ensures CheckCalls(calls, registry, step) == CheckCall(calls[j], registry, step)
  {
    if j > 0 {
      assert forall k :: 0 <= k < j - 1 ==> calls[1..][k] == calls[k + 1];
      CheckCallsFirst(calls[1..], registry, step, j - 1);
    }
  }

  /** The inner loop of both validations: the calls of one step in order,
      stopping at the first that fails the structural check. */
  method CheckStepCalls(items: seq<Value>, registry: Registry, n: int) returns (failure: Option<PlanError>)
    ensures failure == CheckCalls(items, registry, n)
  {
    var j := 0;
    while j < |items|
      invariant 0 <= j <= |items|
      invariant forall k :: 0 <= k < j ==> CheckCall(items[k], registry, n).None?
    {
      failure := CheckCall(items[j], registry, n);
      if failure.Some? {
        CheckCallsFirst(items, registry, n, j);
        return;
      }
      j := j + 1;
    }
    return None;
  }

  /** The check of one call does not depend on the step it is reported in. */
  lemma CheckCallStepIrrelevant(call: Value, registry: Registry, s: int, t: int)
    ensures CheckCall(call, registry, s).None? == CheckCall(call, registry, t).None?
  {
  }

  // ---------------------------------------------------------------------------
  // The key-by-key loop that builds `normalized_plan`

  /** How one `(key, value)` item of the raw plan becomes a step. */
  type EntryCheck = (Value, Value) -> Result<Step, PlanError>

  function EntryAt(entries: seq<(Value, Value)>, check: EntryCheck, k: nat): Result<Step, PlanError>
    requires k < |entries|
  {
    check(entries[k].0, entries[k].1)
  }

  /** `normalized_plan` after the loop has gone through `entries`: the
      first rejected item aborts, every accepted one is stored under its
      step number, overwriting an earlier item with the same number. */
  function Normalize(entries: seq<(Value, Value)>, check: EntryCheck): Result<Plan, PlanError>
    decreases |entries|
  {
    if |entries| == 0 then Success(map[])
    else
      match Normalize(entries[..|entries| - 1], check)
      case Failure(e) => Failure(e)
      case Success(plan) =>
        match check(entries[|entries| - 1].0, entries[|entries| - 1].1)
        case Failure(e) => Failure(e)
        case Success(step) => Success(plan[step.0 := step.1])
  }

  /** The map that storing `steps` one after the other builds. */
  function Store(steps: seq<Step>): Plan {
    if |steps| == 0 then map[] else Store(steps[..|steps| - 1])[steps[|steps| - 1].0 := steps[|steps| - 1].1]
  }

  ghost predicate AllAccepted(entries: seq<(Value, Value)>, check: EntryCheck) {
    forall k :: 0 <= k < |entries| ==> EntryAt(entries, check, k).Success?
  }

  function Accepted(entries: seq<(Value, Value)>, check: EntryCheck): (steps: seq<Step>)
    requires AllAccepted(entries, check)
    ensures |steps| == |entries|
    ensures forall k :: 0 <= k < |entries| ==> steps[k] == EntryAt(entries, check, k).value
  {
    seq(|entries|, k requires 0 <= k < |entries| => EntryAt(entries, check, k).value)
  }

  /** A plan is rejected exactly when some item is, and then with the error
      of the first rejected item; otherwise it is the map of the accepted
      steps. */
  lemma {:induction false} NormalizeOutcome(entries: seq<(Value, Value)>, check: EntryCheck)
    ensures Normalize(entries, check).Success? <==> AllAccepted(entries, check)
    ensures Normalize(entries, check).Success? ==>
              Normalize(entries, check).value == Store(Accepted(entries, check))
    ensures Normalize(entries, check).Failure? ==>
              exists k :: 0 <= k < |entries| && EntryAt(entries, check, k) == Failure(Normalize(entries, check).error)
                && forall j :: 0 <= j < k ==> EntryAt(entries, check, j).Success?
    decreases |entries|
  {
    if |entries| > 0 {
      var n := |entries| - 1;
      var front := entries[..n];
      NormalizeOutcome(front, check);
      assert forall k :: 0 <= k < n ==> EntryAt(front, check, k) == EntryAt(entries, check, k);
      if AllAccepted(front, check) && EntryAt(entries, check, n).Success? {
        assert Accepted(entries, check)[..n] == Accepted(front, check);
      }
    }
  }

  /** A raw plan whose only item is rejected fails with that item's
      error. */
  lemma NormalizeRejectOne(key: Value, calls: Value, check: EntryCheck)
    requires check(key, calls).Failure?
    ensures Normalize([(key, calls)], check) == Failure(check(key, calls).error)
  {
    assert [(key, calls)][..0] == [];
  }

  /** A raw plan of two accepted items stores both, the second last. */
  lemma NormalizePair(entries: seq<(Value, Value)>, check: EntryCheck)
    requires |entries| == 2
    requires EntryAt(entries, check, 0).Success? && EntryAt(entries, check, 1).Success?
    ensures var s0, s1 := EntryAt(entries, check, 0).value, EntryAt(entries, check, 1).value;
            Normalize(entries, check) == Success(map[s0.0 := s0.1][s1.0 := s1.1])
  {
    var s0 := EntryAt(entries, check, 0).value;
    var front := entries[..1];
    assert front[..0] == [];
    assert EntryAt(front, check, 0) == EntryAt(entries, check, 0);
    assert Normalize(front, check) == Success(map[s0.0 := s0.1]);
  }

  /** Storing a step twice keeps the second. */
  lemma UpdateTwice(n: int, a: seq<Value>, b: seq<Value>)
    ensures map[n := a][n := b] == map[n := b]
  {
    var m1 := map[n := a][n := b];
    var m2 := map[n := b];
    assert forall k :: k in m1 <==> k in m2;
    assert m1.Keys == m2.Keys;
    assert forall k :: k in m1 ==> m1[k] == m2[k];
  }

  /** Once an item is rejected, the items after it change nothing. */
  lemma {:induction false} NormalizeRejected(entries: seq<(Value, Value)>, check: EntryCheck, i: nat)
    requires i <= |entries|
    requires Normalize(entries[..i], check).Failure?
    ensures Normalize(entries, check) == Normalize(entries[..i], check)
    decreases |entries|
  {
    if i < |entries| {
      var n := |entries| - 1;
      assert entries[..n][..i] == entries[..i];
      NormalizeRejected(entries[..n], check, i);
    } else {
      assert entries[..i] == entries;
    }
  }

  /** The stored step numbers are those of the items. */
  lemma {:induction false} StoreKeys(steps: seq<Step>)
    ensures forall n :: n in Store(steps) <==> exists k :: 0 <= k < |steps| && steps[k].0 == n
  {
    if |steps| > 0 {
      var last := |steps| - 1;
      StoreKeys(steps[..last]);
      forall n | n in Store(steps) ensures exists k :: 0 <= k < |steps| && steps[k].0 == n {
        if n != steps[last].0 {
          assert n in Store(steps[..last]);
          var k :| 0 <= k < |steps[..last]| && steps[..last][k].0 == n;
          assert steps[k].0 == n;
        }
      }
      forall n | (exists k :: 0 <= k < |steps| && steps[k].0 == n) ensures n in Store(steps) {
        var k :| 0 <= k < |steps| && steps[k].0 == n;
        if k < last {
          assert steps[..last][k].0 == n;
        }
      }
    }
  }

  /** The last item with a given step number wins. */
  lemma {:induction false} StoreLastWins(steps: seq<Step>, k: nat)
    requires k < |steps|
    requires forall j :: k < j < |steps| ==> steps[j].0 != steps[k].0
    ensures steps[k].0 in Store(steps) && Store(steps)[steps[k].0] == steps[k].1
  {
    var last := |steps| - 1;
    if k < last {
      StoreLastWins(steps[..last], k);
    }
  }

  /** What validation guarantees of a normalized plan: every step number is
      at least 1 and every call of a step passes the structural check, so it
      is a dictionary naming a registered tool. */
  ghost predicate Checked(plan: Plan, registry: Registry) {
    forall n :: n in plan ==> StepChecked((n, plan[n]), registry)
  }

  ghost predicate StepChecked(step: Step, registry: Registry) {
    step.0 >= 1 && forall k :: 0 <= k < |step.1| ==> CheckCall(step.1[k], registry, step.0).None?
  }

  /** A plan built only from checked steps is checked. */
  lemma {:induction false} NormalizeChecked(entries: seq<(Value, Value)>, check: EntryCheck, registry: Registry)
    requires forall k :: 0 <= k < |entries| && EntryAt(entries, check, k).Success? ==>
               StepChecked(EntryAt(entries, check, k).value, registry)
    ensures Normalize(entries, check).Success? ==> Checked(Normalize(entries, check).value, registry)
    decreases |entries|
  {
    if |entries| > 0 {
      var n := |entries| - 1;
      var front := entries[..n];
      assert forall k :: 0 <= k < n ==> EntryAt(front, check, k) == EntryAt(entries, check, k);
      NormalizeChecked(front, check, registry);
      if Normalize(entries, check).Success? {
        var plan := Normalize(front, check).value;
        var step := EntryAt(entries, check, n).value;
        var plan' := plan[step.0 := step.1];
        assert Normalize(entries, check).value == plan';
        forall m | m in plan' ensures StepChecked((m, plan'[m]), registry) {
          if m != step.0 {
            assert plan'[m] == plan[m];
          }
        }
      }
    }
  }

  /** One more turn of the loop over the items of the raw plan. */
  lemma NormalizeNext(entries: seq<(Value, Value)>, check: EntryCheck, i: nat, plan: Plan)
    requires i < |entries|
    requires Normalize(entries[..i], check) == Success(plan)
    ensures Normalize(entries[..i + 1], check) ==
              match EntryAt(entries, check, i)
              case Failure(e) => Failure(e)
              case Success(step) => Success(plan[step.0 := step.1])
  {
    assert entries[..i + 1][..i] == entries[..i];
  }

  // ---------------------------------------------------------------------------
  // Re-validating a normalized plan

  /** A plan written back as a raw plan, in ascending step order, each key
      rendered by `key` and each step as a list. */
  ghost function AsRaw(plan: Plan, key: int -> Value): (entries: seq<(Value, Value)>)
    ensures |entries| == |SortedKeys(plan.Keys)|
    ensures forall k :: 0 <= k < |entries| ==>
              SortedKeys(plan.Keys)[k] in plan &&
              entries[k] == (key(SortedKeys(plan.Keys)[k]), List(plan[SortedKeys(plan.Keys)[k]]))
  {
    SortedKeysSpec(plan.Keys);
    var order := SortedKeys(plan.Keys);
    seq(|order|, k requires 0 <= k < |order| => (key(order[k]), List(plan[order[k]])))
  }

  /** Validation is a fixed point: when every step of a plan, written back
      with its number rendered by `key`, passes the item check unchanged,
      normalizing the written-back plan gives the plan itself. */
  lemma NormalizeFixedPoint(plan: Plan, key: int -> Value, check: EntryCheck)
    requires forall n :: n in plan ==> check(key(n), List(plan[n])) == Success((n, plan[n]))
    ensures Normalize(AsRaw(plan, key), check) == Success(plan)
  {
    var entries := AsRaw(plan, key);
    var order := SortedKeys(plan.Keys);
    SortedKeysSpec(plan.Keys);
    forall k | 0 <= k < |entries| ensures EntryAt(entries, check, k) == Success((order[k], plan[order[k]])) {
    }
    NormalizeOutcome(entries, check);
    StoreAscending(plan, order, Accepted(entries, check));
  }

  /** Storing the steps of a plan in strictly ascending order of their
      numbers rebuilds the plan. */
  lemma StoreAscending(plan: Plan, order: seq<int>, steps: seq<Step>)
    requires Ascending(order) && forall n :: n in plan <==> n in order
    requires |steps| == |order| && forall k :: 0 <= k < |steps| ==> order[k] in plan && steps[k] == (order[k], plan[order[k]])
    ensures Store(steps) == plan
  {
    StoreKeys(steps);
    var stored := Store(steps);
    forall n | n in plan ensures n in stored && stored[n] == plan[n] {
      var k :| 0 <= k < |order| && order[k] == n;
      StoreLastWins(steps, k);
    }
    forall n | n in stored ensures n in plan {
      var k :| 0 <= k < |steps| && steps[k].0 == n;
      assert order[k] in order;
    }
  }

  /** The invocations of the calls of one step: `(step, k)` for each call
      `k`, in submission order. */
  ghost function Calls(step: int, n: nat): (r: seq<(int, nat)>)
    ensures |r| == n
    ensures forall k :: 0 <= k < n ==> r[k] == (step, k)
  {
    if n == 0 then [] else Calls(step, n - 1) + [(step, n - 1)]
  }

  /** The order in which the calls of a plan are submitted when its steps
      run in `order`: step by step, every call of a step at once. */
  ghost function Issued(order: seq<int>, plan: Plan): seq<(int, nat)>
    requires forall i :: 0 <= i < |order| ==> order[i] in plan
  {
    if |order| == 0 then []
    else
      var s := order[|order| - 1];
      Issued(order[..|order| - 1], plan) + Calls(s, |plan[s]|)
  }

  /** The `step_results` dictionary both orchestrators build: step number
      -> list of results, in the order the steps ran. */
  function ResultsValue(results: StepResults): (v: Value)
    ensures v.Dict? && |v.entries| == |results|
    ensures forall i :: 0 <= i < |results| ==> v.entries[i] == (Int(results[i].0), List(results[i].1))
  {
    Dict(seq(|results|, i requires 0 <= i < |results| => (Int(results[i].0), List(results[i].1))))
  }
}
