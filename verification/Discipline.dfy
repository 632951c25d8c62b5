/** Loop budgets: valid actions, parse errors and repeats of one tool call. */
module Discipline {

  /** The dictionary form of a budget, as it travels inside checkpointed state. */
  datatype BudgetState = BudgetState(
    maxSteps: int, maxParseErrors: int, maxSameToolCalls: int,
    steps: int, parseErrors: int, toolCalls: map<string, nat>)
  {
    function Stepped(): BudgetState { this.(steps := steps + 1) }

    function WithParseError(): BudgetState { this.(parseErrors := parseErrors + 1) }

    function Count(key: string): nat { if key in toolCalls then toolCalls[key] else 0 }

    function Called(key: string): BudgetState {
      this.(toolCalls := toolCalls[key := Count(key) + 1])
    }

    predicate ParseExceeded() { parseErrors >= maxParseErrors }

    predicate SameToolExceeded(key: string) { Count(key) > maxSameToolCalls }
  }

  function Max(a: int, b: int): int { if a >= b then a else b }

  class Budget {
    const maxSteps: int
    const maxParseErrors: int
    const maxSameToolCalls: int
    var steps: int
    var parseErrors: int
    var toolCalls: map<string, nat>

    /** `budget_to_dict`. */
    function View(): BudgetState
      reads this
    {
      BudgetState(maxSteps, maxParseErrors, maxSameToolCalls, steps, parseErrors, toolCalls)
    }

    /** `budget_from_state`. */
    constructor FromState(b: BudgetState)
      ensures View() == b
    {
      maxSteps, maxParseErrors, maxSameToolCalls := b.maxSteps, b.maxParseErrors, b.maxSameToolCalls;
      steps, parseErrors, toolCalls := b.steps, b.parseErrors, b.toolCalls;
    }

    method RecordStep()
      modifies this`steps
      ensures View() == old(View()).Stepped()
    {
      steps := steps + 1;
    }

    method RecordParseError()
      modifies this`parseErrors
      ensures View() == old(View()).WithParseError()
    {
      parseErrors := parseErrors + 1;
    }

    method RecordToolCall(key: string) returns (count: nat)
      modifies this`toolCalls
      ensures View() == old(View()).Called(key) && count == View().Count(key)
    {
      var seen := if key in toolCalls then toolCalls[key] else 0;
      toolCalls := toolCalls[key := seen + 1];
      count := toolCalls[key];
    }
  }

  // ---------------------------------------------------------------- sums over the call table

  ghost function Sum(m: map<string, nat>): nat {
    if m == map[] then 0
    else
      var k :| k in m;
      m[k] + Sum(m - {k})
  }

  lemma {:induction false} SumRemove(m: map<string, nat>, k: string)
    requires k in m
    ensures Sum(m) == m[k] + Sum(m - {k})
    decreases |m|
  {
    var c :| c in m && Sum(m) == m[c] + Sum(m - {c});
    if c != k {
      SumRemove(m - {c}, k);
      SumRemove(m - {k}, c);
      assert m - {c} - {k} == m - {k} - {c};
    }
  }

  /** One more call of any key raises the total by exactly one. */
  lemma SumOfCalled(b: BudgetState, key: string)
    ensures Sum(b.Called(key).toolCalls) == Sum(b.toolCalls) + 1
  {
    var m := b.Called(key).toolCalls;
    SumRemove(m, key);
    if key in b.toolCalls {
      SumRemove(b.toolCalls, key);
      assert m - {key} == b.toolCalls - {key};
    } else {
      assert m - {key} == b.toolCalls;
    }
  }
}
