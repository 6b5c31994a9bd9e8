/**
 * From rules to runs: a call that the permission engine denies whenever it comes up for execution is
 * never executed, however long the agent lives and whatever the user answers.
 */
module Denial {
  import opened Prelude
  import opened Messages
  import opened Reasoning
  import opened Runner
  import opened Safety
  import opened Licence
  import Permission

  // ---------------------------------------------------------------------------
  // The engine as the answer of the runner's environment
  // ---------------------------------------------------------------------------

  /** The text of each argument, as the engine sees it. */
  type Show = Json -> map<string, string>

  function RequestOf(show: Show, c: Call): Permission.Request
  {
    Permission.Request(c.name, if c.input.Some? && c.input.value.Truthy() then show(c.input.value) else map[])
  }

  function EngineDecides(full: Permission.Matcher, show: Show, rules: seq<Permission.Rule>, byDefault: Behavior): Call -> Behavior
  {
    c => Permission.Evaluate(full, RequestOf(show, c), rules, byDefault).behavior
  }

  /** An applicable denial that no applicable rule outranks denies the call. */
  lemma {:induction false} TopDenialDenies(full: Permission.Matcher, show: Show, rules: seq<Permission.Rule>, byDefault: Behavior, c: Call, r: Permission.Rule)
    requires Permission.Top(full, RequestOf(show, c), Permission.RuleSet(rules), r) && r.behavior == Deny
    ensures EngineDecides(full, show, rules, byDefault)(c) == Deny
  {
    hide Permission.Evaluate, Permission.Matches;
    Permission.EvaluateDecides(full, RequestOf(show, c), rules, byDefault, Deny);
    assert r in Permission.RuleSet(rules) && Permission.Matches(full, RequestOf(show, c), r);
  }

  // ---------------------------------------------------------------------------
  // Denied whenever it comes up
  // ---------------------------------------------------------------------------

  ghost predicate DeniesCall(decide: Call -> Behavior, id: string)
  {
    forall c: Call :: c.id == id ==> decide(c) == Deny
  }

  /** Whenever the call comes up, it is denied. */
  ghost predicate DeniesInput(input: Input, id: string)
  {
    input.Turn? ==> DeniesCall(input.env.decide, id)
  }

  ghost predicate DeniesLife(inputs: seq<Input>, id: string)
  {
    forall i :: 0 <= i < |inputs| ==> DeniesInput(inputs[i], id)
  }

  /** A call that is denied whenever it comes up is never executed, not even if the user approves it. */
  lemma {:induction false} DeniedNeverRuns(c: Config, m: Machine, inputs: seq<Input>, id: string)
    requires m.run.context == [] && m.run.log == [] && m.phase == AtRest
    requires FairLife(c, m, inputs) && DeniesLife(inputs, id)
    ensures !WasExecuted(Life(c, m, inputs).run.log, id)
  {
    hide Life, FairLife, WasExecuted, BatchAt;
    if WasExecuted(Life(c, m, inputs).run.log, id) {
      OnlyLicensedCallsRun(c, m, inputs, id);
      NeverLicensed(c, m, inputs, id);
    }
  }

  lemma {:induction false} NeverLicensed(c: Config, m: Machine, inputs: seq<Input>, id: string)
    requires DeniesLife(inputs, id)
    ensures !Licensed(c, m, inputs, id)
  {
    hide BatchAt;
    forall k | 0 <= k < |inputs|
      ensures !AllowedAt(c, m, inputs, k, id) && !AskedAt(c, m, inputs, k, id)
    {
      assert DeniesInput(inputs[k], id);
    }
  }
}
