/**
 * The permission engine: the enabled, matching rules of the highest priority decide; a conflict there
 * is a denial, and without a matching rule the default applies.
 */
module Permission {
  import opened Prelude

  /** `arguments` holds the text of each argument of the call. */
  datatype Request = Request(toolName: string, arguments: map<string, string>)

  datatype Rule = Rule(
    id: string,
    toolName: string,
    argumentRegex: map<string, string>,
    behavior: Behavior,
    priority: int,
    enabled: bool)

  datatype Decision = Decision(behavior: Behavior, reason: string, ruleId: Option<string>)

  /** Full-match of a pattern on a text; `None` for a pattern that is not a regular expression. */
  type Matcher = (string, string) -> Option<bool>

  predicate ArgumentMatches(full: Matcher, q: Request, name: string, pattern: string)
  {
    name in q.arguments && full(pattern, q.arguments[name]) == Some(true)
  }

  predicate Matches(full: Matcher, q: Request, r: Rule)
  {
    && r.enabled && (r.toolName == "*" || r.toolName == q.toolName)
    && forall name :: name in r.argumentRegex ==> ArgumentMatches(full, q, name, r.argumentRegex[name])
  }

  function Matched(full: Matcher, q: Request, rules: seq<Rule>): seq<Rule>
  {
    if rules == [] then []
    else (if Matches(full, q, rules[0]) then [rules[0]] else []) + Matched(full, q, rules[1..])
  }

  function Highest(rules: seq<Rule>): (p: int)
    requires rules != []
    ensures forall r :: r in rules ==> r.priority <= p
    ensures exists r :: r in rules && r.priority == p
  {
    if |rules| == 1 then
      assert rules[0] in rules;
      rules[0].priority
    else
      var p := Highest(rules[1..]);
      assert rules == [rules[0]] + rules[1..];
      if rules[0].priority > p then rules[0].priority else p
  }

  function AtPriority(rules: seq<Rule>, p: int): seq<Rule>
  {
    if rules == [] then []
    else (if rules[0].priority == p then [rules[0]] else []) + AtPriority(rules[1..], p)
  }

  predicate Conflicting(rules: seq<Rule>)
  {
    exists i, j :: 0 <= i < |rules| && 0 <= j < |rules| && rules[i].behavior != rules[j].behavior
  }

  function Evaluate(full: Matcher, q: Request, rules: seq<Rule>, byDefault: Behavior): Decision
  {
    var matched := Matched(full, q, rules);
    if matched == [] then Decision(byDefault, "No permission rule matched", None)
    else
      var candidates := AtPriority(matched, Highest(matched));
      CandidatesExist(matched);
      if Conflicting(candidates) then Decision(Deny, "Conflicting permission rules at the same priority", None)
      else Decision(candidates[0].behavior, "Matched permission rule: " + candidates[0].id, Some(candidates[0].id))
  }

  // ---------------------------------------------------------------------------
  // Membership
  // ---------------------------------------------------------------------------

  lemma {:induction false} MatchedAre(full: Matcher, q: Request, rules: seq<Rule>, r: Rule)
    ensures r in Matched(full, q, rules) <==> r in rules && Matches(full, q, r)
  {
    hide Matches;
    if rules != [] {
      assert rules == [rules[0]] + rules[1..];
      MatchedAre(full, q, rules[1..], r);
    }
  }

  lemma {:induction false} AtPriorityAre(rules: seq<Rule>, p: int, r: Rule)
    ensures r in AtPriority(rules, p) <==> r in rules && r.priority == p
  {
    if rules != [] {
      assert rules == [rules[0]] + rules[1..];
      AtPriorityAre(rules[1..], p, r);
    }
  }

  lemma {:induction false} CandidatesExist(matched: seq<Rule>)
    requires matched != []
    ensures AtPriority(matched, Highest(matched)) != []
  {
    var p := Highest(matched);
    var r :| r in matched && r.priority == p;
    AtPriorityAre(matched, p, r);
  }

  // ---------------------------------------------------------------------------
  // What a decision means, without an order of the rules
  // ---------------------------------------------------------------------------

  /** `r` is an applicable rule that no applicable rule outranks. */
  ghost predicate Top(full: Matcher, q: Request, rules: set<Rule>, r: Rule)
  {
    r in rules && Matches(full, q, r) && forall x :: x in rules && Matches(full, q, x) ==> x.priority <= r.priority
  }

  /** The behaviour a set of rules decides on. */
  ghost predicate Decides(full: Matcher, q: Request, rules: set<Rule>, byDefault: Behavior, b: Behavior)
  {
    if forall r :: r in rules ==> !Matches(full, q, r) then b == byDefault
    else if exists r, x :: Top(full, q, rules, r) && Top(full, q, rules, x) && r.behavior != x.behavior then b == Deny
    else forall r :: Top(full, q, rules, r) ==> r.behavior == b
  }

  function RuleSet(rules: seq<Rule>): set<Rule> { set r | r in rules }

  lemma {:induction false} CandidatesAreTop(full: Matcher, q: Request, rules: seq<Rule>, r: Rule)
    requires Matched(full, q, rules) != []
    ensures r in AtPriority(Matched(full, q, rules), Highest(Matched(full, q, rules))) <==> Top(full, q, RuleSet(rules), r)
  {
    hide Matches, AtPriority, Matched;
    var matched := Matched(full, q, rules);
    AtPriorityAre(matched, Highest(matched), r);
    forall x
      ensures x in matched <==> x in rules && Matches(full, q, x)
    {
      MatchedAre(full, q, rules, x);
    }
  }

  lemma {:induction false} NothingMatches(full: Matcher, q: Request, rules: seq<Rule>)
    ensures Matched(full, q, rules) == [] <==> forall r :: r in RuleSet(rules) ==> !Matches(full, q, r)
  {
    hide Matches, Matched;
    var matched := Matched(full, q, rules);
    forall x
      ensures x in matched <==> x in rules && Matches(full, q, x)
    {
      MatchedAre(full, q, rules, x);
    }
    assert matched != [] ==> matched[0] in matched;
  }

  /** The engine decides what the set of rules decides, and nothing else. */
  lemma {:induction false} EvaluateDecides(full: Matcher, q: Request, rules: seq<Rule>, byDefault: Behavior, b: Behavior)
    ensures Evaluate(full, q, rules, byDefault).behavior == b <==> Decides(full, q, RuleSet(rules), byDefault, b)
  {
    hide Matches, AtPriority, Matched, Top, RuleSet, Highest;
    var matched := Matched(full, q, rules);
    NothingMatches(full, q, rules);
    if matched != [] {
      var candidates := AtPriority(matched, Highest(matched));
      CandidatesExist(matched);
      forall x
        ensures x in candidates <==> Top(full, q, RuleSet(rules), x)
      {
        CandidatesAreTop(full, q, rules, x);
      }
      assert candidates[0] in candidates;
      if Conflicting(candidates) {
        var i, j :| 0 <= i < |candidates| && 0 <= j < |candidates| && candidates[i].behavior != candidates[j].behavior;
        assert candidates[i] in candidates && candidates[j] in candidates;
      } else {
        forall x | x in candidates
          ensures x.behavior == candidates[0].behavior
        {
        }
      }
    }
  }

  /** The order of the rules, and repetitions among them, never change the decided behaviour. */
  lemma {:induction false} OrderDoesNotMatter(full: Matcher, q: Request, a: seq<Rule>, b: seq<Rule>, byDefault: Behavior)
    requires forall r :: r in a <==> r in b
    ensures Evaluate(full, q, a, byDefault).behavior == Evaluate(full, q, b, byDefault).behavior
  {
    hide Evaluate, Decides;
    assert RuleSet(a) == RuleSet(b);
    EvaluateDecides(full, q, a, byDefault, Evaluate(full, q, a, byDefault).behavior);
    EvaluateDecides(full, q, b, byDefault, Evaluate(full, q, a, byDefault).behavior);
  }

  /** The rule a decision names does depend on the order, and only among the top rules. */
  lemma {:induction false} NamedRuleIsTop(full: Matcher, q: Request, rules: seq<Rule>, byDefault: Behavior)
    ensures var d := Evaluate(full, q, rules, byDefault);
      d.ruleId.Some? ==> exists r :: Top(full, q, RuleSet(rules), r) && r.id == d.ruleId.value && r.behavior == d.behavior
  {
    hide Matches, AtPriority, Matched, Top;
    var matched := Matched(full, q, rules);
    if matched != [] {
      CandidatesExist(matched);
      CandidatesAreTop(full, q, rules, AtPriority(matched, Highest(matched))[0]);
    }
  }

  // ---------------------------------------------------------------------------
  // Rules that do not count
  // ---------------------------------------------------------------------------

  lemma {:induction false} MatchedAppend(full: Matcher, q: Request, a: seq<Rule>, b: seq<Rule>)
    ensures Matched(full, q, a + b) == Matched(full, q, a) + Matched(full, q, b)
  {
    hide Matches;
    if a == [] {
      assert a + b == b;
    } else {
      assert (a + b)[1..] == a[1..] + b;
      MatchedAppend(full, q, a[1..], b);
    }
  }

  lemma {:induction false} AtPriorityAppend(a: seq<Rule>, b: seq<Rule>, p: int)
    ensures AtPriority(a + b, p) == AtPriority(a, p) + AtPriority(b, p)
  {
    if a == [] {
      assert a + b == b;
    } else {
      assert (a + b)[1..] == a[1..] + b;
      AtPriorityAppend(a[1..], b, p);
    }
  }

  lemma MatchedOne(full: Matcher, q: Request, r: Rule)
    ensures Matched(full, q, [r]) == if Matches(full, q, r) then [r] else []
  {
    hide Matches;
    assert [r][1..] == [];
  }

  lemma AtPriorityOne(r: Rule, p: int)
    ensures AtPriority([r], p) == if r.priority == p then [r] else []
  {
    assert [r][1..] == [];
  }

  /** The rule is switched off, is for another tool, or has a pattern whose argument is missing or does not fully match. */
  ghost predicate Inapplicable(full: Matcher, q: Request, r: Rule)
  {
    || !r.enabled
    || (r.toolName != "*" && r.toolName != q.toolName)
    || exists name :: name in r.argumentRegex
                      && (name in q.arguments ==> full(r.argumentRegex[name], q.arguments[name]) != Some(true))
  }

  /** Such a rule changes nothing of the decision, wherever it stands; without other rules the default decides. */
  lemma {:induction false} InapplicableRuleIsIgnored(full: Matcher, q: Request, a: seq<Rule>, r: Rule, b: seq<Rule>, byDefault: Behavior)
    requires Inapplicable(full, q, r)
    ensures Evaluate(full, q, a + [r] + b, byDefault) == Evaluate(full, q, a + b, byDefault)
    ensures Evaluate(full, q, [r], byDefault).behavior == byDefault
  {
    assert !Matches(full, q, r);
    hide Matches, AtPriority, Matched;
    UnmatchedIsIgnored(full, q, a, r, b, byDefault);
    MatchedOne(full, q, r);
  }

  lemma {:induction false} UnmatchedIsIgnored(full: Matcher, q: Request, a: seq<Rule>, r: Rule, b: seq<Rule>, byDefault: Behavior)
    requires !Matches(full, q, r)
    ensures Evaluate(full, q, a + [r] + b, byDefault) == Evaluate(full, q, a + b, byDefault)
  {
    hide Matches, AtPriority, Matched;
    MatchedAppend(full, q, a + [r], b);
    MatchedAppend(full, q, a, [r]);
    MatchedAppend(full, q, a, b);
    MatchedOne(full, q, r);
    assert Matched(full, q, a + [r] + b) == Matched(full, q, a + b);
  }

  /**
   * An enabled rule for the tool, or for every tool, all of whose patterns fully match their arguments,
   * decides against all rules of lower priority, wherever it stands, and is the rule that is named.
   */
  lemma {:induction false} LoneTopDecides(full: Matcher, q: Request, a: seq<Rule>, r: Rule, b: seq<Rule>, byDefault: Behavior)
    requires r.enabled && (r.toolName == "*" || r.toolName == q.toolName)
    requires forall name :: name in r.argumentRegex ==>
               name in q.arguments && full(r.argumentRegex[name], q.arguments[name]) == Some(true)
    requires forall x :: x in a || x in b ==> x.priority < r.priority
    ensures var d := Evaluate(full, q, a + [r] + b, byDefault); d.behavior == r.behavior && d.ruleId == Some(r.id)
  {
    assert Matches(full, q, r);
    hide Matches, Matched, AtPriority, Highest;
    var rules := a + [r] + b;
    assert rules[|a|] == r;
    var matched := Matched(full, q, rules);
    MatchedAre(full, q, rules, r);
    var candidates := AtPriority(matched, Highest(matched));
    CandidatesExist(matched);
    forall i | 0 <= i < |candidates|
      ensures candidates[i] == r
    {
      var x := candidates[i];
      assert x in candidates;
      AtPriorityAre(matched, Highest(matched), x);
      MatchedAre(full, q, rules, x);
      assert x in a || x in b || x == r;
    }
  }

  lemma {:induction false} HighestIgnores(a: seq<Rule>, r: Rule, b: seq<Rule>)
    requires exists x :: x in a + b && x.priority > r.priority
    ensures Highest(a + [r] + b) == Highest(a + b)
  {
    var x :| x in a + b && x.priority > r.priority;
    assert forall y :: y in a + [r] + b <==> y in a + b || y == r;
    var y :| y in a + [r] + b && y.priority == Highest(a + [r] + b);
    assert x in a + [r] + b;
    var z :| z in a + b && z.priority == Highest(a + b);
    assert z in a + [r] + b;
  }

  lemma {:induction false} CandidatesIgnore(a: seq<Rule>, r: Rule, b: seq<Rule>)
    requires exists x :: x in a + b && x.priority > r.priority
    ensures AtPriority(a + [r] + b, Highest(a + [r] + b)) == AtPriority(a + b, Highest(a + b))
  {
    hide AtPriority;
    HighestIgnores(a, r, b);
    var p := Highest(a + b);
    var x :| x in a + b && x.priority > r.priority;
    AtPriorityAppend(a + [r], b, p);
    AtPriorityAppend(a, [r], p);
    AtPriorityAppend(a, b, p);
    AtPriorityOne(r, p);
    assert AtPriority(a, p) + [] == AtPriority(a, p);
  }

  /** A rule outranked by an applicable rule changes nothing, not even the rule that is named. */
  lemma {:induction false} OutrankedRuleIsIgnored(full: Matcher, q: Request, a: seq<Rule>, r: Rule, b: seq<Rule>, byDefault: Behavior)
    requires exists x :: x in a + b && Matches(full, q, x) && x.priority > r.priority
    ensures Evaluate(full, q, a + [r] + b, byDefault) == Evaluate(full, q, a + b, byDefault)
  {
    hide Matches, AtPriority, Matched, Conflicting, Highest;
    if Matches(full, q, r) {
      var x :| x in a + b && Matches(full, q, x) && x.priority > r.priority;
      MatchedAppend(full, q, a + [r], b);
      MatchedAppend(full, q, a, [r]);
      MatchedAppend(full, q, a, b);
      MatchedOne(full, q, r);
      MatchedAre(full, q, a + b, x);
      CandidatesIgnore(Matched(full, q, a), r, Matched(full, q, b));
    } else {
      UnmatchedIsIgnored(full, q, a, r, b, byDefault);
    }
  }

  /** A pattern that is no regular expression makes its rule inapplicable instead of failing the run. */
  lemma {:induction false} BadPatternNeverMatches(full: Matcher, q: Request, a: seq<Rule>, r: Rule, b: seq<Rule>, byDefault: Behavior, name: string)
    requires name in r.argumentRegex && (forall text :: full(r.argumentRegex[name], text) == None)
    ensures Evaluate(full, q, a + [r] + b, byDefault) == Evaluate(full, q, a + b, byDefault)
  {
    assert name in q.arguments ==> full(r.argumentRegex[name], q.arguments[name]) == None;
    InapplicableRuleIsIgnored(full, q, a, r, b, byDefault);
  }
}
