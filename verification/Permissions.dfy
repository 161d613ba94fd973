/**
 Tool authorization (`evaluate_permission` in api/app/auth/rbac.py): the sort-based
 evaluator and the declarative decision it computes. The glob matcher is a parameter.
 */
module Permissions {
  import opened Wrappers
  import opened Patterns
  import opened Ranking

  datatype Effect = Allow | Deny

  datatype Rule = Rule(id: int, roleId: int, serverPattern: string, toolPattern: string, effect: Effect, priority: int)

  datatype Reason = DefaultDeny | DeniedByRule | AllowedByRule

  datatype Decision = Decision(allowed: bool, ruleId: Option<int>, reason: Reason)

  predicate Matches(glob: Glob, server: string, tool: string, rule: Rule) {
    glob(server, rule.serverPattern) && glob(tool, rule.toolPattern)
  }

  function RuleRank(rule: Rule): Rank {
    Rank(-(Specificity(rule.serverPattern) + Specificity(rule.toolPattern)), -rule.priority, 0)
  }

  function Matching(glob: Glob, server: string, tool: string): Rule -> bool {
    rule => Matches(glob, server, tool, rule)
  }

  function Denies(): Rule -> bool {
    (rule: Rule) => rule.effect == Deny
  }

  /** The matching rules that share the best rank, as the sort leaves them. */
  function TopSet(glob: Glob, server: string, tool: string, rules: seq<Rule>): seq<Rule> {
    var sorted := StableSort(RuleRank, Filter(Matching(glob, server, tool), rules));
    if sorted == [] then [] else WithRank(RuleRank, RuleRank(sorted[0]), sorted)
  }

  function Evaluate(glob: Glob, server: string, tool: string, rules: seq<Rule>): Decision {
    var top := TopSet(glob, server, tool, rules);
    var denials := Filter(Denies(), top);
    if top == [] then Decision(false, None, DefaultDeny)
    else if denials != [] then Decision(false, Some(denials[0].id), DeniedByRule)
    else Decision(true, Some(top[0].id), AllowedByRule)
  }

  // ----- the declarative decision ----------------------------------------------------------

  /** More literal characters in the two patterns together, or as many and a higher priority. */
  ghost predicate Outranks(a: Rule, b: Rule) {
    var x := Literals(a.serverPattern) + Literals(a.toolPattern);
    var y := Literals(b.serverPattern) + Literals(b.toolPattern);
    x > y || (x == y && a.priority > b.priority)
  }

  /** Both patterns of the rule match, and no rule whose patterns match outranks it. */
  ghost predicate Deciding(glob: Glob, server: string, tool: string, rules: seq<Rule>, rule: Rule) {
    && rule in rules && glob(server, rule.serverPattern) && glob(tool, rule.toolPattern)
    && forall other :: other in rules && glob(server, other.serverPattern) && glob(tool, other.toolPattern) ==>
         !Outranks(other, rule)
  }

  /** The patterns of some rule match, and no deciding rule denies. */
  ghost predicate Permitted(glob: Glob, server: string, tool: string, rules: seq<Rule>) {
    && (exists rule :: rule in rules && glob(server, rule.serverPattern) && glob(tool, rule.toolPattern))
    && (forall rule :: Deciding(glob, server, tool, rules, rule) ==> rule.effect == Allow)
  }

  /** The sort key orders the rules that way. */
  lemma RankIsOutranking(a: Rule, b: Rule)
    ensures Leq(RuleRank(a), RuleRank(b)) <==> !Outranks(b, a)
  {
    SpecificityCountsLiterals(a.serverPattern);
    SpecificityCountsLiterals(a.toolPattern);
    SpecificityCountsLiterals(b.serverPattern);
    SpecificityCountsLiterals(b.toolPattern);
  }

  lemma {:induction false} DecidingByRank(glob: Glob, server: string, tool: string, rules: seq<Rule>, rule: Rule)
    ensures Deciding(glob, server, tool, rules, rule) <==>
      && rule in rules && Matches(glob, server, tool, rule)
      && forall other :: other in rules && Matches(glob, server, tool, other) ==> Leq(RuleRank(rule), RuleRank(other))
  {
    forall other
      ensures Leq(RuleRank(rule), RuleRank(other)) <==> !Outranks(other, rule)
    {
      RankIsOutranking(rule, other);
    }
  }

  function AtTop(glob: Glob, server: string, tool: string, top: Rank): Rule -> bool {
    rule => Matches(glob, server, tool, rule) && RuleRank(rule) == top
  }

  /** The best rank among the matching rules. */
  lemma {:induction false} BestRank(glob: Glob, server: string, tool: string, rules: seq<Rule>) returns (top: Rank)
    requires exists rule :: rule in rules && Matches(glob, server, tool, rule)
    ensures
      var sorted := StableSort(RuleRank, Filter(Matching(glob, server, tool), rules));
      sorted != [] && RuleRank(sorted[0]) == top
    ensures exists rule :: rule in rules && AtTop(glob, server, tool, top)(rule)
    ensures forall rule :: rule in rules && Matches(glob, server, tool, rule) ==> Leq(top, RuleRank(rule))
  {
    var matching := Filter(Matching(glob, server, tool), rules);
    var some :| some in rules && Matches(glob, server, tool, some);
    FilterMember(Matching(glob, server, tool), rules, some);
    var i := FirstBestExists(RuleRank, matching);
    SortHead(RuleRank, matching, i);
    top := RuleRank(matching[i]);
    FilterMember(Matching(glob, server, tool), rules, matching[i]);
    assert AtTop(glob, server, tool, top)(matching[i]);
    forall rule | rule in rules && Matches(glob, server, tool, rule)
      ensures Leq(top, RuleRank(rule))
    {
      FilterMember(Matching(glob, server, tool), rules, rule);
    }
  }

  /** The top set holds the deciding rules, in input order. */
  lemma {:induction false} TopSetIsDeciding(glob: Glob, server: string, tool: string, rules: seq<Rule>)
    returns (top: Rank)
    requires exists rule :: rule in rules && Matches(glob, server, tool, rule)
    ensures TopSet(glob, server, tool, rules) == Filter(AtTop(glob, server, tool, top), rules)
    ensures TopSet(glob, server, tool, rules) != []
    ensures forall rule :: Deciding(glob, server, tool, rules, rule) <==>
      rule in rules && AtTop(glob, server, tool, top)(rule)
  {
    top := BestRank(glob, server, tool, rules);
    var matching := Filter(Matching(glob, server, tool), rules);
    SortIsStable(RuleRank, top, matching);
    FilterTwice(HasRank(RuleRank, top), Matching(glob, server, tool), AtTop(glob, server, tool, top), rules);
    var best :| best in rules && AtTop(glob, server, tool, top)(best);
    FilterMember(AtTop(glob, server, tool, top), rules, best);
    forall rule
      ensures Deciding(glob, server, tool, rules, rule) <==> rule in rules && AtTop(glob, server, tool, top)(rule)
    {
      DecidingByRank(glob, server, tool, rules, rule);
      LeqIsAntisymmetric();
    }
  }

  lemma LeqIsAntisymmetric()
    ensures forall a, b :: Leq(a, b) && Leq(b, a) ==> a == b
  {
  }

  /** The sort-based evaluation is the declarative decision. */
  lemma {:induction false} EvaluateIsPermitted(glob: Glob, server: string, tool: string, rules: seq<Rule>)
    ensures Evaluate(glob, server, tool, rules).allowed <==> Permitted(glob, server, tool, rules)
  {
    if rule :| rule in rules && Matches(glob, server, tool, rule) {
      NoDenialIff(glob, server, tool, rules);
    } else {
      NothingMatches(glob, server, tool, rules);
    }
  }

  /** The top set denies exactly when a deciding rule does. */
  lemma {:induction false} NoDenialIff(glob: Glob, server: string, tool: string, rules: seq<Rule>)
    requires exists rule :: rule in rules && Matches(glob, server, tool, rule)
    ensures TopSet(glob, server, tool, rules) != []
    ensures Filter(Denies(), TopSet(glob, server, tool, rules)) == [] <==>
            forall rule :: Deciding(glob, server, tool, rules, rule) ==> rule.effect == Allow
  {
    var denials := Filter(Denies(), TopSet(glob, server, tool, rules));
    var rank := TopSetIsDeciding(glob, server, tool, rules);
    if denials != [] {
      DenialsDecide(glob, server, tool, rules, rank, denials[0]);
    } else {
      forall rule | Deciding(glob, server, tool, rules, rule)
        ensures rule.effect == Allow
      {
        DenialsDecide(glob, server, tool, rules, rank, rule);
      }
    }
  }

  lemma {:induction false} DenialsDecide(glob: Glob, server: string, tool: string, rules: seq<Rule>, rank: Rank,
                                         r: Rule)
    requires TopSet(glob, server, tool, rules) == Filter(AtTop(glob, server, tool, rank), rules)
    requires Deciding(glob, server, tool, rules, r) <==> r in rules && AtTop(glob, server, tool, rank)(r)
    ensures r in Filter(Denies(), TopSet(glob, server, tool, rules)) <==>
            Deciding(glob, server, tool, rules, r) && r.effect == Deny
  {
    FilterMember(Denies(), TopSet(glob, server, tool, rules), r);
    FilterMember(AtTop(glob, server, tool, rank), rules, r);
  }

  lemma {:induction false} NothingMatches(glob: Glob, server: string, tool: string, rules: seq<Rule>)
    requires forall rule :: rule in rules ==> !Matches(glob, server, tool, rule)
    ensures TopSet(glob, server, tool, rules) == []
  {
    var matching := Filter(Matching(glob, server, tool), rules);
    if matching != [] {
      FilterMember(Matching(glob, server, tool), rules, matching[0]);
      assert false;
    }
  }

  /** The first deciding rule in input order, of those that deny if `denying`. */
  ghost predicate FirstDeciding(glob: Glob, server: string, tool: string, rules: seq<Rule>, denying: bool, i: int) {
    && 0 <= i < |rules| && Deciding(glob, server, tool, rules, rules[i]) && (denying ==> rules[i].effect == Deny)
    && forall j :: 0 <= j < i ==>
         !(Deciding(glob, server, tool, rules, rules[j]) && (denying ==> rules[j].effect == Deny))
  }

  /** The rule that the decision names: the first deciding rule in input order, the first
      denying one when access is denied. Without a match none is named. */
  lemma {:induction false} ReportedRuleIsFirst(glob: Glob, server: string, tool: string, rules: seq<Rule>)
    ensures
      var d := Evaluate(glob, server, tool, rules);
      match d.reason
      case DefaultDeny =>
        && d.ruleId == None
        && forall rule :: rule in rules ==> !(glob(server, rule.serverPattern) && glob(tool, rule.toolPattern))
      case AllowedByRule =>
        exists i :: FirstDeciding(glob, server, tool, rules, false, i) && d.ruleId == Some(rules[i].id)
      case DeniedByRule =>
        exists i :: FirstDeciding(glob, server, tool, rules, true, i) && d.ruleId == Some(rules[i].id)
  {
    if rule :| rule in rules && Matches(glob, server, tool, rule) {
      var top := TopSet(glob, server, tool, rules);
      var rank := TopSetIsDeciding(glob, server, tool, rules);
      var atTop, denyAtTop := AtTop(glob, server, tool, rank), DenyAtTop(glob, server, tool, rank);
      FilterTwice(Denies(), atTop, denyAtTop, rules);
      if Filter(Denies(), top) != [] {
        var i := FilterHead(denyAtTop, rules);
        assert FirstDeciding(glob, server, tool, rules, true, i);
      } else {
        var i := FilterHead(atTop, rules);
        assert FirstDeciding(glob, server, tool, rules, false, i);
      }
    } else {
      NothingMatches(glob, server, tool, rules);
    }
  }

  function DenyAtTop(glob: Glob, server: string, tool: string, top: Rank): Rule -> bool {
    rule => AtTop(glob, server, tool, top)(rule) && rule.effect == Deny
  }

  lemma {:induction false} PermittedByMembers(glob: Glob, server: string, tool: string, rules: seq<Rule>,
                                              rules': seq<Rule>)
    requires forall rule :: rule in rules <==> rule in rules'
    ensures Permitted(glob, server, tool, rules) ==> Permitted(glob, server, tool, rules')
  {
    if Permitted(glob, server, tool, rules) {
      forall rule | Deciding(glob, server, tool, rules', rule)
        ensures rule.effect == Allow
      {
        assert Deciding(glob, server, tool, rules, rule);
      }
    }
  }

  lemma {:induction false} ReasonOfVerdict(glob: Glob, server: string, tool: string, rules: seq<Rule>)
    ensures Evaluate(glob, server, tool, rules).reason ==
      if Evaluate(glob, server, tool, rules).allowed then AllowedByRule
      else if exists rule :: rule in rules && glob(server, rule.serverPattern) && glob(tool, rule.toolPattern)
      then DeniedByRule
      else DefaultDeny
  {
    if rule :| rule in rules && Matches(glob, server, tool, rule) {
      var rank := TopSetIsDeciding(glob, server, tool, rules);
    } else {
      NothingMatches(glob, server, tool, rules);
    }
  }

  /** The verdict and its reason do not depend on the order of the rules. */
  lemma {:induction false} OrderDoesNotMatter(glob: Glob, server: string, tool: string, rules: seq<Rule>,
                                              rules': seq<Rule>)
    requires multiset(rules) == multiset(rules')
    ensures Evaluate(glob, server, tool, rules).allowed == Evaluate(glob, server, tool, rules').allowed
    ensures Evaluate(glob, server, tool, rules).reason == Evaluate(glob, server, tool, rules').reason
  {
    forall rule
      ensures rule in rules <==> rule in rules'
    {
      assert rule in multiset(rules) <==> rule in multiset(rules');
    }
    EvaluateIsPermitted(glob, server, tool, rules);
    EvaluateIsPermitted(glob, server, tool, rules');
    PermittedByMembers(glob, server, tool, rules, rules');
    PermittedByMembers(glob, server, tool, rules', rules);
    ReasonOfVerdict(glob, server, tool, rules);
    ReasonOfVerdict(glob, server, tool, rules');
  }

  // ----- two ways to reach a verdict ---------------------------------------------------------

  /** A matching ALLOW that strictly outranks every matching DENY is enough. */
  lemma OutrankingAllowPermits(glob: Glob, server: string, tool: string, rules: seq<Rule>, rule: Rule)
    requires rule in rules && Matches(glob, server, tool, rule) && rule.effect == Allow
    requires forall other :: other in rules && Matches(glob, server, tool, other) && other.effect == Deny ==>
      !Leq(RuleRank(other), RuleRank(rule))
    ensures Evaluate(glob, server, tool, rules).allowed
  {
    forall other | Deciding(glob, server, tool, rules, other)
      ensures other.effect == Allow
    {
      DecidingByRank(glob, server, tool, rules, other);
      assert Leq(RuleRank(other), RuleRank(rule));
    }
    EvaluateIsPermitted(glob, server, tool, rules);
  }

  /** Access is denied when every matching ALLOW is outranked by some matching DENY; in
      particular when no ALLOW matches. */
  lemma OutrankedAllowsAreDenied(glob: Glob, server: string, tool: string, rules: seq<Rule>)
    requires forall rule :: rule in rules && Matches(glob, server, tool, rule) && rule.effect == Allow ==>
      exists other :: other in rules && Matches(glob, server, tool, other) && other.effect == Deny
                      && !Leq(RuleRank(rule), RuleRank(other))
    ensures !Evaluate(glob, server, tool, rules).allowed
  {
    EvaluateIsPermitted(glob, server, tool, rules);
    if rule :| rule in rules && Matches(glob, server, tool, rule) {
      var rank := TopSetIsDeciding(glob, server, tool, rules);
      var top := TopSet(glob, server, tool, rules);
      FilterMember(AtTop(glob, server, tool, rank), rules, top[0]);
      DecidingByRank(glob, server, tool, rules, top[0]);
    }
  }
}
