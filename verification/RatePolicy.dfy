/**
 Which rate-limit policy applies to a request (api/app/limits/policies.py) and which
 Redis key its calls share (`RateLimiter.check` in api/app/limits/redis_bucket.py).
 */
module RatePolicies {
  import opened Wrappers
  import opened Subjects
  import opened Patterns
  import opened Ranking

  datatype Algorithm = TokenBucket | SlidingWindow

  datatype Policy = Policy(
    subjectId: Option<string>,
    subjectType: Option<SubjectType>,
    serverPattern: Option<string>,
    toolPattern: Option<string>,
    algorithm: Algorithm,
    requestLimit: int,
    windowSeconds: int,
    burstCapacity: Option<int>,
    priority: int)

  datatype Scope = ToolScope | ServerScope | SubjectScope | GlobalScope

  datatype EffectivePolicy = EffectivePolicy(
    algorithm: Algorithm, requestLimit: int, windowSeconds: int, burstCapacity: Option<int>, scope: Scope)

  /** The request context that policies select on. */
  datatype Context = Context(subjectId: Option<string>, subjectType: Option<SubjectType>,
                             server: Option<string>, tool: Option<string>)

  // ----- resolution --------------------------------------------------------------------

  function SelectorLevel(p: Policy): int {
    if p.subjectId.Some? && p.serverPattern.Some? && p.toolPattern.Some? then 0
    else if p.subjectId.Some? && p.serverPattern.Some? then 1
    else if p.subjectId.Some? && p.serverPattern.None? && p.toolPattern.None? then 2
    else 3
  }

  predicate SubjectMatches(p: Policy, subjectId: Option<string>, subjectType: Option<SubjectType>) {
    p.subjectId.Some? ==>
      && p.subjectId == subjectId
      && (p.subjectType.Some? && subjectType.Some? ==> p.subjectType == subjectType)
  }

  predicate PatternMatches(glob: Glob, pattern: Option<string>, name: Option<string>) {
    pattern.Some? ==> name.Some? && glob(name.value, pattern.value)
  }

  predicate PolicyMatches(glob: Glob, p: Policy, ctx: Context) {
    && SubjectMatches(p, ctx.subjectId, ctx.subjectType)
    && PatternMatches(glob, p.serverPattern, ctx.server)
    && PatternMatches(glob, p.toolPattern, ctx.tool)
  }

  function PatternText(pattern: Option<string>): string {
    match pattern case None => "" case Some(text) => text
  }

  function PolicyRank(p: Policy): Rank {
    Rank(SelectorLevel(p), -p.priority,
         -(Specificity(PatternText(p.serverPattern)) + Specificity(PatternText(p.toolPattern))))
  }

  function Candidates(glob: Glob, ctx: Context, policies: seq<Policy>): seq<Policy> {
    Filter(Matching(glob, ctx), policies)
  }

  function ScopeForLevel(level: int): Scope {
    if level == 0 then ToolScope
    else if level == 1 then ServerScope
    else if level == 2 then SubjectScope
    else GlobalScope
  }

  function Effective(p: Policy): EffectivePolicy {
    EffectivePolicy(p.algorithm, p.requestLimit, p.windowSeconds, p.burstCapacity, ScopeForLevel(SelectorLevel(p)))
  }

  /** The head of the sorted candidates, or None when the default applies. */
  function BestPolicy(glob: Glob, ctx: Context, policies: seq<Policy>): Option<Policy> {
    var sorted := StableSort(PolicyRank, Candidates(glob, ctx, policies));
    if sorted == [] then None else Some(sorted[0])
  }

  /** `resolve_policy`, with the default string already parsed. */
  function Resolve(glob: Glob, ctx: Context, policies: seq<Policy>, defaultLimit: int,
                   defaultWindow: int): EffectivePolicy {
    match BestPolicy(glob, ctx, policies)
    case None => EffectivePolicy(TokenBucket, defaultLimit, defaultWindow, Some(defaultLimit), ToolScope)
    case Some(best) => Effective(best)
  }

  // ----- the choice by columns ---------------------------------------------------------------

  /** The policy names nobody or this subject, without a contradicting type, and each pattern that it has
      matches a name that the request has. */
  ghost predicate InForce(glob: Glob, p: Policy, ctx: Context) {
    && (p.subjectId == None
        || (p.subjectId == ctx.subjectId
            && (p.subjectType == None || ctx.subjectType == None || p.subjectType == ctx.subjectType)))
    && (p.serverPattern == None || (ctx.server.Some? && glob(ctx.server.value, p.serverPattern.value)))
    && (p.toolPattern == None || (ctx.tool.Some? && glob(ctx.tool.value, p.toolPattern.value)))
  }

  /** How much a policy names: 3 for a subject, a server and a tool, 2 for a subject and a server, 1 for a
      subject alone, 0 for anything else. */
  ghost function Named(p: Policy): int {
    if p.subjectId == None then 0
    else
      match (p.serverPattern, p.toolPattern)
      case (Some(_), Some(_)) => 3
      case (Some(_), None) => 2
      case (None, None) => 1
      case (None, Some(_)) => 0
  }

  /** The literal characters in the patterns of a policy. */
  ghost function PatternLiterals(p: Policy): int {
    (if p.serverPattern == None then 0 else Literals(p.serverPattern.value))
    + (if p.toolPattern == None then 0 else Literals(p.toolPattern.value))
  }

  /** It names more; or as much, with a higher priority; or with the same, more literal characters. */
  ghost predicate Preferred(a: Policy, b: Policy) {
    || Named(a) > Named(b)
    || (Named(a) == Named(b) && a.priority > b.priority)
    || (Named(a) == Named(b) && a.priority == b.priority && PatternLiterals(a) > PatternLiterals(b))
  }

  /** The policy at i is in force, none in force is preferred to it, and it comes first among its equals. */
  ghost predicate IsChoice(glob: Glob, ctx: Context, policies: seq<Policy>, i: int) {
    && 0 <= i < |policies| && InForce(glob, policies[i], ctx)
    && forall j :: 0 <= j < |policies| && InForce(glob, policies[j], ctx) ==>
         !Preferred(policies[j], policies[i]) && (j < i ==> Preferred(policies[i], policies[j]))
  }

  /** What the chosen policy prescribes, or the default if none is in force. */
  ghost predicate IsResolved(glob: Glob, ctx: Context, policies: seq<Policy>, defaultLimit: int, defaultWindow: int,
                             e: EffectivePolicy) {
    if forall p :: p in policies ==> !InForce(glob, p, ctx)
    then e == EffectivePolicy(TokenBucket, defaultLimit, defaultWindow, Some(defaultLimit), ToolScope)
    else exists i :: IsChoice(glob, ctx, policies, i) && Prescribes(policies[i], e)
  }

  ghost predicate Prescribes(p: Policy, e: EffectivePolicy) {
    && e.algorithm == p.algorithm && e.requestLimit == p.requestLimit && e.windowSeconds == p.windowSeconds
    && e.burstCapacity == p.burstCapacity
    && e.scope == match Named(p) case 3 => ToolScope case 2 => ServerScope case 1 => SubjectScope case _ => GlobalScope
  }

  lemma RankIsPreference(a: Policy, b: Policy)
    ensures Leq(PolicyRank(a), PolicyRank(b)) <==> !Preferred(b, a)
    ensures PolicyRank(a) == PolicyRank(b) <==> !Preferred(a, b) && !Preferred(b, a)
  {
    SpecificityCountsLiterals(PatternText(a.serverPattern));
    SpecificityCountsLiterals(PatternText(a.toolPattern));
    SpecificityCountsLiterals(PatternText(b.serverPattern));
    SpecificityCountsLiterals(PatternText(b.toolPattern));
  }

  function Matching(glob: Glob, ctx: Context): Policy -> bool {
    p => PolicyMatches(glob, p, ctx)
  }

  function MatchingAt(glob: Glob, ctx: Context, top: Rank): Policy -> bool {
    p => PolicyMatches(glob, p, ctx) && PolicyRank(p) == top
  }

  /** The head of the sorted candidates is the first policy of the least rank in the list. */
  lemma {:induction false} HeadIsFirstBest(glob: Glob, ctx: Context, policies: seq<Policy>) returns (i: int)
    requires Candidates(glob, ctx, policies) != []
    ensures 0 <= i < |policies| && PolicyMatches(glob, policies[i], ctx)
    ensures BestPolicy(glob, ctx, policies) == Some(policies[i])
    ensures forall p :: p in policies && PolicyMatches(glob, p, ctx) ==> Leq(PolicyRank(policies[i]), PolicyRank(p))
    ensures forall j :: 0 <= j < i && PolicyMatches(glob, policies[j], ctx) ==>
      PolicyRank(policies[j]) != PolicyRank(policies[i])
  {
    var candidates := Candidates(glob, ctx, policies);
    var k := FirstBestExists(PolicyRank, candidates);
    SortHead(PolicyRank, candidates, k);
    var best := candidates[k];
    var top := PolicyRank(best);
    FilterTwice(HasRank(PolicyRank, top), Matching(glob, ctx), MatchingAt(glob, ctx, top), policies);
    FirstOfRank(PolicyRank, candidates, k);
    i := FilterHead(MatchingAt(glob, ctx, top), policies);
    forall p | p in policies && PolicyMatches(glob, p, ctx)
      ensures Leq(top, PolicyRank(p))
    {
      FilterMember(Matching(glob, ctx), policies, p);
    }
  }

  /** The first best element heads the elements of its rank. */
  lemma {:induction false} FirstOfRank<T>(rank: T -> Rank, s: seq<T>, k: int)
    requires IsFirstBest(rank, s, k)
    ensures WithRank(rank, rank(s[k]), s) != [] && WithRank(rank, rank(s[k]), s)[0] == s[k]
  {
    var keep := HasRank(rank, rank(s[k]));
    FilterMember(keep, s, s[k]);
    var i := FilterHead(keep, s);
  }

  /** The chosen policy, by the columns of the policy table; the default applies only when none is in
      force. */
  lemma {:induction false} BestPolicyIsFirstBest(glob: Glob, ctx: Context, policies: seq<Policy>)
    ensures
      match BestPolicy(glob, ctx, policies)
      case None => forall p :: p in policies ==> !InForce(glob, p, ctx)
      case Some(best) => exists i :: IsChoice(glob, ctx, policies, i) && policies[i] == best
  {
    if Candidates(glob, ctx, policies) != [] {
      var i := HeadIsFirstBest(glob, ctx, policies);
      FirstBestIsChoice(glob, ctx, policies, i);
    } else {
      forall p | p in policies
        ensures !InForce(glob, p, ctx)
      {
        FilterMember(Matching(glob, ctx), policies, p);
        InForceIsMatch(glob, p, ctx);
      }
    }
  }

  lemma InForceIsMatch(glob: Glob, p: Policy, ctx: Context)
    ensures InForce(glob, p, ctx) <==> PolicyMatches(glob, p, ctx)
  {
  }

  lemma {:induction false} FirstBestIsChoice(glob: Glob, ctx: Context, policies: seq<Policy>, i: int)
    requires 0 <= i < |policies| && PolicyMatches(glob, policies[i], ctx)
    requires forall p :: p in policies && PolicyMatches(glob, p, ctx) ==> Leq(PolicyRank(policies[i]), PolicyRank(p))
    requires forall j :: 0 <= j < i && PolicyMatches(glob, policies[j], ctx) ==>
      PolicyRank(policies[j]) != PolicyRank(policies[i])
    ensures IsChoice(glob, ctx, policies, i)
  {
    InForceIsMatch(glob, policies[i], ctx);
    forall j | 0 <= j < |policies| && InForce(glob, policies[j], ctx)
      ensures !Preferred(policies[j], policies[i]) && (j < i ==> Preferred(policies[i], policies[j]))
    {
      InForceIsMatch(glob, policies[j], ctx);
      RankIsPreference(policies[i], policies[j]);
    }
  }

  /** And what it prescribes is what the limiter enforces. */
  lemma {:induction false} ResolveIsChoice(glob: Glob, ctx: Context, policies: seq<Policy>, defaultLimit: int,
                                           defaultWindow: int)
    ensures IsResolved(glob, ctx, policies, defaultLimit, defaultWindow,
                       Resolve(glob, ctx, policies, defaultLimit, defaultWindow))
  {
    BestPolicyIsFirstBest(glob, ctx, policies);
    if BestPolicy(glob, ctx, policies).Some? {
      var i :| IsChoice(glob, ctx, policies, i) && policies[i] == BestPolicy(glob, ctx, policies).value;
      assert policies[i] in policies;
      assert Prescribes(policies[i], Effective(policies[i]));
    }
  }

  /** If the head of the sorted list passes a filter, it heads the sorted filtered list. */
  lemma {:induction false} HeadOfFiltered<T>(rank: T -> Rank, keep: T -> bool, s: seq<T>)
    requires s != [] && StableSort(rank, s) != [] && keep(StableSort(rank, s)[0])
    ensures
      var kept := Filter(keep, s);
      StableSort(rank, kept) != [] && StableSort(rank, kept)[0] == StableSort(rank, s)[0]
  {
    var i := FirstBestExists(rank, s);
    SortHead(rank, s, i);
    var before, after := s[..i], s[i + 1..];
    assert s == before + ([s[i]] + after);
    FilterAppend(keep, before, [s[i]] + after);
    FilterAppend(keep, [s[i]], after);
    var kept, k := Filter(keep, s), |Filter(keep, before)|;
    forall j | 0 <= j < |kept|
      ensures Leq(rank(s[i]), rank(kept[j])) && (j < k ==> rank(kept[j]) != rank(s[i]))
    {
      FilterMember(keep, s, kept[j]);
      if j < k {
        assert kept[j] == Filter(keep, before)[j];
        FilterMember(keep, before, kept[j]);
      }
    }
    assert kept[k] == s[i];
    SortHead(rank, kept, k);
  }

  /** What a policy of this level selects on is the same in both contexts. */
  ghost predicate SameSelection(level: int, ctx: Context, ctx': Context) {
    && ctx.subjectId == ctx'.subjectId && ctx.subjectType == ctx'.subjectType
    && (level == 1 ==> ctx.server == ctx'.server)
  }

  /** The candidates of such a level do not depend on the tool. */
  lemma {:induction false} SameCandidatesAtLevel(glob: Glob, policies: seq<Policy>, level: int, ctx: Context,
                                                 ctx': Context)
    requires (level == 1 || level == 2) && SameSelection(level, ctx, ctx')
    ensures
      var keep := (p: Policy) => SelectorLevel(p) == level;
      Filter(keep, Candidates(glob, ctx, policies)) == Filter(keep, Candidates(glob, ctx', policies))
  {
    var keep := (p: Policy) => SelectorLevel(p) == level;
    var matching, matching' := Matching(glob, ctx), Matching(glob, ctx');
    FiltersCommute(keep, matching, policies);
    FiltersCommute(keep, matching', policies);
    forall p | p in Filter(keep, policies)
      ensures matching(p) == matching'(p)
    {
      FilterMember(keep, policies, p);
    }
    FilterAgrees(matching, matching', Filter(keep, policies));
  }

  /** All requests of a subject (to one server, for the server level) that resolve at that
      level resolve to the same policy, whatever their tools. */
  lemma {:induction false} OnePolicyPerLevel(glob: Glob, policies: seq<Policy>, level: int, ctx: Context, ctx': Context)
    requires (level == 1 || level == 2) && SameSelection(level, ctx, ctx')
    requires BestPolicy(glob, ctx, policies).Some? && SelectorLevel(BestPolicy(glob, ctx, policies).value) == level
    requires BestPolicy(glob, ctx', policies).Some? && SelectorLevel(BestPolicy(glob, ctx', policies).value) == level
    ensures BestPolicy(glob, ctx, policies) == BestPolicy(glob, ctx', policies)
  {
    SameCandidatesAtLevel(glob, policies, level, ctx, ctx');
    BestAtLevel(glob, policies, level, ctx);
    BestAtLevel(glob, policies, level, ctx');
  }

  lemma BestAtLevel(glob: Glob, policies: seq<Policy>, level: int, ctx: Context)
    requires BestPolicy(glob, ctx, policies).Some? && SelectorLevel(BestPolicy(glob, ctx, policies).value) == level
    ensures
      var atLevel := Filter((p: Policy) => SelectorLevel(p) == level, Candidates(glob, ctx, policies));
      var sorted := StableSort(PolicyRank, atLevel);
      sorted != [] && Some(sorted[0]) == BestPolicy(glob, ctx, policies)
  {
    var candidates := Candidates(glob, ctx, policies);
    SortSorts(PolicyRank, candidates);
    HeadOfFiltered(PolicyRank, (p: Policy) => SelectorLevel(p) == level, candidates);
  }

  // ----- keys ------------------------------------------------------------------------------

  const SEPARATOR: char := ':'

  function CleanChar(c: char): char {
    if c == ':' || c == '\n' || c == '\r' then '_' else c
  }

  function Clean(value: string): string {
    seq(|value|, i requires 0 <= i < |value| => CleanChar(value[i]))
  }

  /** `_sanitize_segment`: the result never holds a separator and is never empty. */
  function Sanitize(value: string, maxLen: nat): (segment: string)
    requires maxLen > 0
    ensures segment != "" && NoSeparator(segment)
    ensures if value == "" then segment == "unknown" else |segment| == if |value| <= maxLen then |value| else maxLen
    ensures value != "" ==>
      forall i :: 0 <= i < |segment| ==> segment[i] == if value[i] in ":\n\r" then '_' else value[i]
    ensures value != "" && |value| <= maxLen && NoSeparator(value) && '\n' !in value && '\r' !in value ==>
      segment == value
  {
    var cleaned := Clean(value);
    var cut := if |cleaned| <= maxLen then cleaned else cleaned[..maxLen];
    if cut == "" then "unknown" else cut
  }

  predicate NoSeparator(s: string) {
    SEPARATOR !in s
  }

  const MANAGEMENT_API := "management_api"

  /** The parts of the key that `check` builds for a scope. */
  function Segments(scope: Scope, tenant: string, subject: string, server: string, tool: string): seq<string> {
    match scope
    case GlobalScope =>
      if server != MANAGEMENT_API then ["rl", tenant, "global", Sanitize(server, 100)] else ["rl", tenant, "global"]
    case SubjectScope => ["rl", tenant, Sanitize(subject, 200)]
    case ServerScope => ["rl", tenant, Sanitize(subject, 200), Sanitize(server, 100)]
    case ToolScope => ["rl", tenant, Sanitize(subject, 200), Sanitize(server, 100), Sanitize(tool, 200)]
  }

  function Join(segments: seq<string>): string
    requires segments != []
  {
    if |segments| == 1 then segments[0] else segments[0] + [SEPARATOR] + Join(segments[1..])
  }

  function Key(scope: Scope, tenant: string, subject: string, server: string, tool: string): string {
    Join(Segments(scope, tenant, subject, server, tool))
  }

  ghost predicate AllSeparable(segments: seq<string>) {
    forall i :: 0 <= i < |segments| ==> NoSeparator(segments[i])
  }

  lemma FirstSegment(a: string, rest: string, b: string, rest': string)
    requires NoSeparator(a) && NoSeparator(b)
    requires a + [SEPARATOR] + rest == b + [SEPARATOR] + rest'
    ensures a == b && rest == rest'
  {
    var s := a + [SEPARATOR] + rest;
    var s' := b + [SEPARATOR] + rest';
    assert s[|a|] == SEPARATOR && s'[|b|] == SEPARATOR;
    assert |a| == |b|;
    assert a == s[..|a|] && b == s'[..|b|];
    assert rest == s[|a| + 1..] && rest' == s'[|b| + 1..];
  }

  lemma {:induction false} JoinIsInjective(a: seq<string>, b: seq<string>)
    requires a != [] && b != [] && AllSeparable(a) && AllSeparable(b)
    requires Join(a) == Join(b)
    ensures a == b
    decreases |a|
  {
    if |a| > 1 && |b| > 1 {
      FirstSegment(a[0], Join(a[1..]), b[0], Join(b[1..]));
      JoinIsInjective(a[1..], b[1..]);
    }
  }

  /** Two requests share a key exactly when their key segments are the same. */
  lemma SameKeySameSegments(s: Scope, t: string, u: string, v: string, w: string,
                            s': Scope, t': string, u': string, v': string, w': string)
    requires NoSeparator(t) && NoSeparator(t')
    ensures Key(s, t, u, v, w) == Key(s', t', u', v', w') <==> Segments(s, t, u, v, w) == Segments(s', t', u', v', w')
  {
    if Key(s, t, u, v, w) == Key(s', t', u', v', w') {
      assert NoSeparator("rl") && NoSeparator("global");
      JoinIsInjective(Segments(s, t, u, v, w), Segments(s', t', u', v', w'));
    }
  }

  /** Who shares a subject-scoped key: the same tenant's calls of a subject with the same
      sanitised id, at the subject level; and, only if that id reads "global", the tenant's
      global management bucket. */
  lemma SubjectKeyOwners(t: string, u: string, v: string, w: string,
                         s': Scope, t': string, u': string, v': string, w': string)
    requires NoSeparator(t) && NoSeparator(t')
    ensures Key(SubjectScope, t, u, v, w) == Key(s', t', u', v', w') <==>
      t == t' && ((s' == SubjectScope && Sanitize(u', 200) == Sanitize(u, 200))
               || (s' == GlobalScope && v' == MANAGEMENT_API && Sanitize(u, 200) == "global"))
  {
    SameKeySameSegments(SubjectScope, t, u, v, w, s', t', u', v', w');
    var a, b := Segments(SubjectScope, t, u, v, w), Segments(s', t', u', v', w');
    if a == b {
      assert |a| == |b| && a[1] == b[1] && a[2] == b[2];
    }
  }

  /** Who shares a server-scoped key. */
  lemma ServerKeyOwners(t: string, u: string, v: string, w: string,
                        s': Scope, t': string, u': string, v': string, w': string)
    requires NoSeparator(t) && NoSeparator(t')
    ensures Key(ServerScope, t, u, v, w) == Key(s', t', u', v', w') <==>
      && t == t' && Sanitize(v', 100) == Sanitize(v, 100)
      && ((s' == ServerScope && Sanitize(u', 200) == Sanitize(u, 200))
          || (s' == GlobalScope && v' != MANAGEMENT_API && Sanitize(u, 200) == "global"))
  {
    SameKeySameSegments(ServerScope, t, u, v, w, s', t', u', v', w');
    var a, b := Segments(ServerScope, t, u, v, w), Segments(s', t', u', v', w');
    if a == b {
      assert |a| == |b| && a[1] == b[1] && a[2] == b[2] && a[3] == b[3];
    }
  }

  /** Who shares a tool-scoped key: only calls of the same tenant and the same sanitised subject, server and
      tool. */
  lemma ToolKeyOwners(t: string, u: string, v: string, w: string,
                      s': Scope, t': string, u': string, v': string, w': string)
    requires NoSeparator(t) && NoSeparator(t')
    ensures Key(ToolScope, t, u, v, w) == Key(s', t', u', v', w') <==>
      && s' == ToolScope && t == t' && Sanitize(u', 200) == Sanitize(u, 200)
      && Sanitize(v', 100) == Sanitize(v, 100) && Sanitize(w', 200) == Sanitize(w, 200)
  {
    SameKeySameSegments(ToolScope, t, u, v, w, s', t', u', v', w');
    var a, b := Segments(ToolScope, t, u, v, w), Segments(s', t', u', v', w');
    if a == b {
      assert |a| == |b| && a[1] == b[1] && a[2] == b[2] && a[3] == b[3] && a[4] == b[4];
    }
  }

  lemma JoinStep(a: string, rest: seq<string>)
    requires rest != []
    ensures Join([a] + rest) == a + ":" + Join(rest)
  {
    assert ([a] + rest)[1..] == rest;
  }

  /** What follows the prefix and the tenant. */
  lemma {:induction false} KeyTail(t: string, rest: seq<string>)
    requires rest != []
    ensures Join(["rl"] + ([t] + rest)) == "rl:" + t + ":" + Join(rest)
  {
    JoinStep(t, rest);
    JoinStep("rl", [t] + rest);
    assert "rl" + ":" + (t + ":" + Join(rest)) == "rl:" + t + ":" + Join(rest);
  }

  lemma {:induction false} OnePart(t: string, a: string)
    ensures Join(["rl", t, a]) == "rl:" + t + ":" + a
  {
    KeyTail(t, [a]);
    assert ["rl"] + ([t] + [a]) == ["rl", t, a];
  }

  lemma {:induction false} TwoParts(t: string, a: string, b: string)
    ensures Join(["rl", t, a, b]) == "rl:" + t + ":" + (a + ":" + b)
  {
    JoinStep(a, [b]);
    KeyTail(t, [a] + [b]);
    assert ["rl"] + ([t] + ([a] + [b])) == ["rl", t, a, b];
  }

  lemma {:induction false} ThreeParts(t: string, a: string, b: string, c: string)
    ensures Join(["rl", t, a, b, c]) == "rl:" + t + ":" + (a + ":" + (b + ":" + c))
  {
    JoinStep(b, [c]);
    JoinStep(a, [b] + [c]);
    KeyTail(t, [a] + ([b] + [c]));
    assert ["rl"] + ([t] + ([a] + ([b] + [c]))) == ["rl", t, a, b, c];
  }

  /** Every key starts with the same prefix and the tenant, and its scope decides what follows. */
  lemma {:induction false} KeyLayout(s: Scope, t: string, u: string, v: string, w: string)
    ensures Key(s, t, u, v, w) == "rl:" + t + ":" +
      match s
      case ToolScope => Sanitize(u, 200) + ":" + (Sanitize(v, 100) + ":" + Sanitize(w, 200))
      case ServerScope => Sanitize(u, 200) + ":" + Sanitize(v, 100)
      case SubjectScope => Sanitize(u, 200)
      case GlobalScope => if v == "management_api" then "global" else "global" + ":" + Sanitize(v, 100)
  {
    match s {
      case ToolScope => ThreeParts(t, Sanitize(u, 200), Sanitize(v, 100), Sanitize(w, 200));
      case ServerScope => TwoParts(t, Sanitize(u, 200), Sanitize(v, 100));
      case SubjectScope => OnePart(t, Sanitize(u, 200));
      case GlobalScope =>
        OnePart(t, "global");
        TwoParts(t, "global", Sanitize(v, 100));
    }
  }
}
