/**
 The rate limiter over one Redis store (`RateLimiter` in api/app/limits/redis_bucket.py):
 policy resolution, key and algorithm put together. The main results say that a
 subject-scoped or server-scoped policy is one budget for all the tools it covers.
 */
module RateLimiting {
  import opened Wrappers
  import opened Subjects
  import opened Patterns
  import opened RatePolicies
  import TB = TokenBuckets
  import SW = SlidingWindows

  // ----- one request -----------------------------------------------------------------

  datatype Value = HashValue(bucket: TB.Bucket) | ZSetValue(z: SW.ZSet)

  type Store = map<string, Value>

  /** One proxied call; `member` is the sorted-set member the script would draw. */
  datatype Request = Request(tenant: string, subject: string, subjectType: SubjectType,
                             server: string, tool: string, now: real, member: string)

  /** What stays fixed during a run: the matcher, each tenant's policies, the default. */
  datatype Env = Env(glob: Glob, policies: string -> seq<Policy>, defaultLimit: int, defaultWindow: int) {
    ghost predicate Valid() {
      && defaultLimit > 0 && defaultWindow > 0
      && forall tenant, p :: p in policies(tenant) ==> ValidLimits(p.requestLimit, p.windowSeconds, p.burstCapacity)
    }
  }

  /** The check constraints of the policy table. */
  predicate ValidLimits(limit: int, window: int, burst: Option<int>) {
    limit > 0 && window > 0 && (burst.Some? ==> burst.value > 0)
  }

  function ContextOf(r: Request): Context {
    Context(Some(r.subject), Some(r.subjectType), Some(r.server), Some(r.tool))
  }

  function PlanOf(env: Env, r: Request): EffectivePolicy {
    Resolve(env.glob, ContextOf(r), env.policies(r.tenant), env.defaultLimit, env.defaultWindow)
  }

  function KeyOf(env: Env, r: Request): string {
    Key(PlanOf(env, r).scope, r.tenant, r.subject, r.server, r.tool)
  }

  predicate ValidPlan(e: EffectivePolicy) {
    ValidLimits(e.requestLimit, e.windowSeconds, e.burstCapacity)
  }

  lemma PlansAreValid(env: Env, r: Request)
    requires env.Valid()
    ensures ValidPlan(PlanOf(env, r))
  {
    PlanIsChosen(env, r);
  }

  /** The plan of a request is the tenant's policy for its subject, server and tool. */
  lemma {:induction false} PlanIsChosen(env: Env, r: Request)
    ensures IsResolved(env.glob, Context(Some(r.subject), Some(r.subjectType), Some(r.server), Some(r.tool)),
                       env.policies(r.tenant), env.defaultLimit, env.defaultWindow, PlanOf(env, r))
  {
    ResolveIsChoice(env.glob, ContextOf(r), env.policies(r.tenant), env.defaultLimit, env.defaultWindow);
  }

  /** Without policies, every tool has a token bucket of the default size to itself. */
  lemma NoPolicyMeansDefault(env: Env, r: Request)
    requires env.policies(r.tenant) == []
    ensures PlanOf(env, r)
         == EffectivePolicy(TokenBucket, env.defaultLimit, env.defaultWindow, Some(env.defaultLimit), ToolScope)
  {
    PlanIsChosen(env, r);
  }

  function Capacity(e: EffectivePolicy): int {
    if e.burstCapacity.Some? then e.burstCapacity.value else e.requestLimit
  }

  function BucketConfig(e: EffectivePolicy): (cfg: TB.Config)
    requires ValidPlan(e)
    ensures cfg.Valid()
  {
    TB.PositiveQuotient(e.requestLimit as real, e.windowSeconds as real);
    TB.Config(Capacity(e) as real, e.requestLimit as real / e.windowSeconds as real)
  }

  function WindowConfig(e: EffectivePolicy): (cfg: SW.Config)
    requires ValidPlan(e)
    ensures cfg.Valid()
  {
    SW.Config(e.requestLimit, e.windowSeconds as real)
  }

  // ----- the plan in the policy's own numbers ------------------------------------------------

  /** The tokens that a full bucket holds: the burst if the policy gives one, else the request limit. */
  ghost function Burst(e: EffectivePolicy): int {
    match e.burstCapacity case Some(burst) => burst case None => e.requestLimit
  }

  /** What a plan lets accrue: `requestLimit` calls per `windowSeconds`. */
  ghost function Accrued(e: EffectivePolicy, from: real, to: real): real
    requires ValidPlan(e)
  {
    e.requestLimit as real * (to - from) / e.windowSeconds as real
  }

  lemma QuotientOf(x: real, y: real, q: real)
    requires y > 0.0 && x == q * y
    ensures x / y == q
  {
  }

  lemma {:induction false} ConfigByColumns(e: EffectivePolicy, from: real, to: real)
    requires ValidPlan(e)
    ensures BucketConfig(e).capacity == Burst(e) as real
    ensures TB.Gain(BucketConfig(e), from, to) == Accrued(e, from, to)
    ensures WindowConfig(e).limit == e.requestLimit && WindowConfig(e).window == e.windowSeconds as real
  {
    var limit, window, rate := e.requestLimit as real, e.windowSeconds as real, BucketConfig(e).rate;
    assert rate * window == limit;
    assert limit * (to - from) == (to - from) * rate * window;
    QuotientOf(limit * (to - from), window, (to - from) * rate);
  }

  /** At most the burst and what accrues between two times. */
  ghost predicate WithinBudget(e: EffectivePolicy, admitted: nat, from: real, to: real)
    requires ValidPlan(e)
  {
    admitted as real <= Burst(e) as real + Accrued(e, from, to)
  }

  /** WrongType is Redis refusing a hash command on a sorted set, or the reverse. */
  datatype Verdict = Allowed | Denied | WrongType

  function BucketAt(store: Store, key: string): Option<TB.Bucket> {
    if key in store && store[key].HashValue? then Some(store[key].bucket) else None
  }

  function ZSetAt(store: Store, key: string): SW.ZSet {
    if key in store && store[key].ZSetValue? then store[key].z else map[]
  }

  /** The step that a call of the scripts takes on the store. */
  function Serve(store: Store, key: string, e: EffectivePolicy, call: SW.Call): (Store, Verdict)
    requires ValidPlan(e)
  {
    if e.algorithm == TokenBucket then
      if key in store && !store[key].HashValue? then (store, WrongType)
      else
        var b := BucketAt(store, key);
        (store[key := HashValue(TB.Take(BucketConfig(e), b, call.now))],
         if TB.Admits(BucketConfig(e), b, call.now) then Allowed else Denied)
    else
      if key in store && !store[key].ZSetValue? then (store, WrongType)
      else
        var z := ZSetAt(store, key);
        (store[key := ZSetValue(SW.Insert(WindowConfig(e), z, call))],
         if SW.Admits(WindowConfig(e), z, call.now) then Allowed else Denied)
  }

  datatype RateLimitResult = RateLimitResult(allowed: bool, limit: int, remaining: int, resetAfter: real,
                                             retryAfter: real)

  /** What a check returns: the script's answer with the limit that it counts against, and no wait
      after an admission; None is the error of a key of the other type. */
  ghost function Result(store: Store, key: string, e: EffectivePolicy, call: SW.Call): (r: Option<RateLimitResult>)
    requires ValidPlan(e)
    ensures r.None? <==> Serve(store, key, e, call).1 == WrongType
    ensures r.Some? ==> (r.value.allowed <==> Serve(store, key, e, call).1 == Allowed)
  {
    if Serve(store, key, e, call).1 == WrongType then None
    else if e.algorithm == TokenBucket then
      var reply := TB.Reply(BucketConfig(e), BucketAt(store, key), call.now);
      Some(RateLimitResult(reply.allowed, Capacity(e), reply.remaining, reply.resetAfter,
                           if reply.allowed then 0.0 else reply.resetAfter))
    else
      var reply := SW.Reply(WindowConfig(e), ZSetAt(store, key), call);
      Some(RateLimitResult(reply.allowed, e.requestLimit, reply.remaining, reply.resetAfter,
                           if reply.allowed then 0.0 else reply.resetAfter))
  }

  /** The bucket step in the policy's numbers: what accrued since the last call, up to the burst, pays for
      the call if it comes to one token. */
  lemma {:induction false} BucketStepByColumns(store: Store, key: string, e: EffectivePolicy, call: SW.Call)
    requires ValidPlan(e) && e.algorithm == TokenBucket && (key in store ==> store[key].HashValue?)
    ensures
      var burst, now := Burst(e) as real, call.now;
      var gathered := if key in store
                      then store[key].bucket.tokens + Accrued(e, store[key].bucket.lastRefill, now) else burst;
      var tokens := if gathered <= burst then gathered else burst;
      Serve(store, key, e, call)
      == if tokens >= 1.0 then (store[key := HashValue(TB.Bucket(tokens - 1.0, now))], Allowed)
         else (store[key := HashValue(TB.Bucket(tokens, now))], Denied)
  {
    ConfigByColumns(e, if key in store then store[key].bucket.lastRefill else call.now, call.now);
  }

  /** The window step: entries of the last `windowSeconds` count against `requestLimit`. */
  lemma WindowStepByColumns(store: Store, key: string, e: EffectivePolicy, call: SW.Call)
    requires ValidPlan(e) && e.algorithm == SlidingWindow && (key in store ==> store[key].ZSetValue?)
    ensures
      var z: SW.ZSet := if key in store then store[key].z else map[];
      var live := map m | m in z && z[m] > call.now - e.windowSeconds as real :: z[m];
      Serve(store, key, e, call)
      == if |live| < e.requestLimit then (store[key := ZSetValue(live[call.member := call.now])], Allowed)
         else (store[key := ZSetValue(live)], Denied)
  {
  }

  /** The other side of the budget: a call is admitted when its key has been idle for as long as one
      call takes to accrue. */
  lemma {:induction false} IdleBucketAdmits(store: Store, key: string, e: EffectivePolicy, call: SW.Call)
    requires ValidPlan(e) && e.algorithm == TokenBucket && key in store && store[key].HashValue?
    requires store[key].bucket.tokens >= 0.0
    requires e.requestLimit as real * (call.now - store[key].bucket.lastRefill) >= e.windowSeconds as real
    ensures Serve(store, key, e, call).1 == Allowed
  {
    AccruesOne(e, store[key].bucket.lastRefill, call.now);
    BucketStepByColumns(store, key, e, call);
  }

  lemma {:induction false} AccruesOne(e: EffectivePolicy, from: real, to: real)
    requires ValidPlan(e) && e.requestLimit as real * (to - from) >= e.windowSeconds as real
    ensures Accrued(e, from, to) >= 1.0
  {
    AtLeastOne(e.requestLimit as real * (to - from), e.windowSeconds as real);
  }

  lemma AtLeastOne(x: real, y: real)
    requires x >= y > 0.0
    ensures x / y >= 1.0
  {
    assert x / y * y == x;
  }

  lemma {:induction false} IdleWindowAdmits(store: Store, key: string, e: EffectivePolicy, call: SW.Call)
    requires ValidPlan(e) && e.algorithm == SlidingWindow && key in store && store[key].ZSetValue?
    requires forall m :: m in store[key].z ==> call.now - store[key].z[m] >= e.windowSeconds as real
    ensures Serve(store, key, e, call).1 == Allowed
  {
    WindowStepByColumns(store, key, e, call);
    var z := store[key].z;
    assert (map m | m in z && z[m] > call.now - e.windowSeconds as real :: z[m]) == map[];
  }

  /** The limit that an answer reports: the burst for a bucket, the request limit for a window; and no wait
      after an admission. */
  lemma ReportedLimit(store: Store, key: string, e: EffectivePolicy, call: SW.Call)
    requires ValidPlan(e) && Result(store, key, e, call).Some?
    ensures
      var r := Result(store, key, e, call).value;
      && r.limit == (if e.algorithm == TokenBucket then Burst(e) else e.requestLimit)
      && r.retryAfter == (if r.allowed then 0.0 else r.resetAfter)
  {
  }

  /** The score of ZRANGE key 0 0 WITHSCORES. */
  method OldestScore(z: SW.ZSet) returns (score: real)
    requires z != map[]
    ensures score == SW.MinScore(z)
  {
    var m :| m in z;
    score := z[m];
    var rest := z.Keys - {m};
    while rest != {}
      invariant rest <= z.Keys
      invariant exists k :: k in z && z[k] == score
      invariant forall k :: k in z && k !in rest ==> score <= z[k]
      decreases rest
    {
      var k :| k in rest;
      if z[k] < score {
        score := z[k];
      }
      rest := rest - {k};
    }
  }

  method ResetAfter(live: SW.ZSet, window: real, now: real) returns (seconds: real)
    ensures seconds == SW.TimeToReset(live, window, now)
  {
    seconds := 0.0;
    if live != map[] {
      var oldest := OldestScore(live);
      seconds := SW.Max(0.0, oldest + window - now);
    }
  }

  /** The token bucket script on its key. */
  method TokenBucketScript(cfg: TB.Config, bucket: Option<TB.Bucket>, now: real)
    returns (bucket': TB.Bucket, reply: TB.Answer)
    requires cfg.Valid()
    ensures bucket' == TB.Take(cfg, bucket, now) && reply == TB.Reply(cfg, bucket, now)
  {
    var tokens, lastRefill := cfg.capacity, now;
    if bucket.Some? {
      tokens, lastRefill := bucket.value.tokens, bucket.value.lastRefill;
    }
    var elapsed := now - lastRefill;
    TB.GainLaws(cfg, now, now, now);
    tokens := TB.Min(cfg.capacity, tokens + elapsed * cfg.rate);
    assert tokens == TB.Refilled(cfg, bucket, now);
    var allowed := false;
    var remaining := TB.Max(0.0, tokens - 1.0);
    if tokens >= 1.0 {
      allowed := true;
      tokens := tokens - 1.0;
    }
    bucket' := TB.Bucket(tokens, now);
    reply := TB.Answer(allowed, remaining.Floor, (cfg.capacity - tokens) / cfg.rate);
  }

  /** The sliding window script on its key. */
  method SlidingWindowScript(cfg: SW.Config, z: SW.ZSet, call: SW.Call) returns (live: SW.ZSet, reply: SW.Answer)
    ensures live == SW.Insert(cfg, z, call) && reply == SW.Reply(cfg, z, call)
  {
    live := SW.Trim(z, call.now - cfg.window);
    var count := |live|;
    var allowed := false;
    var remaining := if cfg.limit - count - 1 >= 0 then cfg.limit - count - 1 else 0;
    if count < cfg.limit {
      allowed := true;
      live := live[call.member := call.now];
    }
    var resetAfter := ResetAfter(live, cfg.window, call.now);
    reply := SW.Answer(allowed, remaining, resetAfter);
  }

  /** The limiter as the router holds it: an atomic script call per check. */
  class RateLimiter {
    var store: Store

    constructor ()
      ensures store == map[]
    {
      store := map[];
    }

    method CheckTokenBucket(key: string, policy: EffectivePolicy, now: real) returns (r: Option<RateLimitResult>)
      requires ValidPlan(policy) && policy.algorithm == TokenBucket
      modifies this
      ensures store == Serve(old(store), key, policy, SW.Call(now, "")).0
      ensures r == Result(old(store), key, policy, SW.Call(now, ""))
    {
      if key in store && !store[key].HashValue? {
        return None;
      }
      var bucket, reply := TokenBucketScript(BucketConfig(policy), BucketAt(store, key), now);
      store := store[key := HashValue(bucket)];
      r := Some(RateLimitResult(reply.allowed, Capacity(policy), reply.remaining, reply.resetAfter,
                                if reply.allowed then 0.0 else reply.resetAfter));
    }

    method CheckSlidingWindow(key: string, policy: EffectivePolicy, call: SW.Call) returns (r: Option<RateLimitResult>)
      requires ValidPlan(policy) && policy.algorithm == SlidingWindow
      modifies this
      ensures store == Serve(old(store), key, policy, call).0
      ensures r == Result(old(store), key, policy, call)
    {
      if key in store && !store[key].ZSetValue? {
        return None;
      }
      var live, reply := SlidingWindowScript(WindowConfig(policy), ZSetAt(store, key), call);
      store := store[key := ZSetValue(live)];
      r := Some(RateLimitResult(reply.allowed, policy.requestLimit, reply.remaining, reply.resetAfter,
                                if reply.allowed then 0.0 else reply.resetAfter));
    }

    /** `check`: the key follows the scope, the script follows the algorithm. */
    method Check(env: Env, req: Request) returns (r: Option<RateLimitResult>)
      requires env.Valid()
      modifies this
      ensures ValidPlan(PlanOf(env, req))
      ensures store == Step(env, old(store), req).0
      ensures r == Result(old(store), KeyOf(env, req), PlanOf(env, req), SW.Call(req.now, req.member))
      ensures forall k :: k != KeyOf(env, req) ==>
        (k in store <==> k in old(store)) && (k in store ==> store[k] == old(store)[k])
    {
      PlansAreValid(env, req);
      var policy, key := PlanOf(env, req), KeyOf(env, req);
      if policy.algorithm == TokenBucket {
        r := CheckTokenBucket(key, policy, req.now);
      } else {
        r := CheckSlidingWindow(key, policy, SW.Call(req.now, req.member));
      }
    }
  }

  // ----- runs over the shared store -------------------------------------------------------

  function Step(env: Env, store: Store, r: Request): (Store, Verdict)
    requires ValidPlan(PlanOf(env, r))
  {
    Serve(store, KeyOf(env, r), PlanOf(env, r), SW.Call(r.now, r.member))
  }

  ghost predicate ValidRun(env: Env, reqs: seq<Request>) {
    forall i :: 0 <= i < |reqs| ==> ValidPlan(PlanOf(env, reqs[i]))
  }

  ghost function StoreAfter(env: Env, store: Store, reqs: seq<Request>): Store
    requires ValidRun(env, reqs)
  {
    if reqs == [] then store
    else Step(env, StoreAfter(env, store, reqs[..|reqs| - 1]), reqs[|reqs| - 1]).0
  }

  /** Whether the last request of a run is admitted. */
  ghost predicate LastAdmitted(env: Env, store: Store, reqs: seq<Request>)
    requires ValidRun(env, reqs) && reqs != []
  {
    Step(env, StoreAfter(env, store, reqs[..|reqs| - 1]), reqs[|reqs| - 1]).1 == Allowed
  }

  /** The admissions of a run among the requests that `counted` picks out. */
  ghost function Admitted(env: Env, store: Store, reqs: seq<Request>, counted: Request -> bool): nat
    requires ValidRun(env, reqs)
  {
    if reqs == [] then 0
    else
      var n := |reqs| - 1;
      Admitted(env, store, reqs[..n], counted) + (if counted(reqs[n]) && LastAdmitted(env, store, reqs) then 1 else 0)
  }

  function Times(reqs: seq<Request>, counted: Request -> bool): seq<real> {
    if reqs == [] then []
    else
      var n := |reqs| - 1;
      Times(reqs[..n], counted) + (if counted(reqs[n]) then [reqs[n].now] else [])
  }

  /** The requests picked out are exactly those on the key, and they share one plan. */
  ghost predicate OneBudget(env: Env, reqs: seq<Request>, counted: Request -> bool, key: string, e: EffectivePolicy) {
    forall i :: 0 <= i < |reqs| ==>
      && (counted(reqs[i]) <==> KeyOf(env, reqs[i]) == key)
      && (counted(reqs[i]) ==> PlanOf(env, reqs[i]) == e)
  }

  ghost predicate BucketKey(store: Store, key: string) {
    key in store ==> store[key].HashValue?
  }

  /** A request on the key takes from the bucket; any other leaves it alone. */
  lemma StepOnKey(env: Env, store: Store, r: Request, key: string, e: EffectivePolicy)
    requires ValidPlan(PlanOf(env, r)) && ValidPlan(e) && e.algorithm == TokenBucket && BucketKey(store, key)
    requires KeyOf(env, r) == key ==> PlanOf(env, r) == e
    ensures
      var (store', v) := Step(env, store, r);
      && BucketKey(store', key)
      && (KeyOf(env, r) != key ==> BucketAt(store', key) == BucketAt(store, key))
      && (KeyOf(env, r) == key ==> BucketAt(store', key) == Some(TB.Take(BucketConfig(e), BucketAt(store, key), r.now))
                                   && (v == Allowed <==> TB.Admits(BucketConfig(e), BucketAt(store, key), r.now)))
  {
  }

  /** After the run, the key and the count are those of a plain bucket run. */
  ghost predicate SeesBucketRun(env: Env, store: Store, reqs: seq<Request>, counted: Request -> bool,
                                key: string, e: EffectivePolicy)
    requires ValidRun(env, reqs) && ValidPlan(e)
  {
    var cfg, b, times := BucketConfig(e), BucketAt(store, key), Times(reqs, counted);
    var after := StoreAfter(env, store, reqs);
    && BucketKey(after, key)
    && BucketAt(after, key) == TB.After(cfg, b, times)
    && Admitted(env, store, reqs, counted) == TB.Admissions(cfg, b, times)
  }

  lemma {:induction false} CountedRequest(env: Env, store: Store, reqs: seq<Request>, counted: Request -> bool,
                                          key: string, e: EffectivePolicy)
    requires ValidRun(env, reqs) && ValidPlan(e) && e.algorithm == TokenBucket && reqs != []
    requires SeesBucketRun(env, store, reqs[..|reqs| - 1], counted, key, e)
    requires counted(reqs[|reqs| - 1]) && KeyOf(env, reqs[|reqs| - 1]) == key && PlanOf(env, reqs[|reqs| - 1]) == e
    ensures SeesBucketRun(env, store, reqs, counted, key, e)
    ensures LastAdmitted(env, store, reqs) ==>
      TB.AdmitsAt(BucketConfig(e), BucketAt(store, key), Times(reqs, counted), |Times(reqs, counted)| - 1)
  {
    var n := |reqs| - 1;
    var prefix, times := reqs[..n], Times(reqs, counted);
    StepOnKey(env, StoreAfter(env, store, prefix), reqs[n], key, e);
    assert times[..|times| - 1] == Times(prefix, counted) && times[|times| - 1] == reqs[n].now;
  }

  lemma {:induction false} OtherRequest(env: Env, store: Store, reqs: seq<Request>, counted: Request -> bool,
                                        key: string, e: EffectivePolicy)
    requires ValidRun(env, reqs) && ValidPlan(e) && e.algorithm == TokenBucket && reqs != []
    requires SeesBucketRun(env, store, reqs[..|reqs| - 1], counted, key, e)
    requires !counted(reqs[|reqs| - 1]) && KeyOf(env, reqs[|reqs| - 1]) != key
    ensures SeesBucketRun(env, store, reqs, counted, key, e)
  {
    var n := |reqs| - 1;
    StepOnKey(env, StoreAfter(env, store, reqs[..n]), reqs[n], key, e);
    assert Times(reqs, counted) == Times(reqs[..n], counted);
  }

  /** However the requests of other keys interleave, the key sees a plain bucket run. */
  lemma {:induction false} KeyIsOneBucket(env: Env, store: Store, reqs: seq<Request>, counted: Request -> bool,
                                          key: string, e: EffectivePolicy)
    requires ValidRun(env, reqs) && OneBudget(env, reqs, counted, key, e)
    requires ValidPlan(e) && e.algorithm == TokenBucket && BucketKey(store, key)
    ensures SeesBucketRun(env, store, reqs, counted, key, e)
    decreases |reqs|
  {
    if reqs != [] {
      var n := |reqs| - 1;
      KeyIsOneBucket(env, store, reqs[..n], counted, key, e);
      if counted(reqs[n]) {
        CountedRequest(env, store, reqs, counted, key, e);
      } else {
        OtherRequest(env, store, reqs, counted, key, e);
      }
    }
  }

  /** The bucket bound for everything that shares the key. */
  lemma {:induction false} BudgetBound(env: Env, store: Store, reqs: seq<Request>, counted: Request -> bool,
                                       key: string, e: EffectivePolicy)
    requires ValidRun(env, reqs) && OneBudget(env, reqs, counted, key, e)
    requires ValidPlan(e) && e.algorithm == TokenBucket && BucketKey(store, key)
    requires reqs != [] && counted(reqs[|reqs| - 1]) && LastAdmitted(env, store, reqs)
    ensures Times(reqs, counted) != []
    ensures WithinBudget(e, Admitted(env, store, reqs, counted), Times(reqs, counted)[0], reqs[|reqs| - 1].now)
  {
    var n := |reqs| - 1;
    var cfg, b, times := BucketConfig(e), BucketAt(store, key), Times(reqs, counted);
    KeyIsOneBucket(env, store, reqs[..n], counted, key, e);
    CountedRequest(env, store, reqs, counted, key, e);
    assert times[|times| - 1] == reqs[n].now;
    TB.NeverOverAdmits(cfg, b, times);
    ConfigByColumns(e, times[0], reqs[n].now);
  }

  /** The requests of one subject that resolve to a subject-scoped policy. */
  predicate SubjectBudget(env: Env, tenant: string, subject: string, r: Request) {
    r.tenant == tenant && r.subject == subject && PlanOf(env, r).scope == SubjectScope
  }

  function OfSubject(env: Env, r: Request): Request -> bool {
    x => SubjectBudget(env, r.tenant, r.subject, x)
  }

  /** Sanitising keeps the tenant's subjects apart, none of them reads "global", and a
      subject has one identity type. */
  ghost predicate SubjectsDistinct(reqs: seq<Request>, r: Request) {
    && Sanitize(r.subject, 200) != "global"
    && NoSeparator(r.tenant)
    && forall i :: 0 <= i < |reqs| ==>
         && NoSeparator(reqs[i].tenant)
         && (reqs[i].tenant == r.tenant && Sanitize(reqs[i].subject, 200) == Sanitize(r.subject, 200) ==>
               reqs[i].subject == r.subject && reqs[i].subjectType == r.subjectType)
  }

  lemma ScopeIsLevel(env: Env, r: Request, level: int)
    requires level == 1 || level == 2
    requires PlanOf(env, r).scope == ScopeForLevel(level)
    ensures
      var best := BestPolicy(env.glob, ContextOf(r), env.policies(r.tenant));
      best.Some? && SelectorLevel(best.value) == level && PlanOf(env, r) == Effective(best.value)
  {
  }

  lemma SubjectBudgetIsOneKey(env: Env, reqs: seq<Request>, r: Request)
    requires SubjectBudget(env, r.tenant, r.subject, r) && SubjectsDistinct(reqs, r)
    ensures OneBudget(env, reqs, OfSubject(env, r), KeyOf(env, r), PlanOf(env, r))
  {
    forall i | 0 <= i < |reqs|
      ensures SubjectBudget(env, r.tenant, r.subject, reqs[i]) <==> KeyOf(env, reqs[i]) == KeyOf(env, r)
      ensures SubjectBudget(env, r.tenant, r.subject, reqs[i]) ==> PlanOf(env, reqs[i]) == PlanOf(env, r)
    {
      var x := reqs[i];
      SubjectKeyOwners(r.tenant, r.subject, r.server, r.tool,
                       PlanOf(env, x).scope, x.tenant, x.subject, x.server, x.tool);
      if SubjectBudget(env, r.tenant, r.subject, x) {
        ScopeIsLevel(env, r, 2);
        ScopeIsLevel(env, x, 2);
        OnePolicyPerLevel(env.glob, env.policies(r.tenant), 2, ContextOf(r), ContextOf(x));
      }
    }
  }

  /** A subject-scoped token-bucket policy is one budget: in any run of requests by any
      tenants, subjects, servers and tools, the subject's admissions under the policy,
      summed over all servers and tools and counted up to an admitted one at time t, number at
      most the policy's burst + its request limit * (t - time of the first) / its window. */
  lemma {:induction false} SharedSubjectBudget(env: Env, store: Store, reqs: seq<Request>)
    requires env.Valid() && reqs != []
    requires
      var r := reqs[|reqs| - 1];
      && SubjectBudget(env, r.tenant, r.subject, r) && SubjectsDistinct(reqs, r)
      && PlanOf(env, r).algorithm == TokenBucket && BucketKey(store, KeyOf(env, r))
    requires ValidRun(env, reqs) && LastAdmitted(env, store, reqs)
    ensures
      var r := reqs[|reqs| - 1];
      var counted := OfSubject(env, r);
      && Times(reqs, counted) != []
      && WithinBudget(PlanOf(env, r), Admitted(env, store, reqs, counted), Times(reqs, counted)[0], r.now)
  {
    var r := reqs[|reqs| - 1];
    SubjectBudgetIsOneKey(env, reqs, r);
    BudgetBound(env, store, reqs, OfSubject(env, r), KeyOf(env, r), PlanOf(env, r));
  }

  /** The requests of one subject to one server that resolve to a server-scoped policy. */
  predicate ServerBudget(env: Env, tenant: string, subject: string, server: string, r: Request) {
    r.tenant == tenant && r.subject == subject && r.server == server && PlanOf(env, r).scope == ServerScope
  }

  function OfServer(env: Env, r: Request): Request -> bool {
    x => ServerBudget(env, r.tenant, r.subject, r.server, x)
  }

  ghost predicate ServersDistinct(reqs: seq<Request>, r: Request) {
    forall i :: 0 <= i < |reqs| && Sanitize(reqs[i].server, 100) == Sanitize(r.server, 100) ==>
      reqs[i].server == r.server
  }

  lemma ServerBudgetIsOneKey(env: Env, reqs: seq<Request>, r: Request)
    requires ServerBudget(env, r.tenant, r.subject, r.server, r) && SubjectsDistinct(reqs, r)
    requires ServersDistinct(reqs, r)
    ensures OneBudget(env, reqs, OfServer(env, r), KeyOf(env, r), PlanOf(env, r))
  {
    forall i | 0 <= i < |reqs|
      ensures ServerBudget(env, r.tenant, r.subject, r.server, reqs[i]) <==> KeyOf(env, reqs[i]) == KeyOf(env, r)
      ensures ServerBudget(env, r.tenant, r.subject, r.server, reqs[i]) ==> PlanOf(env, reqs[i]) == PlanOf(env, r)
    {
      var x := reqs[i];
      ServerKeyOwners(r.tenant, r.subject, r.server, r.tool,
                      PlanOf(env, x).scope, x.tenant, x.subject, x.server, x.tool);
      if ServerBudget(env, r.tenant, r.subject, r.server, x) {
        ScopeIsLevel(env, r, 1);
        ScopeIsLevel(env, x, 1);
        OnePolicyPerLevel(env.glob, env.policies(r.tenant), 1, ContextOf(r), ContextOf(x));
      }
    }
  }

  /** A server-scoped token-bucket policy is one budget per subject and server, over all
      the server's tools. */
  lemma {:induction false} SharedServerBudget(env: Env, store: Store, reqs: seq<Request>)
    requires env.Valid() && reqs != []
    requires
      var r := reqs[|reqs| - 1];
      && ServerBudget(env, r.tenant, r.subject, r.server, r) && SubjectsDistinct(reqs, r) && ServersDistinct(reqs, r)
      && PlanOf(env, r).algorithm == TokenBucket && BucketKey(store, KeyOf(env, r))
    requires ValidRun(env, reqs) && LastAdmitted(env, store, reqs)
    ensures
      var r := reqs[|reqs| - 1];
      var counted := OfServer(env, r);
      && Times(reqs, counted) != []
      && WithinBudget(PlanOf(env, r), Admitted(env, store, reqs, counted), Times(reqs, counted)[0], r.now)
  {
    var r := reqs[|reqs| - 1];
    ServerBudgetIsOneKey(env, reqs, r);
    BudgetBound(env, store, reqs, OfServer(env, r), KeyOf(env, r), PlanOf(env, r));
  }

  // ----- sliding windows over the shared store ----------------------------------------------

  ghost predicate WindowKey(store: Store, key: string) {
    key in store ==> store[key].ZSetValue?
  }

  /** What the key's script sees of a run. */
  function Calls(reqs: seq<Request>, counted: Request -> bool): seq<SW.Call> {
    if reqs == [] then []
    else (if counted(reqs[0]) then [SW.Call(reqs[0].now, reqs[0].member)] else []) + Calls(reqs[1..], counted)
  }

  /** The times at which a run admits the requests that `counted` picks out. */
  ghost function AdmittedTimes(env: Env, store: Store, reqs: seq<Request>, counted: Request -> bool): seq<real>
    requires ValidRun(env, reqs)
    decreases |reqs|
  {
    if reqs == [] then []
    else TimeOf(env, store, reqs[0], counted) + AdmittedTimes(env, Step(env, store, reqs[0]).0, reqs[1..], counted)
  }

  /** The time of one request, if it is picked out and admitted. */
  function TimeOf(env: Env, store: Store, r: Request, counted: Request -> bool): seq<real>
    requires ValidPlan(PlanOf(env, r))
  {
    if counted(r) && Step(env, store, r).1 == Allowed then [r.now] else []
  }

  /** A request on the key goes through the window; any other leaves it alone. */
  lemma WindowStepOnKey(env: Env, store: Store, r: Request, key: string, e: EffectivePolicy)
    requires ValidPlan(PlanOf(env, r)) && ValidPlan(e) && e.algorithm == SlidingWindow && WindowKey(store, key)
    requires KeyOf(env, r) == key ==> PlanOf(env, r) == e
    ensures
      var (store', v) := Step(env, store, r);
      && WindowKey(store', key)
      && (KeyOf(env, r) != key ==> ZSetAt(store', key) == ZSetAt(store, key))
      && (KeyOf(env, r) == key ==>
            && ZSetAt(store', key) == SW.Insert(WindowConfig(e), ZSetAt(store, key), SW.Call(r.now, r.member))
            && (v == Allowed <==> SW.Admits(WindowConfig(e), ZSetAt(store, key), r.now)))
  {
  }

  /** However the requests of other keys interleave, the key sees a plain window run. */
  lemma {:induction false} KeyIsOneWindow(env: Env, store: Store, reqs: seq<Request>, counted: Request -> bool,
                                          key: string, e: EffectivePolicy)
    requires ValidRun(env, reqs) && OneBudget(env, reqs, counted, key, e)
    requires ValidPlan(e) && e.algorithm == SlidingWindow && WindowKey(store, key)
    ensures
      var calls := Calls(reqs, counted);
      var verdicts := SW.Verdicts(WindowConfig(e), ZSetAt(store, key), calls);
      |verdicts| == |calls| && AdmittedTimes(env, store, reqs, counted) == SW.AdmittedTimes(verdicts, calls)
    decreases |reqs|
  {
    if reqs != [] {
      var store' := Step(env, store, reqs[0]).0;
      WindowStepOnKey(env, store, reqs[0], key, e);
      assert OneBudget(env, reqs[1..], counted, key, e);
      KeyIsOneWindow(env, store', reqs[1..], counted, key, e);
      var calls := Calls(reqs, counted);
      if counted(reqs[0]) {
        assert calls[1..] == Calls(reqs[1..], counted);
        var verdicts := SW.Verdicts(WindowConfig(e), ZSetAt(store, key), calls);
        assert verdicts[1..] == SW.Verdicts(WindowConfig(e), ZSetAt(store', key), calls[1..]);
      } else {
        assert calls == Calls(reqs[1..], counted);
      }
    }
  }

  /** A clock that does not go back, and members that do not repeat within a window, nor one that the key
      holds to begin with. */
  ghost predicate Orderly(cfg: SW.Config, z: SW.ZSet, calls: seq<SW.Call>) {
    SW.NonDecreasing(calls) && SW.DistinctMembers(cfg, calls) && SW.Fresh(cfg, z, calls)
  }

  /** At most `requestLimit` of the times lie in the `windowSeconds` that start at `start`. */
  ghost predicate KeepsLimit(e: EffectivePolicy, times: seq<real>, start: real) {
    SW.Within(times, start, start + e.windowSeconds as real) <= e.requestLimit
  }

  lemma OrderlyKeepsLimit(e: EffectivePolicy, z: SW.ZSet, calls: seq<SW.Call>, start: real)
    requires ValidPlan(e) && Orderly(WindowConfig(e), z, calls)
    ensures |SW.Verdicts(WindowConfig(e), z, calls)| == |calls|
    ensures KeepsLimit(e, SW.AdmittedTimes(SW.Verdicts(WindowConfig(e), z, calls), calls), start)
  {
    SW.NoWindowOverfills(WindowConfig(e), z, calls, start);
  }

  /** The window bound for everything that shares the key. */
  lemma {:induction false} WindowBound(env: Env, store: Store, reqs: seq<Request>, counted: Request -> bool,
                                       key: string, e: EffectivePolicy, start: real)
    requires ValidRun(env, reqs) && OneBudget(env, reqs, counted, key, e)
    requires ValidPlan(e) && e.algorithm == SlidingWindow && WindowKey(store, key)
    requires Orderly(WindowConfig(e), ZSetAt(store, key), Calls(reqs, counted))
    ensures KeepsLimit(e, AdmittedTimes(env, store, reqs, counted), start)
  {
    KeyIsOneWindow(env, store, reqs, counted, key, e);
    OrderlyKeepsLimit(e, ZSetAt(store, key), Calls(reqs, counted), start);
  }

  /** A subject-scoped sliding-window policy is one budget: wherever a window starts, the subject's
      admissions under the policy, over all servers and tools, number at most `limit` inside it. */
  lemma {:induction false} SharedSubjectWindow(env: Env, store: Store, reqs: seq<Request>, r: Request, start: real)
    requires env.Valid() && ValidRun(env, reqs) && ValidPlan(PlanOf(env, r))
    requires SubjectBudget(env, r.tenant, r.subject, r) && SubjectsDistinct(reqs, r)
    requires PlanOf(env, r).algorithm == SlidingWindow && WindowKey(store, KeyOf(env, r))
    requires Orderly(WindowConfig(PlanOf(env, r)), ZSetAt(store, KeyOf(env, r)), Calls(reqs, OfSubject(env, r)))
    ensures KeepsLimit(PlanOf(env, r), AdmittedTimes(env, store, reqs, OfSubject(env, r)), start)
  {
    SubjectBudgetIsOneKey(env, reqs, r);
    WindowBound(env, store, reqs, OfSubject(env, r), KeyOf(env, r), PlanOf(env, r), start);
  }

  /** The same for a server-scoped policy, per subject and server, over all the server's tools. */
  lemma {:induction false} SharedServerWindow(env: Env, store: Store, reqs: seq<Request>, r: Request, start: real)
    requires env.Valid() && ValidRun(env, reqs) && ValidPlan(PlanOf(env, r))
    requires ServerBudget(env, r.tenant, r.subject, r.server, r) && SubjectsDistinct(reqs, r)
    requires ServersDistinct(reqs, r)
    requires PlanOf(env, r).algorithm == SlidingWindow && WindowKey(store, KeyOf(env, r))
    requires Orderly(WindowConfig(PlanOf(env, r)), ZSetAt(store, KeyOf(env, r)), Calls(reqs, OfServer(env, r)))
    ensures KeepsLimit(PlanOf(env, r), AdmittedTimes(env, store, reqs, OfServer(env, r)), start)
  {
    ServerBudgetIsOneKey(env, reqs, r);
    WindowBound(env, store, reqs, OfServer(env, r), KeyOf(env, r), PlanOf(env, r), start);
  }
}
