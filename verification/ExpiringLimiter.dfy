/**
 The rate limiter over a store that expires keys, as both scripts ask it to. On a clock that
 does not go back the shared budgets hold there too, because no call on a key that always has
 one plan can tell the difference.
 */
module ExpiringLimits {
  import opened Wrappers
  import opened RatePolicies
  import opened RateLimiting
  import TB = TokenBuckets
  import SW = SlidingWindows

  datatype Held = Held(value: Value, expiresAt: real)

  type ExpiringStore = map<string, Held>

  /** What the scripts see: keys past their time to live are gone. */
  function Visible(xs: ExpiringStore, now: real): Store {
    map key | key in xs && now < xs[key].expiresAt :: xs[key].value
  }

  /** The same keys in a store that never forgets. */
  function Eternal(xs: ExpiringStore): Store {
    map key | key in xs :: xs[key].value
  }

  /** One check. The bucket script renews the expiry on every call, the window script on admissions. */
  function ExpiringStep(env: Env, xs: ExpiringStore, r: Request): (ExpiringStore, Verdict)
    requires ValidPlan(PlanOf(env, r))
  {
    var (store, v) := Step(env, Visible(xs, r.now), r);
    var key, e := KeyOf(env, r), PlanOf(env, r);
    if v == WrongType then (xs, v)
    else if e.algorithm == TokenBucket then (xs[key := Held(store[key], r.now + BucketConfig(e).Ttl())], v)
    else if v == Allowed then (xs[key := Held(store[key], r.now + WindowConfig(e).window)], v)
    else if key in xs then (xs[key := Held(store[key], xs[key].expiresAt)], v)
    else (xs, v)
  }

  /** The times at which a run admits the requests that `counted` picks out. */
  ghost function ExpiringTimes(env: Env, xs: ExpiringStore, reqs: seq<Request>, counted: Request -> bool): seq<real>
    requires ValidRun(env, reqs)
    decreases |reqs|
  {
    if reqs == [] then []
    else
      var (xs', v) := ExpiringStep(env, xs, reqs[0]);
      (if counted(reqs[0]) && v == Allowed then [reqs[0].now] else []) + ExpiringTimes(env, xs', reqs[1..], counted)
  }

  /** The clock does not go back between the requests that `counted` picks out. */
  ghost predicate Chronological(reqs: seq<Request>, counted: Request -> bool) {
    forall i, j :: 0 <= i < j < |reqs| && counted(reqs[i]) && counted(reqs[j]) ==> reqs[i].now <= reqs[j].now
  }

  ghost predicate NotBefore(reqs: seq<Request>, counted: Request -> bool, since: real) {
    forall i :: 0 <= i < |reqs| && counted(reqs[i]) ==> since <= reqs[i].now
  }

  lemma ChronologicalTail(reqs: seq<Request>, counted: Request -> bool)
    requires reqs != [] && Chronological(reqs, counted)
    ensures Chronological(reqs[1..], counted)
    ensures counted(reqs[0]) ==> NotBefore(reqs[1..], counted, reqs[0].now)
  {
  }

  // ----- token buckets -----------------------------------------------------------------------

  function HeldBucket(xs: ExpiringStore, key: string): Option<TB.Stored> {
    if key in xs && xs[key].value.HashValue? then Some(TB.Stored(xs[key].value.bucket, xs[key].expiresAt)) else None
  }

  /** The expiring key holds the bucket that the eternal one does, last touched by `since`. */
  ghost predicate BucketsAgree(e: EffectivePolicy, xs: ExpiringStore, store: Store, key: string, since: real)
    requires ValidPlan(e)
  {
    && (key in xs ==> xs[key].value.HashValue?) && BucketKey(store, key)
    && TB.Mirrors(BucketConfig(e), HeldBucket(xs, key), BucketAt(store, key))
    && (BucketAt(store, key).Some? ==> BucketAt(store, key).value.lastRefill <= since)
  }

  lemma BucketVisible(xs: ExpiringStore, key: string, now: real)
    requires key in xs ==> xs[key].value.HashValue?
    ensures BucketAt(Visible(xs, now), key) == TB.Visible(HeldBucket(xs, key), now)
    ensures BucketKey(Visible(xs, now), key)
  {
  }

  /** A call on the key is answered alike, and leaves the keys alike. */
  lemma BucketCall(env: Env, xs: ExpiringStore, store: Store, r: Request, key: string, e: EffectivePolicy, since: real)
    requires ValidPlan(e) && e.algorithm == TokenBucket && KeyOf(env, r) == key && PlanOf(env, r) == e
    requires BucketsAgree(e, xs, store, key, since) && since <= r.now
    ensures ExpiringStep(env, xs, r).1 == Step(env, store, r).1
    ensures BucketsAgree(e, ExpiringStep(env, xs, r).0, Step(env, store, r).0, key, r.now)
  {
    BucketVisible(xs, key, r.now);
    StepOnKey(env, store, r, key, e);
    StepOnKey(env, Visible(xs, r.now), r, key, e);
    TB.ExpiryKeepsTokens(BucketConfig(e), HeldBucket(xs, key), BucketAt(store, key), r.now);
  }

  /** A call on another key changes nothing about this one. */
  lemma OtherCall(env: Env, xs: ExpiringStore, store: Store, r: Request, key: string)
    requires ValidPlan(PlanOf(env, r)) && KeyOf(env, r) != key
    ensures
      var xs', store' := ExpiringStep(env, xs, r).0, Step(env, store, r).0;
      && (key in xs' <==> key in xs) && (key in xs ==> xs'[key] == xs[key])
      && (key in store' <==> key in store) && (key in store ==> store'[key] == store[key])
  {
  }

  /** A run on the expiring store admits what a run on the eternal one does. */
  lemma {:induction false} BucketTimesAgree(env: Env, xs: ExpiringStore, store: Store, reqs: seq<Request>,
                                            counted: Request -> bool, key: string, e: EffectivePolicy, since: real)
    requires ValidRun(env, reqs) && OneBudget(env, reqs, counted, key, e) && ValidPlan(e) && e.algorithm == TokenBucket
    requires Chronological(reqs, counted) && NotBefore(reqs, counted, since) && BucketsAgree(e, xs, store, key, since)
    ensures ExpiringTimes(env, xs, reqs, counted) == AdmittedTimes(env, store, reqs, counted)
    decreases |reqs|
  {
    if reqs != [] {
      var r, xs', store' := reqs[0], ExpiringStep(env, xs, reqs[0]).0, Step(env, store, reqs[0]).0;
      ChronologicalTail(reqs, counted);
      assert OneBudget(env, reqs[1..], counted, key, e);
      if counted(r) {
        BucketCall(env, xs, store, r, key, e, since);
        BucketTimesAgree(env, xs', store', reqs[1..], counted, key, e, r.now);
      } else {
        OtherCall(env, xs, store, r, key);
        BucketTimesAgree(env, xs', store', reqs[1..], counted, key, e, since);
      }
    }
  }

  // ----- sliding windows ---------------------------------------------------------------------

  function HeldWindow(xs: ExpiringStore, key: string): Option<SW.Stored> {
    if key in xs && xs[key].value.ZSetValue? then Some(SW.Stored(xs[key].value.z, xs[key].expiresAt)) else None
  }

  ghost predicate WindowsAgree(e: EffectivePolicy, xs: ExpiringStore, store: Store, key: string, since: real)
    requires ValidPlan(e)
  {
    && (key in xs ==> xs[key].value.ZSetValue?) && WindowKey(store, key)
    && SW.Mirrors(WindowConfig(e), HeldWindow(xs, key), ZSetAt(store, key), since)
  }

  lemma WindowVisible(xs: ExpiringStore, key: string, now: real)
    requires key in xs ==> xs[key].value.ZSetValue?
    ensures ZSetAt(Visible(xs, now), key) == SW.Visible(HeldWindow(xs, key), now)
    ensures WindowKey(Visible(xs, now), key)
  {
  }

  lemma WindowCall(env: Env, xs: ExpiringStore, store: Store, r: Request, key: string, e: EffectivePolicy, since: real)
    requires ValidPlan(e) && e.algorithm == SlidingWindow && KeyOf(env, r) == key && PlanOf(env, r) == e
    requires WindowsAgree(e, xs, store, key, since) && since <= r.now
    ensures ExpiringStep(env, xs, r).1 == Step(env, store, r).1
    ensures WindowsAgree(e, ExpiringStep(env, xs, r).0, Step(env, store, r).0, key, r.now)
  {
    var cfg, call := WindowConfig(e), SW.Call(r.now, r.member);
    WindowVisible(xs, key, r.now);
    WindowStepOnKey(env, store, r, key, e);
    WindowStepOnKey(env, Visible(xs, r.now), r, key, e);
    SW.MirrorsAfterInsert(cfg, HeldWindow(xs, key), ZSetAt(store, key), call, r.now);
    ExpiringWritten(env, xs, r, key, e);
    WriteIsInsert(cfg, xs, key, call);
  }

  /** What a call on a window key writes and answers. */
  lemma WindowWritten(env: Env, store: Store, r: Request, key: string, e: EffectivePolicy)
    requires ValidPlan(e) && e.algorithm == SlidingWindow && KeyOf(env, r) == key && PlanOf(env, r) == e
    requires WindowKey(store, key)
    ensures
      var cfg, z, call := WindowConfig(e), ZSetAt(store, key), SW.Call(r.now, r.member);
      Step(env, store, r)
      == (store[key := ZSetValue(SW.Insert(cfg, z, call))], if SW.Admits(cfg, z, r.now) then Allowed else Denied)
  {
  }

  /** The store after a window call: only an admission renews the expiry. */
  function WindowWrite(xs: ExpiringStore, key: string, z: SW.ZSet, admitted: bool, renewed: real): ExpiringStore {
    if admitted then xs[key := Held(ZSetValue(z), renewed)]
    else if key in xs then xs[key := Held(ZSetValue(z), xs[key].expiresAt)]
    else xs
  }

  lemma {:induction false} ExpiringWritten(env: Env, xs: ExpiringStore, r: Request, key: string, e: EffectivePolicy)
    requires ValidPlan(e) && e.algorithm == SlidingWindow && KeyOf(env, r) == key && PlanOf(env, r) == e
    requires key in xs ==> xs[key].value.ZSetValue?
    ensures
      var cfg, z, call := WindowConfig(e), SW.Visible(HeldWindow(xs, key), r.now), SW.Call(r.now, r.member);
      ExpiringStep(env, xs, r).0
      == WindowWrite(xs, key, SW.Insert(cfg, z, call), SW.Admits(cfg, z, r.now), r.now + cfg.window)
  {
    WindowVisible(xs, key, r.now);
    WindowWritten(env, Visible(xs, r.now), r, key, e);
  }

  /** It writes what the window's own expiring step does. */
  lemma WriteIsInsert(cfg: SW.Config, xs: ExpiringStore, key: string, call: SW.Call)
    requires key in xs ==> xs[key].value.ZSetValue?
    ensures
      var z := SW.Visible(HeldWindow(xs, key), call.now);
      var xs' := WindowWrite(xs, key, SW.Insert(cfg, z, call), SW.Admits(cfg, z, call.now), call.now + cfg.window);
      && HeldWindow(xs', key) == SW.ExpiringInsert(cfg, HeldWindow(xs, key), call)
      && (key in xs' ==> xs'[key].value.ZSetValue?)
  {
  }

  lemma {:induction false} WindowTimesAgree(env: Env, xs: ExpiringStore, store: Store, reqs: seq<Request>,
                                            counted: Request -> bool, key: string, e: EffectivePolicy, since: real)
    requires ValidRun(env, reqs) && OneBudget(env, reqs, counted, key, e) && ValidPlan(e)
    requires e.algorithm == SlidingWindow
    requires Chronological(reqs, counted) && NotBefore(reqs, counted, since) && WindowsAgree(e, xs, store, key, since)
    ensures ExpiringTimes(env, xs, reqs, counted) == AdmittedTimes(env, store, reqs, counted)
    decreases |reqs|
  {
    if reqs != [] {
      var r, xs', store' := reqs[0], ExpiringStep(env, xs, reqs[0]).0, Step(env, store, reqs[0]).0;
      ChronologicalTail(reqs, counted);
      assert OneBudget(env, reqs[1..], counted, key, e);
      if counted(r) {
        WindowCall(env, xs, store, r, key, e, since);
        WindowTimesAgree(env, xs', store', reqs[1..], counted, key, e, r.now);
      } else {
        OtherCall(env, xs, store, r, key);
        WindowTimesAgree(env, xs', store', reqs[1..], counted, key, e, since);
      }
    }
  }

  // ----- admissions counted from either end ---------------------------------------------------

  lemma StoreAfterLast(env: Env, store: Store, reqs: seq<Request>, front: seq<Request>, last: Request)
    requires ValidRun(env, reqs) && reqs != [] && front == reqs[..|reqs| - 1] && last == reqs[|reqs| - 1]
    ensures StoreAfter(env, store, reqs) == Step(env, StoreAfter(env, store, front), last).0
  {
  }

  lemma DropBothEnds<T>(s: seq<T>)
    requires |s| > 1
    ensures s[1..][..|s| - 2] == s[..|s| - 1][1..] && s[1..][|s| - 2] == s[|s| - 1]
  {
  }

  lemma {:induction false} StoreAfterFirst(env: Env, store: Store, store': Store, reqs: seq<Request>,
                                           rest: seq<Request>)
    requires ValidRun(env, reqs) && reqs != [] && rest == reqs[1..] && store' == Step(env, store, reqs[0]).0
    ensures StoreAfter(env, store', rest) == StoreAfter(env, store, reqs)
    decreases |reqs|
  {
    var n := |reqs| - 1;
    var front, last := reqs[..n], reqs[n];
    StoreAfterLast(env, store, reqs, front, last);
    if n > 0 {
      DropBothEnds(reqs);
      StoreAfterFirst(env, store, store', front, front[1..]);
      StoreAfterLast(env, store', rest, front[1..], last);
    } else {
      assert front == [] && rest == [];
    }
  }

  /** What the last request of a run adds to the admissions. */
  ghost function LastTime(env: Env, store: Store, reqs: seq<Request>, counted: Request -> bool): seq<real>
    requires ValidRun(env, reqs) && reqs != []
  {
    TimeOf(env, StoreAfter(env, store, reqs[..|reqs| - 1]), reqs[|reqs| - 1], counted)
  }

  lemma {:induction false} LastTimeFromSecond(env: Env, store: Store, reqs: seq<Request>, counted: Request -> bool)
    requires ValidRun(env, reqs) && |reqs| > 1
    ensures LastTime(env, Step(env, store, reqs[0]).0, reqs[1..], counted) == LastTime(env, store, reqs, counted)
  {
    var n := |reqs| - 1;
    StoreAfterFirst(env, store, Step(env, store, reqs[0]).0, reqs[..n], reqs[..n][1..]);
    DropBothEnds(reqs);
  }

  lemma Rejoin(head: seq<real>, mid: seq<real>, last: seq<real>)
    ensures head + (mid + last) == (head + mid) + last
  {
  }

  lemma {:induction false} TimesOfFirst(env: Env, store: Store, reqs: seq<Request>, rest: seq<Request>,
                                        counted: Request -> bool)
    requires ValidRun(env, reqs) && reqs != [] && rest == reqs[1..]
    ensures AdmittedTimes(env, store, reqs, counted)
         == TimeOf(env, store, reqs[0], counted) + AdmittedTimes(env, Step(env, store, reqs[0]).0, rest, counted)
  {
  }

  lemma {:induction false} TimesFromSecond(env: Env, store: Store, store': Store, reqs: seq<Request>,
                                           rest: seq<Request>,
                                           counted: Request -> bool, last: seq<real>)
    requires ValidRun(env, reqs) && |reqs| > 1 && rest == reqs[1..] && store' == Step(env, store, reqs[0]).0
    requires AdmittedTimes(env, store', rest, counted)
          == AdmittedTimes(env, store', rest[..|rest| - 1], counted) + last
    ensures AdmittedTimes(env, store, reqs, counted) == AdmittedTimes(env, store, reqs[..|reqs| - 1], counted) + last
  {
    var n := |reqs| - 1;
    DropBothEnds(reqs);
    TimesOfFirst(env, store, reqs, rest, counted);
    TimesOfFirst(env, store, reqs[..n], rest[..n - 1], counted);
    Rejoin(TimeOf(env, store, reqs[0], counted), AdmittedTimes(env, store', rest[..n - 1], counted), last);
  }

  lemma {:induction false} TimesOfLast(env: Env, store: Store, reqs: seq<Request>, counted: Request -> bool)
    requires ValidRun(env, reqs) && reqs != []
    ensures AdmittedTimes(env, store, reqs, counted)
         == AdmittedTimes(env, store, reqs[..|reqs| - 1], counted) + LastTime(env, store, reqs, counted)
    decreases |reqs|
  {
    if |reqs| == 1 {
      assert reqs[..0] == [] && reqs[1..] == [];
    } else {
      var store' := Step(env, store, reqs[0]).0;
      TimesOfLast(env, store', reqs[1..], counted);
      LastTimeFromSecond(env, store, reqs, counted);
      TimesFromSecond(env, store, store', reqs, reqs[1..], counted, LastTime(env, store, reqs, counted));
    }
  }

  lemma {:induction false} TimesAreAdmissions(env: Env, store: Store, reqs: seq<Request>, counted: Request -> bool)
    requires ValidRun(env, reqs)
    ensures |AdmittedTimes(env, store, reqs, counted)| == Admitted(env, store, reqs, counted)
    decreases |reqs|
  {
    if reqs != [] {
      TimesAreAdmissions(env, store, reqs[..|reqs| - 1], counted);
      TimesOfLast(env, store, reqs, counted);
    }
  }

  /** The admissions of a key are bounded by the burst and what accrues from its first call to its last
      admission. */
  ghost predicate KeepsBudget(e: EffectivePolicy, admitted: seq<real>, calls: seq<real>)
    requires ValidPlan(e)
  {
    admitted != [] ==> calls != [] && WithinBudget(e, |admitted|, calls[0], admitted[|admitted| - 1])
  }

  lemma LaterCallsKeepBudget(e: EffectivePolicy, admitted: seq<real>, calls: seq<real>, calls': seq<real>)
    requires ValidPlan(e) && KeepsBudget(e, admitted, calls) && calls <= calls'
    ensures KeepsBudget(e, admitted, calls')
  {
  }

  /** A run whose last request is admitted keeps the budget. */
  lemma {:induction false} LastAdmissionKeepsBudget(env: Env, store: Store, reqs: seq<Request>,
                                                    counted: Request -> bool, key: string, e: EffectivePolicy)
    requires ValidRun(env, reqs) && OneBudget(env, reqs, counted, key, e) && reqs != []
    requires ValidPlan(e) && e.algorithm == TokenBucket && BucketKey(store, key)
    requires LastTime(env, store, reqs, counted) != []
    ensures KeepsBudget(e, AdmittedTimes(env, store, reqs, counted), Times(reqs, counted))
  {
    BudgetBound(env, store, reqs, counted, key, e);
    TimesAreAdmissions(env, store, reqs, counted);
    TimesOfLast(env, store, reqs, counted);
  }

  lemma {:induction false} AdmissionsKeepBudget(env: Env, store: Store, reqs: seq<Request>, counted: Request -> bool,
                                                key: string, e: EffectivePolicy)
    requires ValidRun(env, reqs) && OneBudget(env, reqs, counted, key, e)
    requires ValidPlan(e) && e.algorithm == TokenBucket && BucketKey(store, key)
    ensures KeepsBudget(e, AdmittedTimes(env, store, reqs, counted), Times(reqs, counted))
    decreases |reqs|
  {
    if reqs != [] {
      if LastTime(env, store, reqs, counted) != [] {
        LastAdmissionKeepsBudget(env, store, reqs, counted, key, e);
      } else {
        var front := reqs[..|reqs| - 1];
        AdmissionsKeepBudget(env, store, front, counted, key, e);
        TimesOfLast(env, store, reqs, counted);
        LaterCallsKeepBudget(e, AdmittedTimes(env, store, front, counted), Times(front, counted),
                             Times(reqs, counted));
      }
    }
  }

  // ----- the shared budgets on an expiring store ----------------------------------------------

  /** The key is missing, or holds a bucket that was last touched by `since` and expires one time to live
      after that. */
  ghost predicate HoldsBucket(e: EffectivePolicy, xs: ExpiringStore, key: string, since: real)
    requires ValidPlan(e)
  {
    BucketsAgree(e, xs, Eternal(xs), key, since)
  }

  /** The key is missing, or holds a window that expires no later than one window after `since`, with no
      entry that outlives it. */
  ghost predicate HoldsWindow(e: EffectivePolicy, xs: ExpiringStore, key: string, since: real)
    requires ValidPlan(e)
  {
    WindowsAgree(e, xs, Eternal(xs), key, since)
  }

  /** The clock of the picked requests starts at `since` and does not go back. */
  ghost predicate RunsFrom(reqs: seq<Request>, counted: Request -> bool, since: real) {
    Chronological(reqs, counted) && NotBefore(reqs, counted, since)
  }

  lemma {:induction false} ExpiringBudget(env: Env, xs: ExpiringStore, reqs: seq<Request>, counted: Request -> bool,
                                          key: string, e: EffectivePolicy, since: real)
    requires ValidRun(env, reqs) && OneBudget(env, reqs, counted, key, e) && ValidPlan(e) && e.algorithm == TokenBucket
    requires RunsFrom(reqs, counted, since) && HoldsBucket(e, xs, key, since)
    ensures KeepsBudget(e, ExpiringTimes(env, xs, reqs, counted), Times(reqs, counted))
  {
    AdmissionsKeepBudget(env, Eternal(xs), reqs, counted, key, e);
    BucketTimesAgree(env, xs, Eternal(xs), reqs, counted, key, e, since);
  }

  lemma {:induction false} ExpiringWindow(env: Env, xs: ExpiringStore, reqs: seq<Request>, counted: Request -> bool,
                                          key: string, e: EffectivePolicy, since: real, start: real)
    requires ValidRun(env, reqs) && OneBudget(env, reqs, counted, key, e) && ValidPlan(e)
    requires e.algorithm == SlidingWindow
    requires RunsFrom(reqs, counted, since) && HoldsWindow(e, xs, key, since)
    requires Orderly(WindowConfig(e), ZSetAt(Eternal(xs), key), Calls(reqs, counted))
    ensures KeepsLimit(e, ExpiringTimes(env, xs, reqs, counted), start)
  {
    WindowBound(env, Eternal(xs), reqs, counted, key, e, start);
    WindowTimesAgree(env, xs, Eternal(xs), reqs, counted, key, e, since);
  }

  /** A subject-scoped token-bucket policy is one budget over all servers and tools, although its key
      expires, whatever the store holds to begin with. */
  lemma {:induction false} ExpiringSubjectBudget(env: Env, xs: ExpiringStore, reqs: seq<Request>, r: Request,
                                                 since: real)
    requires ValidRun(env, reqs) && ValidPlan(PlanOf(env, r)) && PlanOf(env, r).algorithm == TokenBucket
    requires SubjectBudget(env, r.tenant, r.subject, r) && SubjectsDistinct(reqs, r)
    requires RunsFrom(reqs, OfSubject(env, r), since) && HoldsBucket(PlanOf(env, r), xs, KeyOf(env, r), since)
    ensures KeepsBudget(PlanOf(env, r), ExpiringTimes(env, xs, reqs, OfSubject(env, r)),
                        Times(reqs, OfSubject(env, r)))
  {
    SubjectBudgetIsOneKey(env, reqs, r);
    ExpiringBudget(env, xs, reqs, OfSubject(env, r), KeyOf(env, r), PlanOf(env, r), since);
  }

  /** And so is a server-scoped one, over all the server's tools. */
  lemma {:induction false} ExpiringServerBudget(env: Env, xs: ExpiringStore, reqs: seq<Request>, r: Request,
                                                since: real)
    requires ValidRun(env, reqs) && ValidPlan(PlanOf(env, r)) && PlanOf(env, r).algorithm == TokenBucket
    requires ServerBudget(env, r.tenant, r.subject, r.server, r) && SubjectsDistinct(reqs, r)
    requires ServersDistinct(reqs, r)
    requires RunsFrom(reqs, OfServer(env, r), since) && HoldsBucket(PlanOf(env, r), xs, KeyOf(env, r), since)
    ensures KeepsBudget(PlanOf(env, r), ExpiringTimes(env, xs, reqs, OfServer(env, r)),
                        Times(reqs, OfServer(env, r)))
  {
    ServerBudgetIsOneKey(env, reqs, r);
    ExpiringBudget(env, xs, reqs, OfServer(env, r), KeyOf(env, r), PlanOf(env, r), since);
  }

  /** The same for sliding windows: wherever a window starts, the admissions in it stay within the
      limit, although the key expires. */
  lemma {:induction false} ExpiringSubjectWindow(env: Env, xs: ExpiringStore, reqs: seq<Request>, r: Request,
                                                 since: real, start: real)
    requires ValidRun(env, reqs) && ValidPlan(PlanOf(env, r)) && PlanOf(env, r).algorithm == SlidingWindow
    requires SubjectBudget(env, r.tenant, r.subject, r) && SubjectsDistinct(reqs, r)
    requires RunsFrom(reqs, OfSubject(env, r), since) && HoldsWindow(PlanOf(env, r), xs, KeyOf(env, r), since)
    requires Orderly(WindowConfig(PlanOf(env, r)), ZSetAt(Eternal(xs), KeyOf(env, r)), Calls(reqs, OfSubject(env, r)))
    ensures KeepsLimit(PlanOf(env, r), ExpiringTimes(env, xs, reqs, OfSubject(env, r)), start)
  {
    SubjectBudgetIsOneKey(env, reqs, r);
    ExpiringWindow(env, xs, reqs, OfSubject(env, r), KeyOf(env, r), PlanOf(env, r), since, start);
  }

  lemma {:induction false} ExpiringServerWindow(env: Env, xs: ExpiringStore, reqs: seq<Request>, r: Request,
                                                since: real, start: real)
    requires ValidRun(env, reqs) && ValidPlan(PlanOf(env, r)) && PlanOf(env, r).algorithm == SlidingWindow
    requires ServerBudget(env, r.tenant, r.subject, r.server, r) && SubjectsDistinct(reqs, r)
    requires ServersDistinct(reqs, r)
    requires RunsFrom(reqs, OfServer(env, r), since) && HoldsWindow(PlanOf(env, r), xs, KeyOf(env, r), since)
    requires Orderly(WindowConfig(PlanOf(env, r)), ZSetAt(Eternal(xs), KeyOf(env, r)), Calls(reqs, OfServer(env, r)))
    ensures KeepsLimit(PlanOf(env, r), ExpiringTimes(env, xs, reqs, OfServer(env, r)), start)
  {
    ServerBudgetIsOneKey(env, reqs, r);
    ExpiringWindow(env, xs, reqs, OfServer(env, r), KeyOf(env, r), PlanOf(env, r), since, start);
  }
}
