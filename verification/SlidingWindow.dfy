/**
 The sliding-window script of api/app/limits/redis_bucket.py. The sorted set maps members
 to scores; adding a member that is present overwrites its score.
 */
module SlidingWindows {
  import opened Wrappers

  datatype Config = Config(limit: int, window: real) {
    predicate Valid() {
      limit >= 1 && window > 0.0
    }
  }

  type ZSet = map<string, real>

  datatype Answer = Answer(allowed: bool, remaining: int, resetAfter: real)

  datatype Call = Call(now: real, member: string)

  /** ZREMRANGEBYSCORE key -inf cutoff. */
  function Trim(z: ZSet, cutoff: real): ZSet {
    map m | m in z && z[m] > cutoff :: z[m]
  }

  predicate Admits(cfg: Config, z: ZSet, now: real) {
    |Trim(z, now - cfg.window)| < cfg.limit
  }

  /** What the script leaves in the key. */
  function Insert(cfg: Config, z: ZSet, call: Call): ZSet {
    var live := Trim(z, call.now - cfg.window);
    if |live| < cfg.limit then live[call.member := call.now] else live
  }

  /** The score that ZRANGE key 0 0 returns. */
  ghost function MinScore(z: ZSet): (score: real)
    requires z != map[]
    ensures exists m :: m in z && z[m] == score
    ensures forall m :: m in z ==> score <= z[m]
    decreases |z|
  {
    var m :| m in z;
    var rest := z - {m};
    assert z.Keys == rest.Keys + {m};
    if rest == map[] then
      assert forall k :: k in z ==> k == m by {
        forall k | k in z ensures k == m { assert k in rest || k == m; }
      }
      z[m]
    else
      var least := MinScore(rest);
      if z[m] <= least then z[m] else least
  }

  function Max(a: real, b: real): real {
    if a >= b then a else b
  }

  /** The time until the oldest entry leaves the window. */
  ghost function TimeToReset(z: ZSet, window: real, now: real): real {
    if z == map[] then 0.0 else Max(0.0, MinScore(z) + window - now)
  }

  /** What the script returns. */
  ghost function Reply(cfg: Config, z: ZSet, call: Call): Answer {
    var count := |Trim(z, call.now - cfg.window)|;
    Answer(count < cfg.limit,
           if cfg.limit - count - 1 >= 0 then cfg.limit - count - 1 else 0,
           TimeToReset(Insert(cfg, z, call), cfg.window, call.now))
  }

  /** The verdicts on a run of calls that starts from `z`. */
  function Verdicts(cfg: Config, z: ZSet, calls: seq<Call>): seq<bool>
    decreases |calls|
  {
    if calls == [] then []
    else [Admits(cfg, z, calls[0].now)] + Verdicts(cfg, Insert(cfg, z, calls[0]), calls[1..])
  }

  // ----- the simple log ------------------------------------------------------------

  /** How many entries of a log lie in the half-open interval (from, to]. */
  function Within(log: seq<real>, from: real, to: real): nat {
    if log == [] then 0
    else
      var n := |log| - 1;
      Within(log[..n], from, to) + (if from < log[n] <= to then 1 else 0)
  }

  /** The reference: every admission is remembered, and a call is admitted when fewer than
      `limit` admissions lie in the window that ends now. */
  predicate LogAdmits(cfg: Config, log: seq<real>, now: real) {
    Within(log, now - cfg.window, now) < cfg.limit
  }

  function Logged(cfg: Config, log: seq<real>, now: real): seq<real> {
    if LogAdmits(cfg, log, now) then log + [now] else log
  }

  function LogVerdicts(cfg: Config, log: seq<real>, calls: seq<Call>): seq<bool>
    decreases |calls|
  {
    if calls == [] then []
    else [LogAdmits(cfg, log, calls[0].now)] + LogVerdicts(cfg, Logged(cfg, log, calls[0].now), calls[1..])
  }

  ghost predicate NonDecreasing(calls: seq<Call>) {
    forall i, j :: 0 <= i < j < |calls| ==> calls[i].now <= calls[j].now
  }

  /** No member repeats within one window. */
  ghost predicate DistinctMembers(cfg: Config, calls: seq<Call>) {
    forall i, j :: 0 <= i < j < |calls| && calls[i].now > calls[j].now - cfg.window ==>
      calls[i].member != calls[j].member
  }

  // ----- refinement -------------------------------------------------------------------

  /** At every cutoff from here on, the sorted set holds as many entries as the log has
      admissions up to now. */
  ghost predicate Counts(z: ZSet, log: seq<real>, cutoff: real, now: real) {
    forall c :: c >= cutoff ==> |Trim(z, c)| == Within(log, c, now)
  }

  /** No call to come finds a live entry under its own member. */
  ghost predicate Fresh(cfg: Config, z: ZSet, calls: seq<Call>) {
    forall i :: 0 <= i < |calls| && calls[i].member in z ==> z[calls[i].member] <= calls[i].now - cfg.window
  }

  ghost predicate NoLaterThan(log: seq<real>, now: real) {
    forall i :: 0 <= i < |log| ==> log[i] <= now
  }

  /** It counts positions. */
  lemma {:induction false} WithinCounts(log: seq<real>, from: real, to: real)
    ensures Within(log, from, to) == |set i | 0 <= i < |log| && from < log[i] <= to|
  {
    if log != [] {
      var n := |log| - 1;
      WithinCounts(log[..n], from, to);
      var before := set i | 0 <= i < n && from < log[..n][i] <= to;
      var all := set i | 0 <= i < |log| && from < log[i] <= to;
      assert all == before + (if from < log[n] <= to then {n} else {});
      assert n !in before;
    }
  }

  lemma WithinAppend(log: seq<real>, t: real, from: real, to: real)
    ensures Within(log + [t], from, to) == Within(log, from, to) + (if from < t <= to then 1 else 0)
  {
    assert (log + [t])[..|log|] == log;
  }

  lemma {:induction false} WithinSameUpTo(log: seq<real>, from: real, to: real, to': real)
    requires NoLaterThan(log, to) && to <= to'
    ensures Within(log, from, to) == Within(log, from, to')
  {
    if log != [] {
      WithinSameUpTo(log[..|log| - 1], from, to, to');
    }
  }

  lemma TrimTwice(z: ZSet, cutoff: real, c: real)
    requires c >= cutoff
    ensures Trim(Trim(z, cutoff), c) == Trim(z, c)
  {
  }

  /** A call overwrites its member with the latest time, so it survives every cutoff that the call does. */
  lemma TrimOfAdd(z: ZSet, call: Call, c: real)
    requires call.member in z ==> z[call.member] <= call.now
    ensures Trim(z[call.member := call.now], c).Keys == Trim(z, c).Keys + (if call.now > c then {call.member} else {})
  {
  }

  lemma TrimAfterAdd(z: ZSet, call: Call, cutoff: real, c: real)
    requires c >= cutoff && (call.member in z ==> z[call.member] <= cutoff)
    ensures |Trim(Trim(z, cutoff)[call.member := call.now], c)| == |Trim(z, c)| + (if call.now > c then 1 else 0)
  {
    TrimTwice(z, cutoff, c);
    TrimOfAdd(Trim(z, cutoff), call, c);
    var z' := Trim(Trim(z, cutoff)[call.member := call.now], c);
    assert |z'| == |z'.Keys| && |Trim(z, c)| == |Trim(z, c).Keys| && call.member !in Trim(z, c).Keys;
  }

  /** How many entries of the key survive a later cutoff. */
  lemma {:induction false} LiveAfterInsert(cfg: Config, z: ZSet, call: Call, c: real)
    requires c >= call.now - cfg.window
    requires call.member in z ==> z[call.member] <= call.now - cfg.window
    ensures |Trim(Insert(cfg, z, call), c)|
         == |Trim(z, c)| + (if Admits(cfg, z, call.now) && call.now > c then 1 else 0)
  {
    var cutoff := call.now - cfg.window;
    if Admits(cfg, z, call.now) {
      assert Insert(cfg, z, call) == Trim(z, cutoff)[call.member := call.now];
      TrimAfterAdd(z, call, cutoff, c);
    } else {
      assert Insert(cfg, z, call) == Trim(z, cutoff);
      TrimTwice(z, cutoff, c);
    }
  }

  lemma CountsAfterInsert(cfg: Config, z: ZSet, log: seq<real>, call: Call, next: real)
    requires Counts(z, log, call.now - cfg.window, call.now) && NoLaterThan(log, call.now) && call.now <= next
    requires call.member in z ==> z[call.member] <= call.now - cfg.window
    ensures Admits(cfg, z, call.now) <==> LogAdmits(cfg, log, call.now)
    ensures Counts(Insert(cfg, z, call), Logged(cfg, log, call.now), next - cfg.window, next)
  {
    var cutoff, log' := call.now - cfg.window, log + [call.now];
    assert |Trim(z, cutoff)| == Within(log, cutoff, call.now);
    assert log'[..|log|] == log;
    forall c | c >= next - cfg.window
      ensures |Trim(Insert(cfg, z, call), c)| == Within(Logged(cfg, log, call.now), c, next)
    {
      assert |Trim(z, c)| == Within(log, c, call.now);
      WithinSameUpTo(log, c, call.now, next);
      LiveAfterInsert(cfg, z, call, c);
    }
  }

  lemma FreshAfterInsert(cfg: Config, z: ZSet, calls: seq<Call>)
    requires calls != [] && Fresh(cfg, z, calls) && DistinctMembers(cfg, calls)
    ensures Fresh(cfg, Insert(cfg, z, calls[0]), calls[1..])
  {
    forall i | 0 <= i < |calls[1..]| && calls[1..][i].member in Insert(cfg, z, calls[0])
      ensures Insert(cfg, z, calls[0])[calls[1..][i].member] <= calls[1..][i].now - cfg.window
    {
      assert calls[1..][i] == calls[i + 1];
    }
  }

  lemma {:induction false} VerdictsAgree(cfg: Config, z: ZSet, log: seq<real>, calls: seq<Call>)
    requires cfg.Valid() && NonDecreasing(calls) && DistinctMembers(cfg, calls) && Fresh(cfg, z, calls)
    requires calls != [] ==>
      NoLaterThan(log, calls[0].now) && Counts(z, log, calls[0].now - cfg.window, calls[0].now)
    ensures Verdicts(cfg, z, calls) == LogVerdicts(cfg, log, calls)
    decreases |calls|
  {
    if calls != [] {
      var next := if |calls| > 1 then calls[1].now else calls[0].now;
      CountsAfterInsert(cfg, z, log, calls[0], next);
      FreshAfterInsert(cfg, z, calls);
      VerdictsAgree(cfg, Insert(cfg, z, calls[0]), Logged(cfg, log, calls[0].now), calls[1..]);
    }
  }

  /** Refinement: on a clock that does not go back and with members that do not repeat
      within a window, every call of a run is admitted exactly when fewer than `limit`
      earlier admissions lie in (now - window, now]. */
  lemma AdmitsExactlyAsLog(cfg: Config, calls: seq<Call>)
    requires cfg.Valid() && NonDecreasing(calls) && DistinctMembers(cfg, calls)
    ensures Verdicts(cfg, map[], calls) == LogVerdicts(cfg, [], calls)
  {
    VerdictsAgree(cfg, map[], [], calls);
  }

  // ----- the window bound -----------------------------------------------------------------

  lemma {:induction false} WithinMonotone(log: seq<real>, from: real, to: real, from': real, to': real)
    requires forall i :: 0 <= i < |log| && from < log[i] <= to ==> from' < log[i] <= to'
    ensures Within(log, from, to) <= Within(log, from', to')
  {
    if log != [] {
      WithinMonotone(log[..|log| - 1], from, to, from', to');
    }
  }

  /** No half-open interval of the window's length holds more than `limit` admissions. */
  ghost predicate NeverOverfull(cfg: Config, log: seq<real>) {
    forall from, to :: to <= from + cfg.window ==> Within(log, from, to) <= cfg.limit
  }

  lemma OverfullNeverHappens(cfg: Config, log: seq<real>, now: real)
    requires cfg.Valid() && NeverOverfull(cfg, log) && NoLaterThan(log, now)
    ensures NeverOverfull(cfg, Logged(cfg, log, now))
  {
    if LogAdmits(cfg, log, now) {
      var log' := log + [now];
      assert log'[..|log|] == log;
      forall from, to | to <= from + cfg.window
        ensures Within(log', from, to) <= cfg.limit
      {
        assert Within(log, from, to) <= cfg.limit;
        if from < now <= to {
          WithinMonotone(log, from, to, now - cfg.window, now);
        }
      }
    }
  }

  /** The times of the admitted calls. */
  function AdmittedTimes(verdicts: seq<bool>, calls: seq<Call>): seq<real>
    requires |verdicts| == |calls|
  {
    if calls == [] then []
    else (if verdicts[0] then [calls[0].now] else []) + AdmittedTimes(verdicts[1..], calls[1..])
  }

  /** At every cutoff from here on, the sorted set holds at least as many entries as the log has
      admissions up to now: it may hold older ones that the log does not know. */
  ghost predicate AtLeast(z: ZSet, log: seq<real>, cutoff: real, now: real) {
    forall c :: c >= cutoff ==> |Trim(z, c)| >= Within(log, c, now)
  }

  /** The log with the time of a call that the sorted set admits. */
  function Noted(cfg: Config, z: ZSet, log: seq<real>, now: real): seq<real> {
    if Admits(cfg, z, now) then log + [now] else log
  }

  lemma {:induction false} AtLeastAtCutoff(cfg: Config, z: ZSet, log: seq<real>, call: Call, next: real, c: real)
    requires |Trim(z, c)| >= Within(log, c, call.now) && NoLaterThan(log, call.now)
    requires call.now <= next && c >= next - cfg.window
    requires call.member in z ==> z[call.member] <= call.now - cfg.window
    ensures |Trim(Insert(cfg, z, call), c)| >= Within(Noted(cfg, z, log, call.now), c, next)
  {
    WithinSameUpTo(log, c, call.now, next);
    WithinAppend(log, call.now, c, next);
    LiveAfterInsert(cfg, z, call, c);
  }

  lemma {:induction false} AtLeastAfterInsert(cfg: Config, z: ZSet, log: seq<real>, call: Call, next: real)
    requires AtLeast(z, log, call.now - cfg.window, call.now) && NoLaterThan(log, call.now) && call.now <= next
    requires call.member in z ==> z[call.member] <= call.now - cfg.window
    ensures Admits(cfg, z, call.now) ==> LogAdmits(cfg, log, call.now)
    ensures AtLeast(Insert(cfg, z, call), Noted(cfg, z, log, call.now), next - cfg.window, next)
  {
    var cutoff := call.now - cfg.window;
    assert |Trim(z, cutoff)| >= Within(log, cutoff, call.now);
    forall c | c >= next - cfg.window
      ensures |Trim(Insert(cfg, z, call), c)| >= Within(Noted(cfg, z, log, call.now), c, next)
    {
      assert |Trim(z, c)| >= Within(log, c, call.now);
      AtLeastAtCutoff(cfg, z, log, call, next, c);
    }
  }

  /** The admissions of a run, after those of a log. */
  ghost function LoggedRun(cfg: Config, z: ZSet, log: seq<real>, calls: seq<Call>): seq<real>
    decreases |calls|
  {
    if calls == [] then log
    else LoggedRun(cfg, Insert(cfg, z, calls[0]), Noted(cfg, z, log, calls[0].now), calls[1..])
  }

  lemma {:induction false} LoggedRunIsAdmitted(cfg: Config, z: ZSet, log: seq<real>, calls: seq<Call>)
    ensures |Verdicts(cfg, z, calls)| == |calls|
    ensures LoggedRun(cfg, z, log, calls) == log + AdmittedTimes(Verdicts(cfg, z, calls), calls)
    decreases |calls|
  {
    if calls != [] {
      var z' := Insert(cfg, z, calls[0]);
      LoggedRunIsAdmitted(cfg, z', Noted(cfg, z, log, calls[0].now), calls[1..]);
      assert Verdicts(cfg, z, calls)[1..] == Verdicts(cfg, z', calls[1..]);
    }
  }

  lemma {:induction false} RunNeverOverfull(cfg: Config, z: ZSet, log: seq<real>, calls: seq<Call>)
    requires cfg.Valid() && NonDecreasing(calls) && DistinctMembers(cfg, calls) && Fresh(cfg, z, calls)
    requires NeverOverfull(cfg, log)
    requires calls != [] ==>
      NoLaterThan(log, calls[0].now) && AtLeast(z, log, calls[0].now - cfg.window, calls[0].now)
    ensures NeverOverfull(cfg, LoggedRun(cfg, z, log, calls))
    decreases |calls|
  {
    if calls != [] {
      var next := if |calls| > 1 then calls[1].now else calls[0].now;
      AtLeastAfterInsert(cfg, z, log, calls[0], next);
      FreshAfterInsert(cfg, z, calls);
      OverfullNeverHappens(cfg, log, calls[0].now);
      RunNeverOverfull(cfg, Insert(cfg, z, calls[0]), Noted(cfg, z, log, calls[0].now), calls[1..]);
    }
  }

  /** Wherever a window starts, a run admits at most `limit` calls inside it, whatever the key holds to
      begin with. */
  lemma {:induction false} NoWindowOverfills(cfg: Config, z: ZSet, calls: seq<Call>, start: real)
    requires cfg.Valid() && NonDecreasing(calls) && DistinctMembers(cfg, calls) && Fresh(cfg, z, calls)
    ensures |Verdicts(cfg, z, calls)| == |calls|
    ensures Within(AdmittedTimes(Verdicts(cfg, z, calls), calls), start, start + cfg.window) <= cfg.limit
  {
    RunNeverOverfull(cfg, z, [], calls);
    LoggedRunIsAdmitted(cfg, z, [], calls);
    assert [] + AdmittedTimes(Verdicts(cfg, z, calls), calls) == AdmittedTimes(Verdicts(cfg, z, calls), calls);
    assert Within(LoggedRun(cfg, z, [], calls), start, start + cfg.window) <= cfg.limit;
  }

  // ----- without any hypothesis on the members -------------------------------------------------

  /** The members among some admitted calls that were admitted after an instant. */
  function MembersSince(log: seq<Call>, cutoff: real): set<string> {
    set i | 0 <= i < |log| && log[i].now > cutoff :: log[i].member
  }

  /** The reference: a call is admitted when fewer than `limit` different members were admitted in
      the window that ends now. */
  predicate MemberAdmits(cfg: Config, log: seq<Call>, now: real) {
    |MembersSince(log, now - cfg.window)| < cfg.limit
  }

  function MemberVerdicts(cfg: Config, log: seq<Call>, calls: seq<Call>): seq<bool>
    decreases |calls|
  {
    if calls == [] then []
    else
      var ok := MemberAdmits(cfg, log, calls[0].now);
      [ok] + MemberVerdicts(cfg, if ok then log + [calls[0]] else log, calls[1..])
  }

  /** From a cutoff on, the sorted set holds the members that the log has. */
  ghost predicate SameMembers(z: ZSet, log: seq<Call>, cutoff: real) {
    forall c :: c >= cutoff ==> Trim(z, c).Keys == MembersSince(log, c)
  }

  ghost predicate NoneLater(z: ZSet, now: real) {
    forall m :: m in z ==> z[m] <= now
  }

  lemma MembersAfterCall(log: seq<Call>, call: Call, c: real)
    ensures MembersSince(log + [call], c) == MembersSince(log, c) + (if call.now > c then {call.member} else {})
  {
    var log' := log + [call];
    forall m
      ensures m in MembersSince(log', c) <==> m in MembersSince(log, c) || (call.now > c && m == call.member)
    {
      if m in MembersSince(log, c) {
        var i :| 0 <= i < |log| && log[i].now > c && log[i].member == m;
        assert log'[i] == log[i];
      }
      if m == call.member && call.now > c {
        assert log'[|log|] == call;
      }
    }
  }

  lemma SameMembersAfterInsert(cfg: Config, z: ZSet, log: seq<Call>, call: Call, next: real)
    requires SameMembers(z, log, call.now - cfg.window) && NoneLater(z, call.now) && call.now <= next
    ensures Admits(cfg, z, call.now) <==> MemberAdmits(cfg, log, call.now)
    ensures
      var log' := if MemberAdmits(cfg, log, call.now) then log + [call] else log;
      SameMembers(Insert(cfg, z, call), log', next - cfg.window) && NoneLater(Insert(cfg, z, call), next)
  {
    var cutoff := call.now - cfg.window;
    assert Trim(z, cutoff).Keys == MembersSince(log, cutoff) && |Trim(z, cutoff)| == |Trim(z, cutoff).Keys|;
    var log' := if MemberAdmits(cfg, log, call.now) then log + [call] else log;
    forall c | c >= next - cfg.window
      ensures Trim(Insert(cfg, z, call), c).Keys == MembersSince(log', c)
    {
      MembersAfterCall(log, call, c);
      TrimOfInsert(cfg, z, call, c);
    }
  }

  lemma TrimOfInsert(cfg: Config, z: ZSet, call: Call, c: real)
    requires c >= call.now - cfg.window && NoneLater(z, call.now)
    ensures Trim(Insert(cfg, z, call), c).Keys ==
            Trim(z, c).Keys + (if Admits(cfg, z, call.now) && call.now > c then {call.member} else {})
  {
    var live := Trim(z, call.now - cfg.window);
    assert Trim(live, c) == Trim(z, c) by {
      TrimTwice(z, call.now - cfg.window, c);
    }
    if Admits(cfg, z, call.now) {
      assert Insert(cfg, z, call) == live[call.member := call.now];
      TrimOfAdd(live, call, c);
    } else {
      assert Insert(cfg, z, call) == live;
    }
  }

  lemma {:induction false} MemberVerdictsAgree(cfg: Config, z: ZSet, log: seq<Call>, calls: seq<Call>)
    requires NonDecreasing(calls)
    requires calls != [] ==> SameMembers(z, log, calls[0].now - cfg.window) && NoneLater(z, calls[0].now)
    ensures Verdicts(cfg, z, calls) == MemberVerdicts(cfg, log, calls)
    decreases |calls|
  {
    if calls != [] {
      var next := if |calls| > 1 then calls[1].now else calls[0].now;
      SameMembersAfterInsert(cfg, z, log, calls[0], next);
      var log' := if MemberAdmits(cfg, log, calls[0].now) then log + [calls[0]] else log;
      MemberVerdictsAgree(cfg, Insert(cfg, z, calls[0]), log', calls[1..]);
    }
  }

  /** Exactly, whatever the members: on a clock that does not go back, every call of a run is admitted
      if and only if fewer than `limit` different members were admitted in (now - window, now]. */
  lemma AdmitsExactlyByMembers(cfg: Config, calls: seq<Call>)
    requires NonDecreasing(calls)
    ensures Verdicts(cfg, map[], calls) == MemberVerdicts(cfg, [], calls)
  {
    MemberVerdictsAgree(cfg, map[], [], calls);
  }

  /** Why members must not repeat: an overwritten entry lets a third call through a limit
      of two. */
  lemma {:induction false} RepeatedMemberOverAdmits(member: string)
    ensures
      var cfg := Config(2, 10.0);
      var calls := [Call(0.0, member), Call(1.0, member), Call(2.0, member)];
      && Verdicts(cfg, map[], calls) == [true, true, true]
      && LogVerdicts(cfg, [], calls) == [true, true, false]
  {
    OverwrittenEntry(member);
    RememberedEntries(member);
  }

  lemma {:induction false} OverwrittenEntry(member: string)
    ensures Verdicts(Config(2, 10.0), map[], [Call(0.0, member), Call(1.0, member), Call(2.0, member)])
         == [true, true, true]
  {
    var cfg := Config(2, 10.0);
    var c0, c1, c2 := Call(0.0, member), Call(1.0, member), Call(2.0, member);
    assert [c0, c1, c2][1..] == [c1, c2] && [c1, c2][1..] == [c2] && [c2][1..] == [];
    assert Insert(cfg, map[], c0) == map[member := 0.0] by {
      assert Trim(map[], -10.0) == map[];
    }
    assert Insert(cfg, map[member := 0.0], c1) == map[member := 1.0] && Admits(cfg, map[member := 0.0], 1.0) by {
      assert Trim(map[member := 0.0], -9.0) == map[member := 0.0];
    }
    assert Admits(cfg, map[member := 1.0], 2.0) by {
      assert Trim(map[member := 1.0], -8.0) == map[member := 1.0];
    }
    assert Verdicts(cfg, map[member := 1.0], [c2]) == [true];
    assert Verdicts(cfg, map[member := 0.0], [c1, c2]) == [true, true];
  }

  lemma LogVerdictsStep(cfg: Config, log: seq<real>, call: Call, rest: seq<Call>)
    ensures LogVerdicts(cfg, log, [call] + rest)
         == [LogAdmits(cfg, log, call.now)] + LogVerdicts(cfg, Logged(cfg, log, call.now), rest)
  {
    assert ([call] + rest)[1..] == rest;
  }

  lemma {:induction false} RememberedEntries(member: string)
    ensures LogVerdicts(Config(2, 10.0), [], [Call(0.0, member), Call(1.0, member), Call(2.0, member)])
         == [true, true, false]
  {
    var cfg := Config(2, 10.0);
    var c0, c1, c2 := Call(0.0, member), Call(1.0, member), Call(2.0, member);
    var log: seq<real> := [];
    assert LogAdmits(cfg, log, 0.0);
    assert LogAdmits(cfg, log + [0.0], 1.0) by {
      WithinAppend(log, 0.0, -9.0, 1.0);
    }
    assert !LogAdmits(cfg, log + [0.0] + [1.0], 2.0) by {
      WithinAppend(log, 0.0, -8.0, 2.0);
      WithinAppend(log + [0.0], 1.0, -8.0, 2.0);
    }
    assert LogVerdicts(cfg, log + [0.0] + [1.0], [c2]) == [false] by {
      LogVerdictsStep(cfg, log + [0.0] + [1.0], c2, []);
      assert [c2] + [] == [c2];
    }
    LogVerdictsStep(cfg, log + [0.0], c1, [c2]);
    LogVerdictsStep(cfg, log, c0, [c1] + [c2]);
    assert [c0] + ([c1] + [c2]) == [c0, c1, c2];
  }

  // ----- truthful answers ---------------------------------------------------------------------

  function AtInstant(now: real, members: seq<string>): seq<Call> {
    seq(|members|, i requires 0 <= i < |members| => Call(now, members[i]))
  }

  function Admissions(cfg: Config, z: ZSet, calls: seq<Call>): nat
    decreases |calls|
  {
    if calls == [] then 0
    else (if Admits(cfg, z, calls[0].now) then 1 else 0) + Admissions(cfg, Insert(cfg, z, calls[0]), calls[1..])
  }

  ghost predicate NewMembers(z: ZSet, members: seq<string>) {
    && (forall i :: 0 <= i < |members| ==> members[i] !in z)
    && (forall i, j :: 0 <= i < j < |members| ==> members[i] != members[j])
  }

  ghost predicate AllLive(cfg: Config, z: ZSet, now: real) {
    forall m :: m in z ==> z[m] > now - cfg.window
  }

  lemma AddAtInstant(cfg: Config, z: ZSet, call: Call)
    requires cfg.Valid() && call.member !in z && AllLive(cfg, z, call.now)
    ensures Admits(cfg, z, call.now) <==> |z| < cfg.limit
    ensures Insert(cfg, z, call) == if |z| < cfg.limit then z[call.member := call.now] else z
    ensures |z[call.member := call.now]| == |z| + 1
  {
    assert Trim(z, call.now - cfg.window) == z;
    assert z[call.member := call.now].Keys == z.Keys + {call.member};
  }

  lemma {:induction false} BurstAt(cfg: Config, z: ZSet, now: real, members: seq<string>)
    requires cfg.Valid() && |z| <= cfg.limit && AllLive(cfg, z, now) && NewMembers(z, members)
    ensures
      var room := cfg.limit - |z|;
      Admissions(cfg, z, AtInstant(now, members)) == if |members| <= room then |members| else room
    decreases |members|
  {
    if members != [] {
      var call := Call(now, members[0]);
      assert AtInstant(now, members)[0] == call && AtInstant(now, members)[1..] == AtInstant(now, members[1..]);
      AddAtInstant(cfg, z, call);
      BurstAt(cfg, Insert(cfg, z, call), now, members[1..]);
    }
  }

  /** After an admission that reports r remaining, exactly r more calls at the same instant
      are admitted, however many are made, as long as their members are new. */
  lemma RemainingIsExact(cfg: Config, z: ZSet, call: Call, members: seq<string>)
    requires cfg.Valid() && Admits(cfg, z, call.now)
    requires call.member !in z && NewMembers(z[call.member := call.now], members)
    ensures
      var r := Reply(cfg, z, call).remaining;
      Admissions(cfg, Insert(cfg, z, call), AtInstant(call.now, members)) == if |members| <= r then |members| else r
  {
    AfterAdmission(cfg, z, call);
    StillNew(cfg, z, call, members);
    BurstAt(cfg, Insert(cfg, z, call), call.now, members);
  }

  lemma {:induction false} AfterAdmission(cfg: Config, z: ZSet, call: Call)
    requires cfg.Valid() && Admits(cfg, z, call.now) && call.member !in z
    ensures |Insert(cfg, z, call)| == |Trim(z, call.now - cfg.window)| + 1 <= cfg.limit
    ensures AllLive(cfg, Insert(cfg, z, call), call.now)
  {
    AddAtInstant(cfg, Trim(z, call.now - cfg.window), call);
  }

  lemma StillNew(cfg: Config, z: ZSet, call: Call, members: seq<string>)
    requires NewMembers(z[call.member := call.now], members)
    ensures NewMembers(Insert(cfg, z, call), members)
  {
  }

  /** A key of this limit never holds more than `limit` entries, whatever the clock and the
      members do. */
  lemma NeverMoreThanLimit(cfg: Config, z: ZSet, call: Call)
    requires cfg.Valid() && |z| <= cfg.limit
    ensures |Insert(cfg, z, call)| <= cfg.limit
  {
    var live := Trim(z, call.now - cfg.window);
    CardinalityOfSubset(live.Keys, z.Keys);
    assert live[call.member := call.now].Keys == live.Keys + {call.member};
  }

  /** The key after a run of calls. */
  function KeyAfter(cfg: Config, z: ZSet, calls: seq<Call>): ZSet
    decreases |calls|
  {
    if calls == [] then z else KeyAfter(cfg, Insert(cfg, z, calls[0]), calls[1..])
  }

  /** Over every run, on any clock and with any members. */
  lemma {:induction false} RunsKeepLimit(cfg: Config, z: ZSet, calls: seq<Call>)
    requires cfg.Valid() && |z| <= cfg.limit
    ensures |KeyAfter(cfg, z, calls)| <= cfg.limit
    decreases |calls|
  {
    if calls != [] {
      NeverMoreThanLimit(cfg, z, calls[0]);
      RunsKeepLimit(cfg, Insert(cfg, z, calls[0]), calls[1..]);
    }
  }

  /** A caller who waits `retry_after_seconds`, with no other traffic, is admitted. */
  ghost predicate WaitIsEnough(cfg: Config, z: ZSet, call: Call) {
    var wait := Reply(cfg, z, call).resetAfter;
    wait > 0.0 && Admits(cfg, Insert(cfg, z, call), call.now + wait)
  }

  /** A denied caller need only wait as long as the answer says. */
  lemma RetryAfterIsEnough(cfg: Config, z: ZSet, call: Call)
    requires cfg.Valid() && |z| <= cfg.limit && !Admits(cfg, z, call.now)
    ensures WaitIsEnough(cfg, z, call)
  {
    var live := Trim(z, call.now - cfg.window);
    assert Insert(cfg, z, call) == live && live != map[];
    var oldest :| oldest in live && live[oldest] == MinScore(live);
    var later := Trim(live, MinScore(live));
    CardinalityOfSubset(later.Keys, live.Keys - {oldest});
    CardinalityOfSubset(live.Keys, z.Keys);
  }

  /** And so after every run from a missing key. */
  lemma RetryAfterRunIsEnough(cfg: Config, calls: seq<Call>, call: Call)
    requires cfg.Valid() && !Admits(cfg, KeyAfter(cfg, map[], calls), call.now)
    ensures WaitIsEnough(cfg, KeyAfter(cfg, map[], calls), call)
  {
    RunsKeepLimit(cfg, map[], calls);
    RetryAfterIsEnough(cfg, KeyAfter(cfg, map[], calls), call);
  }

  /** The reported reset is the instant at which the oldest entry leaves the window: then, and not
      before. */
  lemma {:induction false} ResetIsExact(cfg: Config, z: ZSet, call: Call, later: real)
    requires cfg.Valid()
    ensures Reply(cfg, z, call).resetAfter > 0.0
    ensures
      var left := Insert(cfg, z, call);
      Trim(left, later - cfg.window) == left <==> later < call.now + Reply(cfg, z, call).resetAfter
  {
    var left := Insert(cfg, z, call);
    SomeEntryAndAllLive(cfg, z, call);
    var oldest :| oldest in left && left[oldest] == MinScore(left);
    assert Reply(cfg, z, call).resetAfter == MinScore(left) + cfg.window - call.now;
    if later >= MinScore(left) + cfg.window {
      assert oldest !in Trim(left, later - cfg.window);
    }
  }

  lemma SomeEntryAndAllLive(cfg: Config, z: ZSet, call: Call)
    requires cfg.Valid()
    ensures Insert(cfg, z, call) != map[]
    ensures forall m :: m in Insert(cfg, z, call) ==> Insert(cfg, z, call)[m] > call.now - cfg.window
  {
    var live := Trim(z, call.now - cfg.window);
    if |live| < cfg.limit {
      assert call.member in Insert(cfg, z, call);
    }
  }

  lemma {:induction false} CardinalityOfSubset<T>(a: set<T>, b: set<T>)
    requires a <= b
    ensures |a| <= |b|
  {
    if a != {} {
      var x :| x in a;
      CardinalityOfSubset(a - {x}, b - {x});
    }
  }

  // ----- expiry ------------------------------------------------------------------------------

  datatype Stored = Stored(z: ZSet, expiresAt: real)

  /** What a store that forgets the key after its time to live shows to the script. */
  function Visible(s: Option<Stored>, now: real): ZSet {
    if s.Some? && now < s.value.expiresAt then s.value.z else map[]
  }

  /** Only an admission renews the expiry. */
  function ExpiringInsert(cfg: Config, s: Option<Stored>, call: Call): Option<Stored> {
    var z := Visible(s, call.now);
    if Admits(cfg, z, call.now) then Some(Stored(Insert(cfg, z, call), call.now + cfg.window))
    else if s.Some? then Some(Stored(Insert(cfg, z, call), s.value.expiresAt))
    else None
  }

  ghost function Answers(cfg: Config, z: ZSet, calls: seq<Call>): seq<Answer>
    decreases |calls|
  {
    if calls == [] then []
    else [Reply(cfg, z, calls[0])] + Answers(cfg, Insert(cfg, z, calls[0]), calls[1..])
  }

  ghost function ExpiringAnswers(cfg: Config, s: Option<Stored>, calls: seq<Call>): seq<Answer>
    decreases |calls|
  {
    if calls == [] then []
    else [Reply(cfg, Visible(s, calls[0].now), calls[0])]
         + ExpiringAnswers(cfg, ExpiringInsert(cfg, s, calls[0]), calls[1..])
  }

  /** The expiring key mirrors the eternal one, and no entry outlives the expiry. */
  ghost predicate Mirrors(cfg: Config, s: Option<Stored>, z: ZSet, now: real) {
    match s
    case None => z == map[]
    case Some(stored) =>
      && stored.z == z && stored.expiresAt <= now + cfg.window
      && forall m :: m in z ==> z[m] <= stored.expiresAt - cfg.window
  }

  lemma MirrorsAfterInsert(cfg: Config, s: Option<Stored>, z: ZSet, call: Call, next: real)
    requires cfg.Valid() && Mirrors(cfg, s, z, call.now) && call.now <= next
    ensures Reply(cfg, Visible(s, call.now), call) == Reply(cfg, z, call)
    ensures Mirrors(cfg, ExpiringInsert(cfg, s, call), Insert(cfg, z, call), next)
  {
    SameLiveEntries(cfg, s, z, call);
    NoEntryOutlives(cfg, s, z, call);
  }

  lemma NoEntryOutlives(cfg: Config, s: Option<Stored>, z: ZSet, call: Call)
    requires cfg.Valid() && Mirrors(cfg, s, z, call.now)
    ensures Admits(cfg, z, call.now) ==> forall m :: m in Insert(cfg, z, call) ==> Insert(cfg, z, call)[m] <= call.now
    ensures !Admits(cfg, z, call.now) && s.Some? ==>
      forall m :: m in Insert(cfg, z, call) ==> Insert(cfg, z, call)[m] <= s.value.expiresAt - cfg.window
    ensures s.None? ==> Admits(cfg, z, call.now) || Insert(cfg, z, call) == map[]
  {
    var live := Trim(z, call.now - cfg.window);
    assert forall m :: m in live ==> live[m] == z[m];
  }

  lemma SameLiveEntries(cfg: Config, s: Option<Stored>, z: ZSet, call: Call)
    requires cfg.Valid() && Mirrors(cfg, s, z, call.now)
    ensures Trim(Visible(s, call.now), call.now - cfg.window) == Trim(z, call.now - cfg.window)
    ensures Insert(cfg, Visible(s, call.now), call) == Insert(cfg, z, call)
  {
  }

  lemma {:induction false} MirroredAnswers(cfg: Config, s: Option<Stored>, z: ZSet, calls: seq<Call>)
    requires cfg.Valid() && NonDecreasing(calls)
    requires calls != [] ==> Mirrors(cfg, s, z, calls[0].now)
    ensures ExpiringAnswers(cfg, s, calls) == Answers(cfg, z, calls)
    decreases |calls|
  {
    if calls != [] {
      var next := if |calls| > 1 then calls[1].now else calls[0].now;
      MirrorsAfterInsert(cfg, s, z, calls[0], next);
      MirroredAnswers(cfg, ExpiringInsert(cfg, s, calls[0]), Insert(cfg, z, calls[0]), calls[1..]);
    }
  }

  /** Expiry is invisible: on a clock that does not go back, a key that vanishes one window
      after the last admission answers every call as a key that never expires. */
  lemma ExpiryIsInvisible(cfg: Config, calls: seq<Call>)
    requires cfg.Valid() && NonDecreasing(calls)
    ensures ExpiringAnswers(cfg, None, calls) == Answers(cfg, map[], calls)
  {
    MirroredAnswers(cfg, None, map[], calls);
  }
}
