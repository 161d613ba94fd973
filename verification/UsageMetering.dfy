/**
 Usage metering: the bounded queue and its batching loop (api/app/usage_queue.py) and the
 daily counters it writes (api/app/repositories/usage.py).
 */
module UsageMetering {
  import opened Wrappers

  // ----- counters ------------------------------------------------------------------------

  datatype Bucket = Bucket(requests: int, toolCalls: int, rbacDenials: int, rateLimitRejections: int)

  datatype Counter = Requests | ToolCalls | RbacDenials | RateLimitRejections

  function Get(b: Bucket, c: Counter): int {
    match c
    case Requests => b.requests
    case ToolCalls => b.toolCalls
    case RbacDenials => b.rbacDenials
    case RateLimitRejections => b.rateLimitRejections
  }

  function Plus(a: Bucket, b: Bucket): Bucket {
    Bucket(a.requests + b.requests, a.toolCalls + b.toolCalls,
           a.rbacDenials + b.rbacDenials, a.rateLimitRejections + b.rateLimitRejections)
  }

  /** One row per tenant and day. */
  datatype RowKey = RowKey(tenant: string, day: int)

  type Table = map<RowKey, Bucket>

  datatype Item = Item(key: RowKey, delta: Bucket)

  function At(t: Table, k: RowKey, c: Counter): int {
    if k in t then Get(t[k], c) else 0
  }

  /** INSERT ... ON CONFLICT (tenant_id, usage_date) DO UPDATE. */
  function Upsert(t: Table, k: RowKey, delta: Bucket): Table {
    t[k := if k in t then Plus(t[k], delta) else delta]
  }

  /** The items applied one by one. */
  function ApplyAll(t: Table, items: seq<Item>): Table
    decreases |items|
  {
    if items == [] then t else ApplyAll(Upsert(t, items[0].key, items[0].delta), items[1..])
  }

  /** What a list of items adds to one counter of one row. */
  function Sum(items: seq<Item>, k: RowKey, c: Counter): int {
    if items == [] then 0 else (if items[0].key == k then Get(items[0].delta, c) else 0) + Sum(items[1..], k, c)
  }

  predicate Touches(items: seq<Item>, k: RowKey) {
    items != [] && (items[0].key == k || Touches(items[1..], k))
  }

  lemma {:induction false} SumAppend(xs: seq<Item>, ys: seq<Item>, k: RowKey, c: Counter)
    ensures Sum(xs + ys, k, c) == Sum(xs, k, c) + Sum(ys, k, c)
  {
    if xs == [] {
      assert xs + ys == ys;
    } else {
      SumAppend(xs[1..], ys, k, c);
      assert (xs + ys)[1..] == xs[1..] + ys;
    }
  }

  lemma UpsertAt(t: Table, key: RowKey, delta: Bucket, k: RowKey, c: Counter)
    ensures At(Upsert(t, key, delta), k, c) == At(t, k, c) + (if k == key then Get(delta, c) else 0)
  {
  }

  /** Every counter of every row gains exactly what its items add up to, and no other row
      appears. */
  lemma {:induction false} AppliedSums(t: Table, items: seq<Item>, k: RowKey, c: Counter)
    ensures At(ApplyAll(t, items), k, c) == At(t, k, c) + Sum(items, k, c)
    ensures k in ApplyAll(t, items) <==> k in t || Touches(items, k)
    decreases |items|
  {
    if items != [] {
      UpsertAt(t, items[0].key, items[0].delta, k, c);
      AppliedSums(Upsert(t, items[0].key, items[0].delta), items[1..], k, c);
    }
  }

  lemma {:induction false} ApplyAppend(t: Table, xs: seq<Item>, ys: seq<Item>)
    ensures ApplyAll(t, xs + ys) == ApplyAll(ApplyAll(t, xs), ys)
    decreases |xs|
  {
    if xs == [] {
      assert xs + ys == ys;
    } else {
      ApplyAppend(Upsert(t, xs[0].key, xs[0].delta), xs[1..], ys);
      assert (xs + ys)[1..] == xs[1..] + ys;
    }
  }

  lemma SameTable(a: Table, b: Table)
    requires forall k :: k in a <==> k in b
    requires forall k, c :: At(a, k, c) == At(b, k, c)
    ensures a == b
  {
    forall k | k in a
      ensures a[k] == b[k]
    {
      assert At(a, k, Requests) == At(b, k, Requests) && At(a, k, ToolCalls) == At(b, k, ToolCalls);
      assert At(a, k, RbacDenials) == At(b, k, RbacDenials);
      assert At(a, k, RateLimitRejections) == At(b, k, RateLimitRejections);
    }
  }

  /** `_flush`, when it succeeds: aggregate the batch per row, then upsert once per row, in
      whatever order the rows come. The table ends as if the items were applied one by one. */
  method Flush(db: Table, batch: seq<Item>) returns (db': Table)
    ensures db' == ApplyAll(db, batch)
  {
    var aggregated: Table := map[];
    for i := 0 to |batch|
      invariant ApplyAll(aggregated, batch[i..]) == ApplyAll(map[], batch)
    {
      var item := batch[i];
      var agg := if item.key in aggregated then aggregated[item.key] else Bucket(0, 0, 0, 0);
      aggregated := aggregated[item.key := Plus(agg, item.delta)];
      assert batch[i..][1..] == batch[i + 1..];
    }
    db' := db;
    var todo := aggregated.Keys;
    while todo != {}
      invariant todo <= aggregated.Keys
      invariant forall k, c :: At(db', k, c) == At(db, k, c) + (if k in todo then 0 else At(aggregated, k, c))
      invariant forall k :: k in db' <==> k in db || (k in aggregated && k !in todo)
      decreases todo
    {
      var k :| k in todo;
      db' := Upsert(db', k, aggregated[k]);
      todo := todo - {k};
    }
    forall k
      ensures k in db' <==> k in ApplyAll(db, batch)
    {
      AppliedSums(db, batch, k, Requests);
      AppliedSums(map[], batch, k, Requests);
    }
    forall k, c
      ensures At(db', k, c) == At(ApplyAll(db, batch), k, c)
    {
      AppliedSums(db, batch, k, c);
      AppliedSums(map[], batch, k, c);
    }
    SameTable(db', ApplyAll(db, batch));
  }

  // ----- totals -----------------------------------------------------------------------------

  predicate InRange(k: RowKey, tenant: string, start: int, end: int) {
    k.tenant == tenant && start <= k.day <= end
  }

  /** The reference: one addition per day of the range. */
  function TotalByDay(t: Table, tenant: string, start: int, end: int, c: Counter): int
    decreases end - start
  {
    if start > end then 0 else TotalByDay(t, tenant, start, end - 1, c) + At(t, RowKey(tenant, end), c)
  }

  function SumInRange(items: seq<Item>, tenant: string, start: int, end: int, c: Counter): int {
    if items == [] then 0
    else (if InRange(items[0].key, tenant, start, end) then Get(items[0].delta, c) else 0)
         + SumInRange(items[1..], tenant, start, end, c)
  }

  lemma {:induction false} TotalAfterUpsert(t: Table, k: RowKey, delta: Bucket, tenant: string, start: int, end: int,
                                            c: Counter)
    ensures TotalByDay(Upsert(t, k, delta), tenant, start, end, c)
         == TotalByDay(t, tenant, start, end, c) + (if InRange(k, tenant, start, end) then Get(delta, c) else 0)
    decreases end - start
  {
    if start <= end {
      TotalAfterUpsert(t, k, delta, tenant, start, end - 1, c);
      UpsertAt(t, k, delta, RowKey(tenant, end), c);
    }
  }

  /** The total over a date range is the total before plus every applied delta in the range. */
  lemma {:induction false} TotalsSumDeltas(t: Table, items: seq<Item>, tenant: string, start: int, end: int, c: Counter)
    ensures TotalByDay(ApplyAll(t, items), tenant, start, end, c)
         == TotalByDay(t, tenant, start, end, c) + SumInRange(items, tenant, start, end, c)
    decreases |items|
  {
    if items != [] {
      TotalAfterUpsert(t, items[0].key, items[0].delta, tenant, start, end, c);
      TotalsSumDeltas(Upsert(t, items[0].key, items[0].delta), items[1..], tenant, start, end, c);
    }
  }

  lemma {:induction false} EmptyTotal(tenant: string, start: int, end: int, c: Counter)
    ensures TotalByDay(map[], tenant, start, end, c) == 0
    decreases end - start
  {
    if start <= end {
      EmptyTotal(tenant, start, end - 1, c);
    }
  }

  /** `totals`: the database adds up the matching rows in an order of its own. */
  method Totals(t: Table, tenant: string, start: int, end: int) returns (total: Bucket)
    ensures forall c :: Get(total, c) == TotalByDay(t, tenant, start, end, c)
  {
    total := Bucket(0, 0, 0, 0);
    ghost var seen: Table := map[];
    forall c ensures Get(total, c) == TotalByDay(seen, tenant, start, end, c) { EmptyTotal(tenant, start, end, c); }
    var todo := t.Keys;
    while todo != {}
      invariant todo <= t.Keys
      invariant seen == map k | k in t && k !in todo :: t[k]
      invariant forall c :: Get(total, c) == TotalByDay(seen, tenant, start, end, c)
      decreases todo
    {
      var k :| k in todo;
      ghost var before := total;
      if InRange(k, tenant, start, end) {
        total := Plus(total, t[k]);
      }
      forall c
        ensures Get(total, c) == TotalByDay(Upsert(seen, k, t[k]), tenant, start, end, c)
      {
        assert Get(before, c) == TotalByDay(seen, tenant, start, end, c);
        TotalAfterUpsert(seen, k, t[k], tenant, start, end, c);
      }
      seen := Upsert(seen, k, t[k]);
      todo := todo - {k};
    }
    assert seen == t;
  }

  // ----- the queue and its loop, step by step ---------------------------------------------

  /** A queue entry: a usage delta, or None for the stop sentinel. */
  type Entry = Option<Item>

  function Items(entries: seq<Entry>): seq<Item> {
    if entries == [] then []
    else (if entries[0].Some? then [entries[0].value] else []) + Items(entries[1..])
  }

  lemma {:induction false} ItemsAppend(xs: seq<Entry>, ys: seq<Entry>)
    ensures Items(xs + ys) == Items(xs) + Items(ys)
  {
    if xs == [] {
      assert xs + ys == ys;
    } else {
      var head := if xs[0].Some? then [xs[0].value] else [];
      calc {
        Items(xs + ys);
        { assert (xs + ys)[1..] == xs[1..] + ys; }
        head + Items(xs[1..] + ys);
        { ItemsAppend(xs[1..], ys); }
        head + (Items(xs[1..]) + Items(ys));
        (head + Items(xs[1..])) + Items(ys);
      }
    }
  }

  /** The four places that call `_flush`: on a sentinel in the first drain, on a sentinel in the
      second one, in the cancel handler around the second one, and at the end of the loop body. */
  datatype Site = FromDrain | FromCoalesce | FromCancel | FromLoop

  /** Where the background task stands. It yields to other tasks only while waiting for a first
      item, while sleeping to coalesce, and inside a flush. A flush may be cancelled before its
      commit or, while the session closes, after it; `before` says that an earlier flush has
      already persisted the batch. */
  datatype Phase =
    | Waiting
    | Draining
    | Sleeping
    | Coalescing
    | Flushing(site: Site, committed: bool, before: bool)
    | Stopped

  /** `accepted` and `taken` record every entry ever put into and taken from the queue, `handled`
      the items of the batches that the task is done with; `persisted` holds the items of every
      commit, `lost` those that no flush persisted, `doubled` those that a second commit repeated,
      and `external` what other writers of the table added. */
  datatype Meter = Meter(
    queue: seq<Entry>, dropped: nat, batch: seq<Item>, phase: Phase, db: Table,
    accepted: seq<Entry>, taken: seq<Entry>, handled: seq<Item>,
    persisted: seq<Item>, lost: seq<Item>, doubled: seq<Item>, external: seq<Item>)

  datatype Limits = Limits(maxBatch: nat, queueSize: nat) {
    /** A batch within its bound; a first item is always taken. */
    predicate Fits(batch: seq<Item>) {
      batch != [] && (|batch| == 1 || |batch| <= maxBatch)
    }
  }

  /** `FlushEnds` before a `Commit` is a flush that failed. */
  datatype Action =
    | Enqueue(item: Item)
    | PutSentinel
    | Start
    | GetFirst
    | GetMore
    | Wake
    | Cancel
    | Commit
    | FlushEnds
    | WriteElsewhere(item: Item)

  predicate Full(limits: Limits, s: Meter) {
    limits.queueSize > 0 && |s.queue| >= limits.queueSize
  }

  function Put(s: Meter, e: Entry): Meter {
    s.(queue := s.queue + [e], accepted := s.accepted + [e])
  }

  function TakeHead(s: Meter): Meter
    requires s.queue != []
  {
    s.(queue := s.queue[1..], taken := s.taken + [s.queue[0]])
  }

  /** The batch has been persisted at least once. */
  predicate Once(s: Meter) {
    s.phase.Flushing? && (s.phase.committed || s.phase.before)
  }

  /** The items that the task holds and that nothing has persisted yet. */
  function InHand(s: Meter): seq<Item> {
    if Once(s) then [] else s.batch
  }

  function CommitBatch(s: Meter): Meter
    requires s.phase.Flushing?
  {
    s.(phase := s.phase.(committed := true), db := ApplyAll(s.db, s.batch), persisted := s.persisted + s.batch,
       doubled := if s.phase.before then s.doubled + s.batch else s.doubled)
  }

  function EndFlush(s: Meter, next: Phase): Meter {
    s.(batch := [], phase := next, handled := s.handled + s.batch, lost := s.lost + InHand(s))
  }

  /** A cancel ends the task, except inside the guarded part: while sleeping, and in the flush on a
      sentinel after the sleep, it starts a flush of the batch from the handler. */
  function CancelTask(s: Meter): Option<Meter> {
    match s.phase
    case Waiting => Some(s.(phase := Stopped))
    case Sleeping => Some(s.(phase := Flushing(FromCancel, false, false)))
    case Flushing(site, committed, _) =>
      if site == FromCoalesce then Some(s.(phase := Flushing(FromCancel, false, committed)))
      else Some(EndFlush(s, Stopped))
    case _ => None
  }

  /** One atomic step; None when the action is not enabled. */
  function Next(limits: Limits, s: Meter, a: Action): Option<Meter> {
    match a
    case Enqueue(item) => if Full(limits, s) then Some(s.(dropped := s.dropped + 1)) else Some(Put(s, Some(item)))
    case PutSentinel => if Full(limits, s) then None else Some(Put(s, None))
    case Start => if s.phase.Stopped? then Some(s.(phase := Waiting)) else None
    case GetFirst =>
      if !s.phase.Waiting? || s.queue == [] then None
      else if s.queue[0].None? then Some(TakeHead(s).(phase := Stopped))
      else Some(TakeHead(s).(batch := [s.queue[0].value], phase := Draining))
    case GetMore =>
      if !s.phase.Draining? && !s.phase.Coalescing? then None
      else if |s.batch| >= limits.maxBatch || s.queue == [] then
        Some(s.(phase := if s.phase.Draining? then Sleeping else Flushing(FromLoop, false, false)))
      else if s.queue[0].None? then
        Some(TakeHead(s).(phase := Flushing(if s.phase.Draining? then FromDrain else FromCoalesce, false, false)))
      else Some(TakeHead(s).(batch := s.batch + [s.queue[0].value]))
    case Wake => if s.phase.Sleeping? then Some(s.(phase := Coalescing)) else None
    case Cancel => CancelTask(s)
    case Commit => if s.phase.Flushing? && !s.phase.committed then Some(CommitBatch(s)) else None
    case FlushEnds =>
      if s.phase.Flushing? then Some(EndFlush(s, if s.phase.site == FromLoop then Waiting else Stopped)) else None
    case WriteElsewhere(item) =>
      Some(s.(db := Upsert(s.db, item.key, item.delta), external := s.external + [item]))
  }

  function Initial(db: Table): Meter {
    Meter([], 0, [], Stopped, db, [], [], [], [], [], [], [])
  }

  function Run(limits: Limits, db: Table, actions: seq<Action>): Option<Meter> {
    if actions == [] then Some(Initial(db))
    else
      match Run(limits, db, actions[..|actions| - 1])
      case None => None
      case Some(s) => Next(limits, s, actions[|actions| - 1])
  }

  // ----- what every step keeps ---------------------------------------------------------------

  /** A batch is held exactly between a first item and the end of its last flush, and only the flush
      from the cancel handler can be a second one. */
  predicate WellPhased(s: Meter) {
    && (s.batch == [] <==> s.phase.Waiting? || s.phase.Stopped?)
    && (s.phase.Flushing? && s.phase.before ==> s.phase.site == FromCancel)
  }

  /** Entries leave the queue in order, and every item taken is handled or in the batch. */
  ghost predicate InOrder(s: Meter) {
    && WellPhased(s)
    && s.accepted == s.taken + s.queue
    && Items(s.taken) == s.handled + s.batch
  }

  /** What is handled, or persisted and not yet handled, was persisted or lost; repeats count twice. */
  ghost predicate Ledger(s: Meter, k: RowKey, c: Counter) {
    Sum(s.handled, k, c) + Sum(s.batch, k, c) - Sum(InHand(s), k, c) + Sum(s.doubled, k, c)
    == Sum(s.persisted, k, c) + Sum(s.lost, k, c)
  }

  /** The table holds what it held, what others wrote, and every commit. */
  ghost predicate Balance(s: Meter, db: Table, k: RowKey, c: Counter) {
    At(s.db, k, c) == At(db, k, c) + Sum(s.external, k, c) + Sum(s.persisted, k, c)
  }

  ghost predicate AddsUp(s: Meter, db: Table) {
    forall k, c :: Ledger(s, k, c) && Balance(s, db, k, c)
  }

  /** Nothing that was handled is unaccounted for. */
  ghost predicate Accounted(s: Meter) {
    && (forall x :: x in s.handled ==> x in s.persisted || x in s.lost)
    && (Once(s) ==> forall x :: x in s.batch ==> x in s.persisted)
  }

  ghost predicate Bounded(limits: Limits, s: Meter) {
    && (limits.queueSize > 0 ==> |s.queue| <= limits.queueSize)
    && (s.batch != [] ==> limits.Fits(s.batch))
  }

  /** The same entries and books, and as much of the batch persisted as before. */
  ghost predicate SameBooks(s: Meter, s': Meter) {
    && s'.accepted == s.accepted && s'.taken == s.taken && s'.queue == s.queue && s'.batch == s.batch
    && s'.handled == s.handled && s'.persisted == s.persisted && s'.lost == s.lost && s'.doubled == s.doubled
    && WellPhased(s') && InHand(s') == InHand(s) && Once(s') == Once(s)
  }

  ghost predicate TakesOne(s: Meter, s': Meter) {
    && s.queue != [] && s' == TakeHead(s).(batch := s'.batch, phase := s'.phase)
    && s'.batch == s.batch + (if s.queue[0].Some? then [s.queue[0].value] else [])
    && WellPhased(s') && !Once(s) && !Once(s')
  }

  /** What a step does: an entry comes in, one is taken, a batch is committed, a batch is done with,
      somebody else writes, or the task only moves on. */
  lemma NextCases(limits: Limits, s: Meter, a: Action)
    requires WellPhased(s) && Next(limits, s, a).Some?
    ensures
      var s' := Next(limits, s, a).value;
      || s' == Put(s, if a.Enqueue? then Some(a.item) else None)
      || TakesOne(s, s')
      || (a.Commit? && s.phase.Flushing? && !s.phase.committed && s' == CommitBatch(s))
      || (s.phase.Flushing? && s' == EndFlush(s, s'.phase) && (s'.phase.Waiting? || s'.phase.Stopped?))
      || (SameBooks(s, s') && if a.WriteElsewhere? then
            s'.db == Upsert(s.db, a.item.key, a.item.delta) && s'.external == s.external + [a.item]
          else s'.db == s.db && s'.external == s.external)
  {
  }

  lemma {:induction false} TakeKeepsOrder(s: Meter, s': Meter)
    requires InOrder(s) && TakesOne(s, s')
    ensures InOrder(s')
  {
    assert s.queue == [s.queue[0]] + s.queue[1..];
    ItemsAppend(s.taken, [s.queue[0]]);
    assert Items([s.queue[0]]) == if s.queue[0].Some? then [s.queue[0].value] else [];
  }

  lemma PutKeepsOrder(s: Meter, e: Entry)
    requires InOrder(s)
    ensures InOrder(Put(s, e))
  {
    assert s.taken + (s.queue + [e]) == (s.taken + s.queue) + [e];
  }

  lemma {:induction false} NextKeepsOrder(limits: Limits, s: Meter, a: Action)
    requires InOrder(s) && Next(limits, s, a).Some?
    ensures InOrder(Next(limits, s, a).value)
  {
    var s' := Next(limits, s, a).value;
    NextCases(limits, s, a);
    if TakesOne(s, s') {
      TakeKeepsOrder(s, s');
    } else if s' == Put(s, if a.Enqueue? then Some(a.item) else None) {
      PutKeepsOrder(s, if a.Enqueue? then Some(a.item) else None);
    } else {
      assert s'.handled + s'.batch == s.handled + s.batch;
    }
  }

  lemma NextKeepsBounds(limits: Limits, s: Meter, a: Action)
    requires Bounded(limits, s) && WellPhased(s) && Next(limits, s, a).Some?
    ensures Bounded(limits, Next(limits, s, a).value)
  {
  }

  lemma {:induction false} CommitKeepsBooks(s: Meter, db: Table, k: RowKey, c: Counter)
    requires s.phase.Flushing? && !s.phase.committed && Ledger(s, k, c) && Balance(s, db, k, c)
    ensures Ledger(CommitBatch(s), k, c) && Balance(CommitBatch(s), db, k, c)
  {
    AppliedSums(s.db, s.batch, k, c);
    SumAppend(s.persisted, s.batch, k, c);
    SumAppend(s.doubled, s.batch, k, c);
  }

  lemma {:induction false} EndFlushKeepsBooks(s: Meter, next: Phase, db: Table, k: RowKey, c: Counter)
    requires Ledger(s, k, c) && Balance(s, db, k, c)
    ensures Ledger(EndFlush(s, next), k, c) && Balance(EndFlush(s, next), db, k, c)
  {
    SumAppend(s.handled, s.batch, k, c);
    SumAppend(s.lost, InHand(s), k, c);
  }

  lemma {:induction false} TakeKeepsBooks(s: Meter, s': Meter, db: Table, k: RowKey, c: Counter)
    requires Ledger(s, k, c) && Balance(s, db, k, c) && TakesOne(s, s')
    ensures Ledger(s', k, c) && Balance(s', db, k, c)
  {
  }

  lemma {:induction false} WriteKeepsBalance(s: Meter, item: Item, db: Table, k: RowKey, c: Counter)
    requires Balance(s, db, k, c)
    ensures At(Upsert(s.db, item.key, item.delta), k, c)
         == At(db, k, c) + Sum(s.external + [item], k, c) + Sum(s.persisted, k, c)
  {
    UpsertAt(s.db, item.key, item.delta, k, c);
    SumAppend(s.external, [item], k, c);
    assert Sum([item], k, c) == if item.key == k then Get(item.delta, c) else 0;
  }

  lemma {:induction false} NextKeepsBooks(limits: Limits, s: Meter, a: Action, db: Table, k: RowKey, c: Counter)
    requires WellPhased(s) && Next(limits, s, a).Some? && Ledger(s, k, c) && Balance(s, db, k, c)
    ensures Ledger(Next(limits, s, a).value, k, c) && Balance(Next(limits, s, a).value, db, k, c)
  {
    var s' := Next(limits, s, a).value;
    NextCases(limits, s, a);
    if TakesOne(s, s') {
      TakeKeepsBooks(s, s', db, k, c);
    } else if a.Commit? {
      CommitKeepsBooks(s, db, k, c);
    } else if s.phase.Flushing? && s' == EndFlush(s, s'.phase) {
      EndFlushKeepsBooks(s, s'.phase, db, k, c);
    } else if a.WriteElsewhere? {
      WriteKeepsBalance(s, a.item, db, k, c);
    }
  }

  lemma NextKeepsAccounted(limits: Limits, s: Meter, a: Action)
    requires WellPhased(s) && Accounted(s) && Next(limits, s, a).Some?
    ensures Accounted(Next(limits, s, a).value)
  {
    NextCases(limits, s, a);
  }

  /** In every run the queue and the batch keep their bounds, entries leave in order, every handled
      item is accounted for, and both books add up. */
  lemma {:induction false} RunInvariant(limits: Limits, db: Table, actions: seq<Action>)
    requires Run(limits, db, actions).Some?
    ensures
      var s := Run(limits, db, actions).value;
      InOrder(s) && Bounded(limits, s) && Accounted(s) && AddsUp(s, db)
    decreases |actions|
  {
    if actions != [] {
      var n := |actions| - 1;
      RunInvariant(limits, db, actions[..n]);
      var s, a := Run(limits, db, actions[..n]).value, actions[n];
      NextKeepsOrder(limits, s, a);
      NextKeepsBounds(limits, s, a);
      NextKeepsAccounted(limits, s, a);
      forall k, c
        ensures Ledger(Next(limits, s, a).value, k, c) && Balance(Next(limits, s, a).value, db, k, c)
      {
        NextKeepsBooks(limits, s, a, db, k, c);
      }
    }
  }

  // ----- conservation ------------------------------------------------------------------------

  /** The exact ledger: in every interleaving of puts, batching, commits, failures, cancellations and
      restarts, and for every tenant, day and counter, what was accepted, plus what a second flush
      repeated, is persisted, lost, in hand, or still queued; and the table has grown by the persisted
      part and by what others wrote. */
  lemma {:induction false} UsageLedger(limits: Limits, db: Table, actions: seq<Action>, k: RowKey, c: Counter)
    requires Run(limits, db, actions).Some?
    ensures
      var s := Run(limits, db, actions).value;
      && Sum(Items(s.accepted), k, c) + Sum(s.doubled, k, c)
         == Sum(s.persisted, k, c) + Sum(s.lost, k, c) + Sum(InHand(s), k, c) + Sum(Items(s.queue), k, c)
      && At(s.db, k, c) == At(db, k, c) + Sum(s.persisted, k, c) + Sum(s.external, k, c)
  {
    var s := Run(limits, db, actions).value;
    RunInvariant(limits, db, actions);
    ItemsAppend(s.taken, s.queue);
    SumAppend(Items(s.taken), Items(s.queue), k, c);
    SumAppend(s.handled, s.batch, k, c);
    assert Ledger(s, k, c) && Balance(s, db, k, c);
  }

  /** Nothing repeated: accepted is persisted, lost, in hand, or queued. */
  predicate Conserved(s: Meter, k: RowKey, c: Counter) {
    Sum(Items(s.accepted), k, c)
    == Sum(s.persisted, k, c) + Sum(s.lost, k, c) + Sum(InHand(s), k, c) + Sum(Items(s.queue), k, c)
  }

  /** At step i a cancel hits the flush on a sentinel, after the sleep, when it has committed. */
  ghost predicate CancelsCommitted(limits: Limits, db: Table, actions: seq<Action>, i: nat)
    requires i < |actions|
  {
    && actions[i].Cancel? && Run(limits, db, actions[..i]).Some?
    && Run(limits, db, actions[..i]).value.phase == Flushing(FromCoalesce, true, false)
  }

  /** A step of the task inside a flush. */
  predicate MovesFlush(a: Action) {
    a.Commit? || a.FlushEnds? || a.Cancel?
  }

  /** Such a cancel at step i, and the next thing that happens to the task is a commit, at step j. */
  ghost predicate Repeats(limits: Limits, db: Table, actions: seq<Action>, i: int, j: int) {
    && 0 <= i < j < |actions| && CancelsCommitted(limits, db, actions, i) && actions[j].Commit?
    && forall m :: i < m < j ==> !MovesFlush(actions[m])
  }

  ghost predicate SomethingRepeats(limits: Limits, db: Table, actions: seq<Action>) {
    exists i, j :: Repeats(limits, db, actions, i, j)
  }

  /** At step j a flush commits a batch that an earlier flush has persisted. */
  ghost predicate CommitsAgain(limits: Limits, db: Table, actions: seq<Action>, j: nat)
    requires j < |actions|
  {
    actions[j].Commit? && UpForCommit(limits, db, actions, j)
  }

  ghost predicate SomethingCommitsAgain(limits: Limits, db: Table, actions: seq<Action>) {
    exists j :: 0 <= j < |actions| && CommitsAgain(limits, db, actions, j)
  }

  lemma RunPrefix(actions: seq<Action>, n: nat, i: nat)
    requires i <= n <= |actions|
    ensures actions[..n][..i] == actions[..i]
  {
  }

  lemma {:induction false} PrefixRuns(limits: Limits, db: Table, actions: seq<Action>, i: nat)
    requires Run(limits, db, actions).Some? && i <= |actions|
    ensures Run(limits, db, actions[..i]).Some?
    decreases |actions|
  {
    if i < |actions| {
      PrefixRuns(limits, db, actions[..|actions| - 1], i);
      RunPrefix(actions, |actions| - 1, i);
    } else {
      assert actions[..i] == actions;
    }
  }

  lemma RunsOn(limits: Limits, db: Table, actions: seq<Action>, i: nat)
    requires Run(limits, db, actions).Some? && i < |actions|
    ensures Run(limits, db, actions[..i]).Some? && Run(limits, db, actions[..i + 1]).Some?
    ensures Run(limits, db, actions[..i + 1]) == Next(limits, Run(limits, db, actions[..i]).value, actions[i])
  {
    PrefixRuns(limits, db, actions, i);
    PrefixRuns(limits, db, actions, i + 1);
    RunPrefix(actions, i + 1, i);
  }

  /** Before step j a batch that has been persisted is up for a second commit. */
  ghost predicate UpForCommit(limits: Limits, db: Table, actions: seq<Action>, j: int) {
    && 0 <= j <= |actions| && Run(limits, db, actions[..j]).Some?
    && Run(limits, db, actions[..j]).value.phase == Flushing(FromCancel, false, true)
  }

  lemma RunIsWellPhased(limits: Limits, db: Table, actions: seq<Action>)
    requires Run(limits, db, actions).Some?
    ensures WellPhased(Run(limits, db, actions).value)
  {
    RunInvariant(limits, db, actions);
  }

  lemma SecondFlushWaits(limits: Limits, s: Meter, a: Action)
    requires WellPhased(s) && Next(limits, s, a).Some?
    ensures
      Next(limits, s, a).value.phase == Flushing(FromCancel, false, true) <==>
      || (s.phase == Flushing(FromCancel, false, true) && !MovesFlush(a))
      || (s.phase == Flushing(FromCoalesce, true, false) && a.Cancel?)
  {
  }

  /** Such a cancel starts the second flush, which waits while nothing happens to the task. */
  lemma UpForCommitStep(limits: Limits, db: Table, actions: seq<Action>, j: nat)
    requires Run(limits, db, actions).Some? && j < |actions|
    ensures
      UpForCommit(limits, db, actions, j + 1) <==>
      (UpForCommit(limits, db, actions, j) && !MovesFlush(actions[j])) || CancelsCommitted(limits, db, actions, j)
  {
    RunsOn(limits, db, actions, j);
    RunIsWellPhased(limits, db, actions[..j]);
    SecondFlushWaits(limits, Run(limits, db, actions[..j]).value, actions[j]);
  }

  /** A batch is up for a second commit only after such a cancel, and with nothing since. */
  lemma {:induction false} BeforeNeedsCancel(limits: Limits, db: Table, actions: seq<Action>, j: nat) returns (i: nat)
    requires Run(limits, db, actions).Some? && UpForCommit(limits, db, actions, j)
    ensures i < j && CancelsCommitted(limits, db, actions, i)
    ensures forall m :: i < m < j ==> !MovesFlush(actions[m])
    decreases j
  {
    assert j > 0 by {
      assert actions[..0] == [];
    }
    UpForCommitStep(limits, db, actions, j - 1);
    if CancelsCommitted(limits, db, actions, j - 1) {
      i := j - 1;
    } else {
      i := BeforeNeedsCancel(limits, db, actions, j - 1);
    }
  }

  lemma {:induction false} StaysUpForCommit(limits: Limits, db: Table, actions: seq<Action>, i: nat, j: nat)
    requires Run(limits, db, actions).Some? && i < j <= |actions| && CancelsCommitted(limits, db, actions, i)
    requires forall m :: i < m < j ==> !MovesFlush(actions[m])
    ensures UpForCommit(limits, db, actions, j)
    decreases j
  {
    UpForCommitStep(limits, db, actions, j - 1);
    if i < j - 1 {
      StaysUpForCommit(limits, db, actions, i, j - 1);
    }
  }

  /** A batch commits again exactly after such a cancel. */
  lemma {:induction false} CommitsAgainIff(limits: Limits, db: Table, actions: seq<Action>)
    requires Run(limits, db, actions).Some?
    ensures SomethingCommitsAgain(limits, db, actions) <==> SomethingRepeats(limits, db, actions)
  {
    if SomethingCommitsAgain(limits, db, actions) {
      var j :| 0 <= j < |actions| && CommitsAgain(limits, db, actions, j);
      var i := BeforeNeedsCancel(limits, db, actions, j);
      assert Repeats(limits, db, actions, i, j);
    }
    if SomethingRepeats(limits, db, actions) {
      var i, j :| Repeats(limits, db, actions, i, j);
      StaysUpForCommit(limits, db, actions, i, j);
      assert CommitsAgain(limits, db, actions, j);
    }
  }

  lemma {:induction false} CommitsAgainUpTo(limits: Limits, db: Table, actions: seq<Action>)
    requires actions != []
    ensures
      var n := |actions| - 1;
      SomethingCommitsAgain(limits, db, actions) <==>
      SomethingCommitsAgain(limits, db, actions[..n]) || CommitsAgain(limits, db, actions, n)
  {
    var n := |actions| - 1;
    forall i | 0 <= i < n
      ensures CommitsAgain(limits, db, actions[..n], i) <==> CommitsAgain(limits, db, actions, i)
    {
      RunPrefix(actions, n, i);
    }
  }

  lemma {:induction false} DoubledIffCommitsAgain(limits: Limits, db: Table, actions: seq<Action>)
    requires Run(limits, db, actions).Some?
    ensures Run(limits, db, actions).value.doubled != [] <==> SomethingCommitsAgain(limits, db, actions)
    decreases |actions|
  {
    if actions != [] {
      var n := |actions| - 1;
      DoubledIffCommitsAgain(limits, db, actions[..n]);
      CommitsAgainUpTo(limits, db, actions);
      RunInvariant(limits, db, actions[..n]);
      DoubledGrows(limits, Run(limits, db, actions[..n]).value, actions[n]);
    }
  }

  lemma DoubledGrows(limits: Limits, s: Meter, a: Action)
    requires WellPhased(s) && Next(limits, s, a).Some?
    ensures
      Next(limits, s, a).value.doubled != [] <==>
      s.doubled != [] || (a.Commit? && s.phase == Flushing(FromCancel, false, true))
  {
    NextCases(limits, s, a);
  }

  /** Items are repeated exactly when a cancel hits the flush on a sentinel, after the sleep, once it has
      committed, and the next step of the task is another commit. */
  lemma DoubledIff(limits: Limits, db: Table, actions: seq<Action>)
    requires Run(limits, db, actions).Some?
    ensures Run(limits, db, actions).value.doubled != [] <==> SomethingRepeats(limits, db, actions)
  {
    DoubledIffCommitsAgain(limits, db, actions);
    CommitsAgainIff(limits, db, actions);
  }

  /** Plain conservation of a counter holds exactly when what was repeated adds nothing to it; and the
      only thing that repeats anything is such a cancel of a committed flush, followed by a commit. */
  lemma {:induction false} UsageIsConservedIff(limits: Limits, db: Table, actions: seq<Action>, k: RowKey, c: Counter)
    requires Run(limits, db, actions).Some?
    ensures
      var s := Run(limits, db, actions).value;
      && (Conserved(s, k, c) <==> Sum(s.doubled, k, c) == 0)
      && (!SomethingRepeats(limits, db, actions) ==> Conserved(s, k, c))
  {
    UsageLedger(limits, db, actions, k, c);
    DoubledIff(limits, db, actions);
  }

  /** A delta as the gateway meters it: no counter falls and some counter rises. */
  predicate Counts(item: Item) {
    && (forall c :: Get(item.delta, c) >= 0)
    && (exists c :: Get(item.delta, c) > 0)
  }

  lemma {:induction false} SumOfCounts(items: seq<Item>, k: RowKey, c: Counter)
    requires forall x :: x in items ==> Counts(x)
    ensures Sum(items, k, c) >= 0
    ensures (exists x :: x in items && x.key == k && Get(x.delta, c) > 0) ==> Sum(items, k, c) > 0
  {
    if items != [] {
      SumOfCounts(items[1..], k, c);
      assert items[0] in items && Counts(items[0]);
      if x :| x in items && x.key == k && Get(x.delta, c) > 0 {
        assert x == items[0] || x in items[1..];
      }
    }
  }

  /** For deltas that count something, every counter is conserved exactly when no such cancel is
      followed by a commit. */
  lemma {:induction false} AllConservedIff(limits: Limits, db: Table, actions: seq<Action>)
    requires Run(limits, db, actions).Some?
    requires forall x :: x in Items(Run(limits, db, actions).value.accepted) ==> Counts(x)
    ensures (forall k, c :: Conserved(Run(limits, db, actions).value, k, c)) <==>
            !SomethingRepeats(limits, db, actions)
  {
    var s := Run(limits, db, actions).value;
    DoubledIff(limits, db, actions);
    if !SomethingRepeats(limits, db, actions) {
      forall k, c ensures Conserved(s, k, c) { UsageIsConservedIff(limits, db, actions, k, c); }
    } else {
      var x := s.doubled[0];
      DoubledWasAccepted(limits, db, actions);
      assert Counts(x);
      var c :| Get(x.delta, c) > 0;
      SumOfCounts(s.doubled, x.key, c);
      UsageIsConservedIff(limits, db, actions, x.key, c);
      assert !Conserved(s, x.key, c);
    }
  }

  /** Only accepted items are repeated. */
  lemma {:induction false} DoubledWasAccepted(limits: Limits, db: Table, actions: seq<Action>)
    requires Run(limits, db, actions).Some?
    ensures
      var s := Run(limits, db, actions).value;
      forall x :: x in s.doubled ==> x in Items(s.accepted)
    decreases |actions|
  {
    if actions != [] {
      var n := |actions| - 1;
      var s, s' := Run(limits, db, actions[..n]).value, Run(limits, db, actions).value;
      RunInvariant(limits, db, actions[..n]);
      DoubledWasAccepted(limits, db, actions[..n]);
      NextCases(limits, s, actions[n]);
      ItemsAppend(s.taken, s.queue);
      if s' == Put(s, if actions[n].Enqueue? then Some(actions[n].item) else None) {
        ItemsAppend(s.accepted, [if actions[n].Enqueue? then Some(actions[n].item) else None]);
      }
    }
  }

  /** Without a cancel of that flush after its commit, every counter is conserved. */
  lemma {:induction false} ConservedWithoutSuchCancel(limits: Limits, db: Table, actions: seq<Action>, k: RowKey,
                                                      c: Counter)
    requires Run(limits, db, actions).Some?
    requires forall i :: 0 <= i < |actions| ==> !CancelsCommitted(limits, db, actions, i)
    ensures Conserved(Run(limits, db, actions).value, k, c)
  {
    UsageIsConservedIff(limits, db, actions, k, c);
  }

  // ----- every enqueue, every loss, every stop --------------------------------------------------

  /** An enqueue never waits: a queue with room, or without a bound, takes the delta at its end, and a full
      one drops and counts it. */
  lemma EnqueueNeverWaits(limits: Limits, s: Meter, item: Item)
    ensures Next(limits, s, Enqueue(item)) ==
      if limits.queueSize == 0 || |s.queue| < limits.queueSize
      then Some(s.(queue := s.queue + [Some(item)], accepted := s.accepted + [Some(item)]))
      else Some(s.(dropped := s.dropped + 1))
  {
  }

  /** When each other step is possible: a sentinel while there is room, a start of a stopped task, a get and
      a commit in their own phases, a cancel wherever the task waits for something. */
  lemma EnabledIff(limits: Limits, s: Meter)
    ensures Next(limits, s, PutSentinel).Some? <==> limits.queueSize == 0 || |s.queue| < limits.queueSize
    ensures Next(limits, s, Start).Some? <==> s.phase.Stopped?
    ensures Next(limits, s, GetFirst).Some? <==> s.phase.Waiting? && s.queue != []
    ensures Next(limits, s, GetMore).Some? <==> s.phase.Draining? || s.phase.Coalescing?
    ensures Next(limits, s, Wake).Some? <==> s.phase.Sleeping?
    ensures Next(limits, s, Cancel).Some? <==> s.phase.Waiting? || s.phase.Sleeping? || s.phase.Flushing?
    ensures Next(limits, s, Commit).Some? <==> s.phase.Flushing? && !s.phase.committed
    ensures Next(limits, s, FlushEnds).Some? <==> s.phase.Flushing?
    ensures s.phase.Waiting? ==> Next(limits, s, Cancel) == Some(s.(phase := Stopped))
  {
  }

  function Enqueues(actions: seq<Action>): nat {
    if actions == [] then 0
    else Enqueues(actions[..|actions| - 1]) + (if actions[|actions| - 1].Enqueue? then 1 else 0)
  }

  lemma {:induction false} NextCounts(limits: Limits, s: Meter, a: Action)
    requires Next(limits, s, a).Some?
    ensures
      var s' := Next(limits, s, a).value;
      |Items(s'.accepted)| + s'.dropped == |Items(s.accepted)| + s.dropped + (if a.Enqueue? then 1 else 0)
  {
    if a.Enqueue? {
      OneMoreEntry(s.accepted, Some(a.item));
    } else if a.PutSentinel? {
      OneMoreEntry(s.accepted, None);
    } else {
      OthersAcceptNothing(limits, s, a);
    }
  }

  lemma OneMoreEntry(entries: seq<Entry>, e: Entry)
    ensures |Items(entries + [e])| == |Items(entries)| + (if e.Some? then 1 else 0)
  {
    ItemsAppend(entries, [e]);
    assert Items([e]) == if e.Some? then [e.value] else [];
  }

  lemma OthersAcceptNothing(limits: Limits, s: Meter, a: Action)
    requires Next(limits, s, a).Some? && !a.Enqueue? && !a.PutSentinel?
    ensures Next(limits, s, a).value.accepted == s.accepted && Next(limits, s, a).value.dropped == s.dropped
  {
  }

  /** No delta goes missing on the way in: every enqueue of every run was accepted or counted as dropped. */
  lemma {:induction false} EveryEnqueueCounts(limits: Limits, db: Table, actions: seq<Action>)
    requires Run(limits, db, actions).Some?
    ensures
      var s := Run(limits, db, actions).value;
      Enqueues(actions) == |Items(s.accepted)| + s.dropped
    decreases |actions|
  {
    if actions != [] {
      var n := |actions| - 1;
      EveryEnqueueCounts(limits, db, actions[..n]);
      NextCounts(limits, Run(limits, db, actions[..n]).value, actions[n]);
    }
  }

  /** A flush that has persisted nothing ends, or is cancelled outside the guarded part. */
  ghost predicate Loses(s: Meter, a: Action) {
    && s.phase.Flushing? && !s.phase.committed && !s.phase.before
    && (a.FlushEnds? || (a.Cancel? && s.phase.site != FromCoalesce))
  }

  lemma LossOfStep(limits: Limits, s: Meter, a: Action)
    requires Next(limits, s, a).Some?
    ensures Next(limits, s, a).value.lost == s.lost + (if Loses(s, a) then s.batch else [])
  {
  }

  ghost predicate LosesAt(limits: Limits, db: Table, actions: seq<Action>, j: nat)
    requires j < |actions|
  {
    Run(limits, db, actions[..j]).Some? && Loses(Run(limits, db, actions[..j]).value, actions[j])
  }

  /** A run loses accepted deltas exactly when a flush fails, or is cancelled outside the guarded part,
      before it or an earlier flush of its batch has committed. */
  lemma {:induction false} LostIff(limits: Limits, db: Table, actions: seq<Action>)
    requires Run(limits, db, actions).Some?
    ensures Run(limits, db, actions).value.lost != [] <==>
            exists j :: 0 <= j < |actions| && LosesAt(limits, db, actions, j)
    decreases |actions|
  {
    if actions != [] {
      var n := |actions| - 1;
      var s := Run(limits, db, actions[..n]).value;
      LostIff(limits, db, actions[..n]);
      LossOfStep(limits, s, actions[n]);
      RunIsWellPhased(limits, db, actions[..n]);
      forall j | 0 <= j < n
        ensures LosesAt(limits, db, actions[..n], j) <==> LosesAt(limits, db, actions, j)
      {
        RunPrefix(actions, n, j);
      }
      assert LosesAt(limits, db, actions, n) <==> Loses(s, actions[n]);
    }
  }

  /** The task has stopped, or is in the flush after which it stops. */
  predicate Ending(s: Meter) {
    s.phase.Stopped? || (s.phase.Flushing? && s.phase.site != FromLoop)
  }

  lemma EndingStays(limits: Limits, s: Meter, a: Action)
    requires Next(limits, s, a).Some? && Ending(s) && !a.Start?
    ensures Ending(Next(limits, s, a).value) && Next(limits, s, a).value.taken == s.taken
  {
  }

  lemma SentinelEnds(limits: Limits, s: Meter, a: Action)
    requires Next(limits, s, a).Some? && Next(limits, s, a).value.taken == s.taken + [None]
    ensures Ending(Next(limits, s, a).value)
  {
    assert |s.taken + [None]| == |s.taken| + 1 && (s.taken + [None])[|s.taken|] == None;
    if s.queue != [] {
      assert (s.taken + [s.queue[0]])[|s.taken|] == s.queue[0];
    }
  }

  /** The entries taken by the first i actions. */
  ghost predicate HasTaken(limits: Limits, db: Table, actions: seq<Action>, i: nat, taken: seq<Entry>)
    requires i <= |actions|
  {
    Run(limits, db, actions[..i]).Some? && Run(limits, db, actions[..i]).value.taken == taken
  }

  ghost predicate EndingAt(limits: Limits, db: Table, actions: seq<Action>, i: nat)
    requires i <= |actions|
  {
    Run(limits, db, actions[..i]).Some? && Ending(Run(limits, db, actions[..i]).value)
  }

  lemma {:induction false} EndingUntilStart(limits: Limits, db: Table, actions: seq<Action>, i: nat, j: nat,
                                            taken: seq<Entry>)
    requires Run(limits, db, actions).Some? && i <= j <= |actions|
    requires EndingAt(limits, db, actions, i) && HasTaken(limits, db, actions, i, taken)
    requires forall m :: i <= m < j ==> !actions[m].Start?
    ensures EndingAt(limits, db, actions, j) && HasTaken(limits, db, actions, j, taken)
    decreases j
  {
    if i < j {
      EndingUntilStart(limits, db, actions, i, j - 1, taken);
      RunsOn(limits, db, actions, j - 1);
      EndingStays(limits, Run(limits, db, actions[..j - 1]).value, actions[j - 1]);
    }
  }

  /** The sentinel stops the task: after it is taken, nothing more is taken before the next start. */
  lemma {:induction false} SentinelStops(limits: Limits, db: Table, actions: seq<Action>, i: nat, j: nat,
                                         taken: seq<Entry>)
    requires Run(limits, db, actions).Some? && i < j <= |actions|
    requires HasTaken(limits, db, actions, i, taken) && HasTaken(limits, db, actions, i + 1, taken + [None])
    requires forall m :: i < m < j ==> !actions[m].Start?
    ensures EndingAt(limits, db, actions, j) && HasTaken(limits, db, actions, j, taken + [None])
  {
    RunsOn(limits, db, actions, i);
    SentinelEnds(limits, Run(limits, db, actions[..i]).value, actions[i]);
    EndingUntilStart(limits, db, actions, i + 1, j, taken + [None]);
  }

  lemma RunStep(limits: Limits, db: Table, actions: seq<Action>, a: Action, s: Meter, s': Meter)
    requires Run(limits, db, actions) == Some(s) && Next(limits, s, a) == Some(s')
    ensures Run(limits, db, actions + [a]) == Some(s')
  {
    assert (actions + [a])[..|actions|] == actions;
  }

  const DEFAULT_LIMITS := Limits(5000, 20000)

  lemma {:induction false} FirstDelta(item: Item, db: Table) returns (s: Meter)
    ensures Run(DEFAULT_LIMITS, db, [Enqueue(item)] + [Start] + [GetFirst]) == Some(s)
    ensures s == Initial(db).(batch := [item], phase := Draining, accepted := [Some(item)], taken := [Some(item)])
  {
    var s0 := Initial(db);
    var s1 := Put(s0, Some(item));
    var s2 := s1.(phase := Waiting);
    s := TakeHead(s2).(batch := [item], phase := Draining);
    RunStep(DEFAULT_LIMITS, db, [], Enqueue(item), s0, s1);
    assert [] + [Enqueue(item)] == [Enqueue(item)];
    RunStep(DEFAULT_LIMITS, db, [Enqueue(item)], Start, s1, s2);
    RunStep(DEFAULT_LIMITS, db, [Enqueue(item)] + [Start], GetFirst, s2, s);
  }

  /** A sentinel that turns up during the sleep starts the guarded flush. */
  lemma {:induction false} StopAfterSleep(db: Table, actions: seq<Action>, s: Meter) returns (s': Meter)
    requires Run(DEFAULT_LIMITS, db, actions) == Some(s) && s.phase == Draining && s.queue == [] && |s.batch| == 1
    ensures Run(DEFAULT_LIMITS, db, actions + [GetMore] + [PutSentinel] + [Wake] + [GetMore]) == Some(s')
    ensures s' == s.(phase := Flushing(FromCoalesce, false, false),
                     accepted := s.accepted + [None], taken := s.taken + [None])
  {
    var s1 := s.(phase := Sleeping);
    var s2 := Put(s1, None);
    var s3 := s2.(phase := Coalescing);
    assert s3.queue == [None];
    s' := TakeHead(s3).(phase := Flushing(FromCoalesce, false, false));
    RunStep(DEFAULT_LIMITS, db, actions, GetMore, s, s1);
    RunStep(DEFAULT_LIMITS, db, actions + [GetMore], PutSentinel, s1, s2);
    RunStep(DEFAULT_LIMITS, db, actions + [GetMore] + [PutSentinel], Wake, s2, s3);
    RunStep(DEFAULT_LIMITS, db, actions + [GetMore] + [PutSentinel] + [Wake], GetMore, s3, s');
  }

  /** A flush that is cancelled between its commit and its end hands its batch to a second one. */
  function Repeated(s: Meter): Meter
    requires s.phase.Flushing?
  {
    CommitBatch(CommitBatch(s).(phase := Flushing(FromCancel, false, true)))
  }

  /** From wherever such a flush is reached, the batch can be committed twice. */
  lemma {:induction false} CancelRepeatsBatch(limits: Limits, db: Table, actions: seq<Action>, s: Meter)
    requires Run(limits, db, actions) == Some(s) && s.phase == Flushing(FromCoalesce, false, false)
    ensures Run(limits, db, actions + [Commit] + [Cancel] + [Commit] + [FlushEnds])
         == Some(EndFlush(Repeated(s), Stopped))
  {
    var s1 := CommitBatch(s);
    var s2 := s1.(phase := Flushing(FromCancel, false, true));
    RunStep(limits, db, actions, Commit, s, s1);
    RunStep(limits, db, actions + [Commit], Cancel, s1, s2);
    RunStep(limits, db, actions + [Commit] + [Cancel], Commit, s2, Repeated(s));
    RunStep(limits, db, actions + [Commit] + [Cancel] + [Commit], FlushEnds, Repeated(s),
            EndFlush(Repeated(s), Stopped));
  }

  /** One delta; a stop that finds it after the sleep; and a cancel of that stop's flush while it closes
      its session. */
  function TwiceRun(item: Item): seq<Action> {
    [Enqueue(item)] + [Start] + [GetFirst]
    + [GetMore] + [PutSentinel] + [Wake] + [GetMore]
    + [Commit] + [Cancel] + [Commit] + [FlushEnds]
  }

  /** Why the ledger has that term: the run ends stopped, with the delta accepted once and in the
      table twice. */
  lemma {:induction false} CancelledFlushCountsTwice(item: Item, db: Table, c: Counter)
    ensures
      var run := Run(DEFAULT_LIMITS, db, TwiceRun(item));
      && run.Some? && run.value.phase.Stopped? && run.value.accepted == [Some(item), None]
      && At(run.value.db, item.key, c) == At(db, item.key, c) + 2 * Get(item.delta, c)
  {
    var first := [Enqueue(item)] + [Start] + [GetFirst];
    var s := FirstDelta(item, db);
    var s' := StopAfterSleep(db, first, s);
    CancelRepeatsBatch(DEFAULT_LIMITS, db, first + [GetMore] + [PutSentinel] + [Wake] + [GetMore], s');
    AppliedSums(db, [item], item.key, c);
    AppliedSums(ApplyAll(db, [item]), [item], item.key, c);
    assert Sum([item], item.key, c) == Get(item.delta, c) + Sum([], item.key, c);
  }

  /** Once the task has stopped, everything that was taken from the queue, so everything accepted
      before the sentinel it stopped on, is handled, in order, and was persisted or lost; and the queue
      holds exactly what came after. */
  lemma SentinelFlushesEverythingBefore(limits: Limits, db: Table, actions: seq<Action>)
    requires Run(limits, db, actions).Some?
    ensures
      var s := Run(limits, db, actions).value;
      s.phase.Stopped? ==>
        && |s.taken| <= |s.accepted|
        && Items(s.accepted[..|s.taken|]) == s.handled
        && s.accepted[|s.taken|..] == s.queue
        && forall x :: x in s.handled ==> x in s.persisted || x in s.lost
  {
    var s := Run(limits, db, actions).value;
    RunInvariant(limits, db, actions);
    if s.phase.Stopped? {
      assert s.accepted[..|s.taken|] == s.taken;
      assert s.handled + [] == s.handled;
    }
  }

  /** End to end: after every run, `totals` over a date range has grown by exactly the persisted and
      external deltas in the range. */
  lemma {:induction false} TotalsAfterRun(limits: Limits, db: Table, actions: seq<Action>, tenant: string,
                                          start: int, end: int, c: Counter)
    requires Run(limits, db, actions).Some?
    ensures
      var s := Run(limits, db, actions).value;
      TotalByDay(s.db, tenant, start, end, c)
      == TotalByDay(db, tenant, start, end, c) + SumInRange(s.persisted, tenant, start, end, c)
         + SumInRange(s.external, tenant, start, end, c)
  {
    var s := Run(limits, db, actions).value;
    RunInvariant(limits, db, actions);
    var t := ApplyAll(ApplyAll(db, s.persisted), s.external);
    forall k, c'
      ensures At(s.db, k, c') == At(t, k, c')
    {
      assert Balance(s, db, k, c');
      AppliedSums(db, s.persisted, k, c');
      AppliedSums(ApplyAll(db, s.persisted), s.external, k, c');
    }
    TotalOfCounters(s.db, t, tenant, start, end, c);
    TotalsSumDeltas(ApplyAll(db, s.persisted), s.external, tenant, start, end, c);
    TotalsSumDeltas(db, s.persisted, tenant, start, end, c);
  }

  lemma {:induction false} TotalOfCounters(t: Table, t': Table, tenant: string, start: int, end: int, c: Counter)
    requires forall k, c' :: At(t, k, c') == At(t', k, c')
    ensures TotalByDay(t, tenant, start, end, c) == TotalByDay(t', tenant, start, end, c)
    decreases end - start
  {
    if start <= end {
      TotalOfCounters(t, t', tenant, start, end - 1, c);
    }
  }

  // ----- the queue as the process holds it --------------------------------------------------

  /** One call of `_flush`: its batch, and whether the transaction committed. */
  datatype FlushEvent = FlushEvent(batch: seq<Item>, committed: bool)

  function Flushed(events: seq<FlushEvent>): seq<Item> {
    if events == [] then [] else Flushed(events[..|events| - 1]) + events[|events| - 1].batch
  }

  /** The items of the flushes that committed. */
  function Persisted(events: seq<FlushEvent>): seq<Item> {
    if events == [] then []
    else
      var n := |events| - 1;
      Persisted(events[..n]) + (if events[n].committed then events[n].batch else [])
  }

  /** The position of the first sentinel, or the length when there is none. */
  function FirstSentinel(entries: seq<Entry>): (i: nat)
    ensures i <= |entries| && (i < |entries| ==> entries[i].None?)
    ensures forall j :: 0 <= j < i ==> entries[j].Some?
  {
    if entries == [] || entries[0].None? then 0 else 1 + FirstSentinel(entries[1..])
  }

  /** Each flush had a batch within its bound and committed exactly when `commits` said so. */
  ghost predicate Decided(limits: Limits, events: seq<FlushEvent>, commits: seq<Item> -> bool) {
    forall i :: 0 <= i < |events| ==> limits.Fits(events[i].batch) && events[i].committed == commits(events[i].batch)
  }

  /** From `before` the entries up to `after` were taken, and they held `items`; a sentinel is the
      last entry taken, or none was. */
  ghost predicate Took(before: seq<Entry>, after: seq<Entry>, items: seq<Item>, stop: bool) {
    var n := |before| - |after|;
    && 0 <= n && after == before[n..] && items == Items(before[..n])
    && if stop then FirstSentinel(before) == n - 1 else n <= FirstSentinel(before)
  }

  class UsageQueue {
    const limits: Limits
    var queue: seq<Entry>
    var dropped: nat
    var db: Table

    constructor (limits: Limits, db: Table)
      ensures this.limits == limits && queue == [] && dropped == 0 && this.db == db
    {
      this.limits := limits;
      queue, dropped, this.db := [], 0, db;
    }

    /** `enqueue`: never blocks; a full queue drops the delta and counts the drop. */
    method Enqueue(item: Item) returns (accepted: bool)
      modifies this
      ensures db == old(db)
      ensures accepted <==> !(limits.queueSize > 0 && |old(queue)| >= limits.queueSize)
      ensures accepted ==> queue == old(queue) + [Some(item)] && dropped == old(dropped)
      ensures !accepted ==> queue == old(queue) && dropped == old(dropped) + 1
    {
      if limits.queueSize > 0 && |queue| >= limits.queueSize {
        dropped := dropped + 1;
        return false;
      }
      queue := queue + [Some(item)];
      return true;
    }

    /** The inner loop: fill the batch until it is full, the queue is empty, or a sentinel
        turns up. */
    method Fill(first: seq<Item>) returns (batch: seq<Item>, stop: bool, ghost items: seq<Item>)
      modifies this`queue
      ensures batch == first + items && Took(old(queue), queue, items, stop)
      ensures stop || |batch| >= limits.maxBatch || queue == []
      ensures |batch| <= |first| || |batch| <= limits.maxBatch
    {
      batch, stop, items := first, false, [];
      ghost var q := queue;
      TookNothing(q);
      while |batch| < limits.maxBatch && queue != []
        invariant batch == first + items && Took(q, queue, items, false)
        invariant |batch| <= |first| || |batch| <= limits.maxBatch
        decreases |queue|
      {
        var item := queue[0];
        TookMore(q, queue, items);
        queue := queue[1..];
        if item.None? {
          stop := true;
          return;
        }
        items := items + [item.value];
        batch := batch + [item.value];
      }
    }

    /** One batch of `_flush_loop`: a first item, the drain, and the drain after the sleep. */
    method Gather() returns (batch: seq<Item>, stop: bool)
      requires queue != [] && queue[0].Some?
      modifies this`queue
      ensures |queue| < |old(queue)| && Took(old(queue), queue, batch, stop)
      ensures limits.Fits(batch)
    {
      ghost var q := queue;
      var first := queue[0];
      queue := queue[1..];
      TookOne(q);
      ghost var rest := queue;
      ghost var items;
      batch, stop, items := Fill([first.value]);
      TookTwice(q, rest, queue, [first.value], items, stop);
      if !stop {
        ghost var drained, before := queue, batch;
        batch, stop, items := Fill(batch);
        TookTwice(q, drained, queue, before, items, stop);
      }
    }

    /** `_flush_loop` with nothing interleaved: it runs until it takes a sentinel, or blocks
        on an empty queue. Each flush commits or fails as `commits` says. Everything before
        the sentinel is flushed, in order, and nothing after it is touched. */
    method FlushLoop(commits: seq<Item> -> bool) returns (stopped: bool, events: seq<FlushEvent>)
      modifies this`queue, this`db
      ensures stopped <==> FirstSentinel(old(queue)) < |old(queue)|
      ensures queue == if stopped then old(queue)[FirstSentinel(old(queue)) + 1..] else []
      ensures Flushed(events) == Items(old(queue)[..FirstSentinel(old(queue))])
      ensures db == ApplyAll(old(db), Persisted(events))
      ensures Decided(limits, events, commits)
    {
      events := [];
      ghost var q := queue;
      TookNothing(q);
      while queue != []
        invariant Took(q, queue, Flushed(events), false)
        invariant db == ApplyAll(old(db), Persisted(events))
        invariant Decided(limits, events, commits)
        decreases |queue|
      {
        ghost var rest, done := queue, Flushed(events);
        if queue[0].None? {
          queue := queue[1..];
          TookOne(rest);
          TookTwice(q, rest, queue, done, [], true);
          assert done + [] == done;
          TookToSentinel(q, queue, done, true);
          return true, events;
        }
        var batch, stop := Gather();
        TookTwice(q, rest, queue, done, batch, stop);
        events, db := FlushOnce(commits, events, batch, old(db));
        if stop {
          TookToSentinel(q, queue, done + batch, true);
          return true, events;
        }
      }
      TookToSentinel(q, queue, Flushed(events), false);
      return false, events;
    }

    /** A flush that commits applies its batch; one that fails leaves the table alone. */
    method FlushOnce(commits: seq<Item> -> bool, events: seq<FlushEvent>, batch: seq<Item>, ghost base: Table)
      returns (events': seq<FlushEvent>, db': Table)
      requires db == ApplyAll(base, Persisted(events)) && Decided(limits, events, commits) && limits.Fits(batch)
      ensures Decided(limits, events', commits)
      ensures Flushed(events') == Flushed(events) + batch
      ensures db' == ApplyAll(base, Persisted(events'))
    {
      db' := db;
      if commits(batch) {
        db' := Flush(db, batch);
      }
      events' := events + [FlushEvent(batch, commits(batch))];
      assert events'[..|events|] == events;
      ApplyAppend(base, Persisted(events), if commits(batch) then batch else []);
    }
  }

  lemma TookNothing(q: seq<Entry>)
    ensures Took(q, q, [], false)
  {
    assert q[0..] == q && Items(q[..0]) == [];
  }

  lemma {:induction false} TookOne(q: seq<Entry>)
    requires q != []
    ensures Took(q, q[1..], if q[0].Some? then [q[0].value] else [], q[0].None?)
  {
    assert q[..1] == [q[0]] && Items([q[0]]) == (if q[0].Some? then [q[0].value] else []) + Items([]);
  }

  /** What was taken in two goes was taken in one. */
  lemma {:induction false} TookTwice(q: seq<Entry>, mid: seq<Entry>, rest: seq<Entry>, a: seq<Item>, b: seq<Item>,
                                     stop: bool)
    requires Took(q, mid, a, false) && Took(mid, rest, b, stop)
    ensures Took(q, rest, a + b, stop)
  {
    var n, k := |q| - |mid|, |mid| - |rest|;
    assert q[n..][k..] == q[n + k..];
    ItemsSlice(q, n, k);
    SentinelAfter(q, n);
  }

  lemma {:induction false} TookMore(q: seq<Entry>, rest: seq<Entry>, items: seq<Item>)
    requires Took(q, rest, items, false) && rest != []
    ensures rest[0].Some? ==> Took(q, rest[1..], items + [rest[0].value], false)
    ensures rest[0].None? ==> Took(q, rest[1..], items, true)
  {
    TookOne(rest);
    if rest[0].Some? {
      TookTwice(q, rest, rest[1..], items, [rest[0].value], false);
    } else {
      TookTwice(q, rest, rest[1..], items, [], true);
      assert items + [] == items;
    }
  }

  /** When the loop ends it has taken exactly what stood before the first sentinel. */
  lemma {:induction false} TookToSentinel(q: seq<Entry>, rest: seq<Entry>, items: seq<Item>, stop: bool)
    requires Took(q, rest, items, stop) && (!stop ==> rest == [])
    ensures
      var p := FirstSentinel(q);
      && items == Items(q[..p]) && (stop <==> p < |q|)
      && rest == if stop then q[p + 1..] else []
  {
    if stop {
      var p := FirstSentinel(q);
      ItemsSlice(q, p, 1);
      assert q[p..][..1] == [q[p]] && Items([q[p]]) == [] + Items([]);
    } else {
      assert q[..|q|] == q;
    }
  }

  lemma {:induction false} SentinelAfter(entries: seq<Entry>, n: nat)
    requires n <= FirstSentinel(entries)
    ensures FirstSentinel(entries[n..]) == FirstSentinel(entries) - n
  {
    var i, j := FirstSentinel(entries), FirstSentinel(entries[n..]);
    if j < |entries[n..]| {
      assert entries[n..][j] == entries[n + j];
    }
    if i < |entries| {
      assert entries[n..][i - n] == entries[i];
    }
  }

  lemma {:induction false} ItemsSlice(entries: seq<Entry>, n: nat, k: nat)
    requires n + k <= |entries|
    ensures Items(entries[..n + k]) == Items(entries[..n]) + Items(entries[n..][..k])
  {
    assert entries[..n + k] == entries[..n] + entries[n..][..k];
    ItemsAppend(entries[..n], entries[n..][..k]);
  }
}
