/**
 The per-tenant audit hash chain (api/app/repositories/audit.py).

 A row carries the digest of its own hashed fields and of the previous digest. The
 module states what the strict verifier accepts, what an accepted chain reveals about
 tampering, and exactly which runs of concurrent appends leave a chain that verifies.
 */
module AuditChains {
  import opened Wrappers
  import opened Digests
  import opened Ranking

  // ----- rows and their digests ---------------------------------------------------

  type Detail = map<string, string>

  datatype Fields = Fields(
    tenant: Option<string>,
    subject: Option<string>,
    eventType: string,
    outcome: string,
    server: Option<string>,
    tool: Option<string>,
    detail: Option<Detail>)

  /** Columns that take no part in the hash. */
  datatype Unhashed = Unhashed(subjectType: Option<string>, rpcMethod: Option<string>,
                               clientIp: Option<string>, requestId: Option<string>)

  datatype Row = Row(fields: Fields, createdAt: Option<int>, prevHash: Option<string>,
                     entryHash: Option<string>, unhashed: Unhashed)

  /** The object that is serialised and hashed: absent values are normalised. */
  datatype Entry = Entry(prevHash: string, tenant: string, subject: string, eventType: string,
                         outcome: string, server: string, tool: string, detail: Detail, createdAt: int)

  function OrEmpty(o: Option<string>): string {
    match o case None => "" case Some(s) => s
  }

  function EntryOf(fields: Fields, prevHash: Option<string>, createdAt: int): Entry {
    Entry(OrEmpty(prevHash), OrEmpty(fields.tenant), OrEmpty(fields.subject), fields.eventType, fields.outcome,
          OrEmpty(fields.server), OrEmpty(fields.tool),
          (match fields.detail case None => map[] case Some(d) => d), createdAt)
  }

  function RowEntry(row: Row): Entry
    requires row.createdAt.Some?
  {
    EntryOf(row.fields, row.prevHash, row.createdAt.value)
  }

  /** SHA-256 and the canonical JSON serialiser (sorted keys, fixed separators) with the
      parser that undoes it. */
  datatype Codec = Codec(h: Hash, dumps: Entry -> string, loads: string -> Entry) {
    function Digest(e: Entry): string {
      h(dumps(e))
    }

    ghost predicate Lawful() {
      HexDigests(h) && forall e :: loads(dumps(e)) == e
    }

    /** `_compute_entry_hash` on a stored row. */
    function RowDigest(row: Row): string
      requires row.createdAt.Some?
    {
      Digest(RowEntry(row))
    }
  }

  // ----- verification -----------------------------------------------------------------

  predicate LinkedAt(rows: seq<Row>, i: nat)
    requires i < |rows|
  {
    rows[i].prevHash == if i == 0 then None else rows[i - 1].entryHash
  }

  predicate Authentic(c: Codec, row: Row) {
    row.createdAt.Some? && (row.entryHash.Some? ==> row.entryHash.value == c.RowDigest(row))
  }

  /** Every row, oldest first, links to its predecessor and matches its digest. */
  ghost predicate Accepted(c: Codec, rows: seq<Row>) {
    && (forall i {:trigger LinkedAt(rows, i)} :: 0 <= i < |rows| ==> LinkedAt(rows, i))
    && (forall i :: 0 <= i < |rows| ==> Authentic(c, rows[i]))
  }

  datatype Verdict = Intact | Broken(at: nat) | Undated(at: nat) | Tampered(at: nat)

  /** The loop of `verify_chain`: the verdict names the first row that fails, and why. */
  method VerifyRows(c: Codec, rows: seq<Row>) returns (v: Verdict)
    ensures v.Intact? <==> Accepted(c, rows)
    ensures !v.Intact? ==> v.at < |rows| && Accepted(c, rows[..v.at])
    ensures v.Broken? ==> !LinkedAt(rows, v.at)
    ensures v.Undated? ==> LinkedAt(rows, v.at) && rows[v.at].createdAt.None?
    ensures v.Tampered? ==> LinkedAt(rows, v.at) && rows[v.at].createdAt.Some?
                            && rows[v.at].entryHash.Some? && rows[v.at].entryHash.value != c.RowDigest(rows[v.at])
  {
    var prev: Option<string> := None;
    for i := 0 to |rows|
      invariant Accepted(c, rows[..i])
      invariant prev == if i == 0 then None else rows[i - 1].entryHash
    {
      var log := rows[i];
      if log.prevHash != prev {
        assert !LinkedAt(rows, i);
        return Broken(i);
      }
      if log.createdAt.None? {
        return Undated(i);
      }
      var recomputed := c.RowDigest(log);
      if log.entryHash.Some? && recomputed != log.entryHash.value {
        return Tampered(i);
      }
      AcceptedAppend(c, rows[..i], log);
      assert rows[..i + 1] == rows[..i] + [log];
      prev := log.entryHash;
    }
    assert rows[..|rows|] == rows;
    return Intact;
  }

  ghost predicate AllHashed(rows: seq<Row>) {
    forall i :: 0 <= i < |rows| ==> rows[i].entryHash.Some?
  }

  ghost predicate AllDated(rows: seq<Row>) {
    forall i :: 0 <= i < |rows| ==> rows[i].createdAt.Some?
  }

  /** The texts hashed for the rows. */
  ghost function Texts(c: Codec, rows: seq<Row>): set<string>
    requires AllDated(rows)
  {
    if rows == [] then {}
    else Texts(c, rows[..|rows| - 1]) + {c.dumps(RowEntry(rows[|rows| - 1]))}
  }

  lemma {:induction false} TextIn(c: Codec, rows: seq<Row>, i: nat)
    requires AllDated(rows) && i < |rows|
    ensures c.dumps(RowEntry(rows[i])) in Texts(c, rows)
  {
    if i < |rows| - 1 {
      TextIn(c, rows[..|rows| - 1], i);
    }
  }

  /** Accepted chains are closed under taking a prefix. */
  lemma PrefixAccepted(c: Codec, rows: seq<Row>, k: nat)
    requires Accepted(c, rows) && k <= |rows|
    ensures Accepted(c, rows[..k])
  {
    forall i | 0 <= i < k
      ensures LinkedAt(rows[..k], i)
    {
      assert LinkedAt(rows, i);
    }
  }

  /** Dropping the oldest k rows goes unnoticed exactly when the last dropped row had no
      entry hash. In a fully hashed chain it is always rejected. */
  lemma TailAcceptedIff(c: Codec, rows: seq<Row>, k: nat)
    requires Accepted(c, rows) && 0 < k < |rows|
    ensures Accepted(c, rows[k..]) <==> rows[k - 1].entryHash.None?
  {
    assert LinkedAt(rows, k);
    if Accepted(c, rows[k..]) {
      assert LinkedAt(rows[k..], 0);
    } else {
      var i :| 0 <= i < |rows[k..]| && !(LinkedAt(rows[k..], i) && Authentic(c, rows[k..][i]));
      assert LinkedAt(rows, k + i) && Authentic(c, rows[k + i]);
    }
  }

  /** Rows without an entry hash are not checked: the newest row of an accepted chain can
      carry any fields once its hash is null. */
  lemma NullHashIsUnchecked(c: Codec, rows: seq<Row>, fields: Fields, unhashed: Unhashed)
    requires Accepted(c, rows) && rows != []
    ensures
      var n := |rows| - 1;
      Accepted(c, rows[..n] + [Row(fields, rows[n].createdAt, rows[n].prevHash, None, unhashed)])
  {
    var n := |rows| - 1;
    var forged := rows[..n] + [Row(fields, rows[n].createdAt, rows[n].prevHash, None, unhashed)];
    forall i | 0 <= i < |forged|
      ensures LinkedAt(forged, i) && Authentic(c, forged[i])
    {
      assert LinkedAt(rows, i) && Authentic(c, rows[i]);
    }
  }

  lemma CollisionOfEntries(c: Codec, xs: seq<Row>, ys: seq<Row>, i: nat, j: nat)
    requires AllDated(xs) && AllDated(ys) && i < |xs| && j < |ys|
    requires c.Lawful()
    requires RowEntry(xs[i]) != RowEntry(ys[j]) && c.RowDigest(xs[i]) == c.RowDigest(ys[j])
    ensures Collision(c.h, Texts(c, xs), Texts(c, ys))
  {
    TextIn(c, xs, i);
    TextIn(c, ys, j);
    assert c.loads(c.dumps(RowEntry(xs[i]))) != c.loads(c.dumps(RowEntry(ys[j])));
    CollisionOf(c.h, Texts(c, xs), Texts(c, ys), c.dumps(RowEntry(xs[i])), c.dumps(RowEntry(ys[j])));
  }

  /** Equal, or both missing or empty: the hash does not tell those apart. */
  ghost predicate SameText(a: Option<string>, b: Option<string>) {
    a == b || (a in {None, Some("")} && b in {None, Some("")})
  }

  ghost predicate SameDetail(a: Option<Detail>, b: Option<Detail>) {
    a == b || (a in {None, Some(map[])} && b in {None, Some(map[])})
  }

  /** The columns under the hash are the same. */
  ghost predicate SameColumns(x: Row, y: Row) {
    && x.createdAt == y.createdAt && SameText(x.prevHash, y.prevHash)
    && x.fields.eventType == y.fields.eventType && x.fields.outcome == y.fields.outcome
    && SameText(x.fields.tenant, y.fields.tenant) && SameText(x.fields.subject, y.fields.subject)
    && SameText(x.fields.server, y.fields.server) && SameText(x.fields.tool, y.fields.tool)
    && SameDetail(x.fields.detail, y.fields.detail)
  }

  /** The hashed object determines exactly these columns. */
  lemma EntryIsColumns(x: Row, y: Row)
    requires x.createdAt.Some? && y.createdAt.Some?
    ensures RowEntry(x) == RowEntry(y) <==> SameColumns(x, y)
  {
  }

  ghost predicate SameEntries(xs: seq<Row>, ys: seq<Row>) {
    |xs| == |ys| && forall i :: 0 <= i < |xs| ==> SameColumns(xs[i], ys[i])
  }

  /** The chains are the same in every hashed column, or two of their entries collide. */
  ghost predicate SameOrColliding(c: Codec, xs: seq<Row>, ys: seq<Row>)
    requires AllDated(xs) && AllDated(ys)
  {
    SameEntries(xs, ys) || Collision(c.h, Texts(c, xs), Texts(c, ys))
  }

  /** Tamper evidence: two accepted, fully hashed chains that end in the same entry hash
      are the same chain in every hashed column, or two of their entries collide. */
  lemma {:induction false} NewestHashBindsChain(c: Codec, xs: seq<Row>, ys: seq<Row>)
    requires c.Lawful()
    requires Accepted(c, xs) && Accepted(c, ys) && AllHashed(xs) && AllHashed(ys)
    requires xs != [] && ys != [] && xs[|xs| - 1].entryHash == ys[|ys| - 1].entryHash
    requires AllDated(xs) && AllDated(ys)
    ensures SameOrColliding(c, xs, ys)
    decreases |xs|
  {
    var m, n := |xs| - 1, |ys| - 1;
    assert Authentic(c, xs[m]) && Authentic(c, ys[n]);
    if RowEntry(xs[m]) != RowEntry(ys[n]) {
      CollisionOfEntries(c, xs, ys, m, n);
    } else {
      PredecessorsAgree(c, xs, ys);
      if m > 0 {
        NewestHashBindsChain(c, xs[..m], ys[..n]);
      }
      ExtendComparison(c, xs, ys);
    }
  }

  /** Equal newest entries have equal predecessors, or neither has one. */
  lemma PredecessorsAgree(c: Codec, xs: seq<Row>, ys: seq<Row>)
    requires c.Lawful()
    requires Accepted(c, xs) && Accepted(c, ys) && AllHashed(xs) && AllHashed(ys)
    requires xs != [] && ys != [] && RowEntry(xs[|xs| - 1]) == RowEntry(ys[|ys| - 1])
    ensures |xs| == 1 <==> |ys| == 1
    ensures |xs| > 1 ==> xs[|xs| - 2].entryHash == ys[|ys| - 2].entryHash
    ensures Accepted(c, xs[..|xs| - 1]) && Accepted(c, ys[..|ys| - 1])
  {
    PrefixAccepted(c, xs, |xs| - 1);
    PrefixAccepted(c, ys, |ys| - 1);
    assert LinkedAt(xs, |xs| - 1) && LinkedAt(ys, |ys| - 1);
    HashesAreNonEmpty(c, xs);
    HashesAreNonEmpty(c, ys);
  }

  lemma {:induction false} ExtendComparison(c: Codec, xs: seq<Row>, ys: seq<Row>)
    requires AllDated(xs) && AllDated(ys) && xs != [] && ys != [] && (|xs| == 1 <==> |ys| == 1)
    requires RowEntry(xs[|xs| - 1]) == RowEntry(ys[|ys| - 1])
    requires |xs| > 1 ==> SameOrColliding(c, xs[..|xs| - 1], ys[..|ys| - 1])
    ensures SameOrColliding(c, xs, ys)
  {
    var xs', ys' := xs[..|xs| - 1], ys[..|ys| - 1];
    EntryIsColumns(xs[|xs| - 1], ys[|ys| - 1]);
    if |xs| == 1 || SameEntries(xs', ys') {
      forall i | 0 <= i < |xs|
        ensures SameColumns(xs[i], ys[i])
      {
        assert i < |xs'| ==> SameColumns(xs'[i], ys'[i]);
      }
    } else {
      CollisionMonotone(c.h, Texts(c, xs'), Texts(c, ys'), Texts(c, xs), Texts(c, ys));
    }
  }

  /** Editing a stored row: when its entry hash stays, the chain is still accepted exactly when its link
      and every column under the hash stay as they were, or two entries collide. */
  lemma {:induction false} EditVerdict(c: Codec, rows: seq<Row>, i: nat, row: Row)
    requires c.Lawful() && Accepted(c, rows) && i < |rows| && AllDated(rows)
    requires rows[i].entryHash.Some? && row.entryHash == rows[i].entryHash
    ensures
      var edited := rows[i := row];
      || (Accepted(c, edited) <==> row.prevHash == rows[i].prevHash && SameColumns(row, rows[i]))
      || (AllDated(edited) && Collision(c.h, Texts(c, edited), Texts(c, rows)))
  {
    var edited := rows[i := row];
    assert Authentic(c, rows[i]) && LinkedAt(rows, i);
    if row.prevHash == rows[i].prevHash && SameColumns(row, rows[i]) {
      EntryIsColumns(row, rows[i]);
      EditAccepted(c, rows, i, row);
    } else if Accepted(c, edited) {
      assert Authentic(c, edited[i]) && LinkedAt(edited, i);
      EntryIsColumns(row, rows[i]);
      assert AllDated(edited);
      CollisionOfEntries(c, edited, rows, i, i);
    }
  }

  /** An edit that changes the entry hash of any row but the newest breaks the link of the next. */
  lemma RehashBreaksLink(c: Codec, rows: seq<Row>, i: nat, row: Row)
    requires Accepted(c, rows) && i + 1 < |rows| && row.entryHash != rows[i].entryHash
    ensures !Accepted(c, rows[i := row])
  {
    assert LinkedAt(rows, i + 1) && !LinkedAt(rows[i := row], i + 1);
  }

  /** An edit that keeps the link, the entry hash and the hashed object keeps the chain. */
  lemma {:induction false} EditAccepted(c: Codec, rows: seq<Row>, i: nat, row: Row)
    requires Accepted(c, rows) && i < |rows| && Authentic(c, row)
    requires row.entryHash == rows[i].entryHash && row.prevHash == rows[i].prevHash
    ensures Accepted(c, rows[i := row])
  {
    var edited := rows[i := row];
    forall k | 0 <= k < |edited|
      ensures LinkedAt(edited, k) && Authentic(c, edited[k])
    {
      assert LinkedAt(rows, k) && Authentic(c, rows[k]);
    }
  }

  lemma HashesAreNonEmpty(c: Codec, rows: seq<Row>)
    requires c.Lawful() && Accepted(c, rows)
    ensures forall i :: 0 <= i < |rows| && rows[i].entryHash.Some? ==> rows[i].entryHash.value != ""
  {
    forall i | 0 <= i < |rows| && rows[i].entryHash.Some?
      ensures rows[i].entryHash.value != ""
    {
      assert Authentic(c, rows[i]);
      assert IsDigest(c.h(c.dumps(RowEntry(rows[i]))));
    }
  }

  // ----- the table -----------------------------------------------------------------------

  const VERIFY_LIMIT := 10000

  predicate OfTenant(row: Row, tenant: string) {
    row.fields.tenant == Some(tenant)
  }

  /** A tenant's rows in commit order. */
  function TenantRows(table: seq<Row>, tenant: string): seq<Row> {
    Filter(row => OfTenant(row, tenant), table)
  }

  function TimeRank(row: Row): Rank {
    Rank(match row.createdAt case None => 0 case Some(t) => t, 0, 0)
  }

  /** The same rows ordered by `created_at`. */
  function ByTime(table: seq<Row>, tenant: string): seq<Row> {
    StableSort(TimeRank, TenantRows(table, tenant))
  }

  /** The entry hash of the newest of some rows of one tenant. */
  function NewestOf(rows: seq<Row>): Option<string> {
    var sorted := StableSort(TimeRank, rows);
    if sorted == [] then None else sorted[|sorted| - 1].entryHash
  }

  /** The entry hash of the row that `ORDER BY created_at DESC LIMIT 1` returns. */
  function NewestHash(table: seq<Row>, tenant: string): Option<string> {
    NewestOf(TenantRows(table, tenant))
  }

  /** The newest 10000 of some rows, oldest first. */
  function NewestRows(rows: seq<Row>): seq<Row> {
    var sorted := StableSort(TimeRank, rows);
    if |sorted| <= VERIFY_LIMIT then sorted else sorted[|sorted| - VERIFY_LIMIT..]
  }

  /** The rows that `verify_chain` reads. */
  function ChainRows(table: seq<Row>, tenant: string): seq<Row> {
    NewestRows(TenantRows(table, tenant))
  }

  ghost predicate Verifies(c: Codec, table: seq<Row>, tenant: string) {
    Accepted(c, ChainRows(table, tenant))
  }

  /** The row that `create` inserts. */
  function NewRow(c: Codec, fields: Fields, unhashed: Unhashed, now: int, prev: Option<string>): Row {
    Row(fields.(detail := if fields.detail.Some? then fields.detail else Some(map[])), Some(now), prev,
        Some(c.Digest(EntryOf(fields, prev, now))), unhashed)
  }

  function PredecessorHash(table: seq<Row>, fields: Fields): Option<string> {
    match fields.tenant case None => None case Some(t) => NewestHash(table, t)
  }

  /** The stored table, changed by `create` and read by `verify_chain`. */
  class AuditRepository {
    var table: seq<Row>

    constructor ()
      ensures table == []
    {
      table := [];
    }

    method Create(c: Codec, fields: Fields, unhashed: Unhashed, now: int) returns (log: Row)
      modifies this
      ensures table == old(table) + [log]
      ensures log == NewRow(c, fields, unhashed, now, PredecessorHash(old(table), fields))
      ensures log.fields.(detail := fields.detail) == fields && SameDetail(log.fields.detail, fields.detail)
      ensures log.fields.detail.Some? && log.createdAt == Some(now) && log.unhashed == unhashed
      ensures log.prevHash == if fields.tenant.None? then None else NewestHash(old(table), fields.tenant.value)
      ensures log.entryHash.Some?
      ensures Authentic(c, log)
      ensures Honest(c, old(table)) ==> Honest(c, table)
    {
      var prev: Option<string> := None;
      if fields.tenant.Some? {
        prev := NewestHash(table, fields.tenant.value);
      }
      log := NewRow(c, fields, unhashed, now, prev);
      table := table + [log];
      if Honest(c, old(table)) {
        HonestAppend(c, old(table), log);
      }
    }

    method VerifyChain(c: Codec, tenant: string) returns (v: Verdict)
      ensures v.Intact? <==> Verifies(c, table, tenant)
    {
      var logs := ChainRows(table, tenant);
      v := VerifyRows(c, logs);
    }
  }

  // ----- honest tables --------------------------------------------------------------------

  ghost predicate HonestRow(c: Codec, table: seq<Row>, i: nat)
    requires i < |table|
  {
    var row := table[i];
    && row.createdAt.Some? && row.entryHash == Some(c.RowDigest(row))
    && (row.fields.tenant.Some? ==> row.prevHash == NewestHash(table[..i], row.fields.tenant.value))
  }

  /** Every row was linked to the newest row committed before it. */
  ghost predicate Honest(c: Codec, table: seq<Row>) {
    forall i :: 0 <= i < |table| ==> HonestRow(c, table, i)
  }

  lemma HonestAppend(c: Codec, table: seq<Row>, row: Row)
    requires Honest(c, table)
    requires row.createdAt.Some? && row.entryHash == Some(c.RowDigest(row))
    requires row.fields.tenant.Some? ==> row.prevHash == NewestHash(table, row.fields.tenant.value)
    ensures Honest(c, table + [row])
  {
    var table' := table + [row];
    assert table'[..|table|] == table;
    forall i | 0 <= i < |table'|
      ensures HonestRow(c, table', i)
    {
      if i < |table| {
        assert HonestRow(c, table, i);
        assert table'[..i] == table[..i];
      }
    }
  }

  /** A tenant's rows committed in strictly increasing timestamp order. */
  ghost predicate InOrder(rows: seq<Row>) {
    AllDated(rows) && forall i, j :: 0 <= i < j < |rows| ==> rows[i].createdAt.value < rows[j].createdAt.value
  }

  ghost predicate DistinctTimes(rows: seq<Row>) {
    AllDated(rows) && forall i, j :: 0 <= i < j < |rows| ==> rows[i].createdAt != rows[j].createdAt
  }

  lemma TenantRowsAppend(table: seq<Row>, row: Row, tenant: string)
    ensures TenantRows(table + [row], tenant)
         == TenantRows(table, tenant) + (if OfTenant(row, tenant) then [row] else [])
  {
    FilterAppend(r => OfTenant(r, tenant), table, [row]);
  }

  lemma ByTimeOfInOrder(table: seq<Row>, tenant: string)
    requires InOrder(TenantRows(table, tenant))
    ensures ByTime(table, tenant) == TenantRows(table, tenant)
  {
    SortOfSorted(TimeRank, TenantRows(table, tenant));
  }

  lemma HonestPrefix(c: Codec, table: seq<Row>, k: nat)
    requires Honest(c, table) && k <= |table|
    ensures Honest(c, table[..k])
  {
    forall i | 0 <= i < k
      ensures HonestRow(c, table[..k], i)
    {
      assert HonestRow(c, table, i) && table[..k][..i] == table[..i];
    }
  }

  /** An honest tenant whose rows committed in timestamp order has a linked chain. */
  lemma {:induction false} HonestInOrderAccepted(c: Codec, table: seq<Row>, tenant: string)
    requires Honest(c, table) && InOrder(TenantRows(table, tenant))
    ensures Accepted(c, TenantRows(table, tenant))
    decreases |table|
  {
    if table != [] {
      var n := |table| - 1;
      var before, row := table[..n], table[n];
      assert table == before + [row];
      TenantRowsAppend(before, row, tenant);
      var rows := TenantRows(before, tenant);
      assert forall i :: 0 <= i < |rows| ==> rows[i] == TenantRows(table, tenant)[i];
      HonestPrefix(c, table, n);
      HonestInOrderAccepted(c, before, tenant);
      if OfTenant(row, tenant) {
        ByTimeOfInOrder(before, tenant);
        assert HonestRow(c, table, n);
        AcceptedAppend(c, rows, row);
      } else {
        assert TenantRows(table, tenant) == rows;
      }
    }
  }

  lemma AcceptedAppend(c: Codec, rows: seq<Row>, row: Row)
    requires Accepted(c, rows) && Authentic(c, row)
    requires row.prevHash == if rows == [] then None else rows[|rows| - 1].entryHash
    ensures Accepted(c, rows + [row])
  {
    forall i | 0 <= i < |rows + [row]|
      ensures LinkedAt(rows + [row], i) && Authentic(c, (rows + [row])[i])
    {
      if i < |rows| {
        assert LinkedAt(rows, i);
      }
    }
  }

  lemma HonestRowsDatedAndHashed(c: Codec, table: seq<Row>, tenant: string)
    requires Honest(c, table)
    ensures
      var rows := TenantRows(table, tenant);
      forall i :: 0 <= i < |rows| ==> Authentic(c, rows[i]) && rows[i].entryHash.Some?
  {
    var rows := TenantRows(table, tenant);
    forall i | 0 <= i < |rows|
      ensures Authentic(c, rows[i]) && rows[i].entryHash.Some?
    {
      FilterMember(r => OfTenant(r, tenant), table, rows[i]);
      var j :| 0 <= j < |table| && table[j] == rows[i];
      assert HonestRow(c, table, j);
    }
  }

  /** In timestamp order, an honest chain verifies exactly when it fits the 10000 rows
      that verification reads. */
  lemma {:induction false} InOrderVerdict(c: Codec, table: seq<Row>, tenant: string)
    requires Honest(c, table) && InOrder(TenantRows(table, tenant))
    ensures Verifies(c, table, tenant) <==> |TenantRows(table, tenant)| <= 10000
  {
    var rows := TenantRows(table, tenant);
    HonestRowsDatedAndHashed(c, table, tenant);
    ByTimeOfInOrder(table, tenant);
    HonestInOrderAccepted(c, table, tenant);
    if |rows| > VERIFY_LIMIT {
      TailAcceptedIff(c, rows, |rows| - VERIFY_LIMIT);
    }
  }

  // ----- the newest row before a row -------------------------------------------------------

  /** Every row has the newest row before it as its predecessor. */
  ghost predicate LinkedToNewest(rows: seq<Row>) {
    forall k :: 0 <= k < |rows| ==> rows[k].prevHash == NewestOf(rows[..k])
  }

  lemma {:induction false} HonestRowsLinkToNewest(c: Codec, table: seq<Row>, tenant: string)
    requires Honest(c, table)
    ensures LinkedToNewest(TenantRows(table, tenant))
    decreases |table|
  {
    if table != [] {
      var n := |table| - 1;
      var before, row := table[..n], table[n];
      assert table == before + [row];
      HonestPrefix(c, table, n);
      HonestRowsLinkToNewest(c, before, tenant);
      TenantRowsAppend(before, row, tenant);
      assert HonestRow(c, table, n);
      LinkedToNewestAppend(TenantRows(before, tenant), row);
    }
  }

  lemma LinkedToNewestAppend(rows: seq<Row>, row: Row)
    requires LinkedToNewest(rows)
    ensures row.prevHash == NewestOf(rows) ==> LinkedToNewest(rows + [row])
    ensures rows + [] == rows
  {
    var rows' := rows + [row];
    assert forall k :: 0 <= k <= |rows| ==> rows'[..k] == rows[..k];
    assert rows[..|rows|] == rows;
  }

  lemma {:induction false} NewestIsMaximal(rows: seq<Row>, x: Row) returns (last: Row)
    requires x in rows
    ensures last in rows && NewestOf(rows) == last.entryHash && Leq(TimeRank(x), TimeRank(last))
  {
    last := SortLast(TimeRank, rows, x);
  }

  /** The row that row p links to is no older than any other row before it. */
  lemma {:induction false} NewestBefore(rows: seq<Row>, q: nat, p: nat) returns (l: nat)
    requires LinkedToNewest(rows) && AllDated(rows) && q < p < |rows|
    ensures l < p && rows[p].prevHash == rows[l].entryHash
    ensures rows[q].createdAt.value <= rows[l].createdAt.value
  {
    assert rows[..p][q] == rows[q];
    var last := NewestIsMaximal(rows[..p], rows[q]);
    l :| 0 <= l < p && rows[l] == last;
  }

  // ----- the verdict on an honest chain ----------------------------------------------------

  lemma {:induction false} InsertInOrder(x: Row, s: seq<Row>)
    requires InOrder(s) && x.createdAt.Some?
    requires forall y :: y in s ==> y.createdAt != x.createdAt
    ensures InOrder(Insert(TimeRank, x, s))
  {
    if s != [] && !Leq(TimeRank(x), TimeRank(s[0])) {
      InsertInOrder(x, s[1..]);
      var rest := Insert(TimeRank, x, s[1..]);
      forall j | 0 <= j < |rest|
        ensures s[0].createdAt.value < rest[j].createdAt.value
      {
        InsertAdds(TimeRank, x, s[1..]);
        assert rest[j] in multiset(rest);
        assert rest[j] == x || rest[j] in s[1..];
      }
    }
  }

  lemma {:induction false} SortInOrder(rows: seq<Row>)
    requires DistinctTimes(rows)
    ensures InOrder(StableSort(TimeRank, rows))
  {
    if rows != [] {
      var rest := rows[1..];
      SortInOrder(rest);
      forall y | y in StableSort(TimeRank, rest)
        ensures y.createdAt != rows[0].createdAt
      {
        SortKeepsMembers(TimeRank, rest, y);
      }
      InsertInOrder(rows[0], StableSort(TimeRank, rest));
    }
  }

  /** A chain of the newest rows: ordered by time, and complete from its oldest row on. */
  ghost predicate IsNewest(chain: seq<Row>, rows: seq<Row>) {
    && AllDated(rows) && InOrder(chain)
    && (forall x :: x in chain ==> x in rows)
    && (forall x :: x in rows && chain != [] && x.createdAt.value >= chain[0].createdAt.value ==> x in chain)
  }

  lemma DropIsNewest(sorted: seq<Row>, k: nat)
    requires InOrder(sorted) && k <= |sorted|
    ensures IsNewest(sorted[k..], sorted)
  {
    var chain := sorted[k..];
    forall x | x in sorted && chain != [] && x.createdAt.value >= chain[0].createdAt.value
      ensures x in chain
    {
      var i :| 0 <= i < |sorted| && sorted[i] == x;
      assert i >= k && chain[i - k] == x;
    }
  }

  lemma {:induction false} SortedSameRows(rows: seq<Row>, chain: seq<Row>)
    requires AllDated(rows) && IsNewest(chain, StableSort(TimeRank, rows))
    ensures IsNewest(chain, rows)
  {
    forall x
      ensures x in StableSort(TimeRank, rows) <==> x in rows
    {
      SortKeepsMembers(TimeRank, rows, x);
    }
  }

  lemma {:induction false} NewestRowsAreNewest(rows: seq<Row>)
    requires DistinctTimes(rows)
    ensures IsNewest(NewestRows(rows), rows) && (rows != [] ==> NewestRows(rows) != [])
    ensures |rows| <= 10000 ==> forall x :: x in rows ==> x in NewestRows(rows)
  {
    var sorted, chain := StableSort(TimeRank, rows), NewestRows(rows);
    SortInOrder(rows);
    SortSorts(TimeRank, rows);
    DropIsNewest(sorted, |sorted| - |chain|);
    assert chain == sorted[|sorted| - |chain|..];
    SortedSameRows(rows, chain);
    forall x | x in rows
      ensures x in sorted
    {
      SortKeepsMembers(TimeRank, rows, x);
    }
  }

  /** Of the rows in the chain, each committed after all that are older. */
  ghost predicate CommittedInOrder(rows: seq<Row>, chain: seq<Row>)
    requires AllDated(rows)
  {
    forall i, j :: 0 <= i < j < |rows| && rows[i] in chain && rows[j] in chain ==>
      rows[i].createdAt.value < rows[j].createdAt.value
  }

  /** When a row of the chain committed. */
  lemma CommitIndex(rows: seq<Row>, chain: seq<Row>, k: nat) returns (p: nat)
    requires IsNewest(chain, rows) && k < |chain|
    ensures p < |rows| && rows[p] == chain[k] && rows[p] in chain
  {
    assert chain[k] in chain;
    p :| 0 <= p < |rows| && rows[p] == chain[k];
  }

  /** The oldest row of a chain read in commit order is the first row of all. */
  lemma {:induction false} FirstIsOldest(rows: seq<Row>, chain: seq<Row>)
    requires IsNewest(chain, rows) && CommittedInOrder(rows, chain) && rows != [] && rows[0] in chain
    ensures chain[0] == rows[0]
  {
    var p := CommitIndex(rows, chain, 0);
    var m :| 0 <= m < |chain| && chain[m] == rows[0];
    assert p == 0 || m == 0;
  }

  lemma NothingBetween(chain: seq<Row>, k: nat, x: Row)
    requires InOrder(chain) && 0 < k < |chain| && x in chain
    requires chain[k - 1].createdAt.value <= x.createdAt.value < chain[k].createdAt.value
    ensures x == chain[k - 1]
  {
    var m :| 0 <= m < |chain| && chain[m] == x;
    assert m == k - 1;
  }

  /** In commit order, the newest row before chain[k] is chain[k - 1]. */
  lemma {:induction false} PredecessorIsNewest(rows: seq<Row>, chain: seq<Row>, k: nat)
    requires LinkedToNewest(rows) && IsNewest(chain, rows) && CommittedInOrder(rows, chain) && 0 < k < |chain|
    ensures chain[k].prevHash == chain[k - 1].entryHash
  {
    var p := CommitIndex(rows, chain, k);
    var q := CommitIndex(rows, chain, k - 1);
    var l := NewestBefore(rows, q, p);
    NothingBetween(chain, k, rows[l]);
  }

  lemma {:induction false} InOrderVerifies(c: Codec, rows: seq<Row>, chain: seq<Row>)
    requires LinkedToNewest(rows) && IsNewest(chain, rows) && CommittedInOrder(rows, chain)
    requires rows != [] && rows[0] in chain
    requires forall x :: x in rows ==> Authentic(c, x)
    ensures Accepted(c, chain)
  {
    FirstIsOldest(rows, chain);
    forall k | 0 <= k < |chain|
      ensures LinkedAt(chain, k)
    {
      if k == 0 {
        assert rows[0].prevHash == NewestOf(rows[..0]);
      } else {
        PredecessorIsNewest(rows, chain, k);
      }
    }
  }

  /** A row with rows before it has a predecessor. */
  lemma {:induction false} LinkedToSome(rows: seq<Row>, p: nat)
    requires LinkedToNewest(rows) && AllDated(rows) && AllHashed(rows) && 0 < p < |rows|
    ensures rows[p].prevHash.Some?
  {
    var l := NewestBefore(rows, 0, p);
  }

  /** A chain that verifies holds the first row of all. */
  lemma {:induction false} VerifiedHoldsFirst(c: Codec, rows: seq<Row>, chain: seq<Row>)
    requires LinkedToNewest(rows) && AllHashed(rows) && IsNewest(chain, rows) && Accepted(c, chain)
    requires rows != [] && chain != []
    ensures rows[0] in chain
  {
    var p := CommitIndex(rows, chain, 0);
    assert LinkedAt(chain, 0);
    if p > 0 {
      LinkedToSome(rows, p);
    }
  }

  /** A row that committed after a newer one links to a row that is newer than itself. */
  lemma {:induction false} LateLinksForward(rows: seq<Row>, chain: seq<Row>, i: nat, j: nat) returns (newest: Row)
    requires LinkedToNewest(rows) && IsNewest(chain, rows) && i < j < |rows|
    requires rows[i] in chain && rows[j] in chain && rows[i].createdAt.value >= rows[j].createdAt.value
    requires DistinctTimes(rows)
    ensures newest in rows && newest.createdAt.value > rows[j].createdAt.value && rows[j].prevHash == newest.entryHash
  {
    var l := NewestBefore(rows, i, j);
    newest := rows[l];
  }

  /** In an accepted chain ordered by time, a row that links to a later row has a
      predecessor with that later row's digest. */
  lemma {:induction false} LinkBackInTime(c: Codec, chain: seq<Row>, p: nat, newest: Row)
    requires Accepted(c, chain) && InOrder(chain) && p < |chain|
    requires Authentic(c, newest) && newest.entryHash.Some? && chain[p].prevHash == newest.entryHash
    requires chain[p].createdAt.value < newest.createdAt.value
    ensures p > 0 && chain[p - 1].createdAt.Some?
    ensures RowEntry(chain[p - 1]) != RowEntry(newest) && c.RowDigest(chain[p - 1]) == c.RowDigest(newest)
  {
    assert LinkedAt(chain, p);
    assert Authentic(c, chain[p - 1]);
  }

  /** A late row in an accepted chain: its predecessor in time shares a digest with a different row. */
  lemma {:induction false} LateRowCollides(c: Codec, rows: seq<Row>, chain: seq<Row>, late: Row, newest: Row)
    requires c.Lawful() && AllDated(rows) && IsNewest(chain, rows) && Accepted(c, chain)
    requires late in chain && newest in rows && Authentic(c, newest) && newest.entryHash.Some?
    requires late.createdAt.Some? && newest.createdAt.value > late.createdAt.value
    requires late.prevHash == newest.entryHash
    ensures Collision(c.h, Texts(c, rows), Texts(c, rows))
  {
    var p :| 0 <= p < |chain| && chain[p] == late;
    LinkBackInTime(c, chain, p, newest);
    var m := CommitIndex(rows, chain, p - 1);
    var k :| 0 <= k < |rows| && rows[k] == newest;
    CollisionOfEntries(c, rows, rows, m, k);
  }

  lemma LatePair(rows: seq<Row>, chain: seq<Row>) returns (i: nat, j: nat)
    requires AllDated(rows) && !CommittedInOrder(rows, chain)
    ensures i < j < |rows| && rows[i] in chain && rows[j] in chain
    ensures rows[i].createdAt.value >= rows[j].createdAt.value
  {
    i, j :| 0 <= i < j < |rows| && rows[i] in chain && rows[j] in chain
            && rows[i].createdAt.value >= rows[j].createdAt.value;
  }

  /** The timestamp is taken before the lock, so rows can commit out of timestamp order. An honest chain
      of any length verifies exactly when, of the newest 10000 rows, which verification reads, each
      committed after all that are older, and the first row of all is one of them, unless two of its
      entries collide. */
  lemma {:induction false} HonestVerdict(c: Codec, table: seq<Row>, tenant: string)
    requires c.Lawful() && Honest(c, table) && DistinctTimes(TenantRows(table, tenant))
    ensures
      var rows, chain := TenantRows(table, tenant), ChainRows(table, tenant);
      || (Verifies(c, table, tenant) <==> rows == [] || (rows[0] in chain && CommittedInOrder(rows, chain)))
      || Collision(c.h, Texts(c, rows), Texts(c, rows))
  {
    var rows, chain := TenantRows(table, tenant), ChainRows(table, tenant);
    HonestRowsLinkToNewest(c, table, tenant);
    HonestRowsDatedAndHashed(c, table, tenant);
    NewestRowsAreNewest(rows);
    if rows == [] {
      assert chain == [];
    } else if rows[0] in chain && CommittedInOrder(rows, chain) {
      InOrderVerifies(c, rows, chain);
    } else if Verifies(c, table, tenant) {
      VerifiedHoldsFirst(c, rows, chain);
      var i, j := LatePair(rows, chain);
      var newest := LateLinksForward(rows, chain, i, j);
      LateRowCollides(c, rows, chain, rows[j], newest);
    }
  }

  lemma AllReadInOrder(rows: seq<Row>, chain: seq<Row>)
    requires AllDated(rows) && forall x :: x in rows ==> x in chain
    ensures CommittedInOrder(rows, chain) <==> InOrder(rows)
  {
  }

  /** Up to 10000 rows: an honest chain verifies exactly when all its rows committed in timestamp order. */
  lemma {:induction false} ShortVerdict(c: Codec, table: seq<Row>, tenant: string)
    requires c.Lawful() && Honest(c, table)
    requires DistinctTimes(TenantRows(table, tenant)) && |TenantRows(table, tenant)| <= 10000
    ensures
      var rows := TenantRows(table, tenant);
      || (Verifies(c, table, tenant) <==> InOrder(rows))
      || Collision(c.h, Texts(c, rows), Texts(c, rows))
  {
    var rows, chain := TenantRows(table, tenant), ChainRows(table, tenant);
    HonestVerdict(c, table, tenant);
    NewestRowsAreNewest(rows);
    AllReadInOrder(rows, chain);
  }

  lemma {:induction false} SortOldestLast(rows: seq<Row>, row: Row)
    requires InOrder(rows) && row.createdAt.Some?
    requires forall x :: x in rows ==> row.createdAt.value < x.createdAt.value
    ensures StableSort(TimeRank, rows + [row]) == [row] + rows
  {
    var all := rows + [row];
    if rows != [] {
      SortOldestLast(rows[1..], row);
      assert all[1..] == rows[1..] + [row];
      var x, rest := rows[0], [row] + rows[1..];
      assert rest[1..] == rows[1..];
      assert Insert(TimeRank, x, rest) == [row] + Insert(TimeRank, x, rows[1..]);
      assert Insert(TimeRank, x, rows[1..]) == [x] + rows[1..] == rows;
    }
  }

  /** A late commit that verification cannot see: 10000 rows in order, then one that is older than all
      of them. The chain is out of order, and it verifies. */
  lemma {:induction false} OldRowGoesUnread(c: Codec, table: seq<Row>, tenant: string, row: Row)
    requires Honest(c, table) && InOrder(TenantRows(table, tenant)) && |TenantRows(table, tenant)| == 10000
    requires OfTenant(row, tenant) && row.createdAt.Some? && row.entryHash == Some(c.RowDigest(row))
    requires row.prevHash == NewestHash(table, tenant)
    requires forall x :: x in TenantRows(table, tenant) && x.createdAt.Some? ==>
               row.createdAt.value < x.createdAt.value
    ensures Honest(c, table + [row]) && !InOrder(TenantRows(table + [row], tenant))
    ensures Verifies(c, table + [row], tenant)
  {
    var rows := TenantRows(table, tenant);
    HonestAppend(c, table, row);
    TenantRowsAppend(table, row, tenant);
    HonestInOrderAccepted(c, table, tenant);
    SortOldestLast(rows, row);
    assert NewestRows(rows + [row]) == rows;
    assert (rows + [row])[0] in rows && (rows + [row])[|rows|] == row;
  }

  // ----- forks --------------------------------------------------------------------------

  ghost predicate SamePredecessor(rows: seq<Row>, i: int, j: int) {
    0 <= i < j < |rows| && rows[i].prevHash == rows[j].prevHash
  }

  ghost predicate Forks(rows: seq<Row>) {
    exists i, j :: SamePredecessor(rows, i, j)
  }

  lemma InOrderPrefix(rows: seq<Row>, k: nat)
    requires InOrder(rows) && k <= |rows|
    ensures InOrder(rows[..k])
  {
  }

  lemma NewestOfInOrder(rows: seq<Row>)
    requires InOrder(rows)
    ensures NewestOf(rows) == if rows == [] then None else rows[|rows| - 1].entryHash
  {
    SortOfSorted(TimeRank, rows);
  }

  /** While all rows but the last committed in order, every row links to the one before it. */
  lemma {:induction false} AlmostInOrderLinks(rows: seq<Row>)
    requires LinkedToNewest(rows) && rows != [] && InOrder(rows[..|rows| - 1])
    ensures forall k {:trigger LinkedAt(rows, k)} :: 0 <= k < |rows| ==> LinkedAt(rows, k)
  {
    forall k | 0 <= k < |rows|
      ensures LinkedAt(rows, k)
    {
      InOrderPrefix(rows[..|rows| - 1], k);
      assert rows[..|rows| - 1][..k] == rows[..k];
      NewestOfInOrder(rows[..k]);
    }
  }

  lemma {:induction false} ForkCollides(c: Codec, rows: seq<Row>, i: nat, j: nat)
    requires c.Lawful() && Accepted(c, rows) && AllHashed(rows) && DistinctTimes(rows) && SamePredecessor(rows, i, j)
    ensures Collision(c.h, Texts(c, rows), Texts(c, rows))
  {
    assert i > 0 && rows[i - 1].entryHash == rows[j - 1].entryHash by {
      assert LinkedAt(rows, i) && LinkedAt(rows, j);
    }
    var m, n := i - 1, j - 1;
    assert rows[m].createdAt != rows[n].createdAt;
    assert c.RowDigest(rows[m]) == c.RowDigest(rows[n]) by {
      assert Authentic(c, rows[m]) && Authentic(c, rows[n]);
    }
    CollisionOfEntries(c, rows, rows, m, n);
  }

  lemma LastRowIsLate(rows: seq<Row>, row: Row)
    requires InOrder(rows) && !InOrder(rows + [row]) && DistinctTimes(rows + [row])
    ensures rows != [] && row.createdAt.Some? && row.createdAt.value < rows[|rows| - 1].createdAt.value
  {
    var all := rows + [row];
    assert all[|rows|] == row;
    var i, k :| 0 <= i < k < |all| && all[i].createdAt.value >= all[k].createdAt.value;
    assert k == |rows| && all[i] == rows[i];
  }

  /** A row older than the newest leaves the newest where it was. */
  lemma {:induction false} NewestSurvivesLateRow(rows: seq<Row>, row: Row)
    requires InOrder(rows) && rows != [] && row.createdAt.Some?
    requires row.createdAt.value < rows[|rows| - 1].createdAt.value
    ensures NewestOf(rows + [row]) == NewestOf(rows) == rows[|rows| - 1].entryHash
  {
    var all, n := rows + [row], |rows| - 1;
    NewestOfInOrder(rows);
    assert all[n] == rows[n];
    var last := NewestIsMaximal(all, rows[n]);
    assert last in rows || last == row;
    if last in rows {
      var j :| 0 <= j < |rows| && rows[j] == last;
    }
  }

  lemma {:induction false} LateRowSharesPredecessor(rows: seq<Row>)
    requires LinkedToNewest(rows) && DistinctTimes(rows) && |rows| >= 2
    requires InOrder(rows[..|rows| - 2]) && !InOrder(rows[..|rows| - 1])
    ensures SamePredecessor(rows, |rows| - 2, |rows| - 1)
  {
    var n := |rows| - 2;
    var earlier := rows[..n];
    assert rows[..n + 1] == earlier + [rows[n]];
    LastRowIsLate(earlier, rows[n]);
    NewestSurvivesLateRow(earlier, rows[n]);
    assert rows[n].prevHash == NewestOf(earlier) && rows[n + 1].prevHash == NewestOf(rows[..n + 1]);
  }

  lemma LinkedToNewestPrefix(rows: seq<Row>, n: nat)
    requires LinkedToNewest(rows) && DistinctTimes(rows) && n <= |rows|
    ensures LinkedToNewest(rows[..n]) && DistinctTimes(rows[..n])
  {
    assert forall k :: 0 <= k <= n ==> rows[..n][..k] == rows[..k];
  }

  lemma ForksOfPrefix(rows: seq<Row>, n: nat)
    requires n <= |rows| && Forks(rows[..n])
    ensures Forks(rows)
  {
    var i, j :| SamePredecessor(rows[..n], i, j);
    assert SamePredecessor(rows, i, j);
  }

  /** A late row and the row after it have the same predecessor. */
  lemma {:induction false} LateRowForks(rows: seq<Row>)
    requires LinkedToNewest(rows) && DistinctTimes(rows) && rows != [] && !InOrder(rows[..|rows| - 1])
    ensures Forks(rows)
    decreases |rows|
  {
    var n := |rows| - 1;
    if InOrder(rows[..n - 1]) {
      LateRowSharesPredecessor(rows);
    } else {
      var before := rows[..n];
      LinkedToNewestPrefix(rows, n);
      assert before[..n - 1] == rows[..n - 1];
      LateRowForks(before);
      ForksOfPrefix(rows, n);
    }
  }

  /** Exactly when writers fork the chain: with distinct timestamps, two rows of an honest tenant have
      the same predecessor if and only if some row but the last committed late, or two entries collide. */
  lemma {:induction false} ForksIff(c: Codec, table: seq<Row>, tenant: string)
    requires c.Lawful() && Honest(c, table) && TenantRows(table, tenant) != []
    requires DistinctTimes(TenantRows(table, tenant))
    ensures
      var rows := TenantRows(table, tenant);
      || (Forks(rows) <==> !InOrder(rows[..|rows| - 1]))
      || Collision(c.h, Texts(c, rows), Texts(c, rows))
  {
    var rows := TenantRows(table, tenant);
    HonestRowsLinkToNewest(c, table, tenant);
    HonestRowsDatedAndHashed(c, table, tenant);
    if !InOrder(rows[..|rows| - 1]) {
      LateRowForks(rows);
    } else if Forks(rows) {
      var i, j :| SamePredecessor(rows, i, j);
      AlmostInOrderLinks(rows);
      ForkCollides(c, rows, i, j);
    }
  }

  /** No two rows of an honest tenant in timestamp order have the same predecessor. */
  lemma NoForks(c: Codec, table: seq<Row>, tenant: string, i: nat, j: nat)
    requires c.Lawful() && Honest(c, table) && InOrder(TenantRows(table, tenant))
    requires i < j < |TenantRows(table, tenant)|
    requires TenantRows(table, tenant)[i].prevHash == TenantRows(table, tenant)[j].prevHash
    ensures Collision(c.h, Texts(c, TenantRows(table, tenant)), Texts(c, TenantRows(table, tenant)))
  {
    assert SamePredecessor(TenantRows(table, tenant), i, j);
    ForksIff(c, table, tenant);
  }

  // ----- concurrent appends ------------------------------------------------------------

  /** A transaction inside `create`: stamped, then holding its tenant's advisory lock,
      then linked to the newest committed row. A row without a tenant takes no lock. */
  datatype Phase =
    | Stamped(fields: Fields, unhashed: Unhashed, now: int)
    | Locked(fields: Fields, unhashed: Unhashed, now: int)
    | Linked(fields: Fields, unhashed: Unhashed, now: int, prev: Option<string>)

  datatype Log = Log(table: seq<Row>, locks: map<string, nat>, writers: map<nat, Phase>)

  datatype Action =
    | Stamp(w: nat, fields: Fields, unhashed: Unhashed, now: int)
    | Acquire(w: nat)
    | ReadNewest(w: nat)
    | Commit(w: nat)
    | Abort(w: nat)

  function Release(locks: map<string, nat>, w: nat): map<string, nat> {
    map t | t in locks && locks[t] != w :: locks[t]
  }

  /** One atomic step; None when the action is not enabled. */
  function Next(c: Codec, s: Log, a: Action): Option<Log> {
    match a
    case Stamp(w, fields, unhashed, now) =>
      if w in s.writers then None
      else Some(s.(writers := s.writers[w := Stamped(fields, unhashed, now)]))
    case Acquire(w) =>
      if w !in s.writers || !s.writers[w].Stamped? then None
      else
        var p := s.writers[w];
        if p.fields.tenant.None? then
          Some(s.(writers := s.writers[w := Linked(p.fields, p.unhashed, p.now, None)]))
        else if p.fields.tenant.value in s.locks then None
        else Some(s.(locks := s.locks[p.fields.tenant.value := w],
                     writers := s.writers[w := Locked(p.fields, p.unhashed, p.now)]))
    case ReadNewest(w) =>
      if w !in s.writers || !s.writers[w].Locked? then None
      else
        var p := s.writers[w];
        Some(s.(writers := s.writers[w := Linked(p.fields, p.unhashed, p.now, PredecessorHash(s.table, p.fields))]))
    case Commit(w) =>
      if w !in s.writers || !s.writers[w].Linked? then None
      else
        var p := s.writers[w];
        Some(Log(s.table + [NewRow(c, p.fields, p.unhashed, p.now, p.prev)], Release(s.locks, w), s.writers - {w}))
    case Abort(w) =>
      if w !in s.writers then None
      else Some(s.(locks := Release(s.locks, w), writers := s.writers - {w}))
  }

  function Run(c: Codec, actions: seq<Action>): Option<Log> {
    if actions == [] then Some(Log([], map[], map[]))
    else
      match Run(c, actions[..|actions| - 1])
      case None => None
      case Some(s) => Next(c, s, actions[|actions| - 1])
  }

  ghost predicate HoldsLock(s: Log, w: nat, tenant: string) {
    tenant in s.locks && s.locks[tenant] == w
  }

  /** A lock holder that has read the newest row still sees the newest row. */
  ghost predicate LogInvariant(c: Codec, s: Log) {
    && Honest(c, s.table)
    && (forall w :: w in s.writers && s.writers[w].fields.tenant.Some? && !s.writers[w].Stamped? ==>
          HoldsLock(s, w, s.writers[w].fields.tenant.value))
    && (forall w :: w in s.writers && s.writers[w].Locked? ==> s.writers[w].fields.tenant.Some?)
    && (forall w :: w in s.writers && s.writers[w].Linked? ==>
          s.writers[w].prev == PredecessorHash(s.table, s.writers[w].fields))
  }

  lemma NewestHashOfOthers(table: seq<Row>, row: Row, tenant: string)
    requires !OfTenant(row, tenant)
    ensures NewestHash(table + [row], tenant) == NewestHash(table, tenant)
  {
    TenantRowsAppend(table, row, tenant);
    assert TenantRows(table + [row], tenant) == TenantRows(table, tenant);
  }

  lemma {:induction false} CommitKeepsInvariant(c: Codec, s: Log, w: nat)
    requires LogInvariant(c, s) && w in s.writers && s.writers[w].Linked?
    ensures LogInvariant(c, Next(c, s, Commit(w)).value)
  {
    var p, s' := s.writers[w], Next(c, s, Commit(w)).value;
    var row := NewRow(c, p.fields, p.unhashed, p.now, p.prev);
    HonestAppend(c, s.table, row);
    forall v | v in s'.writers && s'.writers[v].Linked?
      ensures s'.writers[v].prev == PredecessorHash(s'.table, s'.writers[v].fields)
    {
      var tenant := s'.writers[v].fields.tenant;
      if tenant.Some? {
        assert HoldsLock(s, v, tenant.value) && v != w;
        assert OfTenant(row, tenant.value) ==> HoldsLock(s, w, tenant.value);
        NewestHashOfOthers(s.table, row, tenant.value);
      }
    }
  }

  lemma {:induction false} NextKeepsInvariant(c: Codec, s: Log, a: Action)
    requires LogInvariant(c, s) && Next(c, s, a).Some?
    ensures LogInvariant(c, Next(c, s, a).value)
  {
    if a.Commit? {
      CommitKeepsInvariant(c, s, a.w);
    }
  }

  /** Every interleaving of stamping, locking, reading, committing and aborting leaves a
      table that sequential appends in commit order could have written. */
  lemma {:induction false} RunsAreHonest(c: Codec, actions: seq<Action>)
    requires Run(c, actions).Some?
    ensures LogInvariant(c, Run(c, actions).value)
    ensures Honest(c, Run(c, actions).value.table)
    decreases |actions|
  {
    if actions != [] {
      var before := actions[..|actions| - 1];
      RunsAreHonest(c, before);
      NextKeepsInvariant(c, Run(c, before).value, actions[|actions| - 1]);
    }
  }

  /** Every lock belongs to a transaction that is under way and took it for its own tenant. */
  ghost predicate LocksAreHeld(s: Log) {
    forall t :: t in s.locks ==>
      && s.locks[t] in s.writers && !s.writers[s.locks[t]].Stamped?
      && s.writers[s.locks[t]].fields.tenant == Some(t)
  }

  lemma NextKeepsLocksHeld(c: Codec, s: Log, a: Action)
    requires LocksAreHeld(s) && Next(c, s, a).Some?
    ensures LocksAreHeld(Next(c, s, a).value)
  {
  }

  /** No lock outlives its transaction: after every interleaving, a tenant is locked only by an append of
      that tenant that has neither committed nor aborted. */
  lemma {:induction false} RunsReleaseLocks(c: Codec, actions: seq<Action>)
    requires Run(c, actions).Some?
    ensures LocksAreHeld(Run(c, actions).value)
    decreases |actions|
  {
    if actions != [] {
      var before := actions[..|actions| - 1];
      RunsReleaseLocks(c, before);
      NextKeepsLocksHeld(c, Run(c, before).value, actions[|actions| - 1]);
    }
  }

  /** Any interleaving of appends by many tenants leaves every tenant whose appends
      committed in timestamp order, and who has at most 10000 rows, with a chain that
      verifies. */
  lemma HonestRunsVerify(c: Codec, actions: seq<Action>, tenant: string)
    requires Run(c, actions).Some?
    requires
      var rows := TenantRows(Run(c, actions).value.table, tenant);
      InOrder(rows) && |rows| <= 10000
    ensures Verifies(c, Run(c, actions).value.table, tenant)
  {
    RunsAreHonest(c, actions);
    InOrderVerdict(c, Run(c, actions).value.table, tenant);
  }

  lemma RunStep(c: Codec, actions: seq<Action>, a: Action, s: Log, s': Log)
    requires Run(c, actions) == Some(s) && Next(c, s, a) == Some(s')
    ensures Run(c, actions + [a]) == Some(s')
  {
    assert (actions + [a])[..|actions|] == actions;
  }

  /** A writer takes the lock, reads the newest row and commits. */
  function AppendBy(actions: seq<Action>, w: nat): seq<Action> {
    actions + [Acquire(w)] + [ReadNewest(w)] + [Commit(w)]
  }

  /** A writer that finds the lock free appends its row. */
  lemma {:induction false} AppendRuns(c: Codec, actions: seq<Action>, s: Log, w: nat)
    requires Run(c, actions) == Some(s) && s.locks == map[]
    requires w in s.writers && s.writers[w].Stamped? && s.writers[w].fields.tenant.Some?
    ensures
      var p := s.writers[w];
      Run(c, AppendBy(actions, w))
      == Some(Log(s.table + [NewRow(c, p.fields, p.unhashed, p.now, PredecessorHash(s.table, p.fields))], map[],
                  s.writers - {w}))
  {
    var p := s.writers[w];
    var s1 := s.(locks := map[p.fields.tenant.value := w],
                 writers := s.writers[w := Locked(p.fields, p.unhashed, p.now)]);
    var prev := PredecessorHash(s.table, p.fields);
    var s2 := s1.(writers := s.writers[w := Linked(p.fields, p.unhashed, p.now, prev)]);
    assert s1.writers[w := Linked(p.fields, p.unhashed, p.now, prev)] == s2.writers;
    RunStep(c, actions, Acquire(w), s, s1);
    RunStep(c, actions + [Acquire(w)], ReadNewest(w), s1, s2);
    var s3 := Next(c, s2, Commit(w)).value;
    assert s3.writers == s.writers - {w} && s3.locks == map[];
    RunStep(c, actions + [Acquire(w)] + [ReadNewest(w)], Commit(w), s2, s3);
  }

  /** One append: its fields, and its timestamp. */
  datatype Draft = Draft(fields: Fields, unhashed: Unhashed, now: int)

  function StampBy(w: nat, d: Draft): Action {
    Stamp(w, d.fields, d.unhashed, d.now)
  }

  function DraftRow(c: Codec, d: Draft, prev: Option<string>): Row {
    NewRow(c, d.fields, d.unhashed, d.now, prev)
  }

  function Waiting(d: Draft): Phase {
    Stamped(d.fields, d.unhashed, d.now)
  }

  lemma {:induction false} StampRuns(c: Codec, actions: seq<Action>, s: Log, w: nat, d: Draft)
    requires Run(c, actions) == Some(s) && w !in s.writers
    ensures Run(c, actions + [StampBy(w, d)]) == Some(s.(writers := s.writers[w := Waiting(d)]))
  {
    RunStep(c, actions, StampBy(w, d), s, s.(writers := s.writers[w := Waiting(d)]));
  }

  lemma {:induction false} OneRow(row: Row, tenant: string)
    requires OfTenant(row, tenant) && row.createdAt.Some?
    ensures TenantRows([row], tenant) == [row] && NewestHash([row], tenant) == row.entryHash
  {
    TenantRowsAppend([], row, tenant);
    assert [] + [row] == [row];
    NewestOfInOrder([row]);
  }

  /** After a row and an older one, the newest is still the first. */
  lemma {:induction false} TwoRows(first: Row, second: Row, tenant: string)
    requires OfTenant(first, tenant) && OfTenant(second, tenant) && first.createdAt.Some? && second.createdAt.Some?
    requires second.createdAt.value < first.createdAt.value
    ensures TenantRows([first] + [second], tenant) == [first] + [second]
    ensures NewestHash([first] + [second], tenant) == first.entryHash
  {
    OneRow(first, tenant);
    TenantRowsAppend([first], second, tenant);
    NewestSurvivesLateRow([first], second);
  }

  /** Two writers stamp, and the one stamped last commits first. */
  function LateCommitRun(early: Draft, late: Draft): seq<Action> {
    AppendBy(AppendBy([] + [StampBy(0, early)] + [StampBy(1, late)], 1), 0)
  }

  lemma {:induction false} LateCommitRunReaches(c: Codec, early: Draft, late: Draft)
    requires early.fields.tenant.Some? && late.fields.tenant == early.fields.tenant
    ensures
      var first := DraftRow(c, late, None);
      Run(c, LateCommitRun(early, late)) == Some(Log([first] + [DraftRow(c, early, first.entryHash)], map[], map[]))
  {
    var s0 := Log([], map[], map[]);
    StampRuns(c, [], s0, 0, early);
    var s1 := s0.(writers := map[][0 := Waiting(early)]);
    StampRuns(c, [] + [StampBy(0, early)], s1, 1, late);
    var s2 := s1.(writers := s1.writers[1 := Waiting(late)]);
    AppendRuns(c, [] + [StampBy(0, early)] + [StampBy(1, late)], s2, 1);
    var first := DraftRow(c, late, None);
    var s3 := Log([first], map[], s1.writers);
    assert [] + [first] == [first] && s2.writers - {1} == s1.writers;
    AppendRuns(c, AppendBy([] + [StampBy(0, early)] + [StampBy(1, late)], 1), s3, 0);
    OneRow(first, early.fields.tenant.value);
    assert s3.writers - {0} == map[];
  }

  /** Two appends of one tenant, with any fields, the one stamped first committing last: the writers'
      steps reach a table that is honest, and its chain is rejected, because the row that is oldest in
      time has a predecessor. */
  lemma {:induction false} LateCommitIsRejected(c: Codec, early: Draft, late: Draft)
    requires early.fields.tenant.Some? && late.fields.tenant == early.fields.tenant && early.now < late.now
    ensures
      var run := Run(c, LateCommitRun(early, late));
      run.Some? && Honest(c, run.value.table) && !Verifies(c, run.value.table, early.fields.tenant.value)
  {
    var t := early.fields.tenant.value;
    LateCommitRunReaches(c, early, late);
    RunsAreHonest(c, LateCommitRun(early, late));
    var first := DraftRow(c, late, None);
    var second := DraftRow(c, early, first.entryHash);
    TwoRows(first, second, t);
    SortOldestLast([first], second);
    assert !LinkedAt([second] + [first], 0);
  }

  /** Three writers stamp, and the one stamped latest commits first. */
  function ForkRun(early: Draft, next: Draft, late: Draft): seq<Action> {
    AppendBy(AppendBy(AppendBy([] + [StampBy(0, early)] + [StampBy(1, next)] + [StampBy(2, late)], 2), 0), 1)
  }

  lemma {:induction false} ForkStampsReach(c: Codec, early: Draft, next: Draft, late: Draft)
    requires late.fields.tenant.Some?
    ensures Run(c, AppendBy([] + [StampBy(0, early)] + [StampBy(1, next)] + [StampBy(2, late)], 2))
         == Some(Log([DraftRow(c, late, None)], map[], map[0 := Waiting(early), 1 := Waiting(next)]))
  {
    var s0 := Log([], map[], map[]);
    StampRuns(c, [], s0, 0, early);
    var s1 := s0.(writers := map[][0 := Waiting(early)]);
    StampRuns(c, [] + [StampBy(0, early)], s1, 1, next);
    var s2 := s1.(writers := s1.writers[1 := Waiting(next)]);
    StampRuns(c, [] + [StampBy(0, early)] + [StampBy(1, next)], s2, 2, late);
    var s3 := s2.(writers := s2.writers[2 := Waiting(late)]);
    AppendRuns(c, [] + [StampBy(0, early)] + [StampBy(1, next)] + [StampBy(2, late)], s3, 2);
    assert [] + [DraftRow(c, late, None)] == [DraftRow(c, late, None)];
    assert s3.writers - {2} == map[0 := Waiting(early), 1 := Waiting(next)];
  }

  lemma {:induction false} ForkRunReaches(c: Codec, early: Draft, next: Draft, late: Draft)
    requires late.fields.tenant.Some? && early.fields.tenant == next.fields.tenant == late.fields.tenant
    requires early.now < late.now
    ensures
      var first := DraftRow(c, late, None);
      Run(c, ForkRun(early, next, late))
      == Some(Log([first] + [DraftRow(c, early, first.entryHash)] + [DraftRow(c, next, first.entryHash)],
                  map[], map[]))
  {
    var t, first := late.fields.tenant.value, DraftRow(c, late, None);
    ForkStampsReach(c, early, next, late);
    var a1 := AppendBy([] + [StampBy(0, early)] + [StampBy(1, next)] + [StampBy(2, late)], 2);
    var s1 := Log([first], map[], map[0 := Waiting(early), 1 := Waiting(next)]);
    OneRow(first, t);
    AppendRuns(c, a1, s1, 0);
    var second := DraftRow(c, early, first.entryHash);
    assert s1.writers - {0} == map[1 := Waiting(next)];
    var s2 := Log([first] + [second], map[], map[1 := Waiting(next)]);
    TwoRows(first, second, t);
    AppendRuns(c, AppendBy(a1, 0), s2, 1);
    assert s2.writers - {1} == map[];
  }

  /** Three appends that fork: the writers' steps reach a table where the two rows stamped earlier, which
      commit after the one stamped last, have the same predecessor. */
  lemma {:induction false} LateCommitsFork(c: Codec, early: Draft, next: Draft, late: Draft)
    requires late.fields.tenant.Some? && early.fields.tenant == next.fields.tenant == late.fields.tenant
    requires early.now < late.now
    ensures
      var run := Run(c, ForkRun(early, next, late));
      run.Some? && Honest(c, run.value.table) && Forks(TenantRows(run.value.table, late.fields.tenant.value))
  {
    var t, first := late.fields.tenant.value, DraftRow(c, late, None);
    ForkRunReaches(c, early, next, late);
    RunsAreHonest(c, ForkRun(early, next, late));
    var second, third := DraftRow(c, early, first.entryHash), DraftRow(c, next, first.entryHash);
    TwoRows(first, second, t);
    TenantRowsAppend([first] + [second], third, t);
    assert SamePredecessor([first] + [second] + [third], 1, 2);
  }
}
