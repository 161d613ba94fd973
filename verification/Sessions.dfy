/**
 Session ownership (api/app/gateway/session.py): a registry that maps an `Mcp-Session-Id`
 to the tenant, subject and server that own it, under a sliding time to live. The second
 half is `claim_or_validate` under every interleaving of its Redis commands.
 */
module Sessions {
  import opened Wrappers

  predicate IdChar(c: char) {
    'A' <= c <= 'Z' || 'a' <= c <= 'z' || '0' <= c <= '9' || c == '-' || c == '_'
  }

  predicate ValidId(id: string) {
    8 <= |id| <= 128 && forall i :: 0 <= i < |id| ==> IdChar(id[i])
  }

  /** Which session ids are well formed: 8 to 128 letters, digits, dashes and underscores, by their codes. */
  lemma ValidIdIff(id: string)
    ensures ValidId(id) <==>
      && 8 <= |id| <= 128
      && forall i :: 0 <= i < |id| ==>
           var code := id[i] as int;
           65 <= code <= 90 || 97 <= code <= 122 || 48 <= code <= 57 || code == 45 || code == 95
  {
  }

  datatype Owner = Owner(tenant: string, subject: string, server: string)

  datatype Entry = Entry(owner: Owner, expiresAt: real)

  type Entries = map<string, Entry>

  /** Who owns an id at an instant: a key past its time to live is gone. */
  function OwnerAt(e: Entries, now: real, id: string): Option<Owner> {
    if id in e && now < e[id].expiresAt then Some(e[id].owner) else None
  }

  /** A record lives for exactly its time to live. */
  lemma LivesUntilExpiry(e: Entries, id: string, owner: Owner, now: real, ttl: real, later: real)
    ensures OwnerAt(e[id := Entry(owner, now + ttl)], later, id) == if later - now < ttl then Some(owner) else None
  {
  }

  // ----- the store -------------------------------------------------------------------------

  class SessionStore {
    var entries: Entries
    const ttl: real

    /** Whether Redis answers. */
    var up: bool

    constructor (ttl: real)
      requires ttl > 0.0
      ensures entries == map[] && up && this.ttl == ttl
    {
      entries, up := map[], true;
      this.ttl := ttl;
    }

    ghost predicate Valid()
      reads this
    {
      ttl > 0.0
    }

    /** `record`: an outage is an exception for the caller. */
    method Record(id: string, owner: Owner, now: real) returns (raised: bool)
      modifies this`entries
      ensures raised <==> ValidId(id) && !up
      ensures entries == if ValidId(id) && up then old(entries)[id := Entry(owner, now + ttl)] else old(entries)
    {
      if !ValidId(id) {
        return false;
      }
      if !up {
        return true;
      }
      entries := entries[id := Entry(owner, now + ttl)];
      return false;
    }

    /** `lookup`: an outage reads as a missing session, a hit extends the time to live. */
    method Lookup(id: string, now: real) returns (record: Option<Owner>)
      requires Valid()
      modifies this`entries
      ensures record == if up then OwnerAt(old(entries), now, id) else None
      ensures forall other :: OwnerAt(entries, now, other) == OwnerAt(old(entries), now, other)
      ensures record.Some? ==> id in entries && entries[id].expiresAt == now + ttl
      ensures entries - {id} == old(entries) - {id}
    {
      record := None;
      if up && id in entries && now < entries[id].expiresAt {
        record := Some(entries[id].owner);
        entries := entries[id := entries[id].(expiresAt := now + ttl)];
      }
    }

    method Delete(id: string)
      modifies this`entries
      ensures entries == if up then old(entries) - {id} else old(entries)
    {
      if up {
        entries := entries - {id};
      }
    }

    /** `claim_or_validate`, uninterrupted: true exactly for an id that nobody else holds, and
        then the caller holds it for a full time to live. */
    method ClaimOrValidate(id: string, owner: Owner, now: real) returns (ok: bool)
      requires Valid()
      modifies this`entries
      ensures ok <==> up && ValidId(id) && OwnerAt(old(entries), now, id) in {None, Some(owner)}
      ensures ok ==> id in entries && entries[id] == Entry(owner, now + ttl)
      ensures !ok ==> forall other :: OwnerAt(entries, now, other) == OwnerAt(old(entries), now, other)
      ensures entries - {id} == old(entries) - {id}
    {
      if !ValidId(id) || !up {
        return false;
      }
      if !(id in entries && now < entries[id].expiresAt) {
        entries := entries[id := Entry(owner, now + ttl)];
        return true;
      }
      var existing := Lookup(id, now);
      return existing == Some(owner);
    }
  }

  // ----- runs of atomic requests -----------------------------------------------------------

  /** What a request by `who` may do to the registry: an id changes hands only from nobody or
      the caller to nobody or the caller. */
  ghost predicate ActsFor(before: Entries, after: Entries, who: Owner, now: real) {
    forall id :: OwnerAt(after, now, id) == OwnerAt(before, now, id)
      || (OwnerAt(before, now, id) in {None, Some(who)} && OwnerAt(after, now, id) in {None, Some(who)})
  }

  /** The registry after a request at `now` by `who`, or by a caller that was not authenticated. */
  datatype Moment = Moment(entries: Entries, who: Option<Owner>, now: real)

  ghost predicate Follows(run: seq<Moment>, k: int)
    requires 0 < k < |run|
  {
    var before, after := run[k - 1], run[k];
    && before.now <= after.now
    && match after.who
       case None => after.entries == before.entries
       case Some(who) => ActsFor(before.entries, after.entries, who, after.now)
  }

  ghost predicate ValidRun(run: seq<Moment>) {
    forall k :: 0 < k < |run| ==> Follows(run, k)
  }

  function OwnerAfter(run: seq<Moment>, k: int, id: string): Option<Owner>
    requires 0 <= k < |run|
  {
    OwnerAt(run[k].entries, run[k].now, id)
  }

  /** Between requests k - 1 and k the time to live of the id ran out. */
  ghost predicate Expired(run: seq<Moment>, k: int, id: string)
    requires 0 < k < |run|
  {
    OwnerAfter(run, k - 1, id).Some? && OwnerAt(run[k - 1].entries, run[k].now, id) == None
  }

  /** Request k, made by the owner of the id, removed it. */
  ghost predicate DeletedByOwner(run: seq<Moment>, k: int, id: string)
    requires 0 < k < |run|
  {
    && run[k].who.Some? && OwnerAt(run[k - 1].entries, run[k].now, id) == run[k].who
    && OwnerAfter(run, k, id) == None
  }

  /** One request: the owner keeps the id, unless it expired or the owner removed it. */
  lemma KeptUnlessReleased(run: seq<Moment>, k: int, id: string)
    requires ValidRun(run) && 0 < k < |run| && OwnerAfter(run, k - 1, id).Some?
    ensures OwnerAfter(run, k, id) == OwnerAfter(run, k - 1, id) || Expired(run, k, id) || DeletedByOwner(run, k, id)
  {
    assert Follows(run, k);
  }

  /** Somewhere after moment i and up to moment j, the owner that the id had at i let it go. */
  ghost predicate Released(run: seq<Moment>, i: int, j: int, id: string)
    requires 0 <= i <= j < |run|
  {
    exists k :: i < k <= j && (Expired(run, k, id) || DeletedByOwner(run, k, id))
                && OwnerAfter(run, k - 1, id) == OwnerAfter(run, i, id)
  }

  ghost predicate ChangesOwner(run: seq<Moment>, i: int, j: int, id: string) {
    0 <= i < j < |run| && OwnerAfter(run, i, id).Some? && OwnerAfter(run, j, id) != OwnerAfter(run, i, id)
  }

  /** A live id changes owner only after it expired or its owner of the moment removed it. */
  ghost predicate Stable(run: seq<Moment>) {
    forall i, j, id :: ChangesOwner(run, i, j, id) ==> Released(run, i, j, id)
  }

  lemma {:induction false} ChangesNeedRelease(run: seq<Moment>, i: int, j: int, id: string)
    requires ValidRun(run) && ChangesOwner(run, i, j, id)
    ensures Released(run, i, j, id)
    decreases j - i
  {
    KeptUnlessReleased(run, i + 1, id);
    if OwnerAfter(run, i + 1, id) == OwnerAfter(run, i, id) {
      ChangesNeedRelease(run, i + 1, j, id);
    } else {
      assert OwnerAfter(run, i + 1 - 1, id) == OwnerAfter(run, i, id);
    }
  }

  /** Ownership is stable over every run. */
  lemma OwnershipIsStable(run: seq<Moment>)
    requires ValidRun(run)
    ensures Stable(run)
  {
    forall i, j, id | ChangesOwner(run, i, j, id)
      ensures Released(run, i, j, id)
    {
      ChangesNeedRelease(run, i, j, id);
    }
  }

  // ----- claim_or_validate, command by command -----------------------------------------------

  /** Where a call of `claim_or_validate` stands: before SET NX, before GET, before EXPIRE. */
  datatype Call =
    | Claiming(id: string, owner: Owner)
    | Reading(id: string, owner: Owner)
    | Touching(id: string, owner: Owner, seen: Owner)
    | Returned(id: string, owner: Owner, ok: bool)

  /** The Redis keys and the calls in flight, numbered as they arrive. */
  datatype State = State(keys: map<string, Owner>, calls: seq<Call>)

  /** One atomic event: a call arrives; call t runs its next Redis command; that command raises and
      has no effect, or takes effect and its reply is lost; or a key goes, by DEL or by its time to
      live. */
  datatype Command =
    | Arrive(id: string, owner: Owner)
    | Run(t: nat)
    | Raise(t: nat)
    | LoseReply(t: nat)
    | Remove(key: string)

  function RunCall(keys: map<string, Owner>, call: Call): (map<string, Owner>, Call) {
    match call
    case Claiming(id, owner) =>
      if !ValidId(id) then (keys, Returned(id, owner, false))
      else if id in keys then (keys, Reading(id, owner))
      else (keys[id := owner], Returned(id, owner, true))
    case Reading(id, owner) =>
      if id in keys then (keys, Touching(id, owner, keys[id])) else (keys, Returned(id, owner, false))
    case Touching(id, owner, seen) => (keys, Returned(id, owner, seen == owner))
    case Returned(_, _, _) => (keys, call)
  }

  function Next(s: State, c: Command): State {
    match c
    case Arrive(id, owner) => s.(calls := s.calls + [Claiming(id, owner)])
    case Run(t) =>
      if t < |s.calls| then
        var (keys, call) := RunCall(s.keys, s.calls[t]);
        State(keys, s.calls[t := call])
      else s
    case Raise(t) =>
      if t < |s.calls| && !s.calls[t].Returned? then
        s.(calls := s.calls[t := Returned(s.calls[t].id, s.calls[t].owner, false)])
      else s
    case LoseReply(t) =>
      if t < |s.calls| && !s.calls[t].Returned? then
        State(RunCall(s.keys, s.calls[t]).0, s.calls[t := Returned(s.calls[t].id, s.calls[t].owner, false)])
      else s
    case Remove(key) => s.(keys := s.keys - {key})
  }

  /** A call that runs on its own: it takes a free id, finds its own record, and is turned away from a
      malformed id and from one that somebody else holds, and it overwrites nothing. */
  lemma ClaimAlone(s: State, t: nat, id: string, owner: Owner)
    requires t < |s.calls| && s.calls[t] == Claiming(id, owner)
    ensures
      var s' := Next(Next(Next(s, Run(t)), Run(t)), Run(t));
      && s'.calls == s.calls[t := Returned(id, owner, ValidId(id) && (id !in s.keys || s.keys[id] == owner))]
      && s'.keys == if ValidId(id) && id !in s.keys then s.keys[id := owner] else s.keys
  {
  }

  /** A claim whose command fails answers false: without an effect it leaves the keys alone, and with its
      reply lost it holds a free id all the same. */
  lemma FailedClaim(s: State, t: nat, id: string, owner: Owner)
    requires t < |s.calls| && s.calls[t] == Claiming(id, owner)
    ensures Next(s, Raise(t)) == State(s.keys, s.calls[t := Returned(id, owner, false)])
    ensures Next(s, LoseReply(t)) == State(if ValidId(id) && id !in s.keys then s.keys[id := owner] else s.keys,
                                           s.calls[t := Returned(id, owner, false)])
  {
  }

  /** The state after the first k commands. */
  function After(commands: seq<Command>, k: nat): State
    requires k <= |commands|
  {
    if k == 0 then State(map[], []) else Next(After(commands, k - 1), commands[k - 1])
  }

  /** Command k is the one by which call t finds its owner to hold the id: its SET NX, or a
      GET that reads its own record. */
  ghost predicate Witnesses(commands: seq<Command>, k: nat, t: nat)
    requires k < |commands|
  {
    var s, s' := After(commands, k), After(commands, k + 1);
    && commands[k] == Run(t) && t < |s.calls|
    && ((s.calls[t].Claiming? && s'.calls[t] == Returned(s.calls[t].id, s.calls[t].owner, true))
        || (s.calls[t].Reading? && s'.calls[t] == Touching(s.calls[t].id, s.calls[t].owner, s.calls[t].owner)))
  }

  /** A call that won, or is about to: true, or a read of its own record. */
  predicate Won(call: Call) {
    (call.Returned? && call.ok) || (call.Touching? && call.seen == call.owner)
  }

  lemma NextKeepsIdentity(s: State, c: Command, t: nat)
    requires t < |s.calls|
    ensures t < |Next(s, c).calls|
    ensures Next(s, c).calls[t].id == s.calls[t].id && Next(s, c).calls[t].owner == s.calls[t].owner
  {
  }

  /** Calls keep their number, id and owner. */
  lemma {:induction false} CallsKeepIdentity(commands: seq<Command>, k: nat, n: nat, t: nat)
    requires k <= n <= |commands| && t < |After(commands, k).calls|
    ensures t < |After(commands, n).calls|
    ensures After(commands, n).calls[t].id == After(commands, k).calls[t].id
    ensures After(commands, n).calls[t].owner == After(commands, k).calls[t].owner
  {
    if k < n {
      CallsKeepIdentity(commands, k, n - 1, t);
      NextKeepsIdentity(After(commands, n - 1), commands[n - 1], t);
    }
  }

  /** At the witness the owner holds the id. */
  lemma WitnessHolds(commands: seq<Command>, k: nat, t: nat)
    requires k < |commands| && Witnesses(commands, k, t)
    ensures
      var call := After(commands, k).calls[t];
      call.id in After(commands, k + 1).keys && After(commands, k + 1).keys[call.id] == call.owner
  {
  }

  /** Every winning call has a witness. */
  lemma {:induction false} WinnersHaveWitnesses(commands: seq<Command>, n: nat, t: nat) returns (k: nat)
    requires n <= |commands| && t < |After(commands, n).calls| && Won(After(commands, n).calls[t])
    ensures k < n && Witnesses(commands, k, t)
  {
    var s := After(commands, n - 1);
    if t < |s.calls| && Won(s.calls[t]) {
      k := WinnersHaveWitnesses(commands, n - 1, t);
    } else {
      k := n - 1;
    }
  }

  ghost predicate Removed(commands: seq<Command>, j: nat, k: nat, id: string)
    requires k <= |commands|
  {
    exists i :: j <= i < k && commands[i] == Remove(id)
  }

  lemma NextKeepsHeld(s: State, c: Command, id: string)
    requires id in s.keys && c != Remove(id)
    ensures id in Next(s, c).keys && Next(s, c).keys[id] == s.keys[id]
  {
  }

  /** A held id keeps its owner until it is removed: nothing else overwrites it. */
  lemma {:induction false} HeldUntilRemoved(commands: seq<Command>, j: nat, k: nat, id: string)
    requires j <= k <= |commands| && id in After(commands, j).keys
    ensures Removed(commands, j, k, id) ||
            (id in After(commands, k).keys && After(commands, k).keys[id] == After(commands, j).keys[id])
  {
    if j < k {
      HeldUntilRemoved(commands, j, k - 1, id);
      if commands[k - 1] == Remove(id) {
        assert Removed(commands, j, k, id);
      } else if !Removed(commands, j, k - 1, id) {
        NextKeepsHeld(After(commands, k - 1), commands[k - 1], id);
      }
    }
  }

  /** Two owners win one id only if it was removed in between: for any interleaving, if two
      calls with different owners return true for the same id, then the id was deleted or
      expired after one found itself the owner and before the other did. */
  lemma {:induction false} TwoOwnersNeedRemoval(commands: seq<Command>, t: nat, t': nat) returns (k: nat, k': nat)
    requires
      var calls := After(commands, |commands|).calls;
      && t < |calls| && t' < |calls|
      && calls[t].Returned? && calls[t].ok && calls[t'].Returned? && calls[t'].ok
      && calls[t].id == calls[t'].id && calls[t].owner != calls[t'].owner
    ensures k < |commands| && k' < |commands| && Witnesses(commands, k, t) && Witnesses(commands, k', t')
    ensures
      var id := After(commands, |commands|).calls[t].id;
      Removed(commands, k + 1, k', id) || Removed(commands, k' + 1, k, id)
  {
    k := WinnersHaveWitnesses(commands, |commands|, t);
    k' := WinnersHaveWitnesses(commands, |commands|, t');
    CallsKeepIdentity(commands, k, |commands|, t);
    CallsKeepIdentity(commands, k', |commands|, t');
    if k < k' {
      SecondWinner(commands, k, k', t, t');
    } else if k' < k {
      SecondWinner(commands, k', k, t', t);
    }
  }

  lemma {:induction false} SecondWinner(commands: seq<Command>, k: nat, k': nat, t: nat, t': nat)
    requires k < k' < |commands| && Witnesses(commands, k, t) && Witnesses(commands, k', t')
    requires After(commands, k).calls[t].id == After(commands, k').calls[t'].id
    requires After(commands, k).calls[t].owner != After(commands, k').calls[t'].owner
    ensures Removed(commands, k + 1, k', After(commands, k).calls[t].id)
  {
    WitnessHolds(commands, k, t);
    WitnessHolds(commands, k', t');
    HeldUntilRemoved(commands, k + 1, k', After(commands, k).calls[t].id);
  }

  /** The removal is enough, too: for any two owners of any id, a run with one removal lets both
      calls return true. */
  lemma RemovalLetsAnotherIn(id: string, owner: Owner, owner': Owner)
    requires ValidId(id)
    ensures
      var calls := After([Arrive(id, owner), Run(0), Remove(id), Arrive(id, owner'), Run(1)], 5).calls;
      calls == [Returned(id, owner, true), Returned(id, owner', true)]
  {
    var commands := [Arrive(id, owner), Run(0), Remove(id), Arrive(id, owner'), Run(1)];
    assert After(commands, 1) == State(map[], [Claiming(id, owner)]);
    assert After(commands, 2) == State(map[id := owner], [Returned(id, owner, true)]);
    assert After(commands, 3) == State(map[], [Returned(id, owner, true)]);
    assert After(commands, 4) == State(map[], [Returned(id, owner, true), Claiming(id, owner')]);
  }
}
