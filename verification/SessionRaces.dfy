/**
 The router's own way of pinning a session (lookup, delete, record in `mcp_proxy`,
 api/app/gateway/router.py), command by command: unlike `claim_or_validate` it does not
 claim, so requests that interleave can move a live id without a removal. This says exactly
 when.
 */
module SessionRaces {
  import opened Wrappers
  import opened Sessions

  /** Where a request stands: before the GET of the id that the upstream issued, before the EXPIRE of the
      record it found (its own or not), before the DEL of the id that the caller came with, before the
      SET, or done. */
  datatype Pinning =
    | Looking(id: string, owner: Owner, prior: Option<string>)
    | Renewing(id: string, owner: Owner, prior: Option<string>, own: bool)
    | Dropping(id: string, owner: Owner, prior: Option<string>)
    | Storing(id: string, owner: Owner)
    | Ended(id: string, owner: Owner)

  datatype Registry = Registry(keys: map<string, Owner>, requests: seq<Pinning>)

  /** One atomic event: a request reaches the session step; request t runs its next Redis command; that
      command raises and has no effect, or takes effect and its reply is lost; or a key goes, by a
      termination or by its time to live. */
  datatype Event =
    | Reach(id: string, owner: Owner, prior: Option<string>)
    | Runs(t: nat)
    | Raises(t: nat)
    | Loses(t: nat)
    | Goes(key: string)

  /** After a lookup that found nothing or an own record: the old id is dropped if it is another one. */
  function Proceed(p: Pinning): Pinning
    requires p.Looking? || p.Renewing?
  {
    if p.prior.Some? && p.prior.value != p.id then Dropping(p.id, p.owner, p.prior) else Storing(p.id, p.owner)
  }

  /** A GET that raises reads as a missing record, a DEL that raises is ignored, and an EXPIRE that raises
      fails the request. */
  function Advance(keys: map<string, Owner>, p: Pinning, replied: bool): Pinning {
    match p
    case Looking(id, owner, prior) =>
      if replied && id in keys then Renewing(id, owner, prior, keys[id] == owner) else Proceed(p)
    case Renewing(id, owner, _, own) => if replied && own then Proceed(p) else Ended(id, owner)
    case Dropping(id, owner, _) => Storing(id, owner)
    case Storing(id, owner) => Ended(id, owner)
    case Ended(_, _) => p
  }

  /** What the command itself does to the keys. */
  function Effect(keys: map<string, Owner>, p: Pinning): map<string, Owner> {
    match p
    case Dropping(_, _, prior) => if prior.Some? then keys - {prior.value} else keys
    case Storing(id, owner) => keys[id := owner]
    case _ => keys
  }

  function Next(s: Registry, x: Event): Registry {
    match x
    case Reach(id, owner, prior) =>
      if ValidId(id) then s.(requests := s.requests + [Looking(id, owner, prior)]) else s
    case Runs(t) =>
      if t < |s.requests| then
        Registry(Effect(s.keys, s.requests[t]), s.requests[t := Advance(s.keys, s.requests[t], true)])
      else s
    case Raises(t) =>
      if t < |s.requests| then s.(requests := s.requests[t := Advance(s.keys, s.requests[t], false)]) else s
    case Loses(t) =>
      if t < |s.requests| then
        Registry(Effect(s.keys, s.requests[t]), s.requests[t := Advance(s.keys, s.requests[t], false)])
      else s
    case Goes(key) => s.(keys := s.keys - {key})
  }

  /** The registry after the first k events. */
  function After(events: seq<Event>, k: nat): Registry
    requires k <= |events|
  {
    if k == 0 then Registry(map[], []) else Next(After(events, k - 1), events[k - 1])
  }

  /** Event k passes a live id straight from one owner to another. */
  ghost predicate Moves(events: seq<Event>, k: nat, id: string)
    requires k < |events|
  {
    var before, after := After(events, k).keys, After(events, k + 1).keys;
    id in before && id in after && before[id] != after[id]
  }

  /** Event k carries out the SET of request t, with or without its reply. */
  ghost predicate Stores(events: seq<Event>, k: nat, t: nat)
    requires k < |events|
  {
    && (events[k] == Runs(t) || events[k] == Loses(t))
    && t < |After(events, k).requests| && After(events, k).requests[t].Storing?
  }

  /** Somebody else holds the id of request t when event k comes. */
  ghost predicate HeldByAnother(events: seq<Event>, k: nat, t: nat)
    requires k <= |events| && t < |After(events, k).requests|
  {
    var keys, p := After(events, k).keys, After(events, k).requests[t];
    p.id in keys && keys[p.id] != p.owner
  }

  lemma NextMovesIff(s: Registry, x: Event, id: string)
    ensures
      (id in s.keys && id in Next(s, x).keys && s.keys[id] != Next(s, x).keys[id]) <==>
      exists t :: 0 <= t < |s.requests| && (x == Runs(t) || x == Loses(t)) && s.requests[t].Storing?
                  && s.requests[t].id == id && id in s.keys && s.keys[id] != s.requests[t].owner
  {
    if (x.Runs? || x.Loses?) && x.t < |s.requests| {
      assert s.requests[x.t] == s.requests[x.t];
    }
  }

  /** A live id changes hands without a removal exactly when a request carries out its SET on an id that
      somebody else holds. */
  lemma MovesIff(events: seq<Event>, k: nat, id: string)
    requires k < |events|
    ensures Moves(events, k, id) <==>
      exists t: nat :: Stores(events, k, t) && After(events, k).requests[t].id == id && HeldByAnother(events, k, t)
  {
    var s := After(events, k);
    NextMovesIff(s, events[k], id);
    if Moves(events, k, id) {
      var t :| 0 <= t < |s.requests| && (events[k] == Runs(t) || events[k] == Loses(t)) && s.requests[t].Storing?
               && s.requests[t].id == id && id in s.keys && s.keys[id] != s.requests[t].owner;
      assert Stores(events, k, t) && HeldByAnother(events, k, t);
    }
  }

  // ----- how it comes to that -----------------------------------------------------------------

  /** The lookup let the request through. */
  predicate LetThrough(p: Pinning) {
    p.Dropping? || p.Storing? || (p.Renewing? && p.own)
  }

  /** Event j is the GET of request t, and lets it through. */
  ghost predicate LooksUp(events: seq<Event>, j: nat, t: nat)
    requires j < |events|
  {
    && (events[j] == Runs(t) || events[j] == Raises(t) || events[j] == Loses(t))
    && t < |After(events, j).requests| && After(events, j).requests[t].Looking?
    && t < |After(events, j + 1).requests| && LetThrough(After(events, j + 1).requests[t])
  }

  lemma NextKeepsRequest(s: Registry, x: Event, t: nat)
    requires t < |s.requests|
    ensures t < |Next(s, x).requests|
    ensures Next(s, x).requests[t].id == s.requests[t].id && Next(s, x).requests[t].owner == s.requests[t].owner
  {
  }

  /** A request that was let through made its lookup before. */
  lemma {:induction false} StoringLookedUp(events: seq<Event>, k: nat, t: nat) returns (j: nat)
    requires k <= |events| && t < |After(events, k).requests|
    requires LetThrough(After(events, k).requests[t])
    ensures j < k && LooksUp(events, j, t)
    ensures After(events, j + 1).requests[t].id == After(events, k).requests[t].id
    ensures After(events, j + 1).requests[t].owner == After(events, k).requests[t].owner
  {
    var s := After(events, k - 1);
    assert t < |s.requests|;
    NextKeepsRequest(s, events[k - 1], t);
    if s.requests[t].Looking? {
      j := k - 1;
    } else {
      j := StoringLookedUp(events, k - 1, t);
    }
  }

  /** Event m gives the id to another owner. */
  ghost predicate GivesAway(events: seq<Event>, m: nat, id: string, owner: Owner)
    requires m < |events|
  {
    exists u: nat :: Stores(events, m, u) && After(events, m).requests[u].id == id
                     && After(events, m).requests[u].owner != owner
  }

  lemma NextGivesAway(s: Registry, x: Event, id: string, owner: Owner)
    requires id in Next(s, x).keys && Next(s, x).keys[id] != owner && !(id in s.keys && s.keys[id] != owner)
    ensures exists u :: 0 <= u < |s.requests| && (x == Runs(u) || x == Loses(u)) && s.requests[u].Storing?
                        && s.requests[u].id == id && s.requests[u].owner != owner
  {
    assert (x.Runs? || x.Loses?) && x.t < |s.requests| && s.requests[x.t] == Storing(id, Next(s, x).keys[id]);
  }

  /** If nobody else holds the id and later somebody else does, a SET of another request came between. */
  lemma {:induction false} ForeignNeedsStore(events: seq<Event>, j: nat, k: nat, id: string, owner: Owner)
    returns (m: nat)
    requires j <= k <= |events| && !(id in After(events, j).keys && After(events, j).keys[id] != owner)
    requires id in After(events, k).keys && After(events, k).keys[id] != owner
    ensures j <= m < k && GivesAway(events, m, id, owner)
  {
    var s := After(events, k - 1);
    if id in s.keys && s.keys[id] != owner {
      m := ForeignNeedsStore(events, j, k - 1, id, owner);
    } else {
      m := k - 1;
      NextGivesAway(s, events[m], id, owner);
      var u :| 0 <= u < |s.requests| && (events[m] == Runs(u) || events[m] == Loses(u)) && s.requests[u].Storing?
               && s.requests[u].id == id && s.requests[u].owner != owner;
      assert Stores(events, m, u);
    }
  }

  /** Ownership moves without a removal only by a race or an outage: the request that took the id over
      had looked it up before, and either that GET got no reply, or another request for the same id
      stored it in between. */
  lemma {:induction false} MoveNeedsRace(events: seq<Event>, k: nat, t: nat) returns (j: nat)
    requires k < |events| && Stores(events, k, t) && HeldByAnother(events, k, t)
    ensures j < k && LooksUp(events, j, t)
    ensures
      var p := After(events, k).requests[t];
      || events[j] != Runs(t)
      || exists m: nat :: j < m < k && GivesAway(events, m, p.id, p.owner)
  {
    var p := After(events, k).requests[t];
    j := StoringLookedUp(events, k, t);
    if events[j] == Runs(t) {
      var m := ForeignNeedsStore(events, j + 1, k, p.id, p.owner);
    }
  }

  /** The race itself, for any id and any two owners: both look up an unused id, and both store it. */
  lemma RaceMovesOwner(id: string, owner: Owner, owner': Owner)
    requires ValidId(id) && owner != owner'
    ensures
      var events := [Reach(id, owner, None), Reach(id, owner', None), Runs(0), Runs(1), Runs(0), Runs(1)];
      Moves(events, 5, id) && After(events, 6).keys == map[id := owner']
  {
    var events := [Reach(id, owner, None), Reach(id, owner', None), Runs(0), Runs(1), Runs(0), Runs(1)];
    assert After(events, 1) == Registry(map[], [Looking(id, owner, None)]);
    assert After(events, 2) == Registry(map[], [Looking(id, owner, None), Looking(id, owner', None)]);
    assert After(events, 3) == Registry(map[], [Storing(id, owner), Looking(id, owner', None)]);
    assert After(events, 4) == Registry(map[], [Storing(id, owner), Storing(id, owner')]);
    assert After(events, 5) == Registry(map[id := owner], [Ended(id, owner), Storing(id, owner')]);
    assert After(events, 6) == Registry(map[id := owner'], [Ended(id, owner), Ended(id, owner')]);
  }

  /** A request that runs on its own: it leaves an id that somebody else holds alone, and otherwise drops
      the id that the caller came with, if it is another, and stores the new one. */
  lemma AloneStores(s: Registry, t: nat, id: string, owner: Owner, prior: Option<string>)
    requires t < |s.requests| && s.requests[t] == Looking(id, owner, prior)
    ensures
      var s' := Next(Next(Next(Next(s, Runs(t)), Runs(t)), Runs(t)), Runs(t));
      && s'.requests == s.requests[t := Ended(id, owner)]
      && s'.keys == if id in s.keys && s.keys[id] != owner then s.keys
                    else (if prior.Some? && prior.value != id then s.keys - {prior.value} else s.keys)[id := owner]
  {
  }

  /** Every stored id is well formed, every request is for such an id, and what a request drops is not the
      id that it pins. */
  ghost predicate WellPinned(s: Registry) {
    && (forall id :: id in s.keys ==> ValidId(id))
    && (forall t :: 0 <= t < |s.requests| ==>
          && ValidId(s.requests[t].id)
          && (s.requests[t].Dropping? ==>
                s.requests[t].prior.Some? && s.requests[t].prior.value != s.requests[t].id))
  }

  lemma NextKeepsWellPinned(s: Registry, x: Event)
    requires WellPinned(s)
    ensures WellPinned(Next(s, x))
  {
  }

  lemma {:induction false} RunsAreWellPinned(events: seq<Event>, k: nat)
    requires k <= |events|
    ensures WellPinned(After(events, k))
  {
    if k > 0 {
      RunsAreWellPinned(events, k - 1);
      NextKeepsWellPinned(After(events, k - 1), events[k - 1]);
    }
  }

  /** An outage is enough, without a race: the id is held, the lookup of the second request fails, and its
      write takes the id over. */
  lemma OutageMovesOwner(id: string, owner: Owner, owner': Owner)
    requires ValidId(id) && owner != owner'
    ensures
      var events := [Reach(id, owner, None), Runs(0), Runs(0), Reach(id, owner', None), Raises(1), Runs(1)];
      Moves(events, 5, id) && After(events, 6).keys == map[id := owner']
  {
    var events := [Reach(id, owner, None), Runs(0), Runs(0), Reach(id, owner', None), Raises(1), Runs(1)];
    assert After(events, 1) == Registry(map[], [Looking(id, owner, None)]);
    assert After(events, 2) == Registry(map[], [Storing(id, owner)]);
    assert After(events, 3) == Registry(map[id := owner], [Ended(id, owner)]);
    assert After(events, 4) == Registry(map[id := owner], [Ended(id, owner), Looking(id, owner', None)]);
    assert After(events, 5) == Registry(map[id := owner], [Ended(id, owner), Storing(id, owner')]);
    assert After(events, 6) == Registry(map[id := owner'], [Ended(id, owner), Ended(id, owner')]);
  }
}
