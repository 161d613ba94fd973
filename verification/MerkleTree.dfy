/**
 The Merkle tree over audit entries (`MerkleTree` in api/app/audit/tamper.py).

 Levels are sequences of digests. An odd level pairs its last digest with itself,
 so the root does not determine the number of leaves. What it does determine is
 proved here exactly: the leaves at the positions of the padded full tree.
 */
module MerkleTrees {
  import opened Wrappers
  import opened Digests

  // ----- levels, roots, paths ---------------------------------------------

  function HashPair(h: Hash, left: string, right: string): string {
    h(left + right)
  }

  /** The partner of node 2*i: its right neighbour, or itself at the odd end. */
  function Partner(level: seq<string>, i: nat): string
    requires 2 * i < |level|
  {
    if 2 * i + 1 < |level| then level[2 * i + 1] else level[2 * i]
  }

  function PairText(level: seq<string>, i: nat): string
    requires 2 * i < |level|
  {
    level[2 * i] + Partner(level, i)
  }

  function Half(n: nat): nat {
    (n + 1) / 2
  }

  function NextLevel(h: Hash, level: seq<string>): (next: seq<string>)
    ensures |next| == Half(|level|)
    ensures forall i :: 0 <= i < |next| ==> next[i] == h(PairText(level, i))
  {
    seq(Half(|level|), i requires 0 <= i < Half(|level|) => h(PairText(level, i)))
  }

  function Fold(h: Hash, level: seq<string>): string
    requires |level| > 0
    decreases |level|
  {
    if |level| == 1 then level[0] else Fold(h, NextLevel(h, level))
  }

  function Leaves(h: Hash, payloads: seq<string>): seq<string> {
    seq(|payloads|, i requires 0 <= i < |payloads| => h(payloads[i]))
  }

  function RootHash(h: Hash, payloads: seq<string>): string {
    if payloads == [] then h("empty") else Fold(h, Leaves(h, payloads))
  }

  /** One element of a proof: the sibling and whether it stands on the left. */
  datatype Step = Step(sibling: string, onLeft: bool)

  function StepText(current: string, step: Step): string {
    if step.onLeft then step.sibling + current else current + step.sibling
  }

  function Replay(h: Hash, current: string, proof: seq<Step>): string
    decreases |proof|
  {
    if proof == [] then current else Replay(h, h(StepText(current, proof[0])), proof[1..])
  }

  function SiblingStep(level: seq<string>, index: nat): Step
    requires index < |level|
  {
    if index % 2 == 0 then Step(Partner(level, index / 2), false) else Step(level[index - 1], true)
  }

  function Path(h: Hash, level: seq<string>, index: nat): seq<Step>
    requires index < |level|
    decreases |level|
  {
    if |level| == 1 then []
    else [SiblingStep(level, index)] + Path(h, NextLevel(h, level), index / 2)
  }

  function Depth(n: nat): nat {
    if n <= 1 then 0 else 1 + Depth(Half(n))
  }

  // ----- the texts that a computation hashes --------------------------------

  function PairTexts(level: seq<string>): set<string> {
    set i | 0 <= i < Half(|level|) :: PairText(level, i)
  }

  function InnerTexts(h: Hash, level: seq<string>): set<string>
    decreases |level|
  {
    if |level| <= 1 then {} else PairTexts(level) + InnerTexts(h, NextLevel(h, level))
  }

  function TreeTexts(h: Hash, payloads: seq<string>): set<string> {
    if payloads == [] then {"empty"}
    else (set p | p in payloads) + InnerTexts(h, Leaves(h, payloads))
  }

  function ReplayTexts(h: Hash, current: string, proof: seq<Step>): set<string>
    decreases |proof|
  {
    if proof == [] then {}
    else var text := StepText(current, proof[0]);
         {text} + ReplayTexts(h, h(text), proof[1..])
  }

  ghost predicate AllDigests(level: seq<string>) {
    forall i :: 0 <= i < |level| ==> IsDigest(level[i])
  }

  /** Audit payloads are JSON objects, so their text stands between braces. */
  ghost predicate JsonObjects(payloads: seq<string>) {
    forall i :: 0 <= i < |payloads| ==> JsonObject(payloads[i])
  }

  predicate JsonObject(text: string) {
    |text| >= 2 && text[0] == '{' && text[|text| - 1] == '}'
  }

  /** A text with a digest at one of its ends, as every step of a proof hashes. */
  predicate HexAtAnEnd(text: string) {
    text != [] && (IsHexDigit(text[0]) || IsHexDigit(text[|text| - 1]))
  }

  // ----- the padded full tree ------------------------------------------------

  /** The leaf that a root-to-leaf walk reaches in a tree of n leaves; `turns` lists
      the turns from the leaf upwards, true for a right child. */
  function LeafAt(n: nat, turns: seq<bool>): (index: nat)
    requires n > 0
    ensures index < n
  {
    if turns == [] || n == 1 then 0
    else
      var child := 2 * LeafAt(Half(n), turns[1..]) + (if turns[0] then 1 else 0);
      if child < n then child else n - 1
  }

  /** The turns of leaf `index`, as `get_proof` records them. */
  function Turns(n: nat, index: nat): seq<bool>
    requires index < n
    decreases n
  {
    if n == 1 then [] else [index % 2 == 1] + Turns(Half(n), index / 2)
  }

  function ProofTurns(proof: seq<Step>): seq<bool> {
    seq(|proof|, i requires 0 <= i < |proof| => proof[i].onLeft)
  }

  /** Both lists put the same digest at every position of the padded full tree. */
  ghost predicate SamePadded<T>(xs: seq<T>, ys: seq<T>)
    requires |xs| > 0 && |ys| > 0
  {
    && Depth(|xs|) == Depth(|ys|)
    && forall turns: seq<bool> :: |turns| == Depth(|xs|) ==> xs[LeafAt(|xs|, turns)] == ys[LeafAt(|ys|, turns)]
  }

  lemma {:induction false} TurnsReachIndex(n: nat, index: nat)
    requires index < n
    ensures |Turns(n, index)| == Depth(n)
    ensures LeafAt(n, Turns(n, index)) == index
    decreases n
  {
    if n > 1 {
      TurnsReachIndex(Half(n), index / 2);
      assert Turns(n, index)[1..] == Turns(Half(n), index / 2);
    }
  }

  lemma SamePaddedSameLength<T>(xs: seq<T>, ys: seq<T>)
    requires |xs| == |ys| > 0
    ensures SamePadded(xs, ys) <==> xs == ys
  {
    if SamePadded(xs, ys) {
      forall i | 0 <= i < |xs|
        ensures xs[i] == ys[i]
      {
        TurnsReachIndex(|xs|, i);
      }
    }
  }

  lemma SplitPair(l: string, r: string, l': string, r': string)
    requires l + r == l' + r'
    requires |l| == |l'| || |r| == |r'|
    ensures l == l' && r == r'
  {
    assert |l| == |l'|;
    assert l == (l + r)[..|l|] == (l' + r')[..|l'|];
    assert r == (l + r)[|l|..] == (l' + r')[|l'|..];
  }

  lemma PairTextIn(h: Hash, level: seq<string>, i: nat)
    requires |level| > 1 && i < Half(|level|)
    ensures PairText(level, i) in InnerTexts(h, level)
  {
    assert PairText(level, i) in PairTexts(level);
  }

  // ----- binding -----------------------------------------------------------------

  /** Padded lists of leaves with the same contents fold to the same root. */
  lemma {:induction false} PaddedDeterminesRoot(h: Hash, xs: seq<string>, ys: seq<string>)
    requires |xs| > 0 && |ys| > 0
    requires SamePadded(xs, ys)
    ensures Fold(h, xs) == Fold(h, ys)
    decreases |xs|
  {
    if Depth(|xs|) == 0 {
      assert |xs| == 1 && |ys| == 1;
      var noTurns: seq<bool> := [];
      assert xs[LeafAt(|xs|, noTurns)] == ys[LeafAt(|ys|, noTurns)];
    } else {
      var xs', ys' := NextLevel(h, xs), NextLevel(h, ys);
      forall turns: seq<bool> | |turns| == Depth(|xs'|)
        ensures xs'[LeafAt(|xs'|, turns)] == ys'[LeafAt(|ys'|, turns)]
      {
        PairOfPadded(xs, ys, turns);
      }
      PaddedDeterminesRoot(h, xs', ys');
    }
  }

  lemma {:induction false} PairOfPadded(xs: seq<string>, ys: seq<string>, turns: seq<bool>)
    requires |xs| > 1 && |ys| > 1
    requires SamePadded(xs, ys)
    requires |turns| + 1 == Depth(|xs|)
    ensures PairText(xs, LeafAt(Half(|xs|), turns)) == PairText(ys, LeafAt(Half(|ys|), turns))
  {
    var left, right := [false] + turns, [true] + turns;
    assert left[1..] == turns && right[1..] == turns;
    assert xs[LeafAt(|xs|, left)] == ys[LeafAt(|ys|, left)];
    assert xs[LeafAt(|xs|, right)] == ys[LeafAt(|ys|, right)];
  }

  /** Trees of the same depth with the same root agree on the padded leaves. */
  lemma {:induction false} RootDeterminesPadded(h: Hash, xs: seq<string>, ys: seq<string>)
    requires HexDigests(h) && AllDigests(xs) && AllDigests(ys)
    requires |xs| > 0 && |ys| > 0 && Depth(|xs|) == Depth(|ys|)
    requires Fold(h, xs) == Fold(h, ys)
    ensures SamePadded(xs, ys) || Collision(h, InnerTexts(h, xs), InnerTexts(h, ys))
    decreases |xs|
  {
    if Depth(|xs|) > 0 {
      var xs', ys' := NextLevel(h, xs), NextLevel(h, ys);
      RootDeterminesPadded(h, xs', ys');
      if SamePadded(xs', ys') {
        ParentsDeterminePadded(h, xs, ys);
      } else {
        CollisionMonotone(h, InnerTexts(h, xs'), InnerTexts(h, ys'), InnerTexts(h, xs), InnerTexts(h, ys));
      }
    }
  }

  lemma {:induction false} ParentsDeterminePadded(h: Hash, xs: seq<string>, ys: seq<string>)
    requires AllDigests(xs) && AllDigests(ys) && |xs| > 1 && |ys| > 1 && Depth(|xs|) == Depth(|ys|)
    requires SamePadded(NextLevel(h, xs), NextLevel(h, ys))
    ensures SamePadded(xs, ys) || Collision(h, InnerTexts(h, xs), InnerTexts(h, ys))
  {
    if !SamePadded(xs, ys) {
      var turns: seq<bool> :| |turns| == Depth(|xs|) && xs[LeafAt(|xs|, turns)] != ys[LeafAt(|ys|, turns)];
      var xs', ys' := NextLevel(h, xs), NextLevel(h, ys);
      assert xs'[LeafAt(|xs'|, turns[1..])] == ys'[LeafAt(|ys'|, turns[1..])];
      PaddedOfParents(h, xs, ys, turns);
    }
  }

  lemma LeafOfPair<T>(level: seq<T>, turns: seq<bool>)
    requires |level| > 1 && turns != []
    ensures
      var i := LeafAt(Half(|level|), turns[1..]);
      LeafAt(|level|, turns) == if turns[0] && 2 * i + 1 < |level| then 2 * i + 1 else 2 * i
  {
  }

  lemma {:induction false} LeafInPair(level: seq<string>, turns: seq<bool>)
    requires |level| > 1 && turns != []
    ensures
      var i := LeafAt(Half(|level|), turns[1..]);
      level[LeafAt(|level|, turns)] == if turns[0] then Partner(level, i) else level[2 * i]
  {
    LeafOfPair(level, turns);
  }

  lemma {:induction false} PaddedOfParents(h: Hash, xs: seq<string>, ys: seq<string>, turns: seq<bool>)
    requires AllDigests(xs) && AllDigests(ys)
    requires |xs| > 1 && |ys| > 1 && turns != []
    requires h(PairText(xs, LeafAt(Half(|xs|), turns[1..]))) == h(PairText(ys, LeafAt(Half(|ys|), turns[1..])))
    ensures xs[LeafAt(|xs|, turns)] == ys[LeafAt(|ys|, turns)] || Collision(h, InnerTexts(h, xs), InnerTexts(h, ys))
  {
    LeafInPair(xs, turns);
    LeafInPair(ys, turns);
    SamePairTexts(h, xs, ys, LeafAt(Half(|xs|), turns[1..]), LeafAt(Half(|ys|), turns[1..]));
  }

  lemma {:induction false} SamePairTexts(h: Hash, xs: seq<string>, ys: seq<string>, i: nat, j: nat)
    requires AllDigests(xs) && AllDigests(ys)
    requires |xs| > 1 && |ys| > 1 && 2 * i < |xs| && 2 * j < |ys|
    requires h(PairText(xs, i)) == h(PairText(ys, j))
    ensures
      || (xs[2 * i] == ys[2 * j] && Partner(xs, i) == Partner(ys, j))
      || Collision(h, InnerTexts(h, xs), InnerTexts(h, ys))
  {
    PairTextIn(h, xs, i);
    PairTextIn(h, ys, j);
    if PairText(xs, i) == PairText(ys, j) {
      SplitPair(xs[2 * i], Partner(xs, i), ys[2 * j], Partner(ys, j));
    } else {
      assert Collides(h, PairText(xs, i), PairText(ys, j));
    }
  }

  /** A deeper tree with the same root has an inner node where the other has a leaf. */
  lemma {:induction false} DeeperTreeHidesNode(h: Hash, deep: seq<string>, flat: seq<string>)
    requires HexDigests(h) && AllDigests(deep) && AllDigests(flat)
    requires |deep| > 0 && |flat| > 0 && Depth(|deep|) > Depth(|flat|)
    requires Fold(h, deep) == Fold(h, flat)
    ensures
      || Collision(h, InnerTexts(h, deep), InnerTexts(h, flat))
      || exists text :: text in InnerTexts(h, deep) && flat[0] == h(text)
    decreases |deep|
  {
    var deep' := NextLevel(h, deep);
    if Depth(|deep'|) == Depth(|flat|) {
      RootDeterminesPadded(h, deep', flat);
      if SamePadded(deep', flat) {
        TurnsReachIndex(|deep'|, 0);
        AllLeft(|deep'|);
        AllLeft(|flat|);
        assert deep'[0] == flat[0];
        PairTextIn(h, deep, 0);
      } else {
        CollisionMonotone(h, InnerTexts(h, deep'), InnerTexts(h, flat), InnerTexts(h, deep), InnerTexts(h, flat));
      }
    } else {
      DeeperTreeHidesNode(h, deep', flat);
      if Collision(h, InnerTexts(h, deep'), InnerTexts(h, flat)) {
        CollisionMonotone(h, InnerTexts(h, deep'), InnerTexts(h, flat), InnerTexts(h, deep), InnerTexts(h, flat));
      }
    }
  }

  function Lefts(k: nat): seq<bool> {
    seq(k, _ => false)
  }

  lemma {:induction false} AllLeft(n: nat)
    requires n > 0
    ensures LeafAt(n, Lefts(Depth(n))) == 0
  {
    if n > 1 {
      AllLeft(Half(n));
      assert Lefts(Depth(n))[1..] == Lefts(Depth(Half(n)));
    }
  }

  /** Both lists hold the same payloads as far as a Merkle root can tell. */
  ghost predicate SameHistory(ps: seq<string>, qs: seq<string>) {
    if ps == [] || qs == [] then ps == qs else SamePadded(ps, qs)
  }

  /** The root of a list of audit payloads determines the list up to the duplication
      of odd ends, and nothing less: equal roots are equivalent to equal histories,
      unless two of the hashed texts collide. */
  lemma {:induction false} RootBindsPayloads(h: Hash, ps: seq<string>, qs: seq<string>)
    requires HexDigests(h) && JsonObjects(ps) && JsonObjects(qs)
    ensures
      || (RootHash(h, ps) == RootHash(h, qs) <==> SameHistory(ps, qs))
      || Collision(h, TreeTexts(h, ps), TreeTexts(h, qs))
  {
    if RootHash(h, ps) == RootHash(h, qs) {
      if ps == [] || qs == [] {
        EmptyRootIsReserved(h, ps, qs);
      } else if Depth(|ps|) > Depth(|qs|) {
        DepthsAgree(h, ps, qs);
      } else if Depth(|ps|) < Depth(|qs|) {
        DepthsAgree(h, qs, ps);
        CollisionSymmetric(h, TreeTexts(h, qs), TreeTexts(h, ps));
      } else {
        SameDepthSamePayloads(h, ps, qs);
      }
    } else if SameHistory(ps, qs) && ps != [] {
      forall turns: seq<bool> | |turns| == Depth(|ps|)
        ensures Leaves(h, ps)[LeafAt(|ps|, turns)] == Leaves(h, qs)[LeafAt(|qs|, turns)]
      {
        assert ps[LeafAt(|ps|, turns)] == qs[LeafAt(|qs|, turns)];
      }
      PaddedDeterminesRoot(h, Leaves(h, ps), Leaves(h, qs));
      assert false;
    }
  }

  /** Lists of one length with one root are the same list, or there is a collision. */
  lemma SameLengthBinding(h: Hash, ps: seq<string>, qs: seq<string>)
    requires HexDigests(h) && JsonObjects(ps) && JsonObjects(qs) && |ps| == |qs|
    requires RootHash(h, ps) == RootHash(h, qs)
    ensures ps == qs || Collision(h, TreeTexts(h, ps), TreeTexts(h, qs))
  {
    RootBindsPayloads(h, ps, qs);
    if ps != [] {
      SamePaddedSameLength(ps, qs);
    }
  }

  /** Why the lengths matter: an odd list of at least three payloads has the root of
      the list that repeats its last payload. */
  lemma RepeatedLastPayload(h: Hash, ps: seq<string>)
    requires |ps| >= 3 && |ps| % 2 == 1
    ensures RootHash(h, ps + [ps[|ps| - 1]]) == RootHash(h, ps)
  {
    var longer := ps + [ps[|ps| - 1]];
    var xs, ys := Leaves(h, ps), Leaves(h, longer);
    assert NextLevel(h, xs) == NextLevel(h, ys) by {
      forall i | 0 <= i < Half(|xs|)
        ensures PairText(xs, i) == PairText(ys, i)
      {
      }
    }
  }

  /** The text of an inner node never opens a JSON object. */
  lemma {:induction false} InnerTextsAreHex(h: Hash, level: seq<string>, text: string)
    requires HexDigests(h)
    requires AllDigests(level)
    requires text in InnerTexts(h, level)
    ensures |text| == 2 * DIGEST_LENGTH && IsHexDigit(text[0])
    decreases |level|
  {
    if text in PairTexts(level) {
      var i :| 0 <= i < Half(|level|) && text == PairText(level, i);
    } else {
      InnerTextsAreHex(h, NextLevel(h, level), text);
    }
  }

  lemma PayloadIn(h: Hash, ps: seq<string>, i: nat)
    requires i < |ps|
    ensures ps[i] in TreeTexts(h, ps)
  {
  }

  lemma EmptyRootIsReserved(h: Hash, ps: seq<string>, qs: seq<string>)
    requires HexDigests(h) && JsonObjects(ps) && JsonObjects(qs)
    requires ps == [] || qs == []
    requires RootHash(h, ps) == RootHash(h, qs)
    ensures ps == qs || Collision(h, TreeTexts(h, ps), TreeTexts(h, qs))
  {
    if ps == [] && qs != [] {
      var text := RootText(h, qs);
      CollisionOf(h, TreeTexts(h, ps), TreeTexts(h, qs), "empty", text);
    } else if ps != [] && qs == [] {
      var text := RootText(h, ps);
      CollisionOf(h, TreeTexts(h, ps), TreeTexts(h, qs), text, "empty");
    }
  }

  /** The text whose digest is the root of a non-empty tree. */
  lemma {:induction false} RootText(h: Hash, ps: seq<string>) returns (text: string)
    requires HexDigests(h) && JsonObjects(ps) && ps != []
    ensures text in TreeTexts(h, ps) && RootHash(h, ps) == h(text) && text != "empty"
  {
    if |ps| == 1 {
      text := ps[0];
    } else {
      text := FoldText(h, Leaves(h, ps));
      InnerTextsAreHex(h, Leaves(h, ps), text);
    }
  }

  lemma {:induction false} FoldText(h: Hash, level: seq<string>) returns (text: string)
    requires |level| > 1
    ensures text in InnerTexts(h, level) && Fold(h, level) == h(text)
    decreases |level|
  {
    var next := NextLevel(h, level);
    if |next| == 1 {
      text := PairText(level, 0);
      PairTextIn(h, level, 0);
    } else {
      text := FoldText(h, next);
    }
  }

  lemma {:induction false} DepthsAgree(h: Hash, ps: seq<string>, qs: seq<string>)
    requires HexDigests(h) && JsonObjects(ps) && JsonObjects(qs)
    requires ps != [] && qs != [] && Depth(|ps|) > Depth(|qs|)
    requires RootHash(h, ps) == RootHash(h, qs)
    ensures Collision(h, TreeTexts(h, ps), TreeTexts(h, qs))
  {
    var xs, ys := Leaves(h, ps), Leaves(h, qs);
    DeeperTreeHidesNode(h, xs, ys);
    if Collision(h, InnerTexts(h, xs), InnerTexts(h, ys)) {
      CollisionMonotone(h, InnerTexts(h, xs), InnerTexts(h, ys), TreeTexts(h, ps), TreeTexts(h, qs));
    } else {
      var text :| text in InnerTexts(h, xs) && ys[0] == h(text);
      InnerTextsAreHex(h, xs, text);
      PayloadIn(h, qs, 0);
      CollisionOf(h, TreeTexts(h, ps), TreeTexts(h, qs), text, qs[0]);
    }
  }

  lemma {:induction false} SameDepthSamePayloads(h: Hash, ps: seq<string>, qs: seq<string>)
    requires HexDigests(h) && ps != [] && qs != [] && Depth(|ps|) == Depth(|qs|)
    requires RootHash(h, ps) == RootHash(h, qs)
    ensures SamePadded(ps, qs) || Collision(h, TreeTexts(h, ps), TreeTexts(h, qs))
  {
    var xs, ys := Leaves(h, ps), Leaves(h, qs);
    RootDeterminesPadded(h, xs, ys);
    if !SamePadded(xs, ys) {
      CollisionMonotone(h, InnerTexts(h, xs), InnerTexts(h, ys), TreeTexts(h, ps), TreeTexts(h, qs));
    } else if !SamePadded(ps, qs) {
      var turns: seq<bool> :| |turns| == Depth(|ps|) && ps[LeafAt(|ps|, turns)] != qs[LeafAt(|qs|, turns)];
      var i, j := LeafAt(|ps|, turns), LeafAt(|qs|, turns);
      assert xs[LeafAt(|xs|, turns)] == ys[LeafAt(|ys|, turns)];
      PayloadIn(h, ps, i);
      PayloadIn(h, qs, j);
      CollisionOf(h, TreeTexts(h, ps), TreeTexts(h, qs), ps[i], qs[j]);
    }
  }

  // ----- inclusion proofs -------------------------------------------------------

  lemma SiblingCompletesPair(level: seq<string>, index: nat)
    requires index < |level|
    ensures StepText(level[index], SiblingStep(level, index)) == PairText(level, index / 2)
  {
    if index % 2 == 0 {
      assert index == 2 * (index / 2);
    } else {
      assert index == 2 * (index / 2) + 1;
    }
  }

  /** Completeness: the extracted path of every entry replays to the root. */
  lemma {:induction false} PathReplaysToRoot(h: Hash, level: seq<string>, index: nat)
    requires index < |level|
    ensures Replay(h, level[index], Path(h, level, index)) == Fold(h, level)
    decreases |level|
  {
    if |level| > 1 {
      var next, path := NextLevel(h, level), Path(h, level, index);
      SiblingCompletesPair(level, index);
      PathReplaysToRoot(h, next, index / 2);
      assert path[0] == SiblingStep(level, index) && path[1..] == Path(h, next, index / 2);
    }
  }

  lemma ProofTurnsStep(step: Step, rest: seq<Step>)
    ensures ProofTurns([step] + rest) == [step.onLeft] + ProofTurns(rest)
  {
  }

  /** The left/right marks of an extracted path lead back to the entry's index. */
  lemma {:induction false} PathTurns(h: Hash, level: seq<string>, index: nat)
    requires index < |level|
    ensures ProofTurns(Path(h, level, index)) == Turns(|level|, index)
    decreases |level|
  {
    if |level| > 1 {
      var next := NextLevel(h, level);
      PathTurns(h, next, index / 2);
      ProofTurnsStep(SiblingStep(level, index), Path(h, next, index / 2));
    }
  }

  /** Soundness: a digest accepted by a proof of full length is the leaf that the
      proof's own turns lead to, whatever siblings the proof carries. */
  lemma {:induction false} FullProofNamesLeaf(h: Hash, level: seq<string>, digest: string, proof: seq<Step>)
    requires HexDigests(h) && AllDigests(level) && IsDigest(digest)
    requires |level| > 0 && |proof| == Depth(|level|)
    requires Replay(h, digest, proof) == Fold(h, level)
    ensures
      || digest == level[LeafAt(|level|, ProofTurns(proof))]
      || Collision(h, ReplayTexts(h, digest, proof), InnerTexts(h, level))
    decreases |level|
  {
    if proof != [] {
      var next, text := NextLevel(h, level), StepText(digest, proof[0]);
      FullProofNamesLeaf(h, next, h(text), proof[1..]);
      if Collision(h, ReplayTexts(h, h(text), proof[1..]), InnerTexts(h, next)) {
        CollisionMonotone(h, ReplayTexts(h, h(text), proof[1..]), InnerTexts(h, next),
                          ReplayTexts(h, digest, proof), InnerTexts(h, level));
      } else {
        assert ProofTurns(proof)[1..] == ProofTurns(proof[1..]);
        var i := LeafAt(|next|, ProofTurns(proof[1..]));
        PairTextIn(h, level, i);
        LeafOfPair(level, ProofTurns(proof));
        StepNamesChild(h, level, digest, proof, i);
      }
    }
  }

  lemma {:induction false} StepNamesChild(h: Hash, level: seq<string>, digest: string, proof: seq<Step>, i: nat)
    requires AllDigests(level) && IsDigest(digest) && |level| > 1 && proof != [] && 2 * i < |level|
    requires h(StepText(digest, proof[0])) == h(PairText(level, i))
    ensures
      || digest == (if proof[0].onLeft then Partner(level, i) else level[2 * i])
      || Collision(h, ReplayTexts(h, digest, proof), InnerTexts(h, level))
  {
    var text := StepText(digest, proof[0]);
    PairTextIn(h, level, i);
    if text != PairText(level, i) {
      CollisionOf(h, ReplayTexts(h, digest, proof), InnerTexts(h, level), text, PairText(level, i));
    } else if proof[0].onLeft {
      SplitPair(proof[0].sibling, digest, level[2 * i], Partner(level, i));
    } else {
      SplitPair(digest, proof[0].sibling, level[2 * i], Partner(level, i));
    }
  }

  /** A digest accepted with the left/right marks of an index is the leaf at that index. */
  lemma MarkedProofNamesLeaf(h: Hash, level: seq<string>, index: nat, digest: string, proof: seq<Step>)
    requires HexDigests(h) && AllDigests(level) && IsDigest(digest)
    requires index < |level| && ProofTurns(proof) == Turns(|level|, index)
    requires Replay(h, digest, proof) == Fold(h, level)
    ensures digest == level[index] || Collision(h, ReplayTexts(h, digest, proof), InnerTexts(h, level))
  {
    TurnsReachIndex(|level|, index);
    FullProofNamesLeaf(h, level, digest, proof);
  }

  /** A proof that is too short can only name an inner node. */
  lemma {:induction false} ShortProofNamesInnerNode(h: Hash, level: seq<string>, digest: string, proof: seq<Step>)
    requires HexDigests(h) && AllDigests(level) && IsDigest(digest)
    requires |level| > 0 && |proof| < Depth(|level|)
    requires Replay(h, digest, proof) == Fold(h, level)
    ensures
      || (exists text :: text in InnerTexts(h, level) && digest == h(text))
      || Collision(h, ReplayTexts(h, digest, proof), InnerTexts(h, level))
    decreases |level|
  {
    var next := NextLevel(h, level);
    if |proof| == Depth(|next|) {
      FullProofNamesLeaf(h, next, digest, proof);
      PairTextIn(h, level, LeafAt(|next|, ProofTurns(proof)));
    } else {
      ShortProofNamesInnerNode(h, next, digest, proof);
    }
    if Collision(h, ReplayTexts(h, digest, proof), InnerTexts(h, next)) {
      CollisionMonotone(h, ReplayTexts(h, digest, proof), InnerTexts(h, next),
                        ReplayTexts(h, digest, proof), InnerTexts(h, level));
    }
  }

  /** A proof that is too long passes through a leaf on its way up. */
  lemma {:induction false} LongProofPassesLeaf(h: Hash, level: seq<string>, digest: string, proof: seq<Step>)
    requires HexDigests(h) && AllDigests(level) && IsDigest(digest)
    requires |level| > 0 && |proof| > Depth(|level|)
    requires Replay(h, digest, proof) == Fold(h, level)
    ensures
      || (exists text, i :: text in ReplayTexts(h, digest, proof) && HexAtAnEnd(text)
                            && 0 <= i < |level| && level[i] == h(text))
      || Collision(h, ReplayTexts(h, digest, proof), InnerTexts(h, level))
    decreases |proof|
  {
    var text := StepText(digest, proof[0]);
    if |proof| - 1 == Depth(|level|) {
      FullProofNamesLeaf(h, level, h(text), proof[1..]);
    } else {
      LongProofPassesLeaf(h, level, h(text), proof[1..]);
    }
    if Collision(h, ReplayTexts(h, h(text), proof[1..]), InnerTexts(h, level)) {
      CollisionMonotone(h, ReplayTexts(h, h(text), proof[1..]), InnerTexts(h, level),
                        ReplayTexts(h, digest, proof), InnerTexts(h, level));
    }
  }

  /** Every accepted proof of a payload, of whatever length and with whatever siblings
      and marks, is a proof of membership: the payload is in the list, at the index its
      marks lead to, unless two of the hashed texts collide. */
  lemma {:induction false} AcceptedPayloadIsMember(h: Hash, ps: seq<string>, payload: string, proof: seq<Step>)
    requires HexDigests(h) && JsonObjects(ps) && JsonObject(payload)
    requires Replay(h, h(payload), proof) == RootHash(h, ps)
    ensures
      || (ps != [] && |proof| == Depth(|ps|) && ps[LeafAt(|ps|, ProofTurns(proof))] == payload)
      || Collision(h, {payload} + ReplayTexts(h, h(payload), proof), TreeTexts(h, ps))
  {
    var mine, theirs := {payload} + ReplayTexts(h, h(payload), proof), TreeTexts(h, ps);
    var level := Leaves(h, ps);
    if ps == [] {
      var text := ReplayedText(h, payload, proof);
      CollisionOf(h, mine, theirs, text, "empty");
    } else if Collision(h, ReplayTexts(h, h(payload), proof), InnerTexts(h, level)) {
      CollisionMonotone(h, ReplayTexts(h, h(payload), proof), InnerTexts(h, level), mine, theirs);
    } else if |proof| < Depth(|ps|) {
      ShortProofNamesInnerNode(h, level, h(payload), proof);
      var text :| text in InnerTexts(h, level) && h(payload) == h(text);
      InnerTextsAreHex(h, level, text);
      CollisionOf(h, mine, theirs, payload, text);
    } else if |proof| > Depth(|ps|) {
      LongProofPassesLeaf(h, level, h(payload), proof);
      var text, i :| text in ReplayTexts(h, h(payload), proof) && HexAtAnEnd(text)
        && 0 <= i < |level| && level[i] == h(text);
      PayloadIn(h, ps, i);
      CollisionOf(h, mine, theirs, text, ps[i]);
    } else {
      FullProofNamesLeaf(h, level, h(payload), proof);
      var i := LeafAt(|ps|, ProofTurns(proof));
      PayloadIn(h, ps, i);
      if ps[i] != payload {
        CollisionOf(h, mine, theirs, payload, ps[i]);
      }
    }
  }

  /** The last text that a replay hashes. */
  lemma {:induction false} ReplayedText(h: Hash, payload: string, proof: seq<Step>) returns (text: string)
    requires HexDigests(h) && |payload| >= 2 && payload != "empty"
    ensures text in {payload} + ReplayTexts(h, h(payload), proof)
    ensures Replay(h, h(payload), proof) == h(text) && text != "empty"
    decreases |proof|
  {
    if proof == [] {
      text := payload;
    } else {
      text := ReplayedText(h, StepText(h(payload), proof[0]), proof[1..]);
    }
  }

  // ----- the loops of the source -------------------------------------------------

  datatype MerkleNode =
    | Leaf(hash: string, data: Option<string>, index: int)
    | Parent(hash: string, left: MerkleNode, right: MerkleNode)

  /** Every inner node carries the digest of its children's digests. */
  ghost predicate WellHashed(h: Hash, node: MerkleNode) {
    match node
    case Leaf(_, _, _) => true
    case Parent(hash, left, right) =>
      hash == HashPair(h, left.hash, right.hash) && WellHashed(h, left) && WellHashed(h, right)
  }

  function Hashes(nodes: seq<MerkleNode>): (level: seq<string>)
    ensures |level| == |nodes|
  {
    seq(|nodes|, i requires 0 <= i < |nodes| => nodes[i].hash)
  }

  method BuildLeaves(h: Hash, payloads: seq<string>) returns (leaves: seq<MerkleNode>)
    ensures Hashes(leaves) == Leaves(h, payloads)
    ensures forall i :: 0 <= i < |leaves| ==> leaves[i] == Leaf(h(payloads[i]), Some(payloads[i]), i)
  {
    leaves := [];
    for i := 0 to |payloads|
      invariant |leaves| == i
      invariant forall j :: 0 <= j < i ==> leaves[j] == Leaf(h(payloads[j]), Some(payloads[j]), j)
    {
      leaves := leaves + [Leaf(h(payloads[i]), Some(payloads[i]), i)];
    }
  }

  method BuildTree(h: Hash, leaves: seq<MerkleNode>) returns (root: MerkleNode)
    requires forall i :: 0 <= i < |leaves| ==> WellHashed(h, leaves[i])
    ensures WellHashed(h, root)
    ensures leaves == [] ==> root.hash == h("empty")
    ensures leaves != [] ==> root.hash == Fold(h, Hashes(leaves))
  {
    if leaves == [] {
      return Leaf(h("empty"), None, -1);
    }
    var currentLevel := leaves;
    while |currentLevel| > 1
      invariant |currentLevel| > 0
      invariant forall i :: 0 <= i < |currentLevel| ==> WellHashed(h, currentLevel[i])
      invariant Fold(h, Hashes(currentLevel)) == Fold(h, Hashes(leaves))
      decreases |currentLevel|
    {
      ghost var level := Hashes(currentLevel);
      var nextLevel: seq<MerkleNode> := [];
      var i := 0;
      while i < |currentLevel|
        invariant 0 <= i <= |currentLevel| + 1 && i == 2 * |nextLevel| && |nextLevel| <= Half(|level|)
        invariant forall k :: 0 <= k < |nextLevel| ==>
          WellHashed(h, nextLevel[k]) && nextLevel[k].hash == h(PairText(level, k))
      {
        var left := currentLevel[i];
        var right := if i + 1 < |currentLevel| then currentLevel[i + 1] else left;
        nextLevel := nextLevel + [Parent(HashPair(h, left.hash, right.hash), left, right)];
        i := i + 2;
      }
      assert Hashes(nextLevel) == NextLevel(h, level);
      currentLevel := nextLevel;
    }
    root := currentLevel[0];
  }

  method GetRootHash(h: Hash, payloads: seq<string>) returns (root: string)
    ensures root == RootHash(h, payloads)
  {
    var leaves := BuildLeaves(h, payloads);
    var tree := BuildTree(h, leaves);
    root := tree.hash;
  }

  /** One level of `get_proof`: the next level, and the sibling step when the target
      stands on this level. */
  method ProofLevel(h: Hash, currentLevel: seq<string>, targetIndex: int)
    returns (nextLevel: seq<string>, step: seq<Step>)
    requires targetIndex < |currentLevel|
    ensures nextLevel == NextLevel(h, currentLevel)
    ensures step == if targetIndex < 0 then [] else [SiblingStep(currentLevel, targetIndex)]
  {
    nextLevel, step := [], [];
    var i := 0;
    while i < |currentLevel|
      invariant 0 <= i <= |currentLevel| + 1 && i == 2 * |nextLevel| && |nextLevel| <= Half(|currentLevel|)
      invariant forall k :: 0 <= k < |nextLevel| ==> nextLevel[k] == h(PairText(currentLevel, k))
      invariant step == if 0 <= targetIndex < i then [SiblingStep(currentLevel, targetIndex)] else []
    {
      var left := currentLevel[i];
      var right := if i + 1 < |currentLevel| then currentLevel[i + 1] else left;
      if targetIndex == i || targetIndex == i + 1 {
        var sibling := if targetIndex == i then right else left;
        assert targetIndex % 2 == (if targetIndex == i then 0 else 1) && targetIndex / 2 == |nextLevel|;
        step := step + [Step(sibling, targetIndex != i)];
      }
      nextLevel := nextLevel + [HashPair(h, left, right)];
      i := i + 2;
    }
  }

  lemma PathStep(h: Hash, level: seq<string>, index: nat, before: seq<Step>)
    requires |level| > 1 && index < |level|
    ensures before + Path(h, level, index)
         == before + [SiblingStep(level, index)] + Path(h, NextLevel(h, level), index / 2)
  {
  }

  /** An index past the end yields the empty proof, and so does a negative one: it
      meets no pair on any level. */
  method GetProof(h: Hash, payloads: seq<string>, index: int) returns (proof: seq<Step>)
    ensures proof == if 0 <= index < |payloads| then Path(h, Leaves(h, payloads), index) else []
  {
    if payloads == [] || index >= |payloads| {
      return [];
    }
    var leaves := BuildLeaves(h, payloads);
    proof := [];
    var targetIndex := index;
    var currentLevel := Hashes(leaves);
    while |currentLevel| > 1
      invariant targetIndex < |currentLevel| && (targetIndex < 0 <==> index < 0)
      invariant index < 0 ==> proof == []
      invariant index >= 0 ==> proof + Path(h, currentLevel, targetIndex) == Path(h, Leaves(h, payloads), index)
      decreases |currentLevel|
    {
      var nextLevel, step := ProofLevel(h, currentLevel, targetIndex);
      if index >= 0 {
        PathStep(h, currentLevel, targetIndex, proof);
      }
      proof := proof + step;
      currentLevel := nextLevel;
      targetIndex := targetIndex / 2;
    }
  }

  method VerifyProof(h: Hash, leafHash: string, proof: seq<Step>, rootHash: string) returns (ok: bool)
    ensures ok <==> Replay(h, leafHash, proof) == rootHash
  {
    var currentHash := leafHash;
    for k := 0 to |proof|
      invariant Replay(h, currentHash, proof[k..]) == Replay(h, leafHash, proof)
    {
      var step := proof[k];
      assert proof[k..][1..] == proof[k + 1..];
      if step.onLeft {
        currentHash := HashPair(h, step.sibling, currentHash);
      } else {
        currentHash := HashPair(h, currentHash, step.sibling);
      }
    }
    ok := currentHash == rootHash;
  }

  /** An extracted proof verifies against the root of its own list. */
  method ProveAndVerify(h: Hash, payloads: seq<string>, index: nat) returns (ok: bool)
    requires index < |payloads|
    ensures ok
  {
    var proof := GetProof(h, payloads, index);
    var root := GetRootHash(h, payloads);
    PathReplaysToRoot(h, Leaves(h, payloads), index);
    ok := VerifyProof(h, h(payloads[index]), proof, root);
  }
}
