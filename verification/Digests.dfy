/**
 SHA-256 as the audit code sees it: a function from text to a hexadecimal digest
 of fixed length. Nothing else is known about it. In particular it is not
 injective, so a security statement either concludes the expected equality or
 exhibits two different texts, both hashed by the computations in question, that
 have the same digest.
 */
module Digests {

  type Hash = string -> string

  const DIGEST_LENGTH := 64

  predicate IsHexDigit(c: char) {
    '0' <= c <= '9' || 'a' <= c <= 'f'
  }

  predicate IsDigest(s: string) {
    |s| == DIGEST_LENGTH && IsHexDigit(s[0]) && IsHexDigit(s[DIGEST_LENGTH - 1])
  }

  /** The output shape of `hashlib.sha256(...).hexdigest()`. */
  ghost predicate HexDigests(h: Hash) {
    forall s :: IsDigest(h(s))
  }

  predicate Collides(h: Hash, a: string, b: string) {
    a != b && h(a) == h(b)
  }

  /** Two of the texts hashed on either side collide. The texts are confined to
      finite sets of inputs that were really hashed: without that confinement the
      statement would hold of every function with a bounded range. */
  ghost predicate Collision(h: Hash, left: set<string>, right: set<string>) {
    exists a, b :: a in left && b in right && Collides(h, a, b)
  }

  lemma CollisionMonotone(h: Hash, a: set<string>, b: set<string>, a': set<string>, b': set<string>)
    requires Collision(h, a, b) && a <= a' && b <= b'
    ensures Collision(h, a', b')
  {
    var x, y :| x in a && y in b && Collides(h, x, y);
    assert x in a' && y in b';
  }

  lemma CollisionSymmetric(h: Hash, a: set<string>, b: set<string>)
    requires Collision(h, a, b)
    ensures Collision(h, b, a)
  {
    var x, y :| x in a && y in b && Collides(h, x, y);
    assert Collides(h, y, x);
  }

  lemma CollisionOf(h: Hash, left: set<string>, right: set<string>, a: string, b: string)
    requires a in left && b in right && a != b && h(a) == h(b)
    ensures Collision(h, left, right)
  {
    assert Collides(h, a, b);
  }
}
