/** Glob patterns as permissions and rate-limit policies use them. */
module Patterns {

  /** `fnmatch.fnmatchcase(name, pattern)`. */
  type Glob = (string, string) -> bool

  predicate IsWildcard(c: char) {
    c == '*' || c == '?' || c == '[' || c == ']'
  }

  /** `_pattern_specificity`: the number of literal characters. */
  function Specificity(pattern: string): nat {
    if pattern == "" then 0 else (if IsWildcard(pattern[0]) then 0 else 1) + Specificity(pattern[1..])
  }

  /** How many characters of a pattern are no wildcards, counted over the whole pattern. */
  ghost function Literals(pattern: string): int {
    var count := multiset(pattern);
    |pattern| - count['*'] - count['?'] - count['['] - count[']']
  }

  lemma {:induction false} SpecificityCountsLiterals(pattern: string)
    ensures Specificity(pattern) == Literals(pattern)
  {
    if pattern != "" {
      SpecificityCountsLiterals(pattern[1..]);
      assert pattern == [pattern[0]] + pattern[1..];
      assert multiset(pattern) == multiset{pattern[0]} + multiset(pattern[1..]);
    }
  }

  /** The matcher on patterns of literals, `*` and `?`. */
  predicate StarGlob(name: string, pattern: string)
    decreases |name| + |pattern|
  {
    if pattern == "" then name == ""
    else if pattern[0] == '*' then
      StarGlob(name, pattern[1..]) || (name != "" && StarGlob(name[1..], pattern))
    else name != "" && (pattern[0] == '?' || pattern[0] == name[0]) && StarGlob(name[1..], pattern[1..])
  }

  ghost predicate Literal(text: string) {
    forall i :: 0 <= i < |text| ==> !IsWildcard(text[i])
  }

  lemma {:induction false} StarMatchesAll(name: string)
    ensures StarGlob(name, "*")
  {
    if name == "" {
      assert StarGlob("", "*"[1..]);
    } else {
      StarMatchesAll(name[1..]);
    }
  }

  /** A literal prefix followed by a star matches exactly the names with that prefix. */
  lemma {:induction false} PrefixGlob(name: string, prefix: string)
    requires Literal(prefix)
    ensures StarGlob(name, prefix + "*") <==> prefix <= name
    ensures Specificity(prefix + "*") == |prefix|
  {
    var pattern := prefix + "*";
    if prefix == "" {
      assert pattern == "*" && pattern[1..] == "";
      StarMatchesAll(name);
    } else {
      assert pattern[1..] == prefix[1..] + "*" && pattern[0] == prefix[0];
      if name != "" {
        PrefixGlob(name[1..], prefix[1..]);
        assert prefix == [prefix[0]] + prefix[1..] && name == [name[0]] + name[1..];
      } else {
        PrefixGlob("", prefix[1..]);
      }
    }
  }

  // ----- the matcher's laws ------------------------------------------------------------------

  /** A star stands for any run of characters. */
  lemma {:induction false} StarSplits(name: string, rest: string)
    ensures StarGlob(name, "*" + rest) <==> exists k :: 0 <= k <= |name| && StarGlob(name[k..], rest)
  {
    var pattern := "*" + rest;
    assert pattern[1..] == rest && name[0..] == name;
    if name != "" {
      StarSplits(name[1..], rest);
      assert forall k :: 0 <= k < |name| ==> name[1..][k..] == name[k + 1..];
      if k :| 0 <= k <= |name| && StarGlob(name[k..], rest) {
        assert k > 0 ==> name[1..][k - 1..] == name[k..];
      }
      if k :| 0 <= k <= |name[1..]| && StarGlob(name[1..][k..], rest) {
        assert name[1..][k..] == name[k + 1..];
      }
    }
  }

  /** A question mark stands for one character, and any other character for itself. */
  lemma CharacterMatches(name: string, c: char, rest: string)
    requires c != '*'
    ensures StarGlob(name, [c] + rest) <==> name != "" && (c == '?' || c == name[0]) && StarGlob(name[1..], rest)
    ensures StarGlob(name, "") <==> name == ""
  {
    assert ([c] + rest)[1..] == rest;
  }
}
