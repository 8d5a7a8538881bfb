/** `Version`: a `major.minor.patch` triple of Java `int`s, ordered lexicographically. */
module Versions {

  /** A Java `int`. */
  newtype Int32 = x: int | -0x8000_0000 <= x < 0x8000_0000

  datatype Version = Version(major: Int32, minor: Int32, patch: Int32)

  const Unknown := Version(0, 0, 0)

  /** `Integer.compare`. */
  function IntCompare(a: Int32, b: Int32): (c: int)
    ensures c == -1 || c == 0 || c == 1
    ensures c < 0 <==> a < b
    ensures c == 0 <==> a == b
    ensures c > 0 <==> a > b
  {
    if a < b then -1 else if a == b then 0 else 1
  }

  /** `compareTo`: the majors decide, then the minors, then the patches. */
  function CompareTo(v: Version, o: Version): (c: int)
    ensures c == -1 || c == 0 || c == 1
  {
    if v.major > o.major then 1
    else if v.major < o.major then -1
    else if v.minor > o.minor then 1
    else if v.minor < o.minor then -1
    else IntCompare(v.patch, o.patch)
  }

  /** `equals`: all three components agree. */
  predicate Equals(v: Version, o: Version)
  {
    v.major == o.major && v.minor == o.minor && v.patch == o.patch
  }

  predicate IsNewerThan(v: Version, o: Version) { CompareTo(v, o) > 0 }

  predicate IsOlderThan(v: Version, o: Version) { CompareTo(v, o) < 0 }

  /** The independent reference order: the triples compared lexicographically. */
  predicate LexLess(v: Version, o: Version)
  {
    v.major < o.major ||
    (v.major == o.major && (v.minor < o.minor || (v.minor == o.minor && v.patch < o.patch)))
  }

  /** `compareTo` is the lexicographic order on the triples, and it is 0 exactly when `equals` holds. */
  lemma CompareIsLexicographic(v: Version, o: Version)
    ensures CompareTo(v, o) < 0 <==> LexLess(v, o)
    ensures CompareTo(v, o) > 0 <==> LexLess(o, v)
    ensures CompareTo(v, o) == 0 <==> Equals(v, o)
    ensures Equals(v, o) <==> v == o
  {
  }

  /** Swapping the operands flips the sign, as `Comparable` demands. */
  lemma CompareAntisymmetric(v: Version, o: Version)
    ensures CompareTo(v, o) == -CompareTo(o, v)
  {
  }

  lemma CompareTransitive(a: Version, b: Version, c: Version)
    requires CompareTo(a, b) < 0 && CompareTo(b, c) < 0
    ensures CompareTo(a, c) < 0
  {
    CompareIsLexicographic(a, b);
    CompareIsLexicographic(b, c);
    CompareIsLexicographic(a, c);
  }

  /** "Newer" and "older" are mirror images, and no version is both newer and older than another. */
  lemma NewerIsMirrorOfOlder(v: Version, o: Version)
    ensures IsNewerThan(v, o) <==> IsOlderThan(o, v)
    ensures !(IsNewerThan(v, o) && IsOlderThan(v, o))
    ensures !IsNewerThan(v, v) && !IsOlderThan(v, v)
  {
    CompareAntisymmetric(v, o);
  }

  /** `UNKNOWN` (0.0.0) is older than every version with a positive major number. */
  lemma UnknownIsOldest(v: Version)
    requires v.major > 0
    ensures IsOlderThan(Unknown, v) && IsNewerThan(v, Unknown)
  {
  }
}
