/**
 * The suggestion in an `InvalidEnumValueException`: the enum constant closest
 * to the value that was given, by Levenshtein distance over lower-cased text.
 */
module EnumSuggestions {
  import opened Results
  import opened Strings
  import opened Sequences

  /** `Integer.MAX_VALUE`, the starting value of `minDistance`. */
  const MaxInt: int := 0x7fff_ffff

  function Min(a: int, b: int): int { if a <= b then a else b }

  /**
   * The edit distance between the first `i` characters of `s` and the first
   * `j` characters of `t`: the recurrence the `dp` table is filled with.
   */
  function Distance(s: string, t: string, i: nat, j: nat): nat
    requires i <= |s| && j <= |t|
    decreases i + j
  {
    if i == 0 then j
    else if j == 0 then i
    else
      var cost := if s[i - 1] == t[j - 1] then 0 else 1;
      Min(Min(Distance(s, t, i - 1, j) + 1, Distance(s, t, i, j - 1) + 1), Distance(s, t, i - 1, j - 1) + cost)
  }

  function Levenshtein(s: string, t: string): nat
  {
    Distance(s, t, |s|, |t|)
  }

  /** The cells of `dp` that hold their distance: the first row and column, the rows above `i`, and row `i` left of `j`. */
  ghost predicate Filled(dp: array2<int>, s1: string, s2: string, i: nat, j: nat)
    requires dp.Length0 == |s1| + 1 && dp.Length1 == |s2| + 1
    reads dp
  {
    forall k, l :: 0 <= k <= |s1| && 0 <= l <= |s2| && (k == 0 || l == 0 || k < i || (k == i && l < j)) ==>
      dp[k, l] == Distance(s1, s2, k, l)
  }

  /** `levenshteinDistance`: the `dp` table filled row by row. */
  method LevenshteinDistance(s1: string, s2: string) returns (d: int)
    ensures d == Levenshtein(s1, s2)
  {
    var dp := new int[|s1| + 1, |s2| + 1];
    for i := 0 to |s1| + 1
      invariant forall k :: 0 <= k < i ==> dp[k, 0] == Distance(s1, s2, k, 0)
    {
      dp[i, 0] := i;
    }
    for j := 0 to |s2| + 1
      invariant forall k :: 0 <= k <= |s1| ==> dp[k, 0] == Distance(s1, s2, k, 0)
      invariant forall l :: 0 <= l < j ==> dp[0, l] == Distance(s1, s2, 0, l)
    {
      dp[0, j] := j;
    }
    for i := 1 to |s1| + 1
      invariant Filled(dp, s1, s2, i, 0)
    {
      for j := 1 to |s2| + 1
        invariant Filled(dp, s1, s2, i, j)
      {
        var cost := if s1[i - 1] == s2[j - 1] then 0 else 1;
        var v := Min(Min(dp[i - 1, j] + 1, dp[i, j - 1] + 1), dp[i - 1, j - 1] + cost);
        assert v == Distance(s1, s2, i, j);
        dp[i, j] := v;
      }
    }
    d := dp[|s1|, |s2|];
  }

  // ---------------------------------------------------------------------
  // Properties of the distance
  // ---------------------------------------------------------------------

  /** Against an empty string, the distance is the other string's length. */
  lemma DistanceToEmpty(s: string)
    ensures Levenshtein(s, "") == |s| && Levenshtein("", s) == |s|
  {
  }

  /** A prefix is at distance 0 from itself. */
  lemma {:induction false} DistanceToSelf(s: string, i: nat)
    requires i <= |s|
    ensures Distance(s, s, i, i) == 0
  {
    if i > 0 {
      DistanceToSelf(s, i - 1);
    }
  }

  /** Distance 0 means the prefixes are the same text. */
  lemma {:induction false} ZeroDistanceMeansEqual(s: string, t: string, i: nat, j: nat)
    requires i <= |s| && j <= |t|
    requires Distance(s, t, i, j) == 0
    ensures i == j && s[..i] == t[..j]
    decreases i + j
  {
    if i > 0 && j > 0 {
      ZeroDistanceMeansEqual(s, t, i - 1, j - 1);
      assert s[..i] == s[..i - 1] + [s[i - 1]];
      assert t[..j] == t[..j - 1] + [t[j - 1]];
    }
  }

  /** The distance is 0 exactly for equal strings. */
  lemma ZeroIffEqual(s: string, t: string)
    ensures Levenshtein(s, t) == 0 <==> s == t
  {
    if s == t {
      DistanceToSelf(s, |s|);
    }
    if Levenshtein(s, t) == 0 {
      ZeroDistanceMeansEqual(s, t, |s|, |t|);
      assert s == s[..|s|] && t == t[..|t|];
    }
  }

  /** The distance does not depend on which string comes first. */
  lemma {:induction false} DistanceSymmetric(s: string, t: string, i: nat, j: nat)
    requires i <= |s| && j <= |t|
    ensures Distance(s, t, i, j) == Distance(t, s, j, i)
    decreases i + j
  {
    if i == 0 || j == 0 {
      SymmetricEdge(s, t, i, j);
    } else {
      var i', j' := i - 1, j - 1;
      DistanceSymmetric(s, t, i', j);
      DistanceSymmetric(s, t, i, j');
      DistanceSymmetric(s, t, i', j');
      SymmetricStep(s, t, i, j);
    }
  }

  /** The first row and column are symmetric: each cell is the other prefix's length. */
  lemma SymmetricEdge(s: string, t: string, i: nat, j: nat)
    requires i <= |s| && j <= |t| && (i == 0 || j == 0)
    ensures Distance(s, t, i, j) == Distance(t, s, j, i)
  {
  }

  /** A cell is symmetric once its three neighbours are. */
  lemma SymmetricStep(s: string, t: string, i: nat, j: nat)
    requires 0 < i <= |s| && 0 < j <= |t|
    requires Distance(s, t, i - 1, j) == Distance(t, s, j, i - 1)
    requires Distance(s, t, i, j - 1) == Distance(t, s, j - 1, i)
    requires Distance(s, t, i - 1, j - 1) == Distance(t, s, j - 1, i - 1)
    ensures Distance(s, t, i, j) == Distance(t, s, j, i)
  {
  }

  /** The distance lies between the difference of the lengths and the longer length. */
  lemma {:induction false} DistanceBounds(s: string, t: string, i: nat, j: nat)
    requires i <= |s| && j <= |t|
    ensures Distance(s, t, i, j) <= if i <= j then j else i
    ensures Distance(s, t, i, j) >= if i <= j then j - i else i - j
    decreases i + j
  {
    if i != 0 && j != 0 {
      var i', j' := i - 1, j - 1;
      DistanceBounds(s, t, i', j);
      DistanceBounds(s, t, i, j');
      DistanceBounds(s, t, i', j');
      BoundsStep(s, t, i, j);
    }
  }

  /** A cell keeps the bounds once its three neighbours do. */
  lemma BoundsStep(s: string, t: string, i: nat, j: nat)
    requires 0 < i <= |s| && 0 < j <= |t|
    requires Distance(s, t, i - 1, j) <= (if i - 1 <= j then j else i - 1)
    requires Distance(s, t, i - 1, j) >= (if i - 1 <= j then j - (i - 1) else i - 1 - j)
    requires Distance(s, t, i, j - 1) <= (if i <= j - 1 then j - 1 else i)
    requires Distance(s, t, i, j - 1) >= (if i <= j - 1 then j - 1 - i else i - (j - 1))
    requires Distance(s, t, i - 1, j - 1) <= (if i <= j then j - 1 else i - 1)
    requires Distance(s, t, i - 1, j - 1) >= (if i <= j then j - i else i - j)
    ensures Distance(s, t, i, j) <= if i <= j then j else i
    ensures Distance(s, t, i, j) >= if i <= j then j - i else i - j
  {
  }

  // ---------------------------------------------------------------------
  // findClosestMatch
  // ---------------------------------------------------------------------

  /** A distance close enough to suggest: at most 2, or at most 30% of the constant's length. */
  predicate CloseEnough(distance: int, name: string)
  {
    distance <= 2 || 10 * distance <= 3 * |name|
  }

  function DistanceTo(input: string, name: string): nat
  {
    Levenshtein(LowerCase(input), LowerCase(name))
  }

  /**
   * `bestMatch` and `minDistance` after the loop has looked at the first `n`
   * constants: a constant replaces the best so far only when it is close
   * enough and strictly closer.
   */
  function Scan(input: string, names: seq<string>, n: nat): (Option<string>, int)
    requires n <= |names|
  {
    if n == 0 then (None, MaxInt)
    else
      var (best, min) := Scan(input, names, n - 1);
      var distance := DistanceTo(input, names[n - 1]);
      if distance < min && CloseEnough(distance, names[n - 1]) then (Some(names[n - 1]), distance)
      else (best, min)
  }

  /** `findClosestMatch(input, constants)`: nothing for an empty input, otherwise the outcome of the scan. */
  function ClosestMatch(input: string, names: seq<string>): Option<string>
  {
    if |input| == 0 then None else Scan(input, names, |names|).0
  }

  /** `findClosestMatch`, with its loop over the constants. */
  method FindClosestMatch(input: string, names: seq<string>) returns (r: Option<string>)
    ensures r == ClosestMatch(input, names)
  {
    if |input| == 0 {
      return None;
    }
    var bestMatch: Option<string> := None;
    var minDistance := MaxInt;
    for k := 0 to |names|
      invariant (bestMatch, minDistance) == Scan(input, names, k)
    {
      var distance := LevenshteinDistance(LowerCase(input), LowerCase(names[k]));
      if distance < minDistance && (distance <= 2 || 10 * distance <= 3 * |names[k]|) {
        minDistance := distance;
        bestMatch := Some(names[k]);
      }
    }
    r := bestMatch;
  }

  /** Names no longer than a Java string can be. */
  predicate JavaLengths(names: seq<string>)
  {
    forall k :: 0 <= k < |names| ==> |names[k]| < MaxInt
  }

  /**
   * Constant `b` is the right suggestion among the first `n`: it is close
   * enough, every close-enough constant before it is strictly farther, and
   * none after it is closer.
   */
  ghost predicate IsBest(input: string, names: seq<string>, n: nat, b: nat)
  {
    b < n <= |names| && CloseEnough(DistanceTo(input, names[b]), names[b]) &&
    (forall k :: 0 <= k < b && CloseEnough(DistanceTo(input, names[k]), names[k]) ==>
       DistanceTo(input, names[k]) > DistanceTo(input, names[b])) &&
    (forall k :: b < k < n && CloseEnough(DistanceTo(input, names[k]), names[k]) ==>
       DistanceTo(input, names[k]) >= DistanceTo(input, names[b]))
  }

  /**
   * What the scan finds: nothing when no constant is close enough; otherwise
   * the first of the close-enough constants at the least distance.
   */
  lemma {:induction false} ScanMeaning(input: string, names: seq<string>, n: nat)
    requires n <= |names| && JavaLengths(names)
    ensures Scan(input, names, n).0.None? <==> forall k :: 0 <= k < n ==> !CloseEnough(DistanceTo(input, names[k]), names[k])
    ensures Scan(input, names, n).0.None? ==> Scan(input, names, n).1 == MaxInt
    ensures Scan(input, names, n).0.Some? ==>
              exists b: nat :: IsBest(input, names, n, b) && Scan(input, names, n) == (Some(names[b]), DistanceTo(input, names[b]))
  {
    if n > 0 {
      ScanMeaning(input, names, n - 1);
      var name := names[n - 1];
      var distance := DistanceTo(input, name);
      var prev := Scan(input, names, n - 1);
      assert Scan(input, names, n) ==
        if distance < prev.1 && CloseEnough(distance, name) then (Some(name), distance) else prev;
      if CloseEnough(distance, name) {
        CloseIsSmall(distance, name);
      }
      if prev.0.Some? {
        var b: nat :| IsBest(input, names, n - 1, b) && prev == (Some(names[b]), DistanceTo(input, names[b]));
        if distance < prev.1 && CloseEnough(distance, name) {
          assert IsBest(input, names, n, n - 1);
        } else {
          assert IsBest(input, names, n, b);
        }
      } else if CloseEnough(distance, name) {
        assert IsBest(input, names, n, n - 1);
      }
    }
  }

  /** A close-enough distance is below `Integer.MAX_VALUE`, so the first close constant is always taken. */
  lemma CloseIsSmall(distance: int, name: string)
    requires CloseEnough(distance, name) && |name| < MaxInt
    ensures distance < MaxInt
  {
  }

  /** An empty input never gets a suggestion, and a constant typed in another case is suggested. */
  lemma ClosestMatchExamples(names: seq<string>)
    ensures ClosestMatch("", names) == None
    ensures ClosestMatch("warn", ["WARN", "INFO"]) == Some("WARN")
  {
    var input, warn, info := "warn", "WARN", "INFO";
    assert LowerCase(warn) == input by { assert LowerCase(warn)[0] == 'w' && LowerCase(warn)[1] == 'a'; }
    ZeroIffEqual(LowerCase(input), LowerCase(warn));
    assert LowerCase(input) == input by { assert LowerCase(input)[0] == 'w'; }
    assert Scan(input, ["WARN", "INFO"], 1) == (Some(warn), 0);
    assert Scan(input, ["WARN", "INFO"], 2) == (Some(warn), 0);
  }

  // ---------------------------------------------------------------------
  // getMessage
  // ---------------------------------------------------------------------

  /** The list of valid values in the message: every constant's name in quotes, separated by commas. */
  function ValidValues(names: seq<string>): (r: string)
    ensures |r| >= 2 && r[0] == '\'' && r[|r| - 1] == '\''
  {
    "'" + Joined(names, "', '") + "'"
  }

  /** A constant's name in single quotes. */
  function Quoted(name: string): string
  {
    "'" + name + "'"
  }

  /**
   * The list of valid values is every name in its own quotes, the quoted
   * names joined by ", "; with no constants it is the two quotes alone.
   */
  lemma {:induction false} ValidValuesQuotesEach(names: seq<string>)
    ensures names == [] ==> ValidValues(names) == "''"
    ensures names != [] ==> ValidValues(names) == Joined(Mapped(names, Quoted), ", ")
  {
    if |names| == 1 {
      assert Mapped(names, Quoted) == [Quoted(names[0])];
    } else if |names| > 1 {
      var rest := names[1..];
      ValidValuesQuotesEach(rest);
      var quoted := Mapped(names, Quoted);
      assert quoted[1..] == Mapped(rest, Quoted);
      assert Joined(quoted, ", ") == Quoted(names[0]) + ", " + Joined(Mapped(rest, Quoted), ", ");
      assert Joined(names, "', '") == names[0] + "', '" + Joined(rest, "', '");
      assert ValidValues(names) == Quoted(names[0]) + ", " + ValidValues(rest);
    }
  }

  /** The suggestion line: present exactly when a closest match was found, and naming it. */
  function SuggestionText(input: string, names: seq<string>): (r: string)
  {
    match ClosestMatch(input, names)
    case None => ""
    case Some(name) => "Did you mean '" + name + "'?"
  }

  lemma SuggestionMeaning(input: string, names: seq<string>)
    ensures SuggestionText(input, names) == "" <==> ClosestMatch(input, names).None?
    ensures ClosestMatch(input, names).Some? ==> EndsWith(SuggestionText(input, names), ClosestMatch(input, names).value + "'?")
  {
    var m := ClosestMatch(input, names);
    if m.Some? {
      var r := SuggestionText(input, names);
      assert r == "Did you mean '" + (m.value + "'?");
      assert r[|r| - |m.value + "'?"|..] == m.value + "'?";
    }
  }

  /** One constant is quoted on its own; two are separated by a comma. */
  lemma ValidValuesExamples(a: string, b: string)
    ensures ValidValues([]) == "''"
    ensures ValidValues([a]) == "'" + a + "'"
    ensures ValidValues([a, b]) == "'" + a + "', '" + b + "'"
  {
    JoinedSmall(a, "', '");
    JoinedAppend([a], [b], "', '");
    JoinedSmall(b, "', '");
    assert [a] + [b] == [a, b];
  }
}
