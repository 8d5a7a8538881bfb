/**
 * The string helpers of `Strings`, plus the character-level pieces of the JDK
 * that the modelled code relies on. Case mapping covers ASCII letters only.
 */
module Strings {
  import opened Sequences

  predicate IsLower(c: char) { 'a' <= c <= 'z' }

  predicate IsUpper(c: char) { 'A' <= c <= 'Z' }

  /** `Character.toUpperCase`, for ASCII letters. */
  function ToUpper(c: char): (u: char)
    ensures IsLower(c) ==> IsUpper(u) && u as int == c as int - 32
    ensures !IsLower(c) ==> u == c
  {
    if IsLower(c) then (c as int - 32) as char else c
  }

  /** `Character.toLowerCase`, for ASCII letters. */
  function ToLower(c: char): (l: char)
    ensures IsUpper(c) ==> IsLower(l) && l as int == c as int + 32
    ensures !IsUpper(c) ==> l == c
  {
    if IsUpper(c) then (c as int + 32) as char else c
  }

  /** `String.toLowerCase`: every character lower-cased, nothing else changed. */
  function LowerCase(s: string): (r: string)
    ensures |r| == |s|
    ensures forall i :: 0 <= i < |s| ==> r[i] == ToLower(s[i])
  {
    seq(|s|, i requires 0 <= i < |s| => ToLower(s[i]))
  }

  /** `capitalize`: an empty string is returned as it is; otherwise only the first character is upper-cased. */
  function Capitalize(s: string): (r: string)
    ensures |r| == |s|
    ensures |s| > 0 ==> r[0] == ToUpper(s[0]) && r[1..] == s[1..]
  {
    if |s| == 0 then s else [ToUpper(s[0])] + s[1..]
  }

  /** `uncapitalize`: an empty string is returned as it is; otherwise only the first character is lower-cased. */
  function Uncapitalize(s: string): (r: string)
    ensures |r| == |s|
    ensures |s| > 0 ==> r[0] == ToLower(s[0]) && r[1..] == s[1..]
  {
    if |s| == 0 then s else [ToLower(s[0])] + s[1..]
  }

  lemma CapitalizeEmpty()
    ensures Capitalize("") == ""
  {
  }

  /** A string whose first character is not a lower-case letter is already capitalized. */
  lemma CapitalizedIsUnchanged(s: string)
    requires |s| > 0 ==> !IsLower(s[0])
    ensures Capitalize(s) == s
  {
  }

  lemma CapitalizeIdempotent(s: string)
    ensures Capitalize(Capitalize(s)) == Capitalize(s)
  {
  }

  /** `uncapitalize` undoes `capitalize` on a string that starts with a lower-case letter. */
  lemma UncapitalizeUndoesCapitalize(s: string)
    requires |s| > 0 && IsLower(s[0])
    ensures Uncapitalize(Capitalize(s)) == s
  {
    assert Uncapitalize(Capitalize(s)) == [s[0]] + s[1..];
  }

  // ---------------------------------------------------------------------
  // joinWith
  // ---------------------------------------------------------------------

  /** What a `StringJoiner` produces: the parts in order, with `sep` only between neighbours. */
  function Joined(parts: seq<string>, sep: string): string
  {
    if |parts| == 0 then ""
    else if |parts| == 1 then parts[0]
    else parts[0] + sep + Joined(parts[1..], sep)
  }

  /** `joinWith(collection, toString, separator)`, as its loop over a `StringJoiner`. */
  method JoinWith<T>(items: seq<T>, toString: T -> string, separator: string) returns (r: string)
    ensures r == Joined(Mapped(items, toString), separator)
  {
    var parts := Mapped(items, toString);
    r := "";
    var i := 0;
    while i < |items|
      invariant 0 <= i <= |items|
      invariant r == Joined(parts[..i], separator)
    {
      if i == 0 {
        r := toString(items[i]);
      } else {
        JoinedAppend(parts[..i], [parts[i]], separator);
        assert parts[..i] + [parts[i]] == parts[..i + 1];
        r := r + separator + toString(items[i]);
      }
      i := i + 1;
    }
    assert parts[..i] == parts;
  }

  /** Joining two non-empty runs of parts puts exactly one separator between them. */
  lemma {:induction false} JoinedAppend(a: seq<string>, b: seq<string>, sep: string)
    requires |a| > 0 && |b| > 0
    ensures Joined(a + b, sep) == Joined(a, sep) + sep + Joined(b, sep)
  {
    if |a| == 1 {
      assert (a + b)[1..] == b;
    } else {
      assert (a + b)[1..] == a[1..] + b;
      JoinedAppend(a[1..], b, sep);
    }
  }

  function SumOfLengths(parts: seq<string>): nat
  {
    if |parts| == 0 then 0 else |parts[0]| + SumOfLengths(parts[1..])
  }

  /** The joined string holds every part and one separator per gap, and nothing else. */
  lemma {:induction false} JoinedLength(parts: seq<string>, sep: string)
    requires |parts| > 0
    ensures |Joined(parts, sep)| == SumOfLengths(parts) + (|parts| - 1) * |sep|
  {
    if |parts| > 1 {
      JoinedLength(parts[1..], sep);
    }
  }

  /** A character property held by every part and by the separator holds of the whole joined string. */
  lemma {:induction false} JoinedKeeps(parts: seq<string>, sep: string, P: char -> bool)
    requires forall k, i :: 0 <= k < |parts| && 0 <= i < |parts[k]| ==> P(parts[k][i])
    requires forall i :: 0 <= i < |sep| ==> P(sep[i])
    ensures forall i :: 0 <= i < |Joined(parts, sep)| ==> P(Joined(parts, sep)[i])
  {
    if |parts| > 1 {
      var tail := parts[1..];
      assert forall k, i :: 0 <= k < |tail| && 0 <= i < |tail[k]| ==> P(tail[k][i]) by {
        forall k, i | 0 <= k < |tail| && 0 <= i < |tail[k]| ensures P(tail[k][i]) {
          assert tail[k] == parts[k + 1];
        }
      }
      JoinedKeeps(tail, sep, P);
      var rest := Joined(tail, sep);
      var j := parts[0] + sep + rest;
      forall i | 0 <= i < |j|
        ensures P(j[i])
      {
        if i < |parts[0]| {
          assert j[i] == parts[0][i];
        } else if i < |parts[0]| + |sep| {
          assert j[i] == sep[i - |parts[0]|];
        } else {
          assert j[i] == rest[i - |parts[0]| - |sep|];
        }
      }
    }
  }

  /** Transforming every part with a length-preserving function keeps the total length. */
  lemma {:induction false} SumOfLengthsMapped(parts: seq<string>, f: string -> string)
    requires forall t :: |f(t)| == |t|
    ensures SumOfLengths(Mapped(parts, f)) == SumOfLengths(parts)
  {
    if |parts| > 0 {
      assert Mapped(parts, f)[1..] == Mapped(parts[1..], f);
      SumOfLengthsMapped(parts[1..], f);
    }
  }

  lemma JoinedSmall(p: string, sep: string)
    ensures Joined([], sep) == ""
    ensures Joined([p], sep) == p
  {
  }

  // ---------------------------------------------------------------------
  // Searching and decimal rendering
  // ---------------------------------------------------------------------

  predicate StartsWith(s: string, prefix: string)
  {
    |prefix| <= |s| && s[..|prefix|] == prefix
  }

  predicate EndsWith(s: string, suffix: string)
  {
    |suffix| <= |s| && s[|s| - |suffix|..] == suffix
  }

  /** `String.contains`: `needle` occurs somewhere in `s`. */
  predicate Contains(s: string, needle: string)
  {
    exists i :: 0 <= i <= |s| && StartsWith(s[i..], needle)
  }

  lemma ContainsItself(s: string)
    ensures Contains(s, s)
  {
    assert StartsWith(s[0..], s);
  }

  /** A text contains whatever stands in its middle. */
  lemma ContainsMiddle(a: string, b: string, c: string)
    ensures Contains(a + b + c, b)
  {
    var s := a + b + c;
    assert s[|a|..][..|b|] == b;
    assert StartsWith(s[|a|..], b);
  }

  /** A text ends with its last part. */
  lemma EndsWithLast(a: string, b: string)
    ensures EndsWith(a + b, b)
  {
    assert (a + b)[|a + b| - |b|..] == b;
  }

  function Digit(d: nat): (c: char)
    requires d < 10
    ensures '0' <= c <= '9'
  {
    ('0' as int + d) as char
  }

  /** The decimal text of a natural number, as string concatenation renders an `int`. */
  function NatToString(n: nat): (s: string)
    ensures |s| > 0
    ensures forall i :: 0 <= i < |s| ==> '0' <= s[i] <= '9'
    ensures n < 10 <==> |s| == 1
  {
    if n < 10 then [Digit(n)] else NatToString(n / 10) + [Digit(n % 10)]
  }

  /** Different numbers have different decimal texts. */
  lemma {:induction false} NatToStringInjective(a: nat, b: nat)
    requires NatToString(a) == NatToString(b)
    ensures a == b
  {
    if a >= 10 && b >= 10 {
      var sa, sb := NatToString(a), NatToString(b);
      assert sa[|sa| - 1] == Digit(a % 10) && sb[|sb| - 1] == Digit(b % 10);
      assert sa[..|sa| - 1] == NatToString(a / 10);
      assert sb[..|sb| - 1] == NatToString(b / 10);
      NatToStringInjective(a / 10, b / 10);
    }
  }
}
