/**
 * Docker's API-version comparison (`versions.GreaterThanOrEqualTo` of the Docker client
 * library): both versions are split on '.', each part is read with strconv.Atoi (a part
 * that does not parse reads as 0), a missing part reads as 0, and the parts are compared
 * left to right.
 */
module Versions {
  import opened Results
  import opened Strconv

  /** strings.Split(s, string(sep)): the pieces between separators, never fewer than one. */
  function Split(s: string, sep: char): (parts: seq<string>)
    ensures |parts| >= 1
    ensures forall i :: 0 <= i < |parts| ==> sep !in parts[i]
  {
    if s == [] then [""]
    else
      var rest := Split(s[1..], sep);
      if s[0] == sep then [""] + rest else [[s[0]] + rest[0]] + rest[1..]
  }

  /** strings.Join(parts, string(sep)). */
  function Join(parts: seq<string>, sep: char): string
    requires |parts| >= 1
  {
    if |parts| == 1 then parts[0] else parts[0] + [sep] + Join(parts[1..], sep)
  }

  /** Splitting loses nothing: joining the pieces back gives the original text. */
  lemma {:induction false} SplitJoin(s: string, sep: char)
    ensures Join(Split(s, sep), sep) == s
  {
    if s != [] {
      var rest := Split(s[1..], sep);
      SplitJoin(s[1..], sep);
      if s[0] == sep {
        assert ([""] + rest)[1..] == rest;
      } else {
        var parts := [[s[0]] + rest[0]] + rest[1..];
        assert parts[1..] == rest[1..];
        if |rest| > 1 {
          assert Join(rest, sep) == rest[0] + [sep] + Join(rest[1..], sep);
        }
      }
    }
  }

  /** Text without a separator is one piece. */
  lemma {:induction false} SplitNoSeparator(s: string, sep: char)
    requires sep !in s
    ensures Split(s, sep) == [s]
  {
    if s != [] {
      SplitNoSeparator(s[1..], sep);
      assert s[0] != sep;
      assert [s[0]] + s[1..] == s;
    }
  }

  /** A separator after a separator-free prefix ends the first piece. */
  lemma {:induction false} SplitAtFirst(x: string, sep: char, y: string)
    requires sep !in x
    ensures Split(x + [sep] + y, sep) == [x] + Split(y, sep)
  {
    if x == [] {
      assert x + [sep] + y == [sep] + y;
      assert ([sep] + y)[1..] == y;
    } else {
      var s := x + [sep] + y;
      assert s[0] == x[0] && x[0] != sep;
      assert s[1..] == x[1..] + [sep] + y;
      SplitAtFirst(x[1..], sep, y);
      var rest := Split(s[1..], sep);
      assert rest[0] == x[1..] && rest[1..] == Split(y, sep);
      assert [s[0]] + rest[0] == x;
    }
  }

  /** A version "major.minor" with separator-free parts. */
  lemma TwoPartVersion(major: string, minor: string)
    requires '.' !in major && '.' !in minor
    ensures Split(major + "." + minor, '.') == [major, minor]
  {
    SplitAtFirst(major, '.', minor);
    SplitNoSeparator(minor, '.');
  }

  /** One version component: its integer value, or 0 when it does not parse. */
  function PartValue(part: string): int
  {
    match Atoi(part)
    case Some(v) => v
    case None => 0
  }

  function PartValues(parts: seq<string>): (vs: seq<int>)
    ensures |vs| == |parts|
  {
    if parts == [] then [] else [PartValue(parts[0])] + PartValues(parts[1..])
  }

  function Head(a: seq<int>): int { if a == [] then 0 else a[0] }

  function Tail(a: seq<int>): seq<int> { if a == [] then [] else a[1..] }

  /** Compares component lists left to right, a missing component reading as 0. */
  function ComparePadded(a: seq<int>, b: seq<int>): (c: int)
    ensures -1 <= c <= 1
    decreases |a| + |b|
  {
    if a == [] && b == [] then 0
    else if Head(a) > Head(b) then 1
    else if Head(b) > Head(a) then -1
    else ComparePadded(Tail(a), Tail(b))
  }

  /** compare(v1, v2): 1 when v1 is newer, -1 when older, 0 when equal. */
  function Compare(v1: string, v2: string): int
  {
    ComparePadded(PartValues(Split(v1, '.')), PartValues(Split(v2, '.')))
  }

  predicate GreaterThanOrEqualTo(v: string, other: string)
  {
    Compare(v, other) >= 0
  }

  lemma ComparePaddedUnfold(a: seq<int>, b: seq<int>)
    ensures ComparePadded(a, b) ==
      if Head(a) > Head(b) then 1
      else if Head(b) > Head(a) then -1
      else ComparePadded(Tail(a), Tail(b))
  {
  }

  /** Swapping the operands negates the comparison. */
  lemma {:induction false} ComparePaddedAntisymmetric(a: seq<int>, b: seq<int>)
    ensures ComparePadded(b, a) == -ComparePadded(a, b)
    decreases |a| + |b|
  {
    ComparePaddedUnfold(a, b);
    ComparePaddedUnfold(b, a);
    if !(a == [] && b == []) && Head(a) == Head(b) {
      ComparePaddedAntisymmetric(Tail(a), Tail(b));
    }
  }

  /** "Not older than" is transitive. */
  lemma {:induction false} ComparePaddedTransitive(a: seq<int>, b: seq<int>, c: seq<int>)
    requires ComparePadded(a, b) >= 0 && ComparePadded(b, c) >= 0
    ensures ComparePadded(a, c) >= 0
    decreases |a| + |b| + |c|
  {
    ComparePaddedUnfold(a, b);
    ComparePaddedUnfold(b, c);
    ComparePaddedUnfold(a, c);
    if !(a == [] && b == [] && c == []) && Head(a) == Head(b) == Head(c) {
      ComparePaddedTransitive(Tail(a), Tail(b), Tail(c));
    }
  }

  /** GreaterThanOrEqualTo is a total preorder on version strings. */
  lemma GreaterThanOrEqualToTotalPreorder(u: string, v: string, w: string)
    ensures GreaterThanOrEqualTo(u, u)
    ensures GreaterThanOrEqualTo(u, v) || GreaterThanOrEqualTo(v, u)
    ensures GreaterThanOrEqualTo(u, v) && GreaterThanOrEqualTo(v, w) ==> GreaterThanOrEqualTo(u, w)
  {
    var pu, pv, pw := PartValues(Split(u, '.')), PartValues(Split(v, '.')), PartValues(Split(w, '.'));
    ComparePaddedAntisymmetric(pu, pu);
    ComparePaddedAntisymmetric(pu, pv);
    if GreaterThanOrEqualTo(u, v) && GreaterThanOrEqualTo(v, w) {
      ComparePaddedTransitive(pu, pv, pw);
    }
  }
}
