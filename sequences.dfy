/**
 * The Go idiom `var out []U; for _, x := range xs { out = append(out, f(x)...) }`: the
 * results of `f` on each element, concatenated in sequence order.
 */
module Sequences {

  function ConcatMap<T, U>(s: seq<T>, f: T -> seq<U>): seq<U>
  {
    if s == [] then [] else ConcatMap(s[..|s| - 1], f) + f(s[|s| - 1])
  }

  /** One more loop iteration appends the next element's results. */
  lemma ConcatMapPrefix<T, U>(s: seq<T>, i: int, f: T -> seq<U>)
    requires 0 <= i < |s|
    ensures ConcatMap(s[..i + 1], f) == ConcatMap(s[..i], f) + f(s[i])
  {
    assert s[..i + 1][..i] == s[..i];
  }

  lemma ConcatMapSingle<T, U>(x: T, f: T -> seq<U>)
    ensures ConcatMap([x], f) == f(x)
  {
    assert [x][..0] == [];
  }

  /** The results of a concatenation of inputs are the concatenation of their results. */
  lemma {:induction false} ConcatMapAppend<T, U>(a: seq<T>, b: seq<T>, f: T -> seq<U>)
    ensures ConcatMap(a + b, f) == ConcatMap(a, f) + ConcatMap(b, f)
    decreases |b|
  {
    if b == [] {
      assert a + b == a;
    } else {
      var p := b[..|b| - 1];
      assert (a + b)[..|a + b| - 1] == a + p;
      ConcatMapAppend(a, p, f);
    }
  }

  /** An element of the result is a result of one of the inputs, and every such result is there. */
  lemma {:induction false} ConcatMapMembers<T, U>(s: seq<T>, f: T -> seq<U>, u: U)
    ensures u in ConcatMap(s, f) <==> exists i :: 0 <= i < |s| && u in f(s[i])
  {
    if s != [] {
      var p := s[..|s| - 1];
      ConcatMapMembers(p, f, u);
      if exists i :: 0 <= i < |p| && u in f(p[i]) {
        var i :| 0 <= i < |p| && u in f(p[i]);
        assert s[i] == p[i];
      }
      if exists i :: 0 <= i < |s| && u in f(s[i]) {
        var i :| 0 <= i < |s| && u in f(s[i]);
        if i < |p| { assert p[i] == s[i]; }
      }
    }
  }

  /** Inserting an element whose result is empty changes nothing. */
  lemma ConcatMapSkip<T, U>(before: seq<T>, x: T, after: seq<T>, f: T -> seq<U>)
    requires f(x) == []
    ensures ConcatMap(before + [x] + after, f) == ConcatMap(before + after, f)
  {
    ConcatMapAppend(before + [x], after, f);
    ConcatMapAppend(before, [x], f);
    ConcatMapAppend(before, after, f);
    ConcatMapSingle(x, f);
  }

  /** The results around one element, split out. */
  lemma ConcatMapSplit<T, U>(before: seq<T>, x: T, after: seq<T>, f: T -> seq<U>)
    ensures ConcatMap(before + [x] + after, f) == ConcatMap(before, f) + f(x) + ConcatMap(after, f)
  {
    ConcatMapAppend(before + [x], after, f);
    ConcatMapAppend(before, [x], f);
    ConcatMapSingle(x, f);
  }
}
