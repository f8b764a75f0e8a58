/** Sequence helpers shared by the model: repetition and the two ways .NET removes one
    element from a list (List<T>.Remove drops the first occurrence, delegate `-=` the last). */
module Seqs {

  /** `n` copies of `x`. */
  function Repeat<T>(x: T, n: nat): (r: seq<T>)
    ensures |r| == n
    ensures forall i :: 0 <= i < n ==> r[i] == x
  {
    if n == 0 then [] else Repeat(x, n - 1) + [x]
  }

  /** How many of the first `i` elements of `s` are `x`. */
  function Occurrences<T(==)>(s: seq<T>, i: nat, x: T): (n: nat)
    requires i <= |s|
  {
    if i == 0 then 0 else Occurrences(s, i - 1, x) + (if s[i - 1] == x then 1 else 0)
  }

  /** Occurrences counts the multiplicity of `x` in the prefix. */
  lemma {:induction false} OccurrencesCount<T>(s: seq<T>, i: nat, x: T)
    requires i <= |s|
    ensures Occurrences(s, i, x) == multiset(s[..i])[x]
  {
    if i > 0 {
      OccurrencesCount(s, i - 1, x);
      assert s[..i] == s[..i - 1] + [s[i - 1]];
    }
  }

  /** The index of the first occurrence of `x` in `s`. */
  function FirstIndex<T(==)>(s: seq<T>, x: T): (k: nat)
    requires x in s
    ensures k < |s| && s[k] == x && x !in s[..k]
  {
    if s[0] == x then 0 else
      var k := FirstIndex(s[1..], x);
      assert s[1..][..k] == s[1..k + 1];
      1 + k
  }

  /** The index of the last occurrence of `x` in `s`. */
  function LastIndex<T(==)>(s: seq<T>, x: T): (k: nat)
    requires x in s
    ensures k < |s| && s[k] == x && x !in s[k + 1..]
  {
    var n := |s| - 1;
    if s[n] == x then n else
      assert x in s[..n] by {
        var i :| 0 <= i < |s| && s[i] == x;
        assert i < n && s[..n][i] == x;
      }
      var k := LastIndex(s[..n], x);
      assert s[k + 1..] == s[..n][k + 1..] + [s[n]];
      k
  }

  /** Dropping position `k` of `s` removes one copy of `s[k]` from its multiset. */
  lemma DropAt<T>(s: seq<T>, k: nat)
    requires k < |s|
    ensures multiset(s[..k] + s[k + 1..]) == multiset(s) - multiset{s[k]}
  {
    assert s == s[..k] + [s[k]] + s[k + 1..];
    assert multiset(s) == multiset(s[..k]) + multiset{s[k]} + multiset(s[k + 1..]);
  }

  /** `s` without its first occurrence of `x`, as List<T>.Remove does; `s` itself when `x` is absent. */
  function RemoveFirst<T(==)>(s: seq<T>, x: T): (r: seq<T>) {
    if x in s then s[..FirstIndex(s, x)] + s[FirstIndex(s, x) + 1..] else s
  }

  /** RemoveFirst takes exactly one copy of `x` out, when there is one. */
  lemma RemoveFirstCount<T>(s: seq<T>, x: T)
    ensures multiset(RemoveFirst(s, x)) == multiset(s) - multiset{x}
  {
    if x in s {
      DropAt(s, FirstIndex(s, x));
    }
  }

  /** `s` without its last occurrence of `x`, as delegate subtraction does; `s` itself when `x` is absent. */
  function RemoveLast<T(==)>(s: seq<T>, x: T): (r: seq<T>) {
    if x in s then s[..LastIndex(s, x)] + s[LastIndex(s, x) + 1..] else s
  }

  /** RemoveLast takes exactly one copy of `x` out, when there is one. */
  lemma RemoveLastCount<T>(s: seq<T>, x: T)
    ensures multiset(RemoveLast(s, x)) == multiset(s) - multiset{x}
  {
    if x in s {
      DropAt(s, LastIndex(s, x));
    }
  }
}
