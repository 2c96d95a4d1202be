/** The Python list operations the agent relies on: `x in s`, the position of
    the first occurrence, `list.remove(x)` and `list.pop(i)`. */
module Seqs {
  import opened Wrappers

  /** Position of the first occurrence of `x` in `s`, if any. */
  function IndexOf<T(==)>(s: seq<T>, x: T): (r: Option<nat>)
    ensures r.None? <==> x !in s
    ensures r.Some? ==> r.value < |s| && s[r.value] == x && x !in s[..r.value]
  {
    if s == [] then None
    else if s[0] == x then Some(0)
    else match IndexOf(s[1..], x)
      case None => None
      case Some(i) =>
        assert s[..i + 1] == [s[0]] + s[1..][..i];
        Some(i + 1)
  }

  /** A position holding `x` with no `x` before it is the first occurrence. */
  lemma IndexOfUnique<T>(s: seq<T>, x: T, i: nat)
    requires i < |s| && s[i] == x && x !in s[..i]
    ensures IndexOf(s, x) == Some(i)
  {
  }

  /** `list.pop(i)`: the element at `i` is taken out, the others keep their order. */
  function RemoveAt<T>(s: seq<T>, i: nat): (r: seq<T>)
    requires i < |s|
  {
    s[..i] + s[i + 1..]
  }

  /** `list.remove(x)` guarded by `x in s`: the first occurrence of `x` is
      taken out and the rest keep their order; without an `x` nothing changes. */
  function RemoveFirst<T(==)>(s: seq<T>, x: T): (r: seq<T>)
    ensures x !in s ==> r == s
    ensures x in s ==> |r| == |s| - 1
  {
    if s == [] then []
    else if s[0] == x then s[1..]
    else [s[0]] + RemoveFirst(s[1..], x)
  }

  /** `list.remove(x)` takes exactly one `x` out of the multiset of elements, if there is one. */
  lemma {:induction false} RemoveFirstMultiset<T>(s: seq<T>, x: T)
    ensures multiset(RemoveFirst(s, x)) == multiset(s) - multiset{x}
  {
    if s != [] {
      assert s == [s[0]] + s[1..];
      if s[0] != x {
        RemoveFirstMultiset(s[1..], x);
      }
    }
  }

  /** `list.remove(x)` takes out the element at the first position holding `x`. */
  lemma {:induction false} RemoveFirstAtIndex<T>(s: seq<T>, x: T, i: nat)
    requires i < |s| && s[i] == x && x !in s[..i]
    ensures RemoveFirst(s, x) == RemoveAt(s, i)
  {
    if i == 0 {
      assert RemoveAt(s, 0) == s[1..];
    } else {
      var t := s[1..];
      assert s[..i] == [s[0]] + t[..i - 1];
      RemoveFirstAtIndex(t, x, i - 1);
      assert RemoveFirst(s, x) == [s[0]] + (t[..i - 1] + t[i..]);
      assert s[i + 1..] == t[i..];
    }
  }

  /** The first occurrence that `list.remove` takes out is the one `IndexOf` finds. */
  lemma RemoveFirstAt<T>(s: seq<T>, x: T)
    requires x in s
    ensures RemoveFirst(s, x) == RemoveAt(s, IndexOf(s, x).value)
  {
    RemoveFirstAtIndex(s, x, IndexOf(s, x).value);
  }

  /** No element occurs twice. */
  predicate Distinct<T(==)>(s: seq<T>)
  {
    forall i, j :: 0 <= i < j < |s| ==> s[i] != s[j]
  }

  lemma DistinctCountsAtMostOne<T>(s: seq<T>, x: T)
    requires Distinct(s)
    ensures multiset(s)[x] <= 1
  {
    if s != [] {
      assert s == [s[0]] + s[1..];
      DistinctCountsAtMostOne(s[1..], x);
      if s[0] == x {
        assert x !in s[1..];
      }
    }
  }
}
