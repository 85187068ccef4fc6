/** The list operations the hubs apply to their callbacks: append on add,
    and Python's list.remove on removal (delete the first occurrence). */
module Subscriptions {

  /** An update callback, compared by equality, as list.remove does. */
  type CallbackId = int

  /** Position of the first occurrence of x in s. */
  function IndexOf<T(==)>(s: seq<T>, x: T): (i: nat)
    requires x in s
    ensures i < |s| && s[i] == x
    ensures x !in s[..i]
  {
    if s[0] == x then 0
    else
      var j := IndexOf(s[1..], x);
      assert s[1..][..j] == s[1..j + 1];
      assert s[..j + 1] == [s[0]] + s[1..j + 1];
      j + 1
  }

  /** s with its first occurrence of x deleted. */
  function RemoveFirst<T(==)>(s: seq<T>, x: T): (r: seq<T>)
    requires x in s
    ensures |r| == |s| - 1
    ensures multiset(r) == multiset(s) - multiset{x}
  {
    assert s == [s[0]] + s[1..];
    if s[0] == x then s[1..] else [s[0]] + RemoveFirst(s[1..], x)
  }

  /** A position holding x with no x before it is the first occurrence. */
  lemma IndexOfUnique<T>(s: seq<T>, x: T, i: nat)
    requires i < |s| && s[i] == x && x !in s[..i]
    ensures IndexOf(s, x) == i
  {
  }

  lemma ConsSlices<T>(s: seq<T>, j: nat)
    requires j + 1 < |s|
    ensures s[..j + 1] + s[j + 2..] == [s[0]] + (s[1..][..j] + s[1..][j + 1..])
  {
    assert s[..j + 1] == [s[0]] + s[1..][..j];
    assert s[j + 2..] == s[1..][j + 1..];
  }

  /** Everything before the deleted occurrence, and everything after it,
      keeps its order. */
  lemma {:induction false} RemoveFirstSlices<T>(s: seq<T>, x: T)
    requires x in s
    ensures RemoveFirst(s, x) == s[..IndexOf(s, x)] + s[IndexOf(s, x) + 1..]
  {
    if s[0] != x {
      RemoveFirstSlices(s[1..], x);
      ConsSlices(s, IndexOf(s[1..], x));
    }
  }

  /** Removing a callback right after appending it, when it was not already
      subscribed, restores the list. */
  lemma RemoveAfterAppend<T>(s: seq<T>, x: T)
    requires x !in s
    ensures RemoveFirst(s + [x], x) == s
  {
    assert (s + [x])[..|s|] == s;
    IndexOfUnique(s + [x], x, |s|);
    RemoveFirstSlices(s + [x], x);
  }

  /** Appending after an earlier occurrence does not change which one
      list.remove deletes. */
  lemma {:induction false} RemoveBeforeAppend<T>(s: seq<T>, x: T, y: T)
    requires y in s
    ensures RemoveFirst(s + [x], y) == RemoveFirst(s, y) + [x]
  {
    assert (s + [x])[1..] == s[1..] + [x];
    if s[0] != y {
      RemoveBeforeAppend(s[1..], x, y);
    }
  }
}
