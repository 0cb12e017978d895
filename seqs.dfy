/** Duplicate-free sequences of ids: the model of a JavaScript Set, which
    keeps its elements in insertion order. */
module Seqs {

  predicate Distinct<T(==,!new)>(s: seq<T>) {
    forall i, j | 0 <= i < j < |s| :: s[i] != s[j]
  }

  /** Set.prototype.delete: the sequence without x, the others in order. */
  function Remove<T(==,!new)>(s: seq<T>, x: T): (r: seq<T>)
    ensures forall y :: y in r <==> y in s && y != x
    ensures |r| <= |s|
    ensures x !in s ==> r == s
  {
    if s == [] then []
    else if s[0] == x then Remove(s[1..], x)
    else [s[0]] + Remove(s[1..], x)
  }

  lemma {:induction false} RemoveDistinct<T(!new)>(s: seq<T>, x: T)
    requires Distinct(s)
    ensures Distinct(Remove(s, x))
  {
    if s != [] {
      RemoveDistinct(s[1..], x);
      assert Distinct(s[1..]);
      if s[0] != x {
        var r := Remove(s[1..], x);
        assert s[0] !in r;
        assert forall j | 0 < j < |[s[0]] + r| :: ([s[0]] + r)[j] == r[j - 1];
      }
    }
  }

  /** Set.delete in place: in a duplicate-free sequence, removing the
      element at position i closes the gap, the others keeping their order. */
  lemma {:induction false} RemoveInPlace<T(!new)>(s: seq<T>, i: nat)
    requires Distinct(s) && i < |s|
    ensures Remove(s, s[i]) == s[..i] + s[i + 1..]
  {
    if i == 0 {
      RemoveHead(s);
    } else {
      assert s[0] != s[i];
      assert Distinct(s[1..]) && s[1..][i - 1] == s[i];
      RemoveInPlace(s[1..], i - 1);
      assert s[..i] == [s[0]] + s[1..][..i - 1];
      assert s[i + 1..] == s[1..][i..];
    }
  }

  /** Removing the first element of a duplicate-free sequence drops it. */
  lemma {:induction false} RemoveHead<T(!new)>(s: seq<T>)
    requires s != [] && Distinct(s)
    ensures Remove(s, s[0]) == s[1..]
  {
    assert s[0] !in s[1..];
  }

  lemma AppendDistinct<T(!new)>(s: seq<T>, x: T)
    requires Distinct(s) && x !in s
    ensures Distinct(s + [x])
  {
  }

  /** A prefix of a sequence listing its elements once does too. */
  lemma PrefixDistinct<T(!new)>(s: seq<T>, t: seq<T>)
    requires Distinct(t) && s <= t
    ensures Distinct(s)
  {
  }

  /** The prefix one element longer. */
  lemma TakeNext<T>(s: seq<T>, i: nat)
    requires i < |s|
    ensures s[..i + 1] == s[..i] + [s[i]] && s[..i + 1] <= s
  {
  }

  /** Position of x in s. */
  function IndexOf<T(==,!new)>(s: seq<T>, x: T): (i: nat)
    requires x in s
    ensures i < |s| && s[i] == x
    ensures forall j | 0 <= j < i :: s[j] != x
  {
    if s[0] == x then 0 else 1 + IndexOf(s[1..], x)
  }
}
