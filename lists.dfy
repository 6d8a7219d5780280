// The List<T> operations the transformers use on their reference lists.
module Lists {

  /** No element occurs twice. */
  predicate NoDuplicates<T(==)>(s: seq<T>)
  {
    forall i, j :: 0 <= i < j < |s| ==> s[i] != s[j]
  }

  /** List.FindIndex on a key: the index of the first element whose key is k, or -1. */
  function FindIndex<T, K(==)>(s: seq<T>, key: T -> K, k: K): (i: int)
    ensures -1 <= i < |s|
    ensures i >= 0 ==> key(s[i]) == k && forall j :: 0 <= j < i ==> key(s[j]) != k
    ensures i == -1 ==> forall j :: 0 <= j < |s| ==> key(s[j]) != k
  {
    FindIndexFrom(s, key, k, 0)
  }

  /** The search from index n on. */
  function FindIndexFrom<T, K(==)>(s: seq<T>, key: T -> K, k: K, n: nat): (i: int)
    requires n <= |s|
    ensures i == -1 || n <= i < |s|
    ensures i >= 0 ==> key(s[i]) == k && forall j :: n <= j < i ==> key(s[j]) != k
    ensures i == -1 ==> forall j :: n <= j < |s| ==> key(s[j]) != k
    decreases |s| - n
  {
    if n == |s| then -1
    else if key(s[n]) == k then n
    else FindIndexFrom(s, key, k, n + 1)
  }

  /** List.Remove(x): drops the first occurrence of x, if there is one; the elements
      before it keep their places and the rest move up by one. */
  function RemoveFirst<T(==)>(s: seq<T>, x: T): (r: seq<T>)
    ensures x !in s ==> r == s
    ensures x in s ==> |r| == |s| - 1
    ensures multiset(r) == multiset(s) - multiset{x}
  {
    if s == [] then []
    else if s[0] == x then
      assert s == [s[0]] + s[1..];
      s[1..]
    else
      assert s == [s[0]] + s[1..];
      [s[0]] + RemoveFirst(s[1..], x)
  }

  /** What RemoveFirst removes is the first occurrence: when position i holds x and
      no earlier one does, the result is s without position i. */
  lemma {:induction false} RemoveFirstAt<T>(s: seq<T>, x: T, i: int)
    requires 0 <= i < |s| && s[i] == x && x !in s[..i]
    ensures RemoveFirst(s, x) == s[..i] + s[i + 1..]
  {
    if i == 0 {
      assert s[..0] + s[1..] == s[1..];
    } else {
      assert s[0] in s[..i];
      var tail := s[1..];
      assert s[..i] == [s[0]] + tail[..i - 1];
      assert tail[i - 1] == x && x !in tail[..i - 1];
      RemoveFirstAt(tail, x, i - 1);
      assert s[i + 1..] == tail[i..];
    }
  }

  /** Removing an element keeps a list free of duplicates, and afterwards the element
      is gone. */
  lemma {:induction false} RemoveFirstNoDuplicates<T>(s: seq<T>, x: T)
    requires NoDuplicates(s)
    ensures NoDuplicates(RemoveFirst(s, x))
    ensures x !in RemoveFirst(s, x)
  {
    if s != [] {
      assert NoDuplicates(s[1..]);
      if s[0] == x {
        assert forall i :: 0 < i < |s| ==> s[i] != s[0];
      } else {
        RemoveFirstNoDuplicates(s[1..], x);
        var r := RemoveFirst(s[1..], x);
        assert s[0] !in s[1..];
        assert multiset(r)[s[0]] == 0;
      }
    }
  }
}
