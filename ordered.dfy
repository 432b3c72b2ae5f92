/** Sequences used as insertion-ordered sets: the members of a room (a
    JavaScript `Set`) and the key order of the room directory (a JavaScript
    `Map`), both of which enumerate in insertion order. */
module Ordered {

  /** No element occurs twice. */
  ghost predicate NoDup<T>(s: seq<T>)
  {
    forall i, j :: 0 <= i < j < |s| ==> s[i] != s[j]
  }

  /** `Set.prototype.delete` on an insertion-ordered set: drops the
      occurrence of `x` and keeps the rest in order. */
  function Remove<T(==)>(s: seq<T>, x: T): (r: seq<T>)
    ensures x !in s ==> r == s
    ensures x in s ==> |r| == |s| - 1
    ensures forall y :: y in r ==> y in s
    ensures forall y :: y in s && y != x ==> y in r
    ensures NoDup(s) ==> NoDup(r) && x !in r
  {
    if s == [] then []
    else
      NoDupTail(s);
      if s[0] == x then s[1..]
      else [s[0]] + Remove(s[1..], x)
  }

  /** The tail of a duplicate-free sequence is duplicate-free and does not
      contain the head. */
  lemma NoDupTail<T>(s: seq<T>)
    requires s != []
    ensures NoDup(s) ==> NoDup(s[1..]) && s[0] !in s[1..]
  {
    forall k | 0 <= k < |s| - 1
      ensures s[1..][k] == s[k + 1]
    {
    }
  }

  /** In a duplicate-free sequence, the element at `i` is not among those before it. */
  lemma PrefixStep<T>(s: seq<T>, i: nat)
    requires i < |s| && NoDup(s)
    ensures s[..i + 1] == s[..i] + [s[i]] && s[i] !in s[..i]
  {
  }
}
