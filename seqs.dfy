/** Sequence helpers shared by the task ledger and the retry store:
    a linear search that behaves like `std::find`, and removal of the
    first matching element, as `vector::erase(find(...))` does. */
module Seqs {

  /** Index of the first element equal to `x`, or `|s|` (the end
      iterator) when there is none. */
  function Find<T(==)>(s: seq<T>, x: T): (k: nat)
    ensures k <= |s|
    ensures k < |s| ==> s[k] == x
    ensures forall j :: 0 <= j < k ==> s[j] != x
    ensures k == |s| <==> x !in s
  {
    if s == [] then 0
    else if s[0] == x then 0
    else 1 + Find(s[1..], x)
  }

  /** `s` without its first occurrence of `x`; `s` itself when `x` does not
      occur. */
  function RemoveFirst<T(==)>(s: seq<T>, x: T): (r: seq<T>)
    ensures x !in s ==> r == s
    ensures x in s ==> |r| == |s| - 1 && multiset(r) == multiset(s) - multiset{x}
    ensures x in s ==> exists k :: 0 <= k < |s| && s[k] == x && x !in s[..k] && r == s[..k] + s[k + 1..]
  {
    var k := Find(s, x);
    if k == |s| then s
    else
      assert s == s[..k] + [s[k]] + s[k + 1..];
      assert x !in s[..k];
      s[..k] + s[k + 1..]
  }

  /** Removing the element at `k` shifts every later element down by one. */
  lemma RemoveAtShifts<T>(s: seq<T>, k: nat)
    requires k < |s|
    ensures var r := s[..k] + s[k + 1..];
      && |r| == |s| - 1
      && forall i :: 0 <= i < |r| ==> r[i] == s[if i < k then i else i + 1]
  {
  }

  /** A search that starts past a prefix free of `x` lands past that prefix. */
  lemma {:induction false} FindPastPrefix<T>(a: seq<T>, b: seq<T>, x: T)
    requires x !in a
    ensures Find(a + b, x) == |a| + Find(b, x)
  {
    if a == [] {
      assert a + b == b;
    } else {
      assert (a + b)[0] == a[0] != x;
      assert (a + b)[1..] == a[1..] + b;
      FindPastPrefix(a[1..], b, x);
    }
  }
}
