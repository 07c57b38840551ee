/** Stable insertion into a sequence, and in place into the front of an array: one round of insertion sort,
    and all that a stable sort has to do after one element was appended. */
module Insertion {

  /** Inserts x after everything that x does not precede. */
  function Insert<T>(less: (T, T) -> bool, s: seq<T>, x: T): seq<T> {
    if s == [] || !less(x, s[|s| - 1]) then s + [x]
    else Insert(less, s[..|s| - 1], x) + [s[|s| - 1]]
  }

  /** Insert puts x right after position k - 1 when x precedes everything from k on and nothing there. */
  lemma {:induction false} InsertPoint<T>(less: (T, T) -> bool, s: seq<T>, x: T, k: nat)
    requires k <= |s|
    requires forall m :: k <= m < |s| ==> less(x, s[m])
    requires k == 0 || !less(x, s[k - 1])
    ensures Insert(less, s, x) == s[..k] + [x] + s[k..]
    decreases |s|
  {
    if k == |s| {
      assert s[..k] == s;
    } else {
      var n := |s| - 1;
      InsertPoint(less, s[..n], x, k);
      assert s[..n][..k] == s[..k] && s[k..] == s[..n][k..] + [s[n]];
    }
  }

  lemma {:induction false} InsertPermutes<T>(less: (T, T) -> bool, s: seq<T>, x: T)
    ensures multiset(Insert(less, s, x)) == multiset(s) + multiset{x}
    decreases |s|
  {
    if s == [] || !less(x, s[|s| - 1]) {
    } else {
      InsertPermutes(less, s[..|s| - 1], x);
      assert s == s[..|s| - 1] + [s[|s| - 1]];
    }
  }

  /** t is s with s[i] taken out and put back at k, before what it precedes. */
  ghost predicate MovedBack<T>(less: (T, T) -> bool, s: seq<T>, t: seq<T>, i: nat, k: nat)
    requires k <= i < |s| == |t|
  {
    && t[k] == s[i] && (k == 0 || !less(s[i], s[k - 1]))
    && (forall m {:trigger s[m]} :: k <= m < i ==> less(s[i], s[m]))
    && (forall m {:trigger t[m]} :: 0 <= m < |t| && m != k ==> t[m] == if k < m <= i then s[m - 1] else s[m])
  }

  lemma MovedBackIsInsert<T>(less: (T, T) -> bool, s: seq<T>, t: seq<T>, i: nat, k: nat)
    requires k <= i < |s| == |t| && MovedBack(less, s, t, i, k)
    ensures t[..i + 1] == Insert(less, s[..i], s[i]) && t[i + 1..] == s[i + 1..]
  {
    var r := s[..i];
    InsertPoint(less, r, s[i], k);
    assert t[..i + 1] == r[..k] + [s[i]] + r[k..];
  }

  /** The inner loop: shifts what a[i] precedes one place right and drops a[i] into the gap. */
  method ShiftBack<T>(less: (T, T) -> bool, a: array<T>, i: nat) returns (k: nat)
    requires i < a.Length
    modifies a
    ensures k <= i && MovedBack(less, old(a[..]), a[..], i, k)
  {
    ghost var s := a[..];
    var x := a[i];
    k := i;
    while 0 < k && less(x, a[k - 1])
      invariant k <= i
      invariant forall m {:trigger s[m]} :: k <= m < i ==> less(x, s[m])
      invariant forall m {:trigger a[m]} :: 0 <= m < a.Length && m != k ==>
                  a[m] == if k < m <= i then s[m - 1] else s[m]
    {
      a[k] := a[k - 1];
      k := k - 1;
    }
    a[k] := x;
  }

  method InsertInPlace<T>(less: (T, T) -> bool, a: array<T>, i: nat)
    requires i < a.Length
    modifies a
    ensures a[..i + 1] == Insert(less, old(a[..i]), old(a[i]))
    ensures a[i + 1..] == old(a[i + 1..])
  {
    ghost var s := a[..];
    assert s[..i] == a[..i] && s[i + 1..] == a[i + 1..];
    var k := ShiftBack(less, a, i);
    MovedBackIsInsert(less, s, a[..], i, k);
    assert a[..][..i + 1] == a[..i + 1] && a[..][i + 1..] == a[i + 1..];
  }
}
