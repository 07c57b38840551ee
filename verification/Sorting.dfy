/** Stable sorting in claim order: Postgres's in-place insertion sort, and what any
    stable sort (Go's `sort.SliceStable`) must return. */
module Sorting {
  import opened Insertion
  import opened Jobs

  ghost predicate Sorted(s: seq<Job>) {
    forall i, j :: 0 <= i < j < |s| ==> !Before(s[j], s[i])
  }

  /** The jobs of s that tie with x, in their order in s. */
  ghost function TiedWith(s: seq<Job>, x: Job): seq<Job> {
    if s == [] then []
    else TiedWith(s[..|s| - 1], x) + (if Tied(s[|s| - 1], x) then [s[|s| - 1]] else [])
  }

  /** out is sorted and every group of ties keeps its order (so out is a permutation of s). */
  ghost predicate StableSortOf(s: seq<Job>, out: seq<Job>) {
    Sorted(out) && forall x :: TiedWith(out, x) == TiedWith(s, x)
  }

  function InsertionSort(s: seq<Job>): seq<Job> {
    if s == [] then [] else Insert(Before, InsertionSort(s[..|s| - 1]), s[|s| - 1])
  }

  lemma TiedWithAppend(s: seq<Job>, y: Job, x: Job)
    ensures TiedWith(s + [y], x) == TiedWith(s, x) + (if Tied(y, x) then [y] else [])
  {
    assert (s + [y])[..|s|] == s;
  }

  /** Where Insert puts x. */
  ghost function Gap(s: seq<Job>, x: Job): (k: nat)
    ensures k <= |s|
    ensures forall m :: k <= m < |s| ==> Before(x, s[m])
    ensures k == 0 || !Before(x, s[k - 1])
  {
    if s == [] || !Before(x, s[|s| - 1]) then |s| else Gap(s[..|s| - 1], x)
  }

  lemma InsertSorts(s: seq<Job>, x: Job)
    requires Sorted(s)
    ensures Sorted(Insert(Before, s, x))
  {
    var k := Gap(s, x);
    InsertPoint(Before, s, x, k);
    forall i | 0 <= i < k ensures !Before(x, s[i]) {
      assert i == k - 1 || !Before(s[k - 1], s[i]);
    }
    var r := s[..k] + [x] + s[k..];
    forall i, j | 0 <= i < j < |r| ensures !Before(r[j], r[i]) {
      assert r[i] == if i < k then s[i] else if i == k then x else s[i - 1];
      assert r[j] == if j < k then s[j] else if j == k then x else s[j - 1];
    }
  }

  lemma {:induction false} InsertKeepsTies(s: seq<Job>, y: Job, x: Job)
    ensures TiedWith(Insert(Before, s, y), x) == TiedWith(s + [y], x)
    decreases |s|
  {
    if s != [] && Before(y, s[|s| - 1]) {
      var n := |s| - 1;
      var init, last := s[..n], s[n];
      assert s == init + [last];
      InsertKeepsTies(init, y, x);
      TiedWithAppend(init, y, x);
      TiedWithAppend(init, last, x);
      TiedWithAppend(s, y, x);
      TiedWithAppend(Insert(Before, init, y), last, x);
    }
  }

  /** Insertion sort is a stable sort and a permutation. */
  lemma {:induction false} InsertionSortIsStable(s: seq<Job>)
    ensures StableSortOf(s, InsertionSort(s))
    ensures multiset(InsertionSort(s)) == multiset(s)
    decreases |s|
  {
    if s == [] {
    } else {
      var n := |s| - 1;
      var init, last := s[..n], s[n];
      assert s == init + [last];
      InsertionSortIsStable(init);
      forall x ensures TiedWith(InsertionSort(s), x) == TiedWith(s, x) {
        InsertKeepsTies(InsertionSort(init), last, x);
        TiedWithAppend(InsertionSort(init), last, x);
        TiedWithAppend(init, last, x);
      }
      InsertSorts(InsertionSort(init), last);
      InsertPermutes(Before, InsertionSort(init), last);
    }
  }

  /** A sorted sequence is left as it is. */
  lemma {:induction false} SortedIsFixed(s: seq<Job>)
    requires Sorted(s)
    ensures InsertionSort(s) == s
    decreases |s|
  {
    if s == [] {
    } else {
      var n := |s| - 1;
      assert s == s[..n] + [s[n]];
      SortedIsFixed(s[..n]);
    }
  }

  lemma SortsOneMore(s: seq<Job>, i: nat)
    requires i < |s|
    ensures InsertionSort(s[..i + 1]) == Insert(Before, InsertionSort(s[..i]), s[i])
  {
    assert s[..i + 1][..i] == s[..i];
  }

  method SortJobs(js: array<Job>)
    modifies js
    ensures js[..] == InsertionSort(old(js[..]))
  {
    ghost var s := js[..];
    if js.Length == 0 {
      return;
    }
    SortsOneMore(s, 0);
    assert InsertionSort(s[..1]) == js[..1];
    for i := 1 to js.Length
      invariant js[..i] == InsertionSort(s[..i]) && js[i..] == s[i..]
    {
      SortsOneMore(s, i);
      assert js[i] == js[i..][0] == s[i] && s[i..][1..] == s[i + 1..] && js[i..][1..] == js[i + 1..];
      InsertInPlace(Before, js, i);
    }
    assert js[..js.Length] == js[..] && s[..js.Length] == s;
  }
}
