/** The in-memory store's queue: a binary heap of shared entries, each of which
    records its own position. The sift loops are those of Go's `container/heap`,
    run over this queue's Less, Swap, Push and Pop. */
module MemHeap {
  import opened Jobs

  // ----- what the sift loops compute, on a snapshot of the queue

  /** One heap position: the entry found there and its job. */
  datatype Slot<T> = Slot(item: T, job: Job)

  ghost function Zip<T>(items: seq<T>, jobs: seq<Job>): (s: seq<Slot<T>>)
    requires |items| == |jobs|
  {
    seq(|items|, i requires 0 <= i < |items| => Slot(items[i], jobs[i]))
  }

  function Parent(k: nat): nat
    requires 0 < k
  {
    (k - 1) / 2
  }

  function Swapped<T>(s: seq<T>, i: nat, j: nat): seq<T>
    requires i < |s| && j < |s|
  {
    s[i := s[j]][j := s[i]]
  }

  function SiftUp<T>(s: seq<Slot<T>>, j: nat): seq<Slot<T>>
    requires j < |s|
    decreases j
  {
    if j == 0 || !Before(s[j].job, s[Parent(j)].job) then s
    else SiftUp(Swapped(s, Parent(j), j), Parent(j))
  }

  function EarlierChild<T>(s: seq<Slot<T>>, i: nat, n: nat): (j: nat)
    requires 2 * i + 1 < n <= |s|
    ensures i < j < n && Parent(j) == i
  {
    if 2 * i + 2 < n && Before(s[2 * i + 2].job, s[2 * i + 1].job) then 2 * i + 2 else 2 * i + 1
  }

  /** Does the first comparison of sifting i down move it? */
  predicate Sinks<T>(s: seq<Slot<T>>, i: nat, n: nat)
    requires n <= |s|
  {
    2 * i + 1 < n && Before(s[EarlierChild(s, i, n)].job, s[i].job)
  }

  function SiftDown<T>(s: seq<Slot<T>>, i: nat, n: nat): seq<Slot<T>>
    requires n <= |s|
    decreases n - i
  {
    if !Sinks(s, i, n) then s
    else var j := EarlierChild(s, i, n); SiftDown(Swapped(s, i, j), j, n)
  }

  /** Down, and if that moved nothing, up: how one changed position is repaired. */
  function Repaired<T>(s: seq<Slot<T>>, i: nat, n: nat): seq<Slot<T>>
    requires i < n <= |s|
  {
    if Sinks(s, i, n) then SiftDown(s, i, n) else SiftUp(s, i)
  }

  // ----- heap order

  /** The heap order holds between position k and its parent. */
  predicate Ordered<T>(s: seq<Slot<T>>, k: nat)
    requires k < |s|
  {
    k == 0 || !Before(s[k].job, s[Parent(k)].job)
  }

  /** Heap order on the first n positions. */
  ghost predicate IsHeap<T>(s: seq<Slot<T>>, n: nat)
    requires n <= |s|
  {
    forall k :: 0 <= k < n ==> Ordered(s, k)
  }

  /** ... except between i and its parent. */
  ghost predicate OrderedBut<T>(s: seq<Slot<T>>, i: nat, n: nat)
    requires i < n <= |s|
  {
    && (forall k :: 0 <= k < n && k != i ==> Ordered(s, k))
    && Bridged(s, i, n)
  }

  /** ... except between i and its parent and between i and its children. */
  ghost predicate OrderedAround<T>(s: seq<Slot<T>>, i: nat, n: nat)
    requires i < n <= |s|
  {
    && (forall k :: 0 < k < n && k != i && Parent(k) != i ==> Ordered(s, k))
    && Bridged(s, i, n)
  }

  /** The children of i do not precede i's parent. */
  ghost predicate Bridged<T>(s: seq<Slot<T>>, i: nat, n: nat)
    requires i < n <= |s|
  {
    0 < i ==> forall k :: 0 < k < n && Parent(k) == i ==> !Before(s[k].job, s[Parent(i)].job)
  }

  /** s and t agree from n on. */
  ghost predicate SameFrom<T>(s: seq<Slot<T>>, t: seq<Slot<T>>, n: nat) {
    |t| == |s| && forall k :: n <= k < |s| ==> t[k] == s[k]
  }

  lemma SwapUp<T>(s: seq<Slot<T>>, j: nat, n: nat)
    requires 0 < j < n <= |s| && Before(s[j].job, s[Parent(j)].job) && OrderedBut(s, j, n)
    ensures OrderedBut(Swapped(s, Parent(j), j), Parent(j), n)
  {
    var i := Parent(j);
    var t := Swapped(s, i, j);
    forall k | 0 <= k < n && k != i ensures Ordered(t, k) {
      if k != 0 && k != j { assert Ordered(s, k); }
    }
    if 0 < i {
      assert Ordered(s, i);
      forall k | 0 < k < n && Parent(k) == i ensures !Before(t[k].job, t[Parent(i)].job) {
        if k != j { assert Ordered(s, k); }
      }
    }
  }

  lemma {:induction false} SiftUpHeap<T>(s: seq<Slot<T>>, j: nat, n: nat)
    requires j < n <= |s| && OrderedBut(s, j, n)
    ensures SameFrom(s, SiftUp(s, j), n) && IsHeap(SiftUp(s, j), n)
    decreases j
  {
    if j == 0 || !Before(s[j].job, s[Parent(j)].job) {
      assert Ordered(s, j);
    } else {
      SwapUp(s, j, n);
      SiftUpHeap(Swapped(s, Parent(j), j), Parent(j), n);
    }
  }

  /** After one swap downwards, order holds everywhere but around the child. */
  lemma SwapDown<T>(s: seq<Slot<T>>, i: nat, n: nat)
    requires i < n <= |s| && Sinks(s, i, n) && OrderedAround(s, i, n)
    ensures var j := EarlierChild(s, i, n); var t := Swapped(s, i, j);
      && Ordered(t, i)
      && OrderedAround(t, j, n)
      && Ordered(t, j)
  {
    var j := EarlierChild(s, i, n);
    var t := Swapped(s, i, j);
    forall k | 0 < k < n && k != j && Parent(k) != j ensures Ordered(t, k) {
      if k != i && Parent(k) != i { assert Ordered(s, k); }
    }
    forall k | 0 < k < n && Parent(k) == j ensures !Before(t[k].job, t[i].job) {
      assert Ordered(s, k);
    }
  }

  /** If nothing moves, i is in order with its children. */
  lemma NoSink<T>(s: seq<Slot<T>>, i: nat, n: nat)
    requires i < n <= |s| && !Sinks(s, i, n) && OrderedAround(s, i, n)
    ensures OrderedBut(s, i, n)
  {
    forall k | 0 <= k < n && k != i ensures Ordered(s, k) {
      if 0 < k && Parent(k) == i { assert k == 2 * i + 1 || k == 2 * i + 2; }
    }
  }

  lemma {:induction false} SiftDownHeap<T>(s: seq<Slot<T>>, i: nat, n: nat)
    requires i < n <= |s| && OrderedAround(s, i, n) && Ordered(s, i)
    ensures SameFrom(s, SiftDown(s, i, n), n) && IsHeap(SiftDown(s, i, n), n)
    decreases n - i
  {
    if Sinks(s, i, n) {
      var j := EarlierChild(s, i, n);
      SwapDown(s, i, n);
      SiftDownHeap(Swapped(s, i, j), j, n);
    } else {
      NoSink(s, i, n);
    }
  }

  lemma RepairedHeap<T>(s: seq<Slot<T>>, i: nat, n: nat)
    requires i < n <= |s| && OrderedAround(s, i, n)
    ensures SameFrom(s, Repaired(s, i, n), n) && IsHeap(Repaired(s, i, n), n)
  {
    if Sinks(s, i, n) {
      var j := EarlierChild(s, i, n);
      SwapDown(s, i, n);
      SiftDownHeap(Swapped(s, i, j), j, n);
    } else {
      NoSink(s, i, n);
      SiftUpHeap(s, i, n);
    }
  }

  /** Whatever replaces the slot at i, only the order around i is at risk. */
  lemma ReplaceOne<T>(s: seq<Slot<T>>, t: seq<Slot<T>>, i: nat, n: nat)
    requires i < n <= |s| && n <= |t| && IsHeap(s, n)
    requires forall k :: 0 <= k < n && k != i ==> t[k].job == s[k].job
    ensures OrderedAround(t, i, n)
  {
    forall k | 0 < k < n && k != i && Parent(k) != i ensures Ordered(t, k) {
      assert Ordered(s, k);
    }
    if 0 < i {
      forall k | 0 < k < n && Parent(k) == i ensures !Before(t[k].job, t[Parent(i)].job) {
        assert Ordered(s, k) && Ordered(s, i);
      }
    }
  }

  /** The slots left after the one at i is taken out. */
  function Without<T>(s: seq<Slot<T>>, i: nat): (t: seq<Slot<T>>)
    requires i < |s|
  {
    var n := |s| - 1;
    if i == n then s else Repaired(Swapped(s, i, n), i, n)
  }

  lemma WithoutHeap<T>(s: seq<Slot<T>>, i: nat)
    requires i < |s| && IsHeap(s, |s|)
    ensures var t, n := Without(s, i), |s| - 1;
      |t| == |s| && t[n] == s[i] && IsHeap(t[..n], n)
  {
    var n := |s| - 1;
    var t := Without(s, i);
    if i != n {
      ReplaceOne(s, Swapped(s, i, n), i, n);
      RepairedHeap(Swapped(s, i, n), i, n);
    }
    assert IsHeap(t, n);
    forall k | 0 <= k < n ensures Ordered(t[..n], k) {
      assert Ordered(t, k);
    }
  }

  /** No queued job precedes the root. */
  lemma {:induction false} RootIsFirst<T>(s: seq<Slot<T>>, k: nat)
    requires k < |s| && IsHeap(s, |s|)
    ensures !Before(s[k].job, s[0].job)
  {
    if k != 0 {
      RootIsFirst(s, Parent(k));
      assert Ordered(s, k);
    }
  }
}
