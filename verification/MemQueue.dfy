/** The queue object of the in-memory store. Each method is proved to compute the
    corresponding function of MemHeap on the queue's slots. */
module MemQueue {
  import opened Jobs
  import opened MemHeap

  class Entry {
    var job: Job
    var index: int  // position in the queue's heap, or -1 outside it

    constructor (job: Job)
      ensures this.job == job && index == -1
    {
      this.job := job;
      index := -1;
    }
  }

  class QueueHeap {
    var items: seq<Entry>
    ghost var jobs: seq<Job>  // the items' jobs

    constructor ()
      ensures items == [] && Valid()
    {
      items := [];
      jobs := [];
    }

    ghost function Slots(): (s: seq<Slot<Entry>>)
      requires |jobs| == |items|
      reads this
    {
      Zip(items, jobs)
    }

    ghost function Elems(): set<Entry>
      reads this
    {
      set e | e in items
    }

    /** Every back-pointer is the entry's true position, so no entry occurs twice. */
    ghost predicate Synced()
      reads this, items
    {
      && |jobs| == |items|
      && forall i :: 0 <= i < |items| ==> items[i].index == i && items[i].job == jobs[i]
    }

    ghost predicate InHeapOrder()
      reads this
    {
      |jobs| == |items| && IsHeap(Slots(), |items|)
    }

    ghost predicate Valid()
      reads this, items
    {
      Synced() && InHeapOrder()
    }

    predicate Less(i: nat, j: nat)
      requires i < |items| && j < |items|
      reads this, items
    {
      Before(items[i].job, items[j].job)
    }

    method Swap(i: nat, j: nat)
      requires i < |items| && j < |items| && Synced()
      modifies this, Elems()`index
      ensures Synced() && Elems() == old(Elems())
      ensures Slots() == Swapped(old(Slots()), i, j)
    {
      assert items[i] in items && items[j] in items;
      ghost var was := items;
      items := items[i := items[j]][j := items[i]];
      jobs := Swapped(jobs, i, j);
      assert forall k :: 0 <= k < |was| ==> was[k] == items[if k == i then j else if k == j then i else k];
      items[i].index := i;
      items[j].index := j;
    }

    method Up(j0: nat)
      requires j0 < |items| && Synced()
      modifies this, Elems()`index
      ensures Synced() && Elems() == old(Elems())
      ensures Slots() == SiftUp(old(Slots()), j0)
    {
      var j := j0;
      while j != 0 && Less(j, Parent(j))
        invariant 0 <= j < |items|
        invariant Synced() && Elems() == old(Elems())
        invariant SiftUp(Slots(), j) == SiftUp(old(Slots()), j0)
      {
        var i := Parent(j);
        Swap(i, j);
        j := i;
      }
    }

    /** The earlier child of i, and whether it must move up past i. */
    method EarlierOf(i: nat, n: nat) returns (j: nat, sinks: bool)
      requires 2 * i + 1 < n <= |items| && Synced()
      ensures j == EarlierChild(Slots(), i, n) && sinks == Sinks(Slots(), i, n)
    {
      j := 2 * i + 1;
      if j + 1 < n && Less(j + 1, j) {
        j := j + 1;
      }
      sinks := Less(j, i);
    }

    method Down(i0: nat, n: nat) returns (moved: bool)
      requires n <= |items| && Synced()
      modifies this, Elems()`index
      ensures Synced() && Elems() == old(Elems())
      ensures Slots() == SiftDown(old(Slots()), i0, n)
      ensures moved == Sinks(old(Slots()), i0, n)
    {
      var i := i0;
      ghost var s0 := Slots();
      while 2 * i + 1 < n
        invariant i0 <= i && n <= |items|
        invariant Synced() && Elems() == old(Elems())
        invariant SiftDown(Slots(), i, n) == SiftDown(s0, i0, n)
        invariant if i == i0 then Slots() == s0 else Sinks(s0, i0, n)
      {
        var j, sinks := EarlierOf(i, n);
        if !sinks {
          break;
        }
        Swap(i, j);
        i := j;
      }
      moved := i > i0;
    }

    method Push(e: Entry)
      requires Synced() && e !in items
      modifies this, e`index
      ensures items == old(items) + [e] && Synced()
      ensures Slots() == old(Slots()) + [Slot(e, e.job)]
    {
      e.index := |items|;
      items := items + [e];
      jobs := jobs + [e.job];
    }

    method Pop() returns (e: Entry)
      requires items != [] && Synced()
      modifies this, Elems()`index
      ensures e == old(items[|items| - 1]) && e.index == -1
      ensures items == old(items[..|items| - 1]) && Synced()
      ensures Elems() == old(Elems()) - {e}
      ensures Slots() == old(Slots()[..|items| - 1])
    {
      var n := |items|;
      e := items[n - 1];
      assert e in Elems();
      items := items[..n - 1];
      jobs := jobs[..n - 1];
      e.index := -1;
    }

    // ----- container/heap

    method HeapPush(e: Entry)
      requires Valid() && e !in items
      modifies this, Elems()`index, e`index
      ensures Valid() && Elems() == old(Elems()) + {e}
    {
      ghost var s := Slots();
      Push(e);
      var n := |items| - 1;
      forall k | 0 <= k < n ensures Ordered(Slots(), k) {
        assert Ordered(s, k);
      }
      SiftUpHeap(Slots(), n, n + 1);
      Up(n);
    }

    method HeapPop() returns (e: Entry)
      requires Valid() && items != []
      modifies this, Elems()`index
      ensures Valid() && Elems() == old(Elems()) - {e}
      ensures e == old(items[0]) && e.index == -1
      ensures forall x :: x in Elems() ==> !Before(x.job, e.job)
    {
      ghost var s := Slots();
      WithoutHeap(s, 0);
      forall x | x in Elems() ensures !Before(x.job, items[0].job) {
        var k :| 0 <= k < |items| && items[k] == x;
        RootIsFirst(s, k);
      }
      var n := |items| - 1;
      Swap(0, n);
      var _ := Down(0, n);
      assert Slots() == Without(s, 0);
      e := Pop();
    }

    method HeapRemove(i: nat) returns (e: Entry)
      requires Valid() && i < |items|
      modifies this, Elems()`index
      ensures Valid() && Elems() == old(Elems()) - {e}
      ensures e == old(items[i]) && e.index == -1
    {
      WithoutHeap(Slots(), i);
      MoveToEnd(i);
      e := Pop();
    }

    /** Swaps the entry at i with the last and repairs the heap of the others. */
    method MoveToEnd(i: nat)
      requires Synced() && i < |items|
      modifies this, Elems()`index
      ensures Synced() && Elems() == old(Elems())
      ensures Slots() == Without(old(Slots()), i)
    {
      var n := |items| - 1;
      if n != i {
        Swap(i, n);
        Repair(i, n);
      }
    }

    /** Restores the heap after the job at i was changed. */
    method HeapFix(i: nat)
      requires i < |items| && InHeapOrder()
      requires forall k :: 0 <= k < |items| ==> items[k].index == k && (k != i ==> items[k].job == jobs[k])
      modifies this, Elems()`index
      ensures Valid() && Elems() == old(Elems())
    {
      ghost var s := Slots();
      jobs := jobs[i := items[i].job];
      ReplaceOne(s, Slots(), i, |items|);
      RepairedHeap(Slots(), i, |items|);
      Repair(i, |items|);
    }

    method Repair(i: nat, n: nat)
      requires i < n <= |items| && Synced()
      modifies this, Elems()`index
      ensures Synced() && Elems() == old(Elems())
      ensures Slots() == Repaired(old(Slots()), i, n)
    {
      var moved := Down(i, n);
      if !moved {
        Up(i);
      }
    }
  }
}
