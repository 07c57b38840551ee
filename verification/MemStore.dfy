/** The in-memory store: a map of shared entries and one indexed heap per queue,
    proved to behave as the plain map of module Table. */
module MemStore {
  import opened Jobs
  import T = Table
  import opened Table
  import opened Sorting
  import opened Claims
  import opened MemHeap
  import opened MemQueue

  /** An entry (or none) filed under an id. */
  datatype File = File(id: JobId, entry: Entry?)

  /** One entry going into a queue's heap, one coming out, or (both null) a change in place. */
  datatype Move = Move(queue: string, entering: Entry?, leaving: Entry?)

  class Store {
    var byID: map<JobId, Entry>
    var queues: map<string, QueueHeap>

    // ----- invariant

    /** The jobs the store holds, as a plain map. */
    ghost function Contents(): Table
      reads this, byID.Values
    {
      map id | id in byID :: byID[id].job
    }

    /** Entry e, queued in q with job j, is a pending job of q and is filed in byID. */
    ghost predicate Filed(q: string, e: Entry, j: Job)
      reads this
    {
      j.queue == q && j.state == Pending && j.id in byID && byID[j.id] == e
    }

    ghost predicate QueueOk(q: string)
      requires q in queues
      reads this, byID.Values, queues.Values
    {
      var h := queues[q];
      && h.InHeapOrder()
      && (forall i :: 0 <= i < |h.items| ==> Filed(q, h.items[i], h.jobs[i]))
      && h.Synced()
    }

    /** A pending entry is in its queue's heap; any other entry is in none. */
    ghost predicate Placed(e: Entry)
      reads this, e, queues.Values
    {
      if e.job.state == Pending then
        && e.job.queue in queues
        && 0 <= e.index < |queues[e.job.queue].items|
        && queues[e.job.queue].items[e.index] == e
      else e.index == -1
    }

    /** The invariant, with entry x taken out of the heaps. */
    ghost predicate ValidBut(x: Entry?)
      reads this, byID.Values, queues.Values
    {
      && (forall id :: id in byID ==> byID[id].job.id == id)
      && (forall q :: q in queues ==> QueueOk(q) && x !in queues[q].items)
      && (forall p, q :: p in queues && q in queues && p != q ==> queues[p] != queues[q])
      && (forall id :: id in byID && byID[id] != x ==> Placed(byID[id]))
    }

    ghost predicate Valid()
      reads this, byID.Values, queues.Values
    {
      ValidBut(null)
    }

    constructor ()
      ensures Valid() && Contents() == map[]
    {
      byID := map[];
      queues := map[];
    }

    // ----- one entry outside the heaps

    /** An entry that is not pending is in no heap. */
    lemma Outside(x: Entry)
      requires Valid() && x in byID.Values && x.job.state != Pending
      ensures ValidBut(x)
    {
      forall q | q in queues ensures x !in queues[q].items {
        var h := queues[q];
        assert forall i :: 0 <= i < |h.items| ==> Filed(q, h.items[i], h.jobs[i]);
      }
    }

    /** Entry x, filed under id and outside the heaps, is replaced by y (null: deleted). */
    twostate lemma Refiled(f: File, new y: Entry?)
      requires old(ValidBut(f.entry)) && queues == old(queues)
      requires forall q :: q in queues ==>
                 queues[q].items == old(queues[q].items) && queues[q].jobs == old(queues[q].jobs)
      requires if f.entry == null then f.id !in old(byID) else f.id in old(byID) && old(byID[f.id]) == f.entry
      requires byID == if y == null then old(byID) - {f.id} else old(byID)[f.id := y]
      requires y != null ==> y.job.id == f.id && (y == f.entry || !old(allocated(y)))
      requires forall k :: k in old(byID) && k != f.id ==>
                 old(byID[k]).job == old(byID[k].job) && old(byID[k]).index == old(byID[k].index)
      ensures ValidBut(y)
    {
      forall k | k in byID && byID[k] != y ensures Placed(byID[k]) {
        assert k != f.id && byID[k] != f.entry && old(Placed(byID[k]));
      }
      forall q | q in queues ensures QueueOk(q) && y !in queues[q].items {
        var h := queues[q];
        assert old(QueueOk(q));
        forall i | 0 <= i < |h.items|
          ensures && Filed(q, h.items[i], h.jobs[i]) && h.items[i] != y
                  && h.items[i].index == i && h.items[i].job == h.jobs[i]
        {
          assert old(Filed(q, h.items[i], h.jobs[i]));
          assert h.items[i] in h.items;
        }
      }
    }

    twostate lemma RefiledContents(f: File, new y: Entry?)
      requires byID == if y == null then old(byID) - {f.id} else old(byID)[f.id := y]
      requires forall k :: k in old(byID) && k != f.id ==> old(byID[k]).job == old(byID[k].job)
      ensures Contents() == if y == null then old(Contents()) - {f.id} else old(Contents())[f.id := y.job]
    {
    }

    twostate lemma SameContents()
      requires byID == old(byID) && forall e :: e in byID.Values ==> e.job == old(e.job)
      ensures Contents() == old(Contents())
    {
    }

    /** Only one heap changed, by one entry at most. */
    twostate predicate HeapChanged(m: Move)
      reads this, byID.Values, queues.Values
    {
      var (q0, x, y) := (m.queue, m.entering, m.leaving);
      && old(ValidBut(x)) && byID == old(byID) && queues == old(queues) && q0 in queues
      && (forall q :: q in queues && q != q0 ==>
            queues[q].items == old(queues[q].items) && queues[q].jobs == old(queues[q].jobs))
      && (forall e :: e in byID.Values ==>
            && e.job.id == old(e.job.id) && e.job.queue == old(e.job.queue) && e.job.state == old(e.job.state)
            && (e in old(queues[q0].Elems()) || (e.job == old(e.job) && (e == x || e.index == old(e.index)))))
      && (x != null ==> x in byID.Values && x.job.state == Pending && x.job.queue == q0)
      && (y != null ==> x == null && y in old(queues[q0].Elems()))
      && queues[q0].Elems() == old(queues[q0].Elems()) - {y} + (if x == null then {} else {x})
      && queues[q0].Elems() <= byID.Values
      && queues[q0].Valid()
    }

    twostate lemma ChangedHeapOk(m: Move)
      requires HeapChanged(m)
      ensures QueueOk(m.queue) && m.leaving !in queues[m.queue].items
    {
      var h := queues[m.queue];
      assert old(QueueOk(m.queue));
      forall i | 0 <= i < |h.items| ensures Filed(m.queue, h.items[i], h.jobs[i]) && h.items[i] != m.leaving {
        var e := h.items[i];
        assert e in h.Elems();
        if e != m.entering {
          var k :| 0 <= k < old(|h.items|) && old(h.items[k]) == e;
          assert old(Filed(m.queue, h.items[k], h.jobs[k]));
        }
      }
    }

    twostate lemma OtherHeapsOk(m: Move)
      requires HeapChanged(m)
      ensures forall q :: q in queues && q != m.queue ==> QueueOk(q) && m.leaving !in queues[q].items
    {
      var h := old(queues[m.queue]);
      assert old(QueueOk(m.queue));
      assert forall k :: 0 <= k < old(|h.items|) ==> old(Filed(m.queue, h.items[k], h.jobs[k]));
      forall q | q in queues && q != m.queue ensures QueueOk(q) && m.leaving !in queues[q].items {
        var g := queues[q];
        assert old(QueueOk(q));
        forall i | 0 <= i < |g.items|
          ensures && Filed(q, g.items[i], g.jobs[i]) && g.items[i] != m.leaving
                  && g.items[i].index == i && g.items[i].job == g.jobs[i]
        {
          var e := g.items[i];
          assert old(Filed(q, g.items[i], g.jobs[i]));
          assert e in g.items && e.job.queue == q;
          assert e !in old(h.Elems()) && e != m.entering && e in byID.Values;
        }
      }
    }

    twostate lemma StillPlaced(m: Move)
      requires HeapChanged(m)
      ensures forall k :: k in byID && byID[k] != m.leaving ==> Placed(byID[k])
    {
      var h := queues[m.queue];
      forall k | k in byID && byID[k] != m.leaving ensures Placed(byID[k]) {
        var e := byID[k];
        assert e == m.entering || old(Placed(e));
        if e.job.state == Pending && e.job.queue == m.queue {
          assert e in h.Elems();
        }
      }
    }

    twostate lemma Requeued(m: Move)
      requires HeapChanged(m)
      ensures ValidBut(m.leaving)
    {
      ChangedHeapOk(m);
      OtherHeapsOk(m);
      StillPlaced(m);
    }

    twostate lemma QueueAdded(new queue: string)
      requires byID == old(byID) && queue !in old(queues) && queue in queues
      requires queues == old(queues)[queue := queues[queue]]
      requires queues[queue].items == [] && queues[queue].jobs == []
      requires forall q :: q in old(queues) ==>
                 queues[q].items == old(queues[q].items) && queues[q].jobs == old(queues[q].jobs)
      requires forall id :: id in byID ==> byID[id].job == old(byID[id].job) && byID[id].index == old(byID[id].index)
      ensures forall q :: q in old(queues) && old(QueueOk(q)) ==> QueueOk(q)
      ensures forall id :: id in byID && old(Placed(byID[id])) ==> Placed(byID[id])
      ensures QueueOk(queue)
    {
      forall q | q in old(queues) && old(QueueOk(q)) ensures QueueOk(q) {
        var h := queues[q];
        forall i | 0 <= i < |h.items|
          ensures Filed(q, h.items[i], h.jobs[i]) && h.items[i].index == i && h.items[i].job == h.jobs[i]
        {
          assert old(Filed(q, h.items[i], h.jobs[i]));
        }
      }
    }

    /** A queue's heap is in order and holds entries of the store. */
    lemma QueueEntries(queue: string, x: Entry?)
      requires ValidBut(x) && queue in queues
      ensures var h := queues[queue]; h.Valid() && h.Elems() <= byID.Values && x !in h.items
    {
      var h := queues[queue];
      assert QueueOk(queue);
      forall e | e in h.Elems()
        ensures e in byID.Values
      {
        var i :| 0 <= i < |h.items| && h.items[i] == e;
        assert Filed(queue, h.items[i], h.jobs[i]);
      }
    }

    /** The queue's heap, created on first use. */
    method Heap(queue: string, ghost x: Entry?) returns (h: QueueHeap)
      requires ValidBut(x)
      modifies this`queues
      ensures ValidBut(x) && queue in queues && queues[queue] == h && Contents() == old(Contents())
      ensures fresh(queues.Values - old(queues.Values))
    {
      if queue !in queues {
        var g := new QueueHeap();
        queues := queues[queue := g];
        QueueAdded(queue);
        assert ValidBut(x);
      }
      h := queues[queue];
    }

    method Detach(x: Entry)
      requires Valid() && x in byID.Values && x.job.state == Pending
      modifies queues.Values, byID.Values`index
      ensures ValidBut(x) && x.index == -1 && Contents() == old(Contents())
    {
      assert Placed(x);
      var h := queues[x.job.queue];
      QueueEntries(x.job.queue, null);
      var _ := h.HeapRemove(x.index);
      Requeued(Move(x.job.queue, null, x));
      SameContents();
    }

    method Attach(x: Entry)
      requires ValidBut(x) && x in byID.Values && x.job.state == Pending && x.job.queue in queues
      modifies queues.Values, byID.Values`index
      ensures Valid() && Contents() == old(Contents())
    {
      var h := queues[x.job.queue];
      QueueEntries(x.job.queue, x);
      h.HeapPush(x);
      Requeued(Move(x.job.queue, x, null));
      SameContents();
    }

    /** heap.Push(s.heap(queue), x) for an entry outside the heaps. */
    method Enqueue(x: Entry)
      requires ValidBut(x) && x in byID.Values && x.job.state == Pending
      modifies this`queues, queues.Values, byID.Values`index
      ensures Valid() && Contents() == old(Contents())
    {
      var _ := Heap(x.job.queue, x);
      Attach(x);
    }

    /** A claimed job gets its final contents and leaves the store. */
    method Finish(x: Entry, j: Job)
      requires Valid() && x in byID.Values && x.job.state == Claimed && j.id == x.job.id
      modifies this`byID, x`job
      ensures Valid() && Contents() == old(Contents()) - {j.id}
    {
      Outside(x);
      x.job := j;
      byID := byID - {j.id};
      Refiled(File(j.id, x), null);
      RefiledContents(File(j.id, x), null);
    }

    /** A claimed job gets its new contents and goes back to its queue. */
    method GiveBack(x: Entry, j: Job)
      requires Valid() && x in byID.Values && x.job.state == Claimed && j.id == x.job.id && j.state == Pending
      modifies this`queues, queues.Values, byID.Values`index, x`job
      ensures Valid() && Contents() == old(Contents())[j.id := j]
    {
      Outside(x);
      x.job := j;
      assert byID == byID[j.id := x];
      Refiled(File(j.id, x), x);
      RefiledContents(File(j.id, x), x);
      Enqueue(x);
    }

    lemma Settled(x: Entry)
      requires ValidBut(x) && x in byID.Values && x.job.state != Pending && x.index == -1
      ensures Valid()
    {
      assert Placed(x);
    }

    // ----- operations

    /** Takes what is filed under id out of its heap, if it is in one. */
    method Vacate(id: JobId) returns (ghost x: Entry?)
      requires Valid()
      modifies queues.Values, byID.Values`index
      ensures ValidBut(x) && x == (if id in byID then byID[id] else null) && Contents() == old(Contents())
    {
      x := null;
      if id in byID {
        var existing := byID[id];
        x := existing;
        if existing.index >= 0 {
          Detach(existing);
        } else {
          Outside(existing);
        }
      }
    }

    /** Files a new entry for j under its id, replacing x. */
    method FileNew(j: Job, ghost x: Entry?) returns (e: Entry)
      requires ValidBut(x) && x == if j.id in byID then byID[j.id] else null
      modifies this`byID
      ensures ValidBut(e) && fresh(e) && e.job == j && e.index == -1
      ensures byID == old(byID)[j.id := e] && Contents() == old(Contents())[j.id := j]
    {
      e := new Entry(j);
      byID := byID[j.id := e];
      Refiled(File(j.id, x), e);
      RefiledContents(File(j.id, x), e);
    }

    method Save(j: Job)
      requires Valid()
      modifies this, queues.Values, byID.Values
      ensures Valid() && Contents() == old(Contents())[j.id := j]
    {
      ghost var x := Vacate(j.id);
      var e := FileNew(j, x);
      assert byID[j.id] == e;
      if j.state == Pending {
        Enqueue(e);
      } else {
        Settled(e);
      }
    }

    method Ack(id: JobId) returns (r: Outcome)
      requires Valid()
      modifies this`byID, byID.Values`job
      ensures Valid() && Reply(Contents(), r) == T.Ack(old(Contents()), id)
    {
      if id !in byID {
        return NotFound;
      }
      var e := byID[id];
      if e.job.state != Claimed {
        return NotFound;
      }
      Finish(e, e.job.(state := Succeeded));
      return Ok;
    }

    method Fail(id: JobId, error: string, nextAttemptAt: Time) returns (r: Outcome)
      requires Valid()
      modifies this, queues.Values, byID.Values
      ensures Valid() && Reply(Contents(), r) == T.Fail(old(Contents()), id, error, nextAttemptAt)
      ensures FailsAs(old(Contents()), id, error, nextAttemptAt, Reply(Contents(), r))
    {
      FailLaw(Contents(), id, error, nextAttemptAt);
      if id !in byID || byID[id].job.state != Claimed {
        return NotFound;
      }
      FailClaimed(id, error, nextAttemptAt);
      return Ok;
    }

    method FailClaimed(id: JobId, error: string, nextAttemptAt: Time)
      requires Valid() && id in byID && byID[id].job.state == Claimed
      modifies this, queues.Values, byID.Values
      ensures Valid()
      ensures var j := old(byID[id].job);
        Contents() == if Exhausts(j) then old(Contents()) - {id}
                      else old(Contents())[id := Retry(j, error, nextAttemptAt)]
    {
      var e := byID[id];
      var j := e.job.(attempt := e.job.attempt + 1, lastError := error);
      if j.maxAttempts > 0 && j.attempt >= j.maxAttempts {
        Finish(e, j.(state := Failed));
      } else {
        GiveBack(e, j.(state := Pending, runAt := nextAttemptAt, lockedBy := "", lockedUntil := ZERO_TIME));
      }
    }

    method Cancel(id: JobId) returns (r: Outcome)
      requires Valid()
      modifies this`byID, queues.Values, byID.Values`index
      ensures Valid() && Reply(Contents(), r) == T.Cancel(old(Contents()), id)
    {
      if id !in byID {
        return NotFound;
      }
      var e := byID[id];
      if e.job.state != Pending {
        return NotPending;
      }
      if e.index >= 0 {
        Detach(e);
      }
      label Filing:
      byID := byID - {id};
      Refiled@Filing(File(id, e), null);
      RefiledContents@Filing(File(id, e), null);
      return Ok;
    }

    method Reschedule(id: JobId, newTime: Time) returns (r: Outcome)
      requires Valid()
      modifies queues.Values, byID.Values
      ensures Valid() && Reply(Contents(), r) == T.Reschedule(old(Contents()), id, newTime)
    {
      if id !in byID {
        return NotFound;
      }
      var e := byID[id];
      if e.job.state != Pending {
        return NotPending;
      }
      Retime(e, newTime);
      assert byID == byID[id := e];
      RefiledContents(File(id, e), e);
      return Ok;
    }

    /** Changes a queued entry's run time in place and repairs its heap. */
    method Retime(e: Entry, newTime: Time)
      requires Valid() && e in byID.Values && e.job.state == Pending
      modifies queues.Values, byID.Values`index, e`job
      ensures Valid() && e.job == old(e.job).(runAt := newTime)
    {
      assert Placed(e);
      var h := queues[e.job.queue];
      QueueEntries(e.job.queue, null);
      e.job := e.job.(runAt := newTime);
      if e.index >= 0 {
        h.HeapFix(e.index);
      }
      Requeued(Move(e.job.queue, null, null));
    }

    method QueueSize(queue: string) returns (n: nat)
      requires Valid()
      ensures n == |PendingIn(Contents(), queue)|
    {
      if queue !in queues {
        NoQueue(queue);
        return 0;
      }
      n := |queues[queue].items|;
      PendingAreQueued(queue);
    }

    lemma NoQueue(queue: string)
      requires Valid() && queue !in queues
      ensures PendingIn(Contents(), queue) == {}
    {
      forall id | id in byID ensures id !in PendingIn(Contents(), queue) {
        assert Placed(byID[id]);
      }
    }

    lemma PendingAreQueued(queue: string)
      requires Valid() && queue in queues
      ensures var ids := IdsOf(queues[queue].jobs);
        Distinct(ids) && Elements(ids) == PendingIn(Contents(), queue)
      ensures |PendingIn(Contents(), queue)| == |queues[queue].items|
    {
      var h := queues[queue];
      var ids := IdsOf(h.jobs);
      assert QueueOk(queue);
      forall i | 0 <= i < |ids| ensures ids[i] in PendingIn(Contents(), queue) && byID[ids[i]] == h.items[i] {
        assert Filed(queue, h.items[i], h.jobs[i]);
      }
      forall id | id in PendingIn(Contents(), queue) ensures id in Elements(ids) {
        var e := byID[id];
        assert Placed(e);
        assert ids[e.index] == id;
      }
      DistinctCard(ids);
    }

    /** No pending job of the queue precedes the heap's root. */
    lemma TopIsFirst(queue: string)
      requires Valid() && queue in queues && queues[queue].items != []
      ensures var top := queues[queue].items[0];
        && top.job.id in PendingIn(Contents(), queue) && byID[top.job.id] == top
        && forall r :: r in PendingIn(Contents(), queue) ==> !Before(Contents()[r], top.job)
    {
      var h := queues[queue];
      assert QueueOk(queue) && Filed(queue, h.items[0], h.jobs[0]);
      forall r | r in PendingIn(Contents(), queue) ensures !Before(Contents()[r], h.items[0].job) {
        assert Placed(byID[r]);
        RootIsFirst(h.Slots(), byID[r].index);
      }
    }

    method PopTop(queue: string) returns (top: Entry)
      requires Valid() && queue in queues && queues[queue].items != []
      modifies queues.Values, byID.Values`index
      ensures ValidBut(top) && top == old(queues[queue].items[0]) && top.index == -1
      ensures top in byID.Values && Contents() == old(Contents())
    {
      var h := queues[queue];
      QueueEntries(queue, null);
      top := h.HeapPop();
      Requeued(Move(queue, null, top));
      SameContents();
    }

    /** One round of the claim loop: pops the root and marks it claimed. */
    method ClaimTop(r: Request) returns (j: Job)
      requires Valid() && r.queue in queues && queues[r.queue].items != []
      modifies queues.Values, byID.Values
      ensures Valid()
      ensures j == Claim(old(queues[r.queue].items[0].job), r)
      ensures Contents() == old(Contents())[j.id := j]
    {
      var top := PopTop(r.queue);
      j := MarkClaimed(top, r);
    }

    method MarkClaimed(top: Entry, r: Request) returns (j: Job)
      requires ValidBut(top) && top in byID.Values && top.index == -1
      modifies top`job
      ensures Valid() && j == Claim(old(top.job), r) && Contents() == old(Contents())[j.id := j]
    {
      top.job := top.job.(state := Claimed, lockedBy := r.worker, lockedUntil := r.until, updatedAt := r.now);
      j := top.job;
      assert byID == byID[j.id := top];
      Refiled(File(j.id, top), top);
      RefiledContents(File(j.id, top), top);
      Settled(top);
    }

    /** The claim loop: pops until it has n jobs, the queue is empty or the root is not due. */
    method PopDue(r: Request, ghost t: Table) returns (out: seq<Job>)
      requires Valid() && r.queue in queues && t == Contents()
      modifies queues.Values, byID.Values
      ensures Valid() && Popped(t, r, Contents(), out)
      ensures TopN(t, Unblocked(t, r.queue, r.now), r.n, IdsOf(out)) && InsertionSort(out) == out
    {
      out := [];
      NothingPopped(t, r);
      while |out| < r.n && |queues[r.queue].items| > 0
        invariant Valid() && queues == old(queues) && byID == old(byID)
        invariant |out| <= r.n && Popped(t, r, Contents(), out)
      {
        TopIsFirst(r.queue);
        var top := queues[r.queue].items[0];
        if top.job.runAt > r.now {
          break;
        }
        PopOneMore(t, r, Contents(), out, top.job);
        var j := ClaimTop(r);
        out := out + [j];
      }
      if |queues[r.queue].items| == 0 {
        PendingAreQueued(r.queue);
      }
      PopsDone(t, r, Contents(), out);
    }

    method ClaimDue(r: Request) returns (out: seq<Job>)
      requires Valid()
      modifies queues.Values, byID.Values
      ensures Valid()
      ensures TopN(old(Contents()), Unblocked(old(Contents()), r.queue, r.now), r.n, IdsOf(out))
      ensures Contents() == ClaimAll(old(Contents()), Elements(IdsOf(out)), r)
      ensures LocksExactly(old(Contents()), Elements(IdsOf(out)), r, Contents())
      ensures forall j :: j in out ==> j.id in Contents() && Contents()[j.id] == j
    {
      if r.queue !in queues {
        NoQueue(r.queue);
        NothingPopped(Contents(), r);
        PopsDone(Contents(), r, Contents(), []);
        return [];
      }
      out := PopDue(r, Contents());
      ClaimLocks(old(Contents()), Elements(IdsOf(out)), r);
      out := InsertionSort(out);
    }
  }
}
