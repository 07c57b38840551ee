/** What a claim returns, stated once for every backend. */
module Claims {
  import opened Jobs
  import opened Table
  import opened Sorting

  function Min(a: nat, b: nat): nat {
    if a < b then a else b
  }

  ghost predicate Distinct<T>(s: seq<T>) {
    forall i, j :: 0 <= i < j < |s| ==> s[i] != s[j]
  }

  ghost function Elements<T>(s: seq<T>): set<T> {
    set x | x in s
  }

  /** ids are the first n of the candidates in claim order, in that order; jobs that tie may come in any order. */
  ghost predicate TopN(t: Table, candidates: set<JobId>, n: nat, ids: seq<JobId>)
    requires candidates <= t.Keys
  {
    && Distinct(ids)
    && Elements(ids) <= candidates
    && |ids| == Min(n, |candidates|)
    && (forall i, j :: 0 <= i < j < |ids| ==> !Before(t[ids[j]], t[ids[i]]))
    && (forall id, i :: id in candidates - Elements(ids) && 0 <= i < |ids| ==> !Before(t[id], t[ids[i]]))
  }

  lemma {:induction false} DistinctCard<T>(s: seq<T>)
    requires Distinct(s)
    ensures |Elements(s)| == |s|
    decreases |s|
  {
    if s == [] {
    } else {
      var n := |s| - 1;
      DistinctCard(s[..n]);
      assert Elements(s) == Elements(s[..n]) + {s[n]};
    }
  }

  lemma SubsetCard<T>(a: set<T>, b: set<T>)
    requires a <= b
    ensures |a| <= |b| && (|a| == |b| ==> a == b)
  {
    assert b == a + (b - a);
  }

  /** At no position does one claim hold a job that comes strictly before the other claim's. */
  lemma NotAhead(t: Table, candidates: set<JobId>, n: nat, a: seq<JobId>, b: seq<JobId>, i: nat)
    requires candidates <= t.Keys && TopN(t, candidates, n, a) && TopN(t, candidates, n, b)
    requires i < |a|
    ensures !Before(t[a[i]], t[b[i]])
  {
    if Before(t[a[i]], t[b[i]]) {
      var ahead := Elements(a[..i + 1]);
      forall id | id in ahead ensures id in Elements(b[..i]) {
        var k :| 0 <= k <= i && a[k] == id;
        assert Before(t[id], t[b[i]]);
        assert id in Elements(a);
        var m :| 0 <= m < |b| && b[m] == id;
        assert m < i;
        assert b[..i][m] == id;
      }
      DistinctCard(a[..i + 1]);
      DistinctCard(b[..i]);
      SubsetCard(ahead, Elements(b[..i]));
    }
  }

  /** Two claims over the same candidates agree up to ties. */
  lemma SameUpToTies(t: Table, candidates: set<JobId>, n: nat, a: seq<JobId>, b: seq<JobId>)
    requires candidates <= t.Keys && TopN(t, candidates, n, a) && TopN(t, candidates, n, b)
    ensures |a| == |b| && forall i :: 0 <= i < |a| ==> Tied(t[a[i]], t[b[i]])
  {
    forall i | 0 <= i < |a| ensures Tied(t[a[i]], t[b[i]]) {
      NotAhead(t, candidates, n, a, b, i);
      NotAhead(t, candidates, n, b, a, i);
    }
  }

  // ----- filter, sort, take

  ghost function IdsOf(js: seq<Job>): (ids: seq<JobId>)
    ensures |ids| == |js| && forall i :: 0 <= i < |js| ==> ids[i] == js[i].id
  {
    seq(|js|, i requires 0 <= i < |js| => js[i].id)
  }

  /** js lists exactly the jobs of the candidates, each once. */
  ghost predicate Lists(t: Table, candidates: set<JobId>, js: seq<Job>)
    requires candidates <= t.Keys
  {
    && Distinct(IdsOf(js))
    && Elements(IdsOf(js)) == candidates
    && forall j :: j in js ==> t[j.id] == j
  }

  /** A permutation lists the same jobs. */
  lemma PermutationLists(t: Table, candidates: set<JobId>, js: seq<Job>, out: seq<Job>)
    requires candidates <= t.Keys && Lists(t, candidates, js) && multiset(out) == multiset(js)
    ensures Lists(t, candidates, out)
  {
    assert forall j :: j in out <==> j in multiset(out);
    assert forall j :: j in js <==> j in multiset(js);
    forall i, k | 0 <= i < k < |out| ensures out[i].id != out[k].id {
      if out[i].id == out[k].id {
        TwicePresent(out, i, k);
        OncePresent(js, out[i]);
      }
    }
    SameIds(js, out);
    SameIds(out, js);
  }

  lemma SameIds(a: seq<Job>, b: seq<Job>)
    requires forall j :: j in a ==> j in b
    ensures Elements(IdsOf(a)) <= Elements(IdsOf(b))
  {
    forall id | id in Elements(IdsOf(a))
      ensures id in Elements(IdsOf(b))
    {
      var k :| 0 <= k < |a| && IdsOf(a)[k] == id;
      assert a[k] in b;
      var m :| 0 <= m < |b| && b[m] == a[k];
      assert IdsOf(b)[m] == id;
    }
  }

  lemma ListsOneMore(t: Table, listed: set<JobId>, rows: seq<Job>, id: JobId)
    requires Keyed(t) && listed <= t.Keys && id in t && id !in listed && Lists(t, listed, rows)
    ensures Lists(t, listed + {id}, rows + [t[id]])
  {
    var ids := IdsOf(rows);
    assert IdsOf(rows + [t[id]]) == ids + [id];
    assert Elements(ids + [id]) == Elements(ids) + {id};
    assert forall i :: 0 <= i < |ids| ==> ids[i] in Elements(ids);
  }

  lemma TwicePresent(s: seq<Job>, i: nat, k: nat)
    requires i < k < |s| && s[i] == s[k]
    ensures multiset(s)[s[i]] >= 2
  {
    assert s == s[..i] + [s[i]] + s[i + 1..k] + [s[k]] + s[k + 1..];
  }

  lemma {:induction false} OncePresent(s: seq<Job>, x: Job)
    requires Distinct(IdsOf(s))
    ensures multiset(s)[x] <= 1
    decreases |s|
  {
    if s == [] {
    } else {
      var n := |s| - 1;
      assert s == s[..n] + [s[n]];
      assert forall i :: 0 <= i < n ==> IdsOf(s[..n])[i] == IdsOf(s)[i];
      OncePresent(s[..n], x);
      assert forall m :: 0 <= m < n ==> IdsOf(s)[m] != IdsOf(s)[n];
    }
  }

  /** `ORDER BY priority DESC, run_at ASC LIMIT n` over the rows in any scan order. */
  lemma SortTakeIsTopN(t: Table, candidates: set<JobId>, rows: seq<Job>, n: nat)
    requires candidates <= t.Keys && Lists(t, candidates, rows)
    ensures TopN(t, candidates, n, IdsOf(InsertionSort(rows)[..Min(n, |InsertionSort(rows)|)]))
  {
    InsertionSortIsStable(rows);
    PermutationLists(t, candidates, rows, InsertionSort(rows));
    SortedTake(t, candidates, InsertionSort(rows), n);
  }

  lemma SortedTake(t: Table, candidates: set<JobId>, sorted: seq<Job>, n: nat)
    requires candidates <= t.Keys && Sorted(sorted)
    requires Lists(t, candidates, sorted)
    ensures TopN(t, candidates, n, IdsOf(sorted[..Min(n, |sorted|)]))
  {
    var k := Min(n, |sorted|);
    var ids := IdsOf(sorted[..k]);
    assert forall i :: 0 <= i < k ==> ids[i] == IdsOf(sorted)[i] && t[ids[i]] == sorted[i];
    DistinctCard(IdsOf(sorted));
    forall id, i | id in candidates - Elements(ids) && 0 <= i < |ids| ensures !Before(t[id], t[ids[i]]) {
      var m :| 0 <= m < |sorted| && IdsOf(sorted)[m] == id;
      assert id !in ids;
      assert t[id] == sorted[m];
    }
  }

  /** Reordering a claim into claim order gives a claim. */
  lemma ReorderedClaim(t: Table, candidates: set<JobId>, n: nat, ids: seq<JobId>, out: seq<JobId>)
    requires candidates <= t.Keys && TopN(t, candidates, n, ids)
    requires Distinct(out) && Elements(out) == Elements(ids)
    requires forall i, j :: 0 <= i < j < |out| ==> !Before(t[out[j]], t[out[i]])
    ensures TopN(t, candidates, n, out)
  {
    DistinctCard(ids);
    DistinctCard(out);
    forall id, i | id in candidates - Elements(out) && 0 <= i < |out| ensures !Before(t[id], t[out[i]]) {
      assert out[i] in Elements(ids);
      var m :| 0 <= m < |ids| && ids[m] == out[i];
    }
  }

  /** Claiming from one group and then, with what is left of n, from a later group. */
  lemma TopNAppend(t: Table, a: set<JobId>, b: set<JobId>, n: nat, x: seq<JobId>, y: seq<JobId>)
    requires a <= t.Keys && b <= t.Keys && a !! b
    requires forall i, j :: i in a && j in b ==> !Before(t[j], t[i])
    requires TopN(t, a, n, x) && TopN(t, b, n - |x|, y)
    ensures TopN(t, a + b, n, x + y)
  {
    AppendCount(a, b, n, x, y);
    AppendInOrder(t, a, b, x, y);
    AllOfGroup(t, a, n, x);
    AppendAhead(t, a, b, x, y);
  }

  /** The two claims together take min(n, |a + b|) of both groups. */
  lemma AppendCount(a: set<JobId>, b: set<JobId>, n: nat, x: seq<JobId>, y: seq<JobId>)
    requires a !! b && Elements(x) <= a && Elements(y) <= b
    requires |x| == Min(n, |a|) && |y| == Min(n - |x|, |b|)
    ensures |x + y| == Min(n, |a + b|) && Elements(x + y) <= a + b
  {
    assert |a + b| == |a| + |b|;
    assert Elements(x + y) == Elements(x) + Elements(y);
  }

  /** What neither claim took comes before nothing that either took, if the first is complete or the second empty. */
  lemma AppendAhead(t: Table, a: set<JobId>, b: set<JobId>, x: seq<JobId>, y: seq<JobId>)
    requires a <= t.Keys && b <= t.Keys && Elements(x) <= a && Elements(y) <= b && (y == [] || Elements(x) == a)
    requires forall i, j :: i in a && j in b ==> !Before(t[j], t[i])
    requires forall id, i :: id in a - Elements(x) && 0 <= i < |x| ==> !Before(t[id], t[x[i]])
    requires forall id, i :: id in b - Elements(y) && 0 <= i < |y| ==> !Before(t[id], t[y[i]])
    ensures forall i :: 0 <= i < |x + y| ==> (x + y)[i] in t
    ensures forall id, i :: id in (a + b) - Elements(x + y) && 0 <= i < |x + y| ==> !Before(t[id], t[(x + y)[i]])
  {
    assert Elements(x + y) == Elements(x) + Elements(y);
    assert forall i :: 0 <= i < |x| ==> x[i] in Elements(x);
    assert forall i :: 0 <= i < |y| ==> y[i] in Elements(y);
  }

  lemma AppendInOrder(t: Table, a: set<JobId>, b: set<JobId>, x: seq<JobId>, y: seq<JobId>)
    requires a <= t.Keys && b <= t.Keys && a !! b && Elements(x) <= a && Elements(y) <= b
    requires forall i, j :: i in a && j in b ==> !Before(t[j], t[i])
    requires Distinct(x) && forall i, j :: 0 <= i < j < |x| ==> !Before(t[x[j]], t[x[i]])
    requires Distinct(y) && forall i, j :: 0 <= i < j < |y| ==> !Before(t[y[j]], t[y[i]])
    ensures Distinct(x + y)
    ensures forall i :: 0 <= i < |x + y| ==> (x + y)[i] in t
    ensures forall i, j :: 0 <= i < j < |x + y| ==> !Before(t[(x + y)[j]], t[(x + y)[i]])
  {
    assert forall i :: 0 <= i < |x| ==> x[i] in Elements(x);
    assert forall i :: 0 <= i < |y| ==> y[i] in Elements(y);
  }

  /** A claim that stops short of n has taken every candidate. */
  lemma AllOfGroup(t: Table, candidates: set<JobId>, n: nat, ids: seq<JobId>)
    requires candidates <= t.Keys && TopN(t, candidates, n, ids)
    ensures |ids| < n ==> Elements(ids) == candidates
  {
    DistinctCard(ids);
    SubsetCard(Elements(ids), candidates);
  }

  // ----- the in-memory store stops at the first job that is not due

  /** Due jobs that no not-yet-due job of the queue comes before. */
  function Unblocked(t: Table, queue: string, now: Time): set<JobId> {
    set id | id in Due(t, queue, now)
             && forall f :: f in PendingIn(t, queue) - Due(t, queue, now) ==> !Before(t[f], t[id])
  }

  /** A future job of strictly higher priority hides a due one; nothing else does. */
  lemma UnblockedIsDue(t: Table, queue: string, now: Time)
    ensures Unblocked(t, queue, now) == Due(t, queue, now)
       <==> forall f, d :: f in PendingIn(t, queue) && now < t[f].runAt && d in Due(t, queue, now)
              ==> t[f].priority <= t[d].priority
  {
    var due, future := Due(t, queue, now), PendingIn(t, queue) - Due(t, queue, now);
    forall f, d | f in future && d in due ensures Before(t[f], t[d]) <==> t[f].priority > t[d].priority {
    }
    if Unblocked(t, queue, now) == due {
      forall f, d | f in PendingIn(t, queue) && now < t[f].runAt && d in due
        ensures t[f].priority <= t[d].priority
      {
        assert f in future && d in Unblocked(t, queue, now);
      }
    }
  }

  /** A claim of the unblocked jobs is a claim of all due jobs exactly when there are
      enough unblocked jobs to fill it or no due job is blocked. */
  lemma MemClaimAgreesIff(t: Table, queue: string, now: Time, n: nat, ids: seq<JobId>)
    requires TopN(t, Unblocked(t, queue, now), n, ids)
    ensures TopN(t, Due(t, queue, now), n, ids)
       <==> n <= |Unblocked(t, queue, now)| || Unblocked(t, queue, now) == Due(t, queue, now)
  {
    var due, open := Due(t, queue, now), Unblocked(t, queue, now);
    SubsetCard(open, due);
    assert forall i :: 0 <= i < |ids| ==> ids[i] in Elements(ids);
    forall id, i | id in due - Elements(ids) && 0 <= i < |ids| ensures !Before(t[id], t[ids[i]]) {
      if id !in open {
        var f :| f in PendingIn(t, queue) - due && Before(t[f], t[id]);
        assert !Before(t[f], t[ids[i]]);
      }
    }
  }

  /** One such queue: the due job is hidden by a future one of higher priority, so nothing is claimed. */
  lemma DueJobHidden(due: Job, future: Job, now: Time)
    requires due.id != future.id && due.queue == future.queue && due.state == future.state == Pending
    requires due.runAt <= now < future.runAt && due.priority < future.priority
    ensures var t := map[due.id := due, future.id := future];
      Due(t, due.queue, now) == {due.id} && Unblocked(t, due.queue, now) == {}
  {
    var t := map[due.id := due, future.id := future];
    assert future.id in PendingIn(t, due.queue) - Due(t, due.queue, now) && Before(t[future.id], t[due.id]);
  }

  /** Jobs taken one by one from the front of a queue, all of them due. */
  ghost predicate DuePrefix(t: Table, queue: string, now: Time, ids: seq<JobId>) {
    && Distinct(ids)
    && (forall i :: 0 <= i < |ids| ==> ids[i] in Due(t, queue, now))
    && (forall i, j :: 0 <= i < j < |ids| ==> !Before(t[ids[j]], t[ids[i]]))
    && (forall id, i :: id in PendingIn(t, queue) - Elements(ids) && 0 <= i < |ids| ==> !Before(t[id], t[ids[i]]))
  }

  lemma DuePrefixGrows(t: Table, queue: string, now: Time, ids: seq<JobId>, id: JobId)
    requires DuePrefix(t, queue, now, ids) && id in Due(t, queue, now) - Elements(ids)
    requires forall r :: r in PendingIn(t, queue) - Elements(ids) ==> !Before(t[r], t[id])
    ensures DuePrefix(t, queue, now, ids + [id])
  {
    assert Elements(ids + [id]) == Elements(ids) + {id};
  }

  /** The longest due prefix of length at most n is the claim of the unblocked jobs. */
  lemma LongestDuePrefix(t: Table, queue: string, now: Time, n: nat, ids: seq<JobId>)
    requires DuePrefix(t, queue, now, ids) && |ids| <= n
    requires var rest := PendingIn(t, queue) - Elements(ids);
      || |ids| == n || rest == {}
      || exists f :: f in rest && now < t[f].runAt && forall r :: r in rest ==> !Before(t[r], t[f])
    ensures TopN(t, Unblocked(t, queue, now), n, ids)
  {
    var open, rest := Unblocked(t, queue, now), PendingIn(t, queue) - Elements(ids);
    forall id | id in Elements(ids) ensures id in open {
      var i :| 0 <= i < |ids| && ids[i] == id;
    }
    DistinctCard(ids);
    SubsetCard(Elements(ids), open);
    if |ids| < n {
      forall id | id in open ensures id in Elements(ids) {
        if id in rest {
          var f :| f in rest && now < t[f].runAt && forall r :: r in rest ==> !Before(t[r], t[f]);
          assert Before(t[f], t[id]);
        }
      }
      assert open == Elements(ids);
    }
  }

  /** Claiming takes the claimed jobs out of the queue and changes no other job. */
  lemma ClaimedLeaveQueue(t: Table, ids: set<JobId>, r: Request)
    ensures var t' := ClaimAll(t, ids, r);
      && PendingIn(t', r.queue) == PendingIn(t, r.queue) - ids
      && forall id :: id in PendingIn(t', r.queue) ==> t'[id] == t[id]
  {
  }

  lemma ClaimOneMore(t: Table, ids: set<JobId>, id: JobId, r: Request)
    requires id in t && id !in ids
    ensures ClaimAll(t, ids + {id}, r) == ClaimAll(t, ids, r)[id := Claim(t[id], r)]
  {
  }

  /** Where a pop-and-mark loop stands: out was taken from the front of t's queue, leaving table c. */
  ghost predicate Popped(t: Table, r: Request, c: Table, out: seq<Job>) {
    && DuePrefix(t, r.queue, r.now, IdsOf(out))
    && c == ClaimAll(t, Elements(IdsOf(out)), r)
    && forall j :: j in out ==> j.id in c && c[j.id] == j
  }

  lemma NothingPopped(t: Table, r: Request)
    ensures Popped(t, r, t, [])
  {
    assert ClaimAll(t, {}, r) == t;
  }

  lemma PopOneMore(t: Table, r: Request, c: Table, out: seq<Job>, top: Job)
    requires Popped(t, r, c, out) && top.id in Due(c, r.queue, r.now) && c[top.id] == top
    requires forall id :: id in PendingIn(c, r.queue) ==> !Before(c[id], top)
    ensures Popped(t, r, c[top.id := Claim(top, r)], out + [Claim(top, r)])
  {
    var ids := IdsOf(out);
    ClaimedLeaveQueue(t, Elements(ids), r);
    DuePrefixGrows(t, r.queue, r.now, ids, top.id);
    ClaimOneMore(t, Elements(ids), top.id, r);
    assert IdsOf(out + [Claim(top, r)]) == ids + [top.id];
    assert Elements(ids + [top.id]) == Elements(ids) + {top.id};
    forall j | j in out ensures j.id != top.id {
      var i :| 0 <= i < |out| && out[i] == j;
      assert ids[i] in Elements(ids);
    }
  }

  /** When the loop stops, it has the whole claim, already in claim order. */
  lemma PopsDone(t: Table, r: Request, c: Table, out: seq<Job>)
    requires Popped(t, r, c, out) && |out| <= r.n
    requires var rest := PendingIn(c, r.queue);
      || |out| == r.n || rest == {}
      || exists f :: f in rest && r.now < c[f].runAt && forall id :: id in rest ==> !Before(c[id], c[f])
    ensures TopN(t, Unblocked(t, r.queue, r.now), r.n, IdsOf(out))
    ensures InsertionSort(out) == out
  {
    var ids := IdsOf(out);
    ClaimedLeaveQueue(t, Elements(ids), r);
    LongestDuePrefix(t, r.queue, r.now, r.n, ids);
    forall i, j | 0 <= i < j < |out| ensures !Before(out[j], out[i]) {
      assert out[i] in out && out[j] in out && !Before(t[ids[j]], t[ids[i]]);
      assert ids[i] in Elements(ids) && ids[j] in Elements(ids);
    }
    SortedIsFixed(out);
  }
}
