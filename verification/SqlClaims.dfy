/** ClaimDue of the two SQL backends over a table of rows. */
module SqlClaims {
  import opened Jobs
  import opened Table
  import opened Sorting
  import opened Claims

  class Database {
    var jobs: Table

    constructor (jobs: Table)
      requires Keyed(jobs)
      ensures this.jobs == jobs
    {
      this.jobs := jobs;
    }

    /** The selected rows, in whatever order the engine scans them. */
    method Scan(selected: set<JobId>) returns (rows: seq<Job>)
      requires Keyed(jobs) && selected <= jobs.Keys
      ensures Lists(jobs, selected, rows)
    {
      rows := [];
      var rest := selected;
      while rest != {}
        invariant rest <= selected
        invariant Lists(jobs, selected - rest, rows)
      {
        var id :| id in rest;
        ListsOneMore(jobs, selected - rest, rows, id);
        assert selected - (rest - {id}) == selected - rest + {id};
        rows := rows + [jobs[id]];
        rest := rest - {id};
      }
      assert selected - rest == selected;
    }

    /** `ORDER BY priority DESC, run_at ASC LIMIT n` */
    method SelectFirst(selected: set<JobId>, n: nat) returns (rows: seq<Job>)
      requires Keyed(jobs) && selected <= jobs.Keys
      ensures TopN(jobs, selected, n, IdsOf(rows))
      ensures forall j :: j in rows ==> j.id in jobs && jobs[j.id] == j
    {
      var all := Scan(selected);
      SortTakeIsTopN(jobs, selected, all, n);
      InsertionSortIsStable(all);
      var sorted := InsertionSort(all);
      rows := sorted[..Min(n, |sorted|)];
      forall j | j in rows ensures j.id in jobs && jobs[j.id] == j {
        assert j in multiset(sorted);
        var i :| 0 <= i < |all| && all[i] == j;
        assert IdsOf(all)[i] in Elements(IdsOf(all));
      }
    }

    /** SQLite: select the rows, then mark them one by one inside the transaction. */
    method ClaimDueSqlite(r: Request) returns (out: seq<Job>)
      requires Keyed(jobs)
      modifies this
      ensures TopN(old(jobs), Due(old(jobs), r.queue, r.now), r.n, IdsOf(out))
      ensures jobs == ClaimAll(old(jobs), Elements(IdsOf(out)), r) && Keyed(jobs)
      ensures LocksExactly(old(jobs), Elements(IdsOf(out)), r, jobs)
      ensures forall j :: j in out ==> j.id in jobs && jobs[j.id] == j
    {
      var rows := SelectFirst(Due(jobs, r.queue, r.now), r.n);
      out := rows;
      for i := 0 to |rows|
        invariant out == Marked(rows, i, r)
        invariant jobs == ClaimAll(old(jobs), Elements(IdsOf(rows)[..i]), r)
      {
        assert rows[i] in rows && out[i] == rows[i];
        MarkOneMore(old(jobs), rows, i, r);
        out := out[i := out[i].(state := Claimed, lockedBy := r.worker, lockedUntil := r.until, updatedAt := r.now)];
        var row := jobs[rows[i].id];
        row := row.(state := Claimed, lockedBy := r.worker, lockedUntil := r.until, updatedAt := r.now);
        jobs := jobs[rows[i].id := row];
      }
      ClaimLocks(old(jobs), Elements(IdsOf(rows)), r);
      AllMarked(old(jobs), rows, r);
    }

    /** `RETURNING`: the updated rows, in any order. */
    method Returning(rows: seq<Job>) returns (out: array<Job>)
      ensures fresh(out) && multiset(out[..]) == multiset(rows)
    {
      var taken := [];
      var rest := rows;
      while rest != []
        invariant multiset(taken) + multiset(rest) == multiset(rows)
        decreases |rest|
      {
        var i :| 0 <= i < |rest|;
        assert rest == rest[..i] + [rest[i]] + rest[i + 1..];
        taken := taken + [rest[i]];
        rest := rest[..i] + rest[i + 1..];
      }
      out := new Job[|taken|](i requires 0 <= i < |taken| => taken[i]);
      assert out[..] == taken;
    }

    /** `UPDATE ... FROM due ... RETURNING`: marks the selected rows and hands them back in any order. */
    method UpdateReturning(rows: seq<Job>, r: Request) returns (js: array<Job>)
      modifies this
      ensures jobs == ClaimAll(old(jobs), Elements(IdsOf(rows)), r)
      ensures fresh(js) && multiset(js[..]) == multiset(Marked(rows, |rows|, r))
    {
      var due := set j | j in rows :: j.id;
      RowIds(rows, due);
      var lock := (j: Job) => j.(state := Claimed, lockedBy := r.worker, lockedUntil := r.until, updatedAt := r.now);
      jobs := map id | id in jobs :: if id in due then lock(jobs[id]) else jobs[id];
      var updated := seq(|rows|, k requires 0 <= k < |rows| => lock(rows[k]));
      assert updated == Marked(rows, |rows|, r);
      js := Returning(updated);
    }

    /** Postgres: one statement over the due rows that no concurrent claim has locked. */
    method ClaimDuePostgres(r: Request, locked: set<JobId>) returns (out: seq<Job>)
      requires Keyed(jobs)
      modifies this
      ensures TopN(old(jobs), Due(old(jobs), r.queue, r.now) - locked, r.n, IdsOf(out))
      ensures jobs == ClaimAll(old(jobs), Elements(IdsOf(out)), r) && Keyed(jobs)
      ensures LocksExactly(old(jobs), Elements(IdsOf(out)), r, jobs)
      ensures forall j :: j in out ==> j.id in jobs && jobs[j.id] == j
    {
      var rows := SelectFirst(Due(jobs, r.queue, r.now) - locked, r.n);
      UpdatedRows(jobs, r, rows);
      ClaimAllKeyed(jobs, Elements(IdsOf(rows)), r);
      ClaimLocks(jobs, Elements(IdsOf(rows)), r);
      var js := UpdateReturning(rows, r);
      SortedReturn(old(jobs), r, locked, rows, js[..]);
      SortJobs(js);
      out := js[..];
    }
  }

  /** The first i rows carry their claim, the rest are as selected. */
  ghost function Marked(rows: seq<Job>, i: nat, r: Request): (out: seq<Job>)
    ensures |out| == |rows| && forall k :: 0 <= k < |rows| ==> out[k] == if k < i then Claim(rows[k], r) else rows[k]
  {
    seq(|rows|, k requires 0 <= k < |rows| => if k < i then Claim(rows[k], r) else rows[k])
  }

  lemma MarkOneMore(t: Table, rows: seq<Job>, i: nat, r: Request)
    requires i < |rows| && rows[i].id in t && t[rows[i].id] == rows[i] && Distinct(IdsOf(rows))
    ensures Marked(rows, i + 1, r) == Marked(rows, i, r)[i := Claim(rows[i], r)]
    ensures var c := ClaimAll(t, Elements(IdsOf(rows)[..i]), r);
      && rows[i].id in c && c[rows[i].id] == rows[i]
      && ClaimAll(t, Elements(IdsOf(rows)[..i + 1]), r) == c[rows[i].id := Claim(rows[i], r)]
  {
    var ids := IdsOf(rows);
    assert ids[i] == rows[i].id && ids[i] !in ids[..i];
    assert Elements(ids[..i + 1]) == Elements(ids[..i]) + {ids[i]};
    ClaimOneMore(t, Elements(ids[..i]), ids[i], r);
  }

  lemma AllMarked(t: Table, rows: seq<Job>, r: Request)
    requires Keyed(t) && forall j :: j in rows ==> j.id in t && t[j.id] == j
    ensures var out, c := Marked(rows, |rows|, r), ClaimAll(t, Elements(IdsOf(rows)[..|rows|]), r);
      && IdsOf(out) == IdsOf(rows) && IdsOf(rows)[..|rows|] == IdsOf(rows) && Keyed(c)
      && forall j :: j in out ==> j.id in c && c[j.id] == j
  {
    var out := Marked(rows, |rows|, r);
    forall j | j in out ensures j.id in t && ClaimAll(t, Elements(IdsOf(rows)), r)[j.id] == j {
      var k :| 0 <= k < |out| && out[k] == j;
      assert rows[k] in rows && IdsOf(rows)[k] in Elements(IdsOf(rows));
    }
  }

  lemma RowIds(rows: seq<Job>, ids: set<JobId>)
    requires ids == set j | j in rows :: j.id
    ensures ids == Elements(IdsOf(rows))
  {
    forall id ensures id in ids <==> id in Elements(IdsOf(rows)) {
      if id in Elements(IdsOf(rows)) {
        var k :| 0 <= k < |rows| && IdsOf(rows)[k] == id;
        assert rows[k] in rows;
      }
      if id in ids {
        var j :| j in rows && j.id == id;
        var k :| 0 <= k < |rows| && rows[k] == j;
        assert IdsOf(rows)[k] == id;
      }
    }
  }

  /** The marked rows list the claimed jobs as they are stored after the update. */
  lemma UpdatedRows(t: Table, r: Request, rows: seq<Job>)
    requires Distinct(IdsOf(rows)) && forall j :: j in rows ==> j.id in t && t[j.id] == j
    ensures IdsOf(Marked(rows, |rows|, r)) == IdsOf(rows) && Elements(IdsOf(rows)) <= t.Keys
    ensures Lists(ClaimAll(t, Elements(IdsOf(rows)), r), Elements(IdsOf(rows)), Marked(rows, |rows|, r))
  {
    var ids, updated := IdsOf(rows), Marked(rows, |rows|, r);
    forall id | id in Elements(ids) ensures id in t {
      var k :| 0 <= k < |rows| && ids[k] == id;
      assert rows[k] in rows;
    }
    forall j | j in updated ensures j.id in t && ClaimAll(t, Elements(ids), r)[j.id] == j {
      var k :| 0 <= k < |updated| && updated[k] == j;
      assert rows[k] in rows && ids[k] in Elements(ids);
    }
  }

  /** Sorting the returned rows restores claim order, whatever order they came in. */
  lemma SortedReturn(t: Table, r: Request, locked: set<JobId>, rows: seq<Job>, returned: seq<Job>)
    requires TopN(t, Due(t, r.queue, r.now) - locked, r.n, IdsOf(rows))
    requires Lists(ClaimAll(t, Elements(IdsOf(rows)), r), Elements(IdsOf(rows)), Marked(rows, |rows|, r))
    requires multiset(returned) == multiset(Marked(rows, |rows|, r))
    ensures var ids, out := Elements(IdsOf(rows)), InsertionSort(returned);
      && TopN(t, Due(t, r.queue, r.now) - locked, r.n, IdsOf(out))
      && Elements(IdsOf(out)) == ids
      && forall j :: j in out ==> j.id in t && ClaimAll(t, ids, r)[j.id] == j
  {
    var ids, out := Elements(IdsOf(rows)), InsertionSort(returned);
    var t' := ClaimAll(t, ids, r);
    InsertionSortIsStable(returned);
    PermutationLists(t', ids, Marked(rows, |rows|, r), out);
    ListedInOrder(t, ids, r, out);
    ReorderedClaim(t, Due(t, r.queue, r.now) - locked, r.n, IdsOf(rows), IdsOf(out));
  }

  /** Rows sorted after the update are sorted by the values before it. */
  lemma ListedInOrder(t: Table, ids: set<JobId>, r: Request, out: seq<Job>)
    requires ids <= t.Keys && Lists(ClaimAll(t, ids, r), ids, out) && Sorted(out)
    ensures forall j :: j in out ==> j.id in ids && ClaimAll(t, ids, r)[j.id] == j
    ensures forall i, j :: 0 <= i < j < |out| ==> !Before(t[IdsOf(out)[j]], t[IdsOf(out)[i]])
  {
    forall k | 0 <= k < |out| ensures out[k].id in ids && ClaimAll(t, ids, r)[out[k].id] == out[k] {
      assert IdsOf(out)[k] in Elements(IdsOf(out)) && out[k] in out;
    }
    forall i, j | 0 <= i < j < |out| ensures !Before(t[IdsOf(out)[j]], t[IdsOf(out)[i]]) {
      assert !Before(out[j], out[i]);
    }
  }

  lemma ClaimAllKeyed(t: Table, ids: set<JobId>, r: Request)
    requires Keyed(t)
    ensures Keyed(ClaimAll(t, ids, r))
  {
  }
}
