/** The two Redis scripts with loops: claiming due jobs and recovering stale claims. */
module RedisScripts {
  import opened Jobs
  import opened Table
  import opened Claims
  import opened RedisStore

  // ----- ZRANGEBYSCORE

  /** Members with equal scores come in the order of their names. */
  predicate Lex(a: string, b: string) {
    if b == "" then false
    else if a == "" then true
    else a[0] < b[0] || (a[0] == b[0] && Lex(a[1..], b[1..]))
  }

  lemma {:induction false} LexTotal(a: string, b: string)
    ensures if a == b then !Lex(a, b) else Lex(a, b) != Lex(b, a)
  {
    if a == "" || b == "" {
    } else {
      LexTotal(a[1..], b[1..]);
      assert a == [a[0]] + a[1..] && b == [b[0]] + b[1..];
    }
  }

  /** This is the order of a dictionary: a proper prefix comes first, and so does the smaller character
      at the first position where the two differ. */
  lemma {:induction false} LexIsDictionary(a: string, b: string, k: nat)
    requires k <= |a| && k <= |b| && a[..k] == b[..k]
    requires (k == |a| < |b|) || (k < |a| && k < |b| && a[k] < b[k])
    ensures Lex(a, b) && !Lex(b, a)
    decreases k
  {
    if k > 0 {
      assert a[0] == a[..k][0] == b[..k][0] == b[0];
      assert a[1..][..k - 1] == a[..k][1..] == b[..k][1..] == b[1..][..k - 1];
      LexIsDictionary(a[1..], b[1..], k - 1);
    }
  }

  lemma {:induction false} LexTransitive(a: string, b: string, c: string)
    requires Lex(a, b) && Lex(b, c)
    ensures Lex(a, c)
  {
    if a == "" {
    } else if a[0] == b[0] == c[0] {
      LexTransitive(a[1..], b[1..], c[1..]);
    }
  }

  /** The order of a sorted set: by score, then by member. */
  predicate Sooner(z: ZSet, a: JobId, b: JobId)
    requires a in z && b in z
  {
    z[a] < z[b] || (z[a] == z[b] && Lex(a, b))
  }

  lemma SoonerTransitive(z: ZSet, a: JobId, b: JobId, c: JobId)
    requires a in z && b in z && c in z && Sooner(z, a, b) && Sooner(z, b, c)
    ensures Sooner(z, a, c)
  {
    if z[a] == z[b] == z[c] {
      LexTransitive(a, b, c);
    }
  }

  /** ids are the first of the members in the set's order, in that order. */
  ghost predicate LowestFirst(z: ZSet, members: set<JobId>, ids: seq<JobId>)
    requires members <= z.Keys
  {
    && Distinct(ids)
    && Elements(ids) <= members
    && (forall i, j :: 0 <= i < j < |ids| ==> Sooner(z, ids[i], ids[j]))
    && (forall id, i :: id in members - Elements(ids) && 0 <= i < |ids| ==> Sooner(z, ids[i], id))
  }

  /** The n lowest members. */
  ghost predicate LowestN(z: ZSet, members: set<JobId>, n: nat, ids: seq<JobId>)
    requires members <= z.Keys
  {
    LowestFirst(z, members, ids) && |ids| == Min(n, |members|)
  }

  lemma LowestGrows(z: ZSet, members: set<JobId>, ids: seq<JobId>, id: JobId)
    requires members <= z.Keys && LowestFirst(z, members, ids) && id in members - Elements(ids)
    requires forall m :: m in members - Elements(ids) && m != id ==> Sooner(z, id, m)
    ensures LowestFirst(z, members, ids + [id])
  {
    var more := ids + [id];
    assert Elements(more) == Elements(ids) + {id};
    forall i | 0 <= i < |ids|
      ensures Sooner(z, ids[i], id)
    {
      assert ids[i] in Elements(ids);
    }
    forall m, i | m in members - Elements(more) && 0 <= i < |more|
      ensures Sooner(z, more[i], m)
    {
      assert m in members - Elements(ids);
    }
  }

  function UpTo(z: ZSet, max: int): set<JobId> {
    set id | id in z && z[id] <= max
  }

  /** The first of the members. */
  method Lowest(z: ZSet, members: set<JobId>) returns (id: JobId)
    requires members <= z.Keys && members != {}
    ensures id in members && forall m :: m in members && m != id ==> Sooner(z, id, m)
  {
    id :| id in members;
    var rest := members - {id};
    while rest != {}
      invariant id in members && rest <= members - {id}
      invariant forall m :: m in members - rest && m != id ==> Sooner(z, id, m)
    {
      var m :| m in rest;
      LexTotal(m, id);
      if Sooner(z, m, id) {
        forall o | o in members - rest && o != id
          ensures Sooner(z, m, o)
        {
          SoonerTransitive(z, m, id, o);
        }
        id := m;
      }
      rest := rest - {m};
    }
  }

  /** ZRANGEBYSCORE over the given members with LIMIT 0 n. */
  method Range(z: ZSet, members: set<JobId>, n: nat) returns (ids: seq<JobId>)
    requires members <= z.Keys
    ensures LowestN(z, members, n, ids)
  {
    ids := [];
    while |ids| < n && members - (set id | id in ids) != {}
      invariant |ids| <= n && LowestFirst(z, members, ids)
      decreases n - |ids|
    {
      var id := Lowest(z, members - (set id | id in ids));
      LowestGrows(z, members, ids, id);
      ids := ids + [id];
    }
    DistinctCard(ids);
    SubsetCard(Elements(ids), members);
    if |ids| < n {
      forall id | id in members
        ensures id in Elements(ids)
      {
        assert id !in members - (set id | id in ids);
      }
      assert Elements(ids) == members;
    }
  }

  // ----- claiming

  /** One round of the inner loop of claimDueScript: ZREM, ZADD, HSET. */
  function MoveOne(sc: Scoring, db: Db, key: ZKey, id: JobId, r: Request): Db {
    var d := ZAdd(ZRem(db, key, id), ClaimedZ, sc(r.until), id);
    if id in db.jobs then
      var j := d.jobs[id].(state := Claimed, lockedBy := r.worker, lockedUntil := r.until, updatedAt := r.now);
      d.(jobs := d.jobs[id := j])
    else d
  }

  datatype Move = Move(key: ZKey, id: JobId)

  ghost function MoveAll(sc: Scoring, db: Db, moves: seq<Move>, r: Request): Db {
    if moves == [] then db
    else
      var n := |moves| - 1;
      MoveOne(sc, MoveAll(sc, db, moves[..n], r), moves[n].key, moves[n].id, r)
  }

  ghost function Moved(moves: seq<Move>): (ids: seq<JobId>)
    ensures |ids| == |moves| && forall i :: 0 <= i < |ids| ==> ids[i] == moves[i].id
  {
    seq(|moves|, i requires 0 <= i < |moves| => moves[i].id)
  }

  /** Each move takes a different member out of a pending set that holds it. */
  ghost predicate Movable(db: Db, moves: seq<Move>) {
    && Distinct(Moved(moves))
    && forall i :: 0 <= i < |moves| ==> moves[i].key.PendingZ? && moves[i].id in Z(db, moves[i].key)
  }

  lemma MoveOneConsistent(sc: Scoring, db: Db, key: ZKey, id: JobId, r: Request)
    requires Consistent(sc, db) && key.PendingZ? && id in Z(db, key)
    ensures Consistent(sc, MoveOne(sc, db, key, id, r))
    ensures id in db.jobs && MoveOne(sc, db, key, id, r).jobs == db.jobs[id := Claim(db.jobs[id], r)]
  {
    assert Indexed(sc, db, key, id);
    var d := MoveOne(sc, db, key, id, r);
    forall k, i ensures Indexed(sc, d, k, i) {
      assert Indexed(sc, db, k, i);
    }
  }

  /** Claiming other jobs leaves a pending member where it is. */
  lemma NotMoved(sc: Scoring, db: Db, d: Db, ids: set<JobId>, r: Request, k: ZKey)
    requires Consistent(sc, db) && Consistent(sc, d) && d.jobs == ClaimAll(db.jobs, ids, r) && k.PendingZ?
    ensures Z(d, k) == Z(db, k) - ids
  {
    forall id
      ensures (id in Z(d, k) <==> id in Z(db, k) && id !in ids) && (id in Z(d, k) ==> Z(d, k)[id] == Z(db, k)[id])
    {
      assert Indexed(sc, db, k, id) && Indexed(sc, d, k, id);
    }
  }

  lemma {:induction false} MoveAllConsistent(sc: Scoring, db: Db, moves: seq<Move>, r: Request)
    requires Consistent(sc, db) && Movable(db, moves)
    ensures Consistent(sc, MoveAll(sc, db, moves, r))
    ensures MoveAll(sc, db, moves, r).jobs == ClaimAll(db.jobs, Elements(Moved(moves)), r)
    decreases |moves|
  {
    if moves == [] {
      assert ClaimAll(db.jobs, {}, r) == db.jobs;
    } else {
      var n := |moves| - 1;
      var init, last := moves[..n], moves[n];
      assert Moved(moves) == Moved(init) + [last.id];
      MoveAllConsistent(sc, db, init, r);
      var mid := MoveAll(sc, db, init, r);
      assert last.id !in Moved(init);
      NotMoved(sc, db, mid, Elements(Moved(init)), r, last.key);
      MoveOneConsistent(sc, mid, last.key, last.id, r);
      assert Elements(Moved(moves)) == Elements(Moved(init)) + {last.id};
      assert Indexed(sc, db, last.key, last.id);
      ClaimOneMore(db.jobs, Elements(Moved(init)), last.id, r);
    }
  }

  /** The claimed hashes are locked for the worker, all others as they were. */
  lemma MoveAllLocks(sc: Scoring, db: Db, moves: seq<Move>, r: Request)
    requires Consistent(sc, db) && Movable(db, moves)
    ensures LocksExactly(db.jobs, Elements(Moved(moves)), r, MoveAll(sc, db, moves, r).jobs)
  {
    forall i | 0 <= i < |moves| ensures moves[i].id in db.jobs {
      assert Indexed(sc, db, moves[i].key, moves[i].id);
    }
    MoveAllConsistent(sc, db, moves, r);
    ClaimLocks(db.jobs, Elements(Moved(moves)), r);
  }

  lemma MoveOneMore(sc: Scoring, db: Db, moves: seq<Move>, m: Move, r: Request)
    ensures MoveAll(sc, db, moves + [m], r) == MoveOne(sc, MoveAll(sc, db, moves, r), m.key, m.id, r)
  {
    assert (moves + [m])[..|moves|] == moves;
  }

  lemma {:induction false} MoveAllAppend(sc: Scoring, db: Db, a: seq<Move>, b: seq<Move>, r: Request)
    ensures MoveAll(sc, db, a + b, r) == MoveAll(sc, MoveAll(sc, db, a, r), b, r)
    decreases |b|
  {
    if b == [] {
      assert a + b == a;
    } else {
      var n := |b| - 1;
      var init, last := b[..n], b[n];
      assert b == init + [last] && a + b == a + init + [last];
      MoveAllAppend(sc, db, a, init, r);
      MoveOneMore(sc, db, a + init, last, r);
      MoveOneMore(sc, MoveAll(sc, db, a, r), init, last, r);
    }
  }

  function MovesFrom(key: ZKey, ids: seq<JobId>): (moves: seq<Move>)
    ensures Moved(moves) == ids
  {
    seq(|ids|, i requires 0 <= i < |ids| => Move(key, ids[i]))
  }

  /** The inner loop of claimDueScript. */
  method MoveBucket(sc: Scoring, db0: Db, key: ZKey, ids: seq<JobId>, r: Request) returns (db: Db)
    ensures db == MoveAll(sc, db0, MovesFrom(key, ids), r)
  {
    db := db0;
    ghost var moves := MovesFrom(key, ids);
    for i := 0 to |ids|
      invariant db == MoveAll(sc, db0, moves[..i], r)
    {
      assert moves[..i + 1][..i] == moves[..i];
      db := MoveOne(sc, db, key, ids[i], r);
    }
    assert moves[..|ids|] == moves;
  }

  /** The table with every run time replaced by its score. */
  ghost function Scored(sc: Scoring, t: Table): Table {
    map id | id in t :: t[id].(runAt := sc(t[id].runAt))
  }

  /** Pending jobs of the queue, of priority p to 3, whose score is due. */
  ghost function Scanned(sc: Scoring, t: Table, r: Request, p: int): set<JobId> {
    set id | id in PendingIn(t, r.queue) && p <= t[id].priority <= 3 && sc(t[id].runAt) <= sc(r.now)
  }

  /** Among the candidates, jobs that tie are claimed in the order of their ids. */
  ghost predicate InIdOrder(t: Table, candidates: set<JobId>, ids: seq<JobId>)
    requires candidates <= t.Keys
  {
    && Elements(ids) <= candidates
    && (forall i, j :: 0 <= i < j < |ids| && Tied(t[ids[i]], t[ids[j]]) ==> Lex(ids[i], ids[j]))
    && (forall id, i :: id in candidates - Elements(ids) && 0 <= i < |ids| && Tied(t[ids[i]], t[id]) ==>
          Lex(ids[i], id))
  }

  /** What the script claims: the first n by priority, score and id. */
  ghost predicate ScoreClaim(sc: Scoring, t: Table, scan: set<JobId>, n: nat, ids: seq<JobId>)
    requires scan <= t.Keys
  {
    TopN(Scored(sc, t), scan, n, ids) && InIdOrder(Scored(sc, t), scan, ids)
  }

  /** The due members of one bucket are the due jobs of that priority, with their scores. */
  lemma BucketMembers(sc: Scoring, db: Db, r: Request, p: Priority)
    requires Consistent(sc, db) && p <= 3
    ensures var z := Z(db, PendingZ(r.queue, p));
      && UpTo(z, sc(r.now)) == Scanned(sc, db.jobs, r, p) - Scanned(sc, db.jobs, r, p + 1)
      && forall id :: id in UpTo(z, sc(r.now)) ==> z[id] == sc(db.jobs[id].runAt)
  {
    var key := PendingZ(r.queue, p);
    var z, bucket := Z(db, key), Scanned(sc, db.jobs, r, p) - Scanned(sc, db.jobs, r, p + 1);
    forall id ensures id in UpTo(z, sc(r.now)) <==> id in bucket {
      assert Indexed(sc, db, key, id);
    }
    forall id | id in bucket ensures z[id] == sc(db.jobs[id].runAt) {
      assert Indexed(sc, db, key, id);
    }
  }

  /** The lowest of them are the claim of that priority, by score and id. */
  lemma BucketIsTopN(sc: Scoring, db: Db, r: Request, p: Priority, n: nat, ids: seq<JobId>)
    requires Consistent(sc, db) && p <= 3
    requires var z := Z(db, PendingZ(r.queue, p)); LowestN(z, UpTo(z, sc(r.now)), n, ids)
    ensures ScoreClaim(sc, db.jobs, Scanned(sc, db.jobs, r, p) - Scanned(sc, db.jobs, r, p + 1), n, ids)
  {
    var z := Z(db, PendingZ(r.queue, p));
    BucketMembers(sc, db, r, p);
    LowestIsClaim(z, UpTo(z, sc(r.now)), Scored(sc, db.jobs), p, n, ids);
  }

  /** Within one priority the order of a sorted set scored by run time is claim order. */
  lemma LowestIsClaim(z: ZSet, members: set<JobId>, t: Table, p: Priority, n: nat, ids: seq<JobId>)
    requires members <= z.Keys && members <= t.Keys && LowestN(z, members, n, ids)
    requires forall id :: id in members ==> t[id].priority == p && t[id].runAt == z[id]
    ensures TopN(t, members, n, ids) && InIdOrder(t, members, ids)
  {
    assert forall i :: 0 <= i < |ids| ==> ids[i] in Elements(ids);
  }

  /** The moves made while scanning the buckets of priority p and above. */
  ghost predicate Walked(sc: Scoring, db0: Db, r: Request, p: int, db: Db, moves: seq<Move>) {
    && db == MoveAll(sc, db0, moves, r) && Movable(db0, moves)
    && (forall k :: 0 <= k < |moves| ==> moves[k].key.priority >= p)
  }

  /** No earlier move has touched the next bucket. */
  lemma NextBucketUntouched(sc: Scoring, db0: Db, r: Request, p: Priority, db: Db, moves: seq<Move>)
    requires Consistent(sc, db0) && Walked(sc, db0, r, p + 1, db, moves)
    ensures var k := PendingZ(r.queue, p); Z(db, k) == Z(db0, k) && forall id :: id in Z(db0, k) ==> id !in Moved(moves)
  {
    var k := PendingZ(r.queue, p);
    var ids := Moved(moves);
    MoveAllConsistent(sc, db0, moves, r);
    NotMoved(sc, db0, db, Elements(ids), r, k);
    forall i | 0 <= i < |moves| ensures moves[i].id !in Z(db0, k) {
      assert Indexed(sc, db0, k, moves[i].id) && Indexed(sc, db0, moves[i].key, moves[i].id);
    }
    forall id | id in Elements(ids) ensures id !in Z(db0, k) {
      var i :| 0 <= i < |moves| && Moved(moves)[i] == id;
    }
    assert Z(db0, k) - Elements(ids) == Z(db0, k);
  }

  lemma WalkOneBucket(sc: Scoring, db0: Db, r: Request, p: Priority, db: Db, moves: seq<Move>, found: seq<JobId>)
    requires Consistent(sc, db0) && Walked(sc, db0, r, p + 1, db, moves)
    requires Distinct(found) && forall i :: 0 <= i < |found| ==> found[i] in Z(db, PendingZ(r.queue, p))
    ensures var more := MovesFrom(PendingZ(r.queue, p), found);
      Walked(sc, db0, r, p, MoveAll(sc, db, more, r), moves + more) && Moved(moves + more) == Moved(moves) + found
  {
    var k := PendingZ(r.queue, p);
    var more := MovesFrom(k, found);
    NextBucketUntouched(sc, db0, r, p, db, moves);
    MoveAllAppend(sc, db0, moves, more, r);
    MovableAppend(db0, moves, k, found);
  }

  lemma MovableAppend(db: Db, moves: seq<Move>, k: ZKey, found: seq<JobId>)
    requires Movable(db, moves) && k.PendingZ? && Distinct(found)
    requires forall i :: 0 <= i < |found| ==> found[i] in Z(db, k) && found[i] !in Moved(moves)
    ensures Movable(db, moves + MovesFrom(k, found)) && Moved(moves + MovesFrom(k, found)) == Moved(moves) + found
  {
    assert Moved(moves + MovesFrom(k, found)) == Moved(moves) + found;
    assert forall i :: 0 <= i < |moves| ==> Moved(moves)[i] in Moved(moves);
  }

  lemma BucketAppends(sc: Scoring, t: Table, r: Request, p: Priority, ids: seq<JobId>, found: seq<JobId>)
    requires p <= 3 && ScoreClaim(sc, t, Scanned(sc, t, r, p + 1), r.n, ids) && |ids| <= r.n
    requires ScoreClaim(sc, t, Scanned(sc, t, r, p) - Scanned(sc, t, r, p + 1), r.n - |ids|, found)
    ensures ScoreClaim(sc, t, Scanned(sc, t, r, p), r.n, ids + found)
  {
    var above := Scanned(sc, t, r, p + 1);
    var bucket := Scanned(sc, t, r, p) - above;
    assert above + bucket == Scanned(sc, t, r, p);
    TopNAppend(Scored(sc, t), above, bucket, r.n, ids, found);
    IdOrderAppend(Scored(sc, t), above, bucket, ids, found);
  }

  /** Groups that never tie with each other keep their order of ids side by side. */
  lemma IdOrderAppend(t: Table, a: set<JobId>, b: set<JobId>, x: seq<JobId>, y: seq<JobId>)
    requires a <= t.Keys && b <= t.Keys && InIdOrder(t, a, x) && InIdOrder(t, b, y)
    requires forall i, j :: i in a && j in b ==> !Tied(t[i], t[j])
    ensures InIdOrder(t, a + b, x + y)
  {
    assert Elements(x + y) == Elements(x) + Elements(y);
    assert forall i :: 0 <= i < |x| ==> x[i] in Elements(x);
    assert forall i :: 0 <= i < |y| ==> y[i] in Elements(y);
  }

  /** Once n jobs are claimed, the buckets not scanned hold nothing that belongs in the claim. */
  lemma WalkFull(sc: Scoring, t: Table, r: Request, p: Priority, ids: seq<JobId>)
    requires p <= 4 && |ids| == r.n && ScoreClaim(sc, t, Scanned(sc, t, r, p), r.n, ids)
    ensures ScoreClaim(sc, t, Scanned(sc, t, r, 0), r.n, ids)
  {
    var above := Scanned(sc, t, r, p);
    var rest := Scanned(sc, t, r, 0) - above;
    assert above + rest == Scanned(sc, t, r, 0);
    TopNAppend(Scored(sc, t), above, rest, r.n, ids, []);
    IdOrderAppend(Scored(sc, t), above, rest, ids, []);
    assert ids + [] == ids;
  }

  /** The variables of claimDueScript's outer loop, and the moves made so far. */
  datatype Walk = Walk(db: Db, ids: seq<JobId>, remaining: int, moves: seq<Move>)

  /** Where the loop stands when the buckets of priority p and above have been scanned. */
  ghost predicate Scanning(sc: Scoring, db0: Db, r: Request, p: int, w: Walk) {
    && Walked(sc, db0, r, p, w.db, w.moves) && Moved(w.moves) == w.ids
    && w.remaining == r.n - |w.ids|
    && ScoreClaim(sc, db0.jobs, Scanned(sc, db0.jobs, r, p), r.n, w.ids)
  }

  /** One round of the outer loop of claimDueScript. */
  method ScanBucket(sc: Scoring, ghost db0: Db, r: Request, p: Priority, w: Walk) returns (w': Walk)
    requires Consistent(sc, db0) && p <= 3 && Scanning(sc, db0, r, p + 1, w)
    ensures Scanning(sc, db0, r, p, w')
  {
    var key := PendingZ(r.queue, p);
    var z := Z(w.db, key);
    var found := Range(z, UpTo(z, sc(r.now)), w.remaining);
    ScanStep(sc, db0, r, p, w, found);
    var db := MoveBucket(sc, w.db, key, found, r);
    w' := Walk(db, w.ids + found, w.remaining - |found|, w.moves + MovesFrom(key, found));
  }

  lemma ScanStep(sc: Scoring, db0: Db, r: Request, p: Priority, w: Walk, found: seq<JobId>)
    requires Consistent(sc, db0) && p <= 3 && Scanning(sc, db0, r, p + 1, w) && 0 <= w.remaining
    requires var z := Z(w.db, PendingZ(r.queue, p)); LowestN(z, UpTo(z, sc(r.now)), w.remaining, found)
    ensures var more := MovesFrom(PendingZ(r.queue, p), found);
      Scanning(sc, db0, r, p, Walk(MoveAll(sc, w.db, more, r), w.ids + found, w.remaining - |found|, w.moves + more))
  {
    var z := Z(w.db, PendingZ(r.queue, p));
    LowestAreMembers(z, UpTo(z, sc(r.now)), w.remaining, found);
    WalkOneBucket(sc, db0, r, p, w.db, w.moves, found);
    NextBucketUntouched(sc, db0, r, p, w.db, w.moves);
    ClaimOneBucket(sc, db0, r, p, w.ids, found);
  }

  lemma ClaimOneBucket(sc: Scoring, db: Db, r: Request, p: Priority, ids: seq<JobId>, found: seq<JobId>)
    requires Consistent(sc, db) && p <= 3 && |ids| <= r.n
    requires ScoreClaim(sc, db.jobs, Scanned(sc, db.jobs, r, p + 1), r.n, ids)
    requires var z := Z(db, PendingZ(r.queue, p)); LowestN(z, UpTo(z, sc(r.now)), r.n - |ids|, found)
    ensures ScoreClaim(sc, db.jobs, Scanned(sc, db.jobs, r, p), r.n, ids + found)
  {
    BucketIsTopN(sc, db, r, p, r.n - |ids|, found);
    BucketAppends(sc, db.jobs, r, p, ids, found);
  }

  lemma LowestAreMembers(z: ZSet, members: set<JobId>, n: nat, ids: seq<JobId>)
    requires members <= z.Keys && LowestN(z, members, n, ids)
    ensures forall i :: 0 <= i < |ids| ==> ids[i] in z
  {
    assert forall i :: 0 <= i < |ids| ==> ids[i] in Elements(ids);
  }

  /** The claimed ids are the first n, by priority, score and id, of the queue's due jobs of priority 0 to 3. */
  method ClaimDueScript(sc: Scoring, db0: Db, r: Request) returns (db: Db, ids: seq<JobId>, ghost moves: seq<Move>)
    requires Consistent(sc, db0)
    ensures db == MoveAll(sc, db0, moves, r) && Moved(moves) == ids && Movable(db0, moves)
    ensures LocksExactly(db0.jobs, Elements(ids), r, db.jobs)
    ensures ScoreClaim(sc, db0.jobs, Scanned(sc, db0.jobs, r, 0), r.n, ids)
  {
    var w := Walk(db0, [], r.n, []);
    assert Scanned(sc, db0.jobs, r, 4) == {};
    var p := 4;
    while p > 0
      invariant 0 <= p <= 4 && Scanning(sc, db0, r, p, w)
    {
      if w.remaining <= 0 {
        WalkFull(sc, db0.jobs, r, p, w.ids);
        break;
      }
      p := p - 1;
      w := ScanBucket(sc, db0, r, p, w);
    }
    db, ids, moves := w.db, w.ids, w.moves;
    MoveAllLocks(sc, db0, moves, r);
  }

  // ----- recovering

  /** One round of recoverStaleScript's loop: ZREM, and if the hash exists HSET and ZADD. */
  function RecoverOne(sc: Scoring, db: Db, id: JobId): Db {
    var d := ZRem(db, ClaimedZ, id);
    if id in db.jobs then
      var j := db.jobs[id];
      var k := j.(state := Pending, lockedBy := "", lockedUntil := ZERO_TIME);
      ZAdd(d.(jobs := d.jobs[id := k]), PendingZ(j.queue, j.priority), sc(j.runAt), id)
    else d
  }

  ghost function RecoverAll(sc: Scoring, db: Db, ids: seq<JobId>): Db {
    if ids == [] then db else RecoverOne(sc, RecoverAll(sc, db, ids[..|ids| - 1]), ids[|ids| - 1])
  }

  /** The script's test: a lock score between 1 and the clock's score. */
  function ScoreExpiry(sc: Scoring, clock: Scoring): (Time, Time) -> bool {
    (lockedUntil: Time, now: Time) => 1 <= sc(lockedUntil) <= clock(now)
  }

  lemma RecoverOneConsistent(sc: Scoring, db: Db, id: JobId)
    requires Consistent(sc, db) && id in Z(db, ClaimedZ)
    ensures Consistent(sc, RecoverOne(sc, db, id))
    ensures id in db.jobs && RecoverOne(sc, db, id).jobs == db.jobs[id := Release(db.jobs[id])]
  {
    assert Indexed(sc, db, ClaimedZ, id);
    var d := RecoverOne(sc, db, id);
    forall k, i ensures Indexed(sc, d, k, i) {
      assert Indexed(sc, db, k, i);
    }
  }

  lemma {:induction false} RecoverAllConsistent(sc: Scoring, db: Db, ids: seq<JobId>)
    requires Consistent(sc, db) && Distinct(ids) && forall i :: 0 <= i < |ids| ==> ids[i] in Z(db, ClaimedZ)
    ensures Consistent(sc, RecoverAll(sc, db, ids))
    ensures RecoverAll(sc, db, ids).jobs == ReleaseAll(db.jobs, Elements(ids))
    decreases |ids|
  {
    if ids == [] {
      assert ReleaseAll(db.jobs, {}) == db.jobs;
    } else {
      var n := |ids| - 1;
      var init, last := ids[..n], ids[n];
      RecoverAllConsistent(sc, db, init);
      var mid := RecoverAll(sc, db, init);
      assert Indexed(sc, db, ClaimedZ, last) && Indexed(sc, mid, ClaimedZ, last);
      assert last !in init;
      RecoverOneConsistent(sc, mid, last);
      assert Elements(ids) == Elements(init) + {last};
    }
  }

  /** The released hashes are unlocked, all others as they were. */
  lemma RecoverAllFrees(sc: Scoring, db: Db, ids: seq<JobId>)
    requires Consistent(sc, db) && Distinct(ids) && forall i :: 0 <= i < |ids| ==> ids[i] in Z(db, ClaimedZ)
    ensures FreesExactly(db.jobs, Elements(ids), RecoverAll(sc, db, ids).jobs)
  {
    forall i | 0 <= i < |ids| ensures ids[i] in db.jobs {
      assert Indexed(sc, db, ClaimedZ, ids[i]);
    }
    RecoverAllConsistent(sc, db, ids);
    ReleaseFrees(db.jobs, Elements(ids));
  }

  /** Releases exactly the claims that are expired by score, counts them, and leaves none. */
  method RecoverStaleScript(sc: Scoring, clock: Scoring, db0: Db, now: Time)
      returns (db: Db, n: nat, ghost ids: seq<JobId>)
    requires Consistent(sc, db0)
    ensures db == RecoverAll(sc, db0, ids) && Distinct(ids) && n == |ids|
    ensures FreesExactly(db0.jobs, Elements(ids), db.jobs)
    ensures Elements(ids) == Expired(db0.jobs, ScoreExpiry(sc, clock), now)
    ensures Expired(db.jobs, ScoreExpiry(sc, clock), now) == {}
  {
    var z := Z(db0, ClaimedZ);
    var stale := set id | id in z && 1 <= z[id] <= clock(now);
    forall id ensures id in stale <==> id in Expired(db0.jobs, ScoreExpiry(sc, clock), now) {
      assert Indexed(sc, db0, ClaimedZ, id);
    }
    var found := Range(z, stale, |stale|);
    ids := found;
    db, n := db0, 0;
    for i := 0 to |found|
      invariant db == RecoverAll(sc, db0, found[..i]) && n == i
    {
      assert found[..i + 1][..i] == found[..i];
      db := RecoverOne(sc, db, found[i]);
      n := n + 1;
    }
    assert found[..|found|] == found;
    DistinctCard(ids);
    SubsetCard(Elements(ids), stale);
    RecoverAllConsistent(sc, db0, ids);
    RecoverAllFrees(sc, db0, ids);
  }
}
