/** When the Redis claim is the SQL claim, and how far rounding can make it differ. */
module RedisClaims {
  import opened Jobs
  import opened Table
  import opened Claims
  import opened RedisStore
  import opened RedisScripts
  import opened Float64

  /** Scores never reverse the order of the times that matter to this claim. */
  ghost predicate InOrder(sc: Scoring, t: Table, r: Request) {
    && (forall a, b :: a in PendingIn(t, r.queue) && b in PendingIn(t, r.queue) && t[a].runAt <= t[b].runAt
          ==> sc(t[a].runAt) <= sc(t[b].runAt))
    && (forall a :: a in PendingIn(t, r.queue) && t[a].runAt <= r.now ==> sc(t[a].runAt) <= sc(r.now))
  }

  /** The scanned jobs that Redis takes before b. */
  ghost function Ahead(sc: Scoring, t: Table, scan: set<JobId>, b: JobId): set<JobId>
    requires scan <= t.Keys && b in t
  {
    var st := Scored(sc, t);
    set a | a in scan && (Before(st[a], st[b]) || (Tied(st[a], st[b]) && Lex(a, b)))
  }

  /** A job with the same score as b and an earlier run time also comes earlier in the order of ids. */
  ghost predicate InTurn(sc: Scoring, t: Table, scan: set<JobId>, b: JobId)
    requires scan <= t.Keys && b in t
  {
    forall a :: a in scan && Tied(Scored(sc, t)[a], Scored(sc, t)[b]) && t[a].runAt < t[b].runAt ==> Lex(a, b)
  }

  /** Every job that the scan reaches is due and in turn, and no due job has a priority above those scanned. */
  ghost predicate Faithful(sc: Scoring, t: Table, r: Request) {
    var scan := Scanned(sc, t, r, 0);
    && (0 < r.n ==> forall id :: id in Due(t, r.queue, r.now) ==> t[id].priority <= 3)
    && (forall b :: b in scan && |Ahead(sc, t, scan, b)| < r.n ==> t[b].runAt <= r.now && InTurn(sc, t, scan, b))
  }

  /** What the script claims is ahead of what it leaves, so the scan reaches exactly what is claimed. */
  lemma ClaimedIffReached(sc: Scoring, t: Table, scan: set<JobId>, n: nat, ids: seq<JobId>, b: JobId)
    requires scan <= t.Keys && ScoreClaim(sc, t, scan, n, ids) && b in scan
    ensures b in ids <==> |Ahead(sc, t, scan, b)| < n
  {
    var ahead := Ahead(sc, t, scan, b);
    if b in ids {
      var i :| 0 <= i < |ids| && ids[i] == b;
      ClaimedIsReached(sc, t, scan, n, ids, i);
    } else {
      forall c | c in Elements(ids)
        ensures c in ahead
      {
        var i :| 0 <= i < |ids| && ids[i] == c;
        assert !Before(Scored(sc, t)[b], Scored(sc, t)[c]);
      }
      DistinctCard(ids);
      SubsetCard(Elements(ids), ahead);
      AllOfGroup(Scored(sc, t), scan, n, ids);
    }
  }

  lemma ClaimedIsReached(sc: Scoring, t: Table, scan: set<JobId>, n: nat, ids: seq<JobId>, i: nat)
    requires scan <= t.Keys && ScoreClaim(sc, t, scan, n, ids) && i < |ids| && ids[i] in scan
    ensures |Ahead(sc, t, scan, ids[i])| < n
  {
    var ahead := Ahead(sc, t, scan, ids[i]);
    forall c | c in ahead
      ensures c in Elements(ids[..i])
    {
      LexTotal(c, ids[i]);
      var m :| 0 <= m < |ids| && ids[m] == c;
      assert ids[..i][m] == c;
    }
    DistinctCard(ids[..i]);
    SubsetCard(ahead, Elements(ids[..i]));
  }

  /** Of two scanned jobs the one that is not ahead by score and id is not ahead by time. */
  lemma TurnsKept(sc: Scoring, t: Table, r: Request, a: JobId, b: JobId)
    requires InOrder(sc, t, r) && a in Scanned(sc, t, r, 0) && b in Scanned(sc, t, r, 0)
    requires InTurn(sc, t, Scanned(sc, t, r, 0), b)
    requires var st := Scored(sc, t); !Before(st[a], st[b]) && (Tied(st[b], st[a]) ==> Lex(b, a))
    ensures !Before(t[a], t[b])
  {
    var st := Scored(sc, t);
    LexTotal(a, b);
    assert st[a].priority == t[a].priority && st[b].priority == t[b].priority;
  }

  lemma FaithfulSequence(sc: Scoring, t: Table, r: Request, ids: seq<JobId>)
    requires InOrder(sc, t, r) && (ids != [] ==> Due(t, r.queue, r.now) <= Scanned(sc, t, r, 0))
    requires ScoreClaim(sc, t, Scanned(sc, t, r, 0), r.n, ids)
    requires var scan := Scanned(sc, t, r, 0);
      forall i :: 0 <= i < |ids| ==> ids[i] in scan && InTurn(sc, t, scan, ids[i])
    ensures forall i, j :: 0 <= i < j < |ids| ==> !Before(t[ids[j]], t[ids[i]])
    ensures forall id, i :: id in Due(t, r.queue, r.now) - Elements(ids) && 0 <= i < |ids| ==> !Before(t[id], t[ids[i]])
  {
    forall i, j | 0 <= i < j < |ids|
      ensures !Before(t[ids[j]], t[ids[i]])
    {
      TurnsKept(sc, t, r, ids[j], ids[i]);
    }
    forall id, i | id in Due(t, r.queue, r.now) - Elements(ids) && 0 <= i < |ids|
      ensures !Before(t[id], t[ids[i]])
    {
      TurnsKept(sc, t, r, id, ids[i]);
    }
  }

  lemma ClaimSize(scan: set<JobId>, due: set<JobId>, n: nat, ids: seq<JobId>)
    requires Distinct(ids) && |ids| == Min(n, |scan|) && Elements(ids) <= scan && Elements(ids) <= due
    requires 0 < n ==> due <= scan
    ensures |ids| == Min(n, |due|)
  {
    DistinctCard(ids);
    SubsetCard(Elements(ids), due);
    SubsetCard(Elements(ids), scan);
    if 0 < n {
      SubsetCard(due, scan);
    }
  }

  /** Faithful scores: what the script claims is a claim of the due jobs. */
  lemma FaithfulClaim(sc: Scoring, t: Table, r: Request, ids: seq<JobId>)
    requires InOrder(sc, t, r) && Faithful(sc, t, r) && ScoreClaim(sc, t, Scanned(sc, t, r, 0), r.n, ids)
    ensures TopN(t, Due(t, r.queue, r.now), r.n, ids)
  {
    var scan, due := Scanned(sc, t, r, 0), Due(t, r.queue, r.now);
    forall i | 0 <= i < |ids|
      ensures ids[i] in scan && ids[i] in due && InTurn(sc, t, scan, ids[i])
    {
      assert ids[i] in Elements(ids);
      ClaimedIffReached(sc, t, scan, r.n, ids, ids[i]);
    }
    assert 0 < r.n ==> due <= scan;
    ClaimSize(scan, due, r.n, ids);
    FaithfulSequence(sc, t, r, ids);
  }

  /** In a claim of the due jobs, everything reached is due and in turn, */
  lemma ReachedInTurn(sc: Scoring, t: Table, r: Request, ids: seq<JobId>, b: JobId)
    requires ScoreClaim(sc, t, Scanned(sc, t, r, 0), r.n, ids) && TopN(t, Due(t, r.queue, r.now), r.n, ids)
    requires b in Scanned(sc, t, r, 0) && |Ahead(sc, t, Scanned(sc, t, r, 0), b)| < r.n
    ensures t[b].runAt <= r.now && InTurn(sc, t, Scanned(sc, t, r, 0), b)
  {
    var st, scan := Scored(sc, t), Scanned(sc, t, r, 0);
    ClaimedIffReached(sc, t, scan, r.n, ids, b);
    var i :| 0 <= i < |ids| && ids[i] == b;
    assert b in Elements(ids);
    forall a | a in scan && Tied(st[a], st[b]) && t[a].runAt < t[b].runAt
      ensures Lex(a, b)
    {
      assert a in Due(t, r.queue, r.now) && Before(t[a], t[b]);
      var m :| 0 <= m < |ids| && ids[m] == a;
      assert m < i;
    }
  }

  /** and no due job was out of the scan's sight. */
  lemma NoneMissed(sc: Scoring, t: Table, r: Request, ids: seq<JobId>, id: JobId)
    requires ScoreClaim(sc, t, Scanned(sc, t, r, 0), r.n, ids) && TopN(t, Due(t, r.queue, r.now), r.n, ids)
    requires 0 < r.n && id in Due(t, r.queue, r.now)
    ensures t[id].priority <= 3
  {
    SubsetCard({id}, Due(t, r.queue, r.now));
    assert ids[0] in Elements(ids);
    if 3 < t[id].priority {
      assert id !in Elements(ids) && Before(t[id], t[ids[0]]);
    }
  }

  /** The bucket walk claims what ORDER BY and LIMIT claim, if and only if the scores are faithful
      to this queue, time and n. */
  lemma RedisAgreesIff(sc: Scoring, t: Table, r: Request, ids: seq<JobId>)
    requires InOrder(sc, t, r) && ScoreClaim(sc, t, Scanned(sc, t, r, 0), r.n, ids)
    ensures TopN(t, Due(t, r.queue, r.now), r.n, ids) <==> Faithful(sc, t, r)
  {
    if Faithful(sc, t, r) {
      FaithfulClaim(sc, t, r, ids);
    }
    if TopN(t, Due(t, r.queue, r.now), r.n, ids) {
      forall id | id in Due(t, r.queue, r.now) && 0 < r.n
        ensures t[id].priority <= 3
      {
        NoneMissed(sc, t, r, ids, id);
      }
      var scan := Scanned(sc, t, r, 0);
      forall b | b in scan && |Ahead(sc, t, scan, b)| < r.n
        ensures t[b].runAt <= r.now && InTurn(sc, t, scan, b)
      {
        ReachedInTurn(sc, t, r, ids, b);
      }
    }
  }

  // ----- float64 scores

  /** Times in use: after 1970, before 2043. */
  predicate Current(t: Time) {
    0 <= t < 0x2000_0000_0000_0000
  }

  ghost predicate AllCurrent(t: Table, r: Request) {
    Current(r.now) && forall a :: a in PendingIn(t, r.queue) ==> Current(t[a].runAt)
  }

  /** Any two times are equal or more than 256 nanoseconds apart. */
  predicate Apart(s: Time, t: Time) {
    s == t || s + 256 < t || t + 256 < s
  }

  lemma FloatInOrder(t: Table, r: Request)
    requires AllCurrent(t, r)
    ensures InOrder(FloatScore, t, r)
  {
    forall a, b | a in PendingIn(t, r.queue) && b in PendingIn(t, r.queue) && t[a].runAt <= t[b].runAt
      ensures FloatScore(t[a].runAt) <= FloatScore(t[b].runAt)
    {
      ScoreMonotone(t[a].runAt, t[b].runAt);
    }
    forall a | a in PendingIn(t, r.queue) && t[a].runAt <= r.now
      ensures FloatScore(t[a].runAt) <= FloatScore(r.now)
    {
      ScoreMonotone(t[a].runAt, r.now);
    }
  }

  /** Float64 scores are faithful when no two of the times are within 256 nanoseconds of each other. */
  lemma ApartIsFaithful(t: Table, r: Request)
    requires AllCurrent(t, r)
    requires forall a :: a in PendingIn(t, r.queue) ==> t[a].priority <= 3 && Apart(t[a].runAt, r.now)
    requires forall a, b :: a in PendingIn(t, r.queue) && b in PendingIn(t, r.queue) ==> Apart(t[a].runAt, t[b].runAt)
    ensures Faithful(FloatScore, t, r)
  {
    var scan := Scanned(FloatScore, t, r, 0);
    forall b | b in scan
      ensures t[b].runAt <= r.now && InTurn(FloatScore, t, scan, b)
    {
      if r.now < t[b].runAt {
        ScoreSeparates(r.now, t[b].runAt);
      }
      forall a | a in scan && FloatScore(t[a].runAt) == FloatScore(t[b].runAt)
        ensures t[a].runAt == t[b].runAt
      {
        if t[a].runAt < t[b].runAt {
          ScoreSeparates(t[a].runAt, t[b].runAt);
        } else if t[b].runAt < t[a].runAt {
          ScoreSeparates(t[b].runAt, t[a].runAt);
        }
      }
    }
  }

  /** With float64 scores every due job is scanned, and no job more than 256 nanoseconds early. */
  lemma FloatScanBounds(t: Table, r: Request, id: JobId)
    requires Current(r.now) && id in PendingIn(t, r.queue) && t[id].priority <= 3 && Current(t[id].runAt)
    ensures t[id].runAt <= r.now ==> id in Scanned(FloatScore, t, r, 0)
    ensures id in Scanned(FloatScore, t, r, 0) ==> t[id].runAt <= r.now + 256
  {
    if t[id].runAt <= r.now {
      ScoreMonotone(t[id].runAt, r.now);
    } else if r.now + 256 < t[id].runAt {
      ScoreSeparates(r.now, t[id].runAt);
    }
  }

  /** But a job can be claimed before it is due: */
  lemma ClaimedEarly(j: Job, r: Request, ids: seq<JobId>)
    requires j.state == Pending && j.priority <= 3 && j.queue == r.queue
    requires r.now == 0x1000_0000_0000_0000 && j.runAt == r.now + 1 && 1 <= r.n
    requires var t := map[j.id := j]; ScoreClaim(FloatScore, t, Scanned(FloatScore, t, r, 0), r.n, ids)
    ensures Due(map[j.id := j], r.queue, r.now) == {} && ids == [j.id]
  {
    ScoreCollides();
    assert Scanned(FloatScore, map[j.id := j], r, 0) == {j.id};
    OnlyClaim(Scored(FloatScore, map[j.id := j]), j.id, r.n, ids);
  }

  lemma OnlyClaim(t: Table, id: JobId, n: nat, ids: seq<JobId>)
    requires id in t && 1 <= n && TopN(t, {id}, n, ids)
    ensures ids == [id]
  {
    assert |ids| == 1 && ids[0] in Elements(ids);
  }

  /** and a due job of a priority above 3 is never claimed. */
  lemma HighPriorityIsMissed(sc: Scoring, t: Table, r: Request, id: JobId, ids: seq<JobId>)
    requires id in Due(t, r.queue, r.now) && 3 < t[id].priority
    requires ScoreClaim(sc, t, Scanned(sc, t, r, 0), r.n, ids)
    ensures id !in ids
  {
    assert id in ids ==> id in Elements(ids);
  }
}
