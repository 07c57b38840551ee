/** The Redis backend: job hashes, one sorted set per (queue, priority) and one for
    claimed jobs. Every Lua script is one atomic step on this state. */
module RedisStore {
  import opened Jobs
  import T = Table
  import opened Table
  import opened RedisKeys

  // ----- state

  datatype ZKey = PendingZ(queue: string, priority: Priority) | ClaimedZ

  function KeyName(k: ZKey): string {
    match k
    case PendingZ(queue, priority) => PendingKey(queue, priority)
    case ClaimedZ => CLAIMED_KEY
  }

  /** Distinct sorted sets have distinct Redis keys. */
  lemma KeyNamesDistinct(a: ZKey, b: ZKey)
    requires KeyName(a) == KeyName(b)
    ensures a == b
  {
    if a.PendingZ? {
      ClaimedKeyIsNotPending(a.queue, a.priority);
    }
    if b.PendingZ? {
      ClaimedKeyIsNotPending(b.queue, b.priority);
    }
    if a.PendingZ? && b.PendingZ? {
      PendingKeyInjective(a.queue, a.priority, b.queue, b.priority);
    }
  }

  /** Members and their scores. */
  type ZSet = map<JobId, int>

  datatype Db = Db(jobs: Table, zsets: map<ZKey, ZSet>)

  /** How a time becomes a sorted-set score. */
  type Scoring = Time -> int

  function Z(db: Db, k: ZKey): ZSet {
    if k in db.zsets then db.zsets[k] else map[]
  }

  function ZAdd(db: Db, k: ZKey, score: int, id: JobId): Db {
    db.(zsets := db.zsets[k := Z(db, k)[id := score]])
  }

  function ZRem(db: Db, k: ZKey, id: JobId): Db {
    db.(zsets := db.zsets[k := Z(db, k) - {id}])
  }

  function HSet(db: Db, j: Job): Db {
    db.(jobs := db.jobs[j.id := j])
  }

  function Del(db: Db, id: JobId): Db {
    db.(jobs := db.jobs - {id})
  }

  // ----- invariant

  /** The sorted set a stored job belongs in. */
  function Home(j: Job): ZKey {
    if j.state == Pending then PendingZ(j.queue, j.priority) else ClaimedZ
  }

  function Score(sc: Scoring, j: Job): int {
    if j.state == Pending then sc(j.runAt) else sc(j.lockedUntil)
  }

  /** Member id is in set k exactly when its hash says so, with the score its hash says. */
  ghost predicate Indexed(sc: Scoring, db: Db, k: ZKey, id: JobId) {
    if id in db.jobs && Home(db.jobs[id]) == k then id in Z(db, k) && Z(db, k)[id] == Score(sc, db.jobs[id])
    else id !in Z(db, k)
  }

  ghost predicate Consistent(sc: Scoring, db: Db) {
    && Keyed(db.jobs)
    && (forall id :: id in db.jobs ==> db.jobs[id].state == Pending || db.jobs[id].state == Claimed)
    && forall k, id :: Indexed(sc, db, k, id)
  }

  // ----- Save, Ack and the three scripts that take a looked-up key

  /** A limit of 0 is stored as 3. */
  function Normalized(j: Job): Job {
    j.(maxAttempts := if j.maxAttempts == 0 then 3 else j.maxAttempts)
  }

  function SaveTx(sc: Scoring, db: Db, j: Job): Db {
    var d := HSet(db, Normalized(j));
    if j.state == Pending then ZAdd(d, PendingZ(j.queue, j.priority), sc(j.runAt), j.id) else d
  }

  datatype Answer = Answer(db: Db, outcome: Outcome)

  function AckScript(db: Db, id: JobId): Answer {
    if id in db.jobs && db.jobs[id].state == Claimed then Answer(Del(ZRem(db, ClaimedZ, id), id), Ok)
    else Answer(db, NotFound)
  }

  function FailScript(sc: Scoring, db: Db, key: ZKey, id: JobId, error: string, at: Time): Answer {
    if id !in db.jobs || db.jobs[id].state != Claimed then Answer(db, NotFound)
    else
      var j, d := db.jobs[id], ZRem(db, ClaimedZ, id);
      if Exhausts(j) then Answer(Del(d, id), Ok)
      else
        var k := j.(attempt := j.attempt + 1, lastError := error, state := Pending, runAt := at,
                    lockedBy := "", lockedUntil := ZERO_TIME);
        Answer(ZAdd(HSet(d, k), key, sc(at), id), Ok)
  }

  function CancelScript(db: Db, key: ZKey, id: JobId): Answer {
    if id !in db.jobs then Answer(db, NotFound)
    else if db.jobs[id].state != Pending then Answer(db, NotPending)
    else Answer(Del(ZRem(db, key, id), id), Ok)
  }

  function RescheduleScript(sc: Scoring, db: Db, key: ZKey, id: JobId, at: Time): Answer {
    if id !in db.jobs then Answer(db, NotFound)
    else if db.jobs[id].state != Pending then Answer(db, NotPending)
    else Answer(ZAdd(HSet(db, db.jobs[id].(runAt := at)), key, sc(at), id), Ok)
  }

  /** The key is the one a lookup of this job's hash would give now (any key, if the job is gone). */
  predicate Aims(db: Db, key: ZKey, id: JobId) {
    id in db.jobs ==> key == PendingZ(db.jobs[id].queue, db.jobs[id].priority)
  }

  lemma SaveConsistent(sc: Scoring, db: Db, j: Job)
    requires Consistent(sc, db) && j.id !in db.jobs && j.state == Pending
    ensures Consistent(sc, SaveTx(sc, db, j))
    ensures SaveTx(sc, db, j).jobs == db.jobs[j.id := if j.maxAttempts == 0 then j.(maxAttempts := 3) else j]
  {
    var d := SaveTx(sc, db, j);
    forall k, id ensures Indexed(sc, d, k, id) {
      assert Indexed(sc, db, k, id);
    }
  }

  /** Overwriting leaves the old index entry where it is, so Save keeps the indexes exact only for a pending job
      that is new or was pending in the same set, and for a claimed job whose lock keeps its score. */
  predicate Fits(sc: Scoring, db: Db, j: Job) {
    if j.state == Pending then j.id in db.jobs ==> Home(db.jobs[j.id]) == Home(j)
    else
      && j.state == Claimed && j.id in db.jobs && db.jobs[j.id].state == Claimed
      && sc(db.jobs[j.id].lockedUntil) == sc(j.lockedUntil)
  }

  lemma SaveConsistentIff(sc: Scoring, db: Db, j: Job)
    requires Consistent(sc, db)
    ensures Consistent(sc, SaveTx(sc, db, j)) <==> Fits(sc, db, j)
  {
    var d := SaveTx(sc, db, j);
    if Fits(sc, db, j) {
      forall k, id ensures Indexed(sc, d, k, id) {
        assert Indexed(sc, db, k, id);
      }
    }
    if Consistent(sc, d) {
      assert d.jobs[j.id] == Normalized(j) && Home(Normalized(j)) == Home(j);
      assert Indexed(sc, d, Home(j), j.id) && Indexed(sc, db, Home(j), j.id);
      if j.id in db.jobs {
        assert Indexed(sc, db, Home(db.jobs[j.id]), j.id) && Indexed(sc, d, Home(db.jobs[j.id]), j.id);
      }
    }
  }

  /** A pending job saved again with another priority is then in two sorted sets. */
  lemma OldEntryStays(sc: Scoring, db: Db, id: JobId, p: Priority)
    requires Consistent(sc, db) && id in db.jobs && db.jobs[id].state == Pending && db.jobs[id].priority != p
    ensures var j := db.jobs[id]; var d := SaveTx(sc, db, j.(priority := p));
      id in Z(d, PendingZ(j.queue, j.priority)) && id in Z(d, PendingZ(j.queue, p)) && !Consistent(sc, d)
  {
    var j := db.jobs[id];
    assert Indexed(sc, db, Home(j), id);
    SaveConsistentIff(sc, db, j.(priority := p));
  }

  lemma AckConsistent(sc: Scoring, db: Db, id: JobId)
    requires Consistent(sc, db)
    ensures var a := AckScript(db, id);
      Consistent(sc, a.db) && Reply(a.db.jobs, a.outcome) == T.Ack(db.jobs, id)
  {
    var d := AckScript(db, id).db;
    forall k, i ensures Indexed(sc, d, k, i) {
      assert Indexed(sc, db, k, i);
    }
  }

  lemma FailConsistent(sc: Scoring, db: Db, key: ZKey, id: JobId, error: string, at: Time)
    requires Consistent(sc, db) && Aims(db, key, id)
    ensures var a := FailScript(sc, db, key, id, error, at);
      && Consistent(sc, a.db) && Reply(a.db.jobs, a.outcome) == T.Fail(db.jobs, id, error, at)
      && FailsAs(db.jobs, id, error, at, Reply(a.db.jobs, a.outcome))
  {
    FailIndexed(sc, db, key, id, error, at);
    FailLaw(db.jobs, id, error, at);
    assert Reply(FailScript(sc, db, key, id, error, at).db.jobs, FailScript(sc, db, key, id, error, at).outcome)
        == T.Fail(db.jobs, id, error, at);
  }

  lemma FailIndexed(sc: Scoring, db: Db, key: ZKey, id: JobId, error: string, at: Time)
    requires Consistent(sc, db) && Aims(db, key, id)
    ensures Consistent(sc, FailScript(sc, db, key, id, error, at).db)
  {
    var d := FailScript(sc, db, key, id, error, at).db;
    forall k, i ensures Indexed(sc, d, k, i) {
      assert Indexed(sc, db, k, i);
    }
  }

  lemma CancelConsistent(sc: Scoring, db: Db, key: ZKey, id: JobId)
    requires Consistent(sc, db) && Aims(db, key, id)
    ensures var a := CancelScript(db, key, id);
      Consistent(sc, a.db) && Reply(a.db.jobs, a.outcome) == T.Cancel(db.jobs, id)
  {
    var d := CancelScript(db, key, id).db;
    forall k, i ensures Indexed(sc, d, k, i) {
      assert Indexed(sc, db, k, i);
    }
  }

  lemma RescheduleConsistent(sc: Scoring, db: Db, key: ZKey, id: JobId, at: Time)
    requires Consistent(sc, db) && Aims(db, key, id)
    ensures var a := RescheduleScript(sc, db, key, id, at);
      Consistent(sc, a.db) && Reply(a.db.jobs, a.outcome) == T.Reschedule(db.jobs, id, at)
  {
    var d := RescheduleScript(sc, db, key, id, at).db;
    forall k, i ensures Indexed(sc, d, k, i) {
      assert Indexed(sc, db, k, i);
    }
  }
}
