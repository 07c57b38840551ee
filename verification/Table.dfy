/** The reference store: a plain map from job id to job, with one function per
    operation. The other backends are compared with these functions. */
module Table {
  import opened Jobs

  type Table = map<JobId, Job>

  datatype Outcome = Ok | NotFound | NotPending

  datatype Reply = Reply(table: Table, outcome: Outcome)

  /** Each job is filed under its own id. */
  ghost predicate Keyed(t: Table) {
    forall id :: id in t ==> t[id].id == id
  }

  function Save(t: Table, j: Job): Table {
    t[j.id := j]
  }

  /** The arguments of ClaimDue. */
  datatype Request = Request(queue: string, now: Time, n: nat, worker: string, until: Time)

  function Claim(j: Job, r: Request): Job {
    j.(state := Claimed, lockedBy := r.worker, lockedUntil := r.until, updatedAt := r.now)
  }

  function ClaimAll(t: Table, ids: set<JobId>, r: Request): Table {
    map id | id in t :: if id in ids then Claim(t[id], r) else t[id]
  }

  function Ack(t: Table, id: JobId): Reply {
    if id in t && t[id].state == Claimed then Reply(t - {id}, Ok) else Reply(t, NotFound)
  }

  /** Does one more failure use up the job's attempts? A limit of 0 or less never does. */
  predicate Exhausts(j: Job) {
    0 < j.maxAttempts <= j.attempt + 1
  }

  function Retry(j: Job, error: string, at: Time): Job {
    Release(j).(attempt := j.attempt + 1, lastError := error, runAt := at)
  }

  function Fail(t: Table, id: JobId, error: string, at: Time): Reply {
    if id !in t || t[id].state != Claimed then Reply(t, NotFound)
    else if Exhausts(t[id]) then Reply(t - {id}, Ok)
    else Reply(t[id := Retry(t[id], error, at)], Ok)
  }

  function Cancel(t: Table, id: JobId): Reply {
    if id !in t then Reply(t, NotFound)
    else if t[id].state != Pending then Reply(t, NotPending)
    else Reply(t - {id}, Ok)
  }

  function Reschedule(t: Table, id: JobId, at: Time): Reply {
    if id !in t then Reply(t, NotFound)
    else if t[id].state != Pending then Reply(t, NotPending)
    else Reply(t[id := t[id].(runAt := at)], Ok)
  }

  /** A claim is given back: the job is pending again. */
  function Release(j: Job): Job {
    j.(state := Pending, lockedBy := "", lockedUntil := ZERO_TIME)
  }

  function ReleaseAll(t: Table, ids: set<JobId>): Table {
    map id | id in t :: if id in ids then Release(t[id]) else t[id]
  }

  /** The claims whose lock has expired, by some backend's test of lock time against the clock. */
  function Expired(t: Table, expiry: (Time, Time) -> bool, now: Time): set<JobId> {
    set id | id in t && t[id].state == Claimed && expiry(t[id].lockedUntil, now)
  }

  function PendingIn(t: Table, queue: string): set<JobId> {
    set id | id in t && t[id].queue == queue && t[id].state == Pending
  }

  function Due(t: Table, queue: string, now: Time): set<JobId> {
    set id | id in PendingIn(t, queue) && t[id].runAt <= now
  }

  // ----- what the operations leave in the rows, field by field

  /** What a job is saved with and keeps for as long as it is stored. */
  predicate SameWork(j: Job, k: Job) {
    && k.id == j.id && k.queue == j.queue && k.name == j.name && k.payload == j.payload
    && k.codecName == j.codecName && k.priority == j.priority && k.maxAttempts == j.maxAttempts
    && k.timeout == j.timeout && k.recurringId == j.recurringId && k.createdAt == j.createdAt
  }

  /** Row j became k: locked for the worker, and nothing else. */
  predicate LockedFor(r: Request, j: Job, k: Job) {
    && SameWork(j, k) && k.runAt == j.runAt && k.attempt == j.attempt && k.lastError == j.lastError
    && k.state == Claimed && k.lockedBy == r.worker && k.lockedUntil == r.until && k.updatedAt == r.now
  }

  predicate Unlocked(k: Job) {
    k.state == Pending && k.lockedBy == "" && k.lockedUntil == ZERO_TIME
  }

  /** Row j became k: unlocked, and nothing else. */
  predicate Freed(j: Job, k: Job) {
    && SameWork(j, k) && k.runAt == j.runAt && k.attempt == j.attempt && k.lastError == j.lastError
    && Unlocked(k) && k.updatedAt == j.updatedAt
  }

  /** Row j became k: unlocked, one attempt further, to run again at the given time. */
  predicate PutBack(error: string, at: Time, j: Job, k: Job) {
    && SameWork(j, k) && k.runAt == at && k.attempt == j.attempt + 1 && k.lastError == error
    && Unlocked(k) && k.updatedAt == j.updatedAt
  }

  /** Exactly the given rows were locked for the worker. */
  ghost predicate LocksExactly(t: Table, ids: set<JobId>, r: Request, t': Table) {
    && t'.Keys == t.Keys && ids <= t.Keys
    && forall id :: id in t ==> if id in ids then LockedFor(r, t[id], t'[id]) else t'[id] == t[id]
  }

  /** Exactly the given rows were unlocked. */
  ghost predicate FreesExactly(t: Table, ids: set<JobId>, t': Table) {
    && t'.Keys == t.Keys && ids <= t.Keys
    && forall id :: id in t ==> if id in ids then Freed(t[id], t'[id]) else t'[id] == t[id]
  }

  /** What Fail answers and does: refused unless the job is claimed; else the job is deleted at its limit,
      and put back below it or without one. No other row changes. */
  ghost predicate FailsAs(t: Table, id: JobId, error: string, at: Time, reply: Reply) {
    var t' := reply.table;
    if id !in t || t[id].state != Claimed then reply.outcome == NotFound && t' == t
    else
      && reply.outcome == Ok && t'.Keys + {id} == t.Keys
      && (id in t' <==> t[id].maxAttempts <= 0 || t[id].attempt + 1 < t[id].maxAttempts)
      && forall i :: i in t' ==> if i == id then PutBack(error, at, t[i], t'[i]) else t'[i] == t[i]
  }

  lemma ClaimLocks(t: Table, ids: set<JobId>, r: Request)
    requires ids <= t.Keys
    ensures LocksExactly(t, ids, r, ClaimAll(t, ids, r))
  {
  }

  lemma ReleaseFrees(t: Table, ids: set<JobId>)
    requires ids <= t.Keys
    ensures FreesExactly(t, ids, ReleaseAll(t, ids))
  {
  }

  lemma FailLaw(t: Table, id: JobId, error: string, at: Time)
    ensures FailsAs(t, id, error, at, Fail(t, id, error, at))
  {
  }

  /** Only row id differs, if any. */
  ghost predicate OthersSame(t: Table, id: JobId, t': Table) {
    t'.Keys <= t.Keys && forall i :: i in t && i != id ==> i in t' && t'[i] == t[i]
  }

  /** Ack takes claimed jobs only, Cancel and Reschedule pending ones; each says why it refuses, and a refusal
      changes nothing. Ack and Cancel remove the job, Reschedule moves it; no other job is touched. */
  lemma AnswerLaws(t: Table, id: JobId, at: Time)
    ensures var (a, c, r) := (Ack(t, id), Cancel(t, id), Reschedule(t, id, at));
      && (a.outcome == Ok <==> id in t && t[id].state == Claimed) && a.outcome != NotPending
      && (c.outcome == NotFound <==> id !in t) && (c.outcome == Ok <==> id in t && t[id].state == Pending)
      && r.outcome == c.outcome
      && (a.outcome != Ok ==> a.table == t) && (c.outcome != Ok ==> c.table == t == r.table)
      && (a.outcome == Ok ==> id !in a.table) && (c.outcome == Ok ==> id !in c.table && id in r.table)
      && OthersSame(t, id, a.table) && OthersSame(t, id, c.table) && OthersSame(t, id, r.table)
      && (r.outcome == Ok ==>
            var (j, k) := (t[id], r.table[id]);
            && SameWork(j, k) && k.runAt == at && k.attempt == j.attempt && k.state == j.state
            && k.lockedBy == j.lockedBy && k.lockedUntil == j.lockedUntil
            && k.lastError == j.lastError && k.updatedAt == j.updatedAt)
  {
  }

  /** The calls that some backends make in two steps. */
  datatype Call =
    | FailCall(id: JobId, error: string, at: Time)
    | CancelCall(id: JobId)
    | RescheduleCall(id: JobId, at: Time)

  function CallEffect(t: Table, call: Call): Reply {
    match call
    case FailCall(id, error, at) => Fail(t, id, error, at)
    case CancelCall(id) => Cancel(t, id)
    case RescheduleCall(id, at) => Reschedule(t, id, at)
  }
}
