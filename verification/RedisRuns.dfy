/** Every run of the Redis backend: fresh pending saves, scripts as atomic steps, and the
    two-step Fail, Cancel and Reschedule, whose key lookup may be arbitrarily stale when
    the script runs. */
module RedisRuns {
  import opened Jobs
  import opened Table
  import opened Claims
  import opened RedisStore
  import opened RedisScripts

  /** A call between the lookup of its job's queue and priority and its script. */
  datatype Waiting = Waiting(call: Call, key: ZKey)

  datatype Sys = Sys(db: Db, used: set<JobId>, waiting: map<nat, Waiting>)

  datatype Event =
    | SaveJob(job: Job)
    | ClaimJobs(r: Request, moves: seq<Move>)
    | AckJob(id: JobId)
    | LookUp(client: nat, call: Call)
    | RunScript(client: nat)
    | RecoverJobs(clock: Scoring, now: Time, ids: seq<JobId>)

  const EMPTY := Sys(Db(map[], map[]), {}, map[])

  /** The scheduler saves pending jobs under fresh ids; a claim and a recovery do what their scripts return. */
  ghost predicate Enabled(sc: Scoring, s: Sys, e: Event) {
    match e
    case SaveJob(j) => j.id !in s.used && j.state == Pending
    case ClaimJobs(r, moves) =>
      Movable(s.db, moves) && ScoreClaim(sc, s.db.jobs, Scanned(sc, s.db.jobs, r, 0), r.n, Moved(moves))
    case AckJob(id) => true
    case LookUp(client, call) => client !in s.waiting
    case RunScript(client) => client in s.waiting
    case RecoverJobs(clock, now, ids) =>
      Distinct(ids) && Elements(ids) == Expired(s.db.jobs, ScoreExpiry(sc, clock), now)
  }

  function Script(sc: Scoring, db: Db, w: Waiting): Answer {
    match w.call
    case FailCall(id, error, at) => FailScript(sc, db, w.key, id, error, at)
    case CancelCall(id) => CancelScript(db, w.key, id)
    case RescheduleCall(id, at) => RescheduleScript(sc, db, w.key, id, at)
  }

  ghost function Next(sc: Scoring, s: Sys, e: Event): Sys {
    match e
    case SaveJob(j) => s.(db := SaveTx(sc, s.db, j), used := s.used + {j.id})
    case ClaimJobs(r, moves) => s.(db := MoveAll(sc, s.db, moves, r))
    case AckJob(id) => s.(db := AckScript(s.db, id).db)
    case LookUp(client, call) =>
      if call.id in s.db.jobs then
        var j := s.db.jobs[call.id];
        s.(waiting := s.waiting[client := Waiting(call, PendingZ(j.queue, j.priority))])
      else s
    case RunScript(client) =>
      if client in s.waiting then
        Sys(Script(sc, s.db, s.waiting[client]).db, s.used, s.waiting - {client})
      else s
    case RecoverJobs(_, _, ids) => s.(db := RecoverAll(sc, s.db, ids))
  }

  // ----- the plain map

  /** The plain map of jobs, and the calls that found their job when they started. */
  datatype Plain = Plain(jobs: Table, calls: map<nat, Call>)

  /** The event as an operation on the plain map; no sorted set, score or key is involved. */
  ghost function PlainNext(p: Plain, e: Event): Plain {
    match e
    case SaveJob(j) => p.(jobs := p.jobs[j.id := if j.maxAttempts == 0 then j.(maxAttempts := 3) else j])
    case ClaimJobs(r, moves) => p.(jobs := ClaimAll(p.jobs, Elements(Moved(moves)), r))
    case AckJob(id) => p.(jobs := T.Ack(p.jobs, id).table)
    case LookUp(client, call) => if call.id in p.jobs then p.(calls := p.calls[client := call]) else p
    case RunScript(client) =>
      if client in p.calls then Plain(CallEffect(p.jobs, p.calls[client]).table, p.calls - {client}) else p
    case RecoverJobs(_, _, ids) => p.(jobs := ReleaseAll(p.jobs, Elements(ids)))
  }

  ghost function View(s: Sys): Plain {
    Plain(s.db.jobs, map c | c in s.waiting :: s.waiting[c].call)
  }

  /** The sets index the hashes exactly, and every waiting call aims at its job's own set. */
  ghost predicate Inv(sc: Scoring, s: Sys) {
    && Consistent(sc, s.db)
    && s.db.jobs.Keys <= s.used
    && forall c :: c in s.waiting ==>
         s.waiting[c].call.id in s.used && Aims(s.db, s.waiting[c].key, s.waiting[c].call.id)
  }

  /** The script answers as the plain-map operation does, however old its lookup is. */
  lemma ScriptRefines(sc: Scoring, db: Db, w: Waiting)
    requires Consistent(sc, db) && Aims(db, w.key, w.call.id)
    ensures var a := Script(sc, db, w);
      Consistent(sc, a.db) && Reply(a.db.jobs, a.outcome) == CallEffect(db.jobs, w.call)
  {
    match w.call
    case FailCall(id, error, at) => FailConsistent(sc, db, w.key, id, error, at);
    case CancelCall(id) => CancelConsistent(sc, db, w.key, id);
    case RescheduleCall(id, at) => RescheduleConsistent(sc, db, w.key, id, at);
  }

  /** Every step keeps the indexes exact and does to the hashes what the plain-map operation does. */
  lemma StepRefines(sc: Scoring, s: Sys, e: Event)
    requires Inv(sc, s) && Enabled(sc, s, e)
    ensures Consistent(sc, Next(sc, s, e).db)
    ensures View(Next(sc, s, e)) == PlainNext(View(s), e)
  {
    match e
    case SaveJob(j) => SaveConsistent(sc, s.db, j);
    case ClaimJobs(r, moves) => MoveAllConsistent(sc, s.db, moves, r);
    case AckJob(id) => AckConsistent(sc, s.db, id);
    case LookUp(client, call) =>
    case RunScript(client) => ScriptRefines(sc, s.db, s.waiting[client]);
    case RecoverJobs(_, _, ids) =>
      forall i | 0 <= i < |ids| ensures ids[i] in Z(s.db, ClaimedZ) {
        assert ids[i] in Elements(ids) && Indexed(sc, s.db, ClaimedZ, ids[i]);
      }
      RecoverAllConsistent(sc, s.db, ids);
  }

  /** No operation moves a stored job to another queue or priority, or creates a job except by a save. */
  lemma RoutingIsFixed(p: Plain, e: Event, id: JobId)
    requires Keyed(p.jobs) && id in PlainNext(p, e).jobs && (e.SaveJob? ==> id != e.job.id)
    ensures id in p.jobs
    ensures PlainNext(p, e).jobs[id].queue == p.jobs[id].queue
    ensures PlainNext(p, e).jobs[id].priority == p.jobs[id].priority
  {
  }

  lemma StepKeepsInv(sc: Scoring, s: Sys, e: Event)
    requires Inv(sc, s) && Enabled(sc, s, e)
    ensures Inv(sc, Next(sc, s, e))
  {
    var s' := Next(sc, s, e);
    StepRefines(sc, s, e);
    assert s'.db.jobs == PlainNext(View(s), e).jobs;
    forall id | id in s'.db.jobs ensures id in s'.used {
      if !(e.SaveJob? && id == e.job.id) {
        RoutingIsFixed(View(s), e, id);
      }
    }
    forall c | c in s'.waiting
      ensures s'.waiting[c].call.id in s'.used && Aims(s'.db, s'.waiting[c].key, s'.waiting[c].call.id)
    {
      var id := s'.waiting[c].call.id;
      if id in s'.db.jobs && !(e.SaveJob? && id == e.job.id) {
        RoutingIsFixed(View(s), e, id);
      }
    }
  }

  // ----- runs

  ghost function After(sc: Scoring, es: seq<Event>): Sys {
    if es == [] then EMPTY else Next(sc, After(sc, es[..|es| - 1]), es[|es| - 1])
  }

  ghost predicate Legal(sc: Scoring, es: seq<Event>) {
    es == [] || (Legal(sc, es[..|es| - 1]) && Enabled(sc, After(sc, es[..|es| - 1]), es[|es| - 1]))
  }

  /** In every reachable state each stored job is in exactly the one sorted set its hash names,
      with its hash's score, and no sorted set has any other member. */
  lemma {:induction false} ReachableIsConsistent(sc: Scoring, es: seq<Event>)
    requires Legal(sc, es)
    ensures Inv(sc, After(sc, es))
    decreases |es|
  {
    if es == [] {
      forall k, id ensures Indexed(sc, EMPTY.db, k, id) {
      }
    } else {
      ReachableIsConsistent(sc, es[..|es| - 1]);
      StepKeepsInv(sc, After(sc, es[..|es| - 1]), es[|es| - 1]);
    }
  }

  ghost function PlainAfter(es: seq<Event>): Plain {
    if es == [] then Plain(map[], map[]) else PlainNext(PlainAfter(es[..|es| - 1]), es[|es| - 1])
  }

  /** A whole run leaves in the hashes what the plain map holds after the same operations. */
  lemma {:induction false} RunRefinesPlainMap(sc: Scoring, es: seq<Event>)
    requires Legal(sc, es)
    ensures View(After(sc, es)) == PlainAfter(es)
    decreases |es|
  {
    if es == [] {
    } else {
      var init := es[..|es| - 1];
      RunRefinesPlainMap(sc, init);
      ReachableIsConsistent(sc, init);
      StepRefines(sc, After(sc, init), es[|es| - 1]);
    }
  }

  // ----- QueueSize

  ghost function PendingAt(t: Table, queue: string, p: int): set<JobId> {
    set id | id in PendingIn(t, queue) && t[id].priority == p
  }

  lemma BucketCard(sc: Scoring, db: Db, queue: string, p: Priority)
    requires Consistent(sc, db)
    ensures |Z(db, PendingZ(queue, p))| == |PendingAt(db.jobs, queue, p)|
  {
    var k := PendingZ(queue, p);
    forall id ensures id in Z(db, k) <==> id in PendingAt(db.jobs, queue, p) {
      assert Indexed(sc, db, k, id);
    }
    assert Z(db, k).Keys == PendingAt(db.jobs, queue, p);
  }

  /** The sum of the four ZCARDs is the number of pending jobs of priority 0 to 3, which is the
      SQL count exactly when no pending job of the queue has a higher priority. */
  method QueueSize(sc: Scoring, db: Db, queue: string) returns (total: nat)
    requires Consistent(sc, db)
    ensures total == |set id | id in PendingIn(db.jobs, queue) && db.jobs[id].priority <= 3|
    ensures total == |PendingIn(db.jobs, queue)|
       <==> forall id :: id in PendingIn(db.jobs, queue) ==> db.jobs[id].priority <= 3
  {
    total := 0;
    ghost var counted: set<JobId> := {};
    for p := 0 to 4
      invariant counted == set id | id in PendingIn(db.jobs, queue) && db.jobs[id].priority < p
      invariant total == |counted|
    {
      BucketCard(sc, db, queue, p);
      total := total + |Z(db, PendingZ(queue, p))|;
      counted := counted + PendingAt(db.jobs, queue, p);
    }
    assert counted == set id | id in PendingIn(db.jobs, queue) && db.jobs[id].priority <= 3;
    CountedAll(db.jobs, queue, counted);
  }

  lemma CountedAll(t: Table, queue: string, counted: set<JobId>)
    requires counted == set id | id in PendingIn(t, queue) && t[id].priority <= 3
    ensures |counted| == |PendingIn(t, queue)| <==> forall id :: id in PendingIn(t, queue) ==> t[id].priority <= 3
  {
    SubsetCard(counted, PendingIn(t, queue));
    if forall id :: id in PendingIn(t, queue) ==> t[id].priority <= 3 {
      assert counted == PendingIn(t, queue);
    }
    if |counted| == |PendingIn(t, queue)| {
      forall id | id in PendingIn(t, queue) ensures t[id].priority <= 3 {
        assert id in counted;
      }
    }
  }
}
