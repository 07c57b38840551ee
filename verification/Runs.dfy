/** The scheduler at run time as a step system: any number of processes claim batches from
    one store, hand the jobs to workers, run handlers, settle the outcome with the store and
    fire hooks, while claims expire and processes die. A worker holds only a copy of its job:
    Ack and Fail name the job by id, so a worker whose claim was taken from it still calls them. */
module Runs {
  import opened Jobs
  import T = Table
  import opened Table
  import opened Claims

  datatype Hook =
    | OnStart(id: JobId, queue: string, attempt: int)
    | OnSuccess(id: JobId, queue: string, attempt: int)
    | OnFailure(id: JobId, queue: string, attempt: int)
    | OnRetry(id: JobId, queue: string, attempt: int)

  datatype Stage =
    | Held                    // in the dispatcher's batch or the worker channel
    | Running                 // a worker has fired OnStart; the handler is running
    | Returned(ok: bool)      // the handler has returned
    | Settled(hook: Hook)     // the store has been called; the hook is still to fire

  /** One claim of one job, as some process holds it. */
  datatype Token = Token(job: Job, stage: Stage)

  datatype World = World(
    jobs: Table,              // the store
    used: set<JobId>,         // ids ever saved
    now: Time,                // the store's clock
    tokens: map<nat, Token>,
    next: nat,                // number of the next token
    log: seq<Hook>)           // hooks fired

  datatype Event =
    | Enqueue(job: Job)
    | ClaimBatch(r: Request, ids: seq<JobId>)
    | Begin(k: nat)
    | NoHandler(k: nat, at: Time, fault: bool)
    | Return(k: nat, ok: bool)
    | Settle(k: nat, at: Time, error: string, fault: bool)
    | FireHook(k: nat)
    | Lose(k: nat)
    | RecoverStale(freed: set<JobId>)   // claims given back; which ones is the backend's choice
    | CancelJob(id: JobId)
    | RescheduleJob(id: JobId, at: Time)
    | Tick(d: nat)

  const START := World(map[], {}, 0, map[], 0, [])

  /** A job under a fresh id: pending, never attempted (scheduler At, recurring fires). */
  predicate FreshJob(w: World, j: Job) {
    j.id !in w.used && j.state == Pending && j.attempt == 0
  }

  ghost predicate Enabled(w: World, e: Event) {
    match e
    case Enqueue(j) => FreshJob(w, j)
    case ClaimBatch(r, ids) =>
      Distinct(ids) && forall i :: 0 <= i < |ids| ==> ids[i] in PendingIn(w.jobs, r.queue)
    case Begin(k) => k in w.tokens && w.tokens[k].stage.Held?
    case NoHandler(k, _, _) => k in w.tokens && w.tokens[k].stage.Held?
    case Return(k, _) => k in w.tokens && w.tokens[k].stage.Running?
    case Settle(k, _, _, _) => k in w.tokens && w.tokens[k].stage.Returned?
    case FireHook(k) => k in w.tokens && w.tokens[k].stage.Settled?
    case Lose(k) => k in w.tokens
    case RecoverStale(freed) => forall id :: id in freed ==> id in w.jobs && w.jobs[id].state == Claimed
    case CancelJob(_) => true
    case RescheduleJob(_, _) => true
    case Tick(_) => true
  }

  /** The worker's own attempt limit. */
  function WorkerMax(j: Job): int {
    if j.maxAttempts <= 0 then 3 else j.maxAttempts
  }

  /** Does the worker treat this failure as the last? */
  predicate GivesUp(j: Job) {
    j.attempt + 1 >= WorkerMax(j)
  }

  /** The store call a worker makes after its handler returned; a fault is a call that fails without effect. */
  function StoreCall(w: World, tok: Token, at: Time, error: string, fault: bool): Reply
    requires tok.stage.Returned?
  {
    if fault then Reply(w.jobs, NotFound)
    else if tok.stage.ok then T.Ack(w.jobs, tok.job.id)
    else T.Fail(w.jobs, tok.job.id, error, at)
  }

  /** The hook the worker goes on to fire, if any. */
  datatype MaybeHook = NoHook | Fires(hook: Hook)

  function HookAfter(tok: Token, outcome: Outcome): MaybeHook
    requires tok.stage.Returned?
  {
    var j := tok.job;
    if tok.stage.ok then Fires(OnSuccess(j.id, j.queue, j.attempt + 1))
    else if GivesUp(j) then Fires(OnFailure(j.id, j.queue, j.attempt + 1))
    else if outcome == Ok then Fires(OnRetry(j.id, j.queue, j.attempt + 1))
    else NoHook
  }

  function WithStage(w: World, k: nat, stage: Stage): World
    requires k in w.tokens
  {
    w.(tokens := w.tokens[k := w.tokens[k].(stage := stage)])
  }

  /** The claimed jobs become tokens next, next + 1, ... */
  function NewTokens(w: World, r: Request, ids: seq<JobId>): map<nat, Token> {
    map k: nat | w.next <= k < w.next + |ids| && TokenId(w, ids, k) in w.jobs
      :: Token(Claim(w.jobs[TokenId(w, ids, k)], r), Held)
  }

  function TokenId(w: World, ids: seq<JobId>, k: nat): JobId
    requires w.next <= k < w.next + |ids|
  {
    ids[k - w.next]
  }

  ghost function Next(w: World, e: Event): World {
    match e
    case Enqueue(j) => w.(jobs := T.Save(w.jobs, j), used := w.used + {j.id})
    case ClaimBatch(r, ids) =>
      w.(jobs := ClaimAll(w.jobs, Elements(ids), r), tokens := w.tokens + NewTokens(w, r, ids), next := w.next + |ids|)
    case Begin(k) =>
      if k in w.tokens then
        var j := w.tokens[k].job;
        WithStage(w, k, Running).(log := w.log + [OnStart(j.id, j.queue, j.attempt + 1)])
      else w
    case NoHandler(k, at, fault) =>
      if k in w.tokens then
        var j := w.tokens[k].job;
        var failed := T.Fail(w.jobs, j.id, "no handler registered for " + j.name, at).table;
        WithStage(w, k, Settled(OnFailure(j.id, j.queue, j.attempt + 1))).(jobs := if fault then w.jobs else failed)
      else w
    case Return(k, ok) => if k in w.tokens then WithStage(w, k, Returned(ok)) else w
    case Settle(k, at, error, fault) =>
      if k in w.tokens && w.tokens[k].stage.Returned? then
        var reply := StoreCall(w, w.tokens[k], at, error, fault);
        match HookAfter(w.tokens[k], reply.outcome) {
          case Fires(h) => WithStage(w, k, Settled(h)).(jobs := reply.table)
          case NoHook => w.(tokens := w.tokens - {k}, jobs := reply.table)
        }
      else w
    case FireHook(k) =>
      if k in w.tokens && w.tokens[k].stage.Settled? then
        w.(tokens := w.tokens - {k}, log := w.log + [w.tokens[k].stage.hook])
      else w
    case Lose(k) => w.(tokens := w.tokens - {k})
    case RecoverStale(freed) => w.(jobs := ReleaseAll(w.jobs, freed))
    case CancelJob(id) => w.(jobs := T.Cancel(w.jobs, id).table)
    case RescheduleJob(id, at) => w.(jobs := T.Reschedule(w.jobs, id, at).table)
    case Tick(d) => w.(now := w.now + d)
  }

  // ----- runs

  ghost function After(es: seq<Event>): World {
    if es == [] then START else Next(After(es[..|es| - 1]), es[|es| - 1])
  }

  ghost predicate Legal(es: seq<Event>) {
    es == [] || (Legal(es[..|es| - 1]) && Enabled(After(es[..|es| - 1]), es[|es| - 1]))
  }

  lemma Extend(es: seq<Event>, e: Event)
    requires Legal(es) && Enabled(After(es), e)
    ensures Legal(es + [e]) && After(es + [e]) == Next(After(es), e)
  {
    assert (es + [e])[..|es|] == es;
  }

  lemma {:induction false} LegalPrefix(es: seq<Event>, n: nat)
    requires Legal(es) && n <= |es|
    ensures Legal(es[..n])
    decreases |es|
  {
    if n == |es| {
      assert es[..n] == es;
    } else {
      LegalPrefix(es[..|es| - 1], n);
      assert es[..|es| - 1][..n] == es[..n];
    }
  }

  /** A run up to one event, and that event. */
  lemma PrefixStep(es: seq<Event>, i: nat)
    requires Legal(es) && i < |es|
    ensures Legal(es[..i]) && Enabled(After(es[..i]), es[i]) && After(es[..i + 1]) == Next(After(es[..i]), es[i])
  {
    LegalPrefix(es, i + 1);
    assert es[..i + 1][..i] == es[..i];
  }

  // ----- what an event does to one stored job

  /** The event is a successful Fail of id in state w. */
  predicate Fails(w: World, e: Event, id: JobId) {
    && id in w.jobs && w.jobs[id].state == Claimed
    && match e {
         case NoHandler(k, _, fault) => k in w.tokens && w.tokens[k].job.id == id && !fault
         case Settle(k, _, _, fault) =>
           k in w.tokens && w.tokens[k].job.id == id && w.tokens[k].stage == Returned(false) && !fault
         case _ => false
       }
  }

  /** The error and the time of the next attempt that a failing event records. */
  function ErrorOf(w: World, e: Event): string {
    match e
    case NoHandler(k, _, _) => if k in w.tokens then "no handler registered for " + w.tokens[k].job.name else ""
    case Settle(_, _, error, _) => error
    case _ => ""
  }

  function RetryAt(e: Event): Time {
    match e
    case NoHandler(_, at, _) => at
    case Settle(_, at, _, _) => at
    case _ => 0
  }

  /** ... a successful Ack of id, by a worker whose handler returned nil. */
  predicate Acks(w: World, e: Event, id: JobId) {
    && id in w.jobs && w.jobs[id].state == Claimed
    && e.Settle? && e.k in w.tokens && w.tokens[e.k].job.id == id && w.tokens[e.k].stage == Returned(true) && !e.fault
  }

  predicate Cancels(w: World, e: Event, id: JobId) {
    id in w.jobs && w.jobs[id].state == Pending && e == CancelJob(id)
  }

  predicate Recovers(w: World, e: Event, id: JobId) {
    id in w.jobs && e.RecoverStale? && id in e.freed
  }

  predicate ClaimsId(e: Event, id: JobId) {
    e.ClaimBatch? && id in e.ids
  }

  /** How an event changes one stored job, in full. */
  lemma JobStep(w: World, e: Event, id: JobId)
    requires Enabled(w, e) && Keyed(w.jobs) && w.jobs.Keys <= w.used && id in w.jobs
    ensures var w' := Next(w, e); var j := w.jobs[id];
      if Acks(w, e, id) || Cancels(w, e, id) || (Fails(w, e, id) && Exhausts(j)) then id !in w'.jobs
      else
        && id in w'.jobs
        && (if Fails(w, e, id) then PutBack(ErrorOf(w, e), RetryAt(e), j, w'.jobs[id])
            else if Recovers(w, e, id) then Freed(j, w'.jobs[id])
            else if ClaimsId(e, id) then j.state == Pending && LockedFor(e.r, j, w'.jobs[id])
            else if e.RescheduleJob? && e.id == id && j.state == Pending then w'.jobs[id] == j.(runAt := e.at)
            else w'.jobs[id] == j)
  {
  }

  /** A job enters the store only by being saved. */
  lemma NewJob(w: World, e: Event, id: JobId)
    requires Enabled(w, e) && id !in w.jobs && id in Next(w, e).jobs
    ensures e.Enqueue? && e.job.id == id && Next(w, e).jobs[id] == e.job
  {
  }

  ghost predicate Basics(w: World) {
    && Keyed(w.jobs) && w.jobs.Keys <= w.used
    && (forall id :: id in w.jobs ==> w.jobs[id].state == Pending || w.jobs[id].state == Claimed)
    && (forall k :: k in w.tokens ==> TokenOk(w, k))
  }

  /** A token is numbered below next, is for a saved job, and is about to fire only its own job's hook. */
  predicate TokenOk(w: World, k: nat)
    requires k in w.tokens
  {
    var tok := w.tokens[k];
    && k < w.next && tok.job.id in w.used
    && (tok.stage.Settled? ==>
          tok.stage.hook.id == tok.job.id && tok.stage.hook.queue == tok.job.queue && !tok.stage.hook.OnStart?)
  }

  predicate OwnEvent(e: Event, k: nat) {
    (e.Begin? || e.NoHandler? || e.Return? || e.Settle? || e.FireHook? || e.Lose?) && e.k == k
  }

  /** Where a token comes from: it was there with the same job, unchanged unless the event is its own,
      or it was just handed out for a stored job, locked for the claim's worker. */
  lemma TokenStep(w: World, e: Event, k: nat)
    requires Basics(w) && Enabled(w, e) && k in Next(w, e).tokens
    ensures var tok := Next(w, e).tokens[k];
      if k in w.tokens then tok.job == w.tokens[k].job && (!OwnEvent(e, k) ==> tok == w.tokens[k])
      else
        && e.ClaimBatch? && w.next <= k < w.next + |e.ids| && TokenId(w, e.ids, k) in w.jobs
        && LockedFor(e.r, w.jobs[TokenId(w, e.ids, k)], tok.job) && tok.stage == Held
  {
    assert k in w.tokens ==> TokenOk(w, k);
  }

  lemma StepTokens(w: World, e: Event)
    requires Basics(w) && Enabled(w, e)
    ensures forall k :: k in Next(w, e).tokens ==> TokenOk(Next(w, e), k)
  {
    var w' := Next(w, e);
    forall k | k in w'.tokens ensures TokenOk(w', k) {
      if k in w.tokens {
        assert TokenOk(w, k);
      } else {
        assert TokenId(w, e.ids, k) in w.jobs;
      }
    }
  }

  lemma StepBasics(w: World, e: Event)
    requires Basics(w) && Enabled(w, e)
    ensures Basics(Next(w, e))
  {
    var w' := Next(w, e);
    StepTokens(w, e);
    forall id | id in w'.jobs
      ensures id in w'.used && w'.jobs[id].id == id && (w'.jobs[id].state == Pending || w'.jobs[id].state == Claimed)
    {
      if id in w.jobs {
        JobStep(w, e, id);
      } else {
        NewJob(w, e, id);
      }
    }
  }

  lemma {:induction false} ReachableBasics(es: seq<Event>)
    requires Legal(es)
    ensures Basics(After(es))
    decreases |es|
  {
    if es == [] {
    } else {
      ReachableBasics(es[..|es| - 1]);
      StepBasics(After(es[..|es| - 1]), es[|es| - 1]);
    }
  }
}
