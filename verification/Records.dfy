/** What is stored for a job, and what its workers hold, read off the events of a run alone. */
module Records {
  import opened Jobs
  import opened Table
  import opened Runs

  /** What the events say about one job: how it was saved, its failures, the latest error and the latest time it was
      put off to, its latest claim, and whether that claim still stands. */
  datatype History = History(
    saved: Option<Job>,
    failures: nat,
    error: Option<string>,
    putOff: Option<Time>,
    claim: Option<Request>,
    held: bool)

  function Recount(h: History, w: World, e: Event, id: JobId): History {
    if e.Enqueue? && e.job.id == id then History(Some(e.job), 0, None, None, None, false)
    else if ClaimsId(e, id) then h.(claim := Some(e.r), held := true)
    else if Fails(w, e, id) then
      h.(failures := h.failures + 1, error := Some(ErrorOf(w, e)), putOff := Some(RetryAt(e)), held := false)
    else if Recovers(w, e, id) then h.(held := false)
    else if e.RescheduleJob? && e.id == id && !h.held then h.(putOff := Some(e.at))
    else h
  }

  ghost function HistoryOf(es: seq<Event>, id: JobId): History {
    if es == [] then History(None, 0, None, None, None, false)
    else Recount(HistoryOf(es[..|es| - 1], id), After(es[..|es| - 1]), es[|es| - 1], id)
  }

  function OrElse<T>(o: Option<T>, t: T): T {
    if o.Some? then o.value else t
  }

  /** While a claim stands the job is locked as it asked; after one the job is unlocked. */
  predicate LockMatches(h: History, j: Job, k: Job) {
    match h.claim
    case None => k.state == Pending && k.lockedBy == j.lockedBy && k.lockedUntil == j.lockedUntil && !h.held
    case Some(r) =>
      if h.held then k.state == Claimed && k.lockedBy == r.worker && k.lockedUntil == r.until else Unlocked(k)
  }

  /** Every field of k follows from the history: its work is what was saved, its lock the standing claim's,
      its attempt, error and run time those of its failures. */
  predicate Matches(h: History, k: Job) {
    && h.saved.Some?
    && var j := h.saved.value;
       && SameWork(j, k)
       && k.attempt == h.failures
       && k.lastError == OrElse(h.error, j.lastError)
       && k.runAt == OrElse(h.putOff, j.runAt)
       && k.updatedAt == (if h.claim.Some? then h.claim.value.now else j.updatedAt)
       && LockMatches(h, j, k)
  }

  lemma Locking(h: History, r: Request, j: Job, k: Job)
    requires Matches(h, j) && LockedFor(r, j, k)
    ensures Matches(h.(claim := Some(r), held := true), k)
  {
  }

  lemma PuttingBack(h: History, error: string, at: Time, j: Job, k: Job)
    requires Matches(h, j) && j.state == Claimed && PutBack(error, at, j, k)
    ensures Matches(h.(failures := h.failures + 1, error := Some(error), putOff := Some(at), held := false), k)
  {
  }

  lemma Freeing(h: History, j: Job, k: Job)
    requires Matches(h, j) && j.state == Claimed && Freed(j, k)
    ensures Matches(h.(held := false), k)
  {
  }

  lemma MatchesStep(w: World, e: Event, id: JobId, h: History)
    requires Basics(w) && Enabled(w, e) && id in w.jobs && Matches(h, w.jobs[id]) && id in Next(w, e).jobs
    ensures Matches(Recount(h, w, e, id), Next(w, e).jobs[id])
  {
    JobStep(w, e, id);
    var j, k := w.jobs[id], Next(w, e).jobs[id];
    if ClaimsId(e, id) {
      Locking(h, e.r, j, k);
    } else if Fails(w, e, id) {
      PuttingBack(h, ErrorOf(w, e), RetryAt(e), j, k);
    } else if Recovers(w, e, id) {
      Freeing(h, j, k);
    }
  }

  /** In every run each stored job is what its events make it, field by field. */
  lemma {:induction false} StoredIsRecorded(es: seq<Event>, id: JobId)
    requires Legal(es) && id in After(es).jobs
    ensures Matches(HistoryOf(es, id), After(es).jobs[id])
    decreases |es|
  {
    var init, e := es[..|es| - 1], es[|es| - 1];
    ReachableBasics(init);
    if id in After(init).jobs {
      StoredIsRecorded(init, id);
      MatchesStep(After(init), e, id, HistoryOf(init, id));
    } else {
      NewJob(After(init), e, id);
    }
  }

  // ----- what a worker is handed

  /** Job j is, in what it asks for, the job that was saved under its id. */
  predicate AsSaved(h: History, j: Job) {
    h.saved.Some? && SameWork(h.saved.value, j)
  }

  lemma AsSavedStep(w: World, e: Event, j: Job, h: History)
    requires Enabled(w, e) && j.id in w.used && AsSaved(h, j)
    ensures AsSaved(Recount(h, w, e, j.id), j)
  {
  }

  /** In every run, whatever was retried, recovered or rescheduled before, a worker holds the name, payload, codec,
      queue, priority, timeout and limit that the job was saved with. */
  lemma {:induction false} WorkersRunWhatWasSaved(es: seq<Event>, k: nat)
    requires Legal(es) && k in After(es).tokens
    ensures var j := After(es).tokens[k].job; AsSaved(HistoryOf(es, j.id), j)
    decreases |es|
  {
    var init, e := es[..|es| - 1], es[|es| - 1];
    var w, j := After(init), After(es).tokens[k].job;
    ReachableBasics(init);
    TokenStep(w, e, k);
    if k in w.tokens {
      assert TokenOk(w, k);
      WorkersRunWhatWasSaved(init, k);
    } else {
      StoredIsRecorded(init, j.id);
    }
    AsSavedStep(w, e, j, HistoryOf(init, j.id));
  }
}
