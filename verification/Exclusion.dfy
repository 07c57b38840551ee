/** Who may work on a job at one time. */
module Exclusion {
  import opened Jobs
  import opened Table
  import opened Claims
  import opened Runs
  import opened Accounting

  // ----- claims are separated by releases

  /** Event i of the run gives the claim on id back: a successful Fail or a recovery. */
  ghost predicate Releases(es: seq<Event>, id: JobId, i: nat)
    requires i < |es|
  {
    Fails(After(es[..i]), es[i], id) || Recovers(After(es[..i]), es[i], id)
  }

  /** A job that was saved before is claimed, or gone. */
  ghost predicate Taken(w: World, id: JobId) {
    id in w.used && (id in w.jobs ==> w.jobs[id].state == Claimed)
  }

  lemma StaysTaken(w: World, e: Event, id: JobId)
    requires Basics(w) && Enabled(w, e) && Taken(w, id) && !Fails(w, e, id) && !Recovers(w, e, id)
    ensures Taken(Next(w, e), id)
  {
    if id in w.jobs {
      JobStep(w, e, id);
    } else if id in Next(w, e).jobs {
      NewJob(w, e, id);
    }
  }

  /** Until it is released, a claimed job stays claimed or leaves for good. */
  lemma {:induction false} StaysClaimed(es: seq<Event>, id: JobId, i: nat, j: nat)
    requires Legal(es) && i <= j <= |es| && Taken(After(es[..i]), id)
    requires forall k :: i <= k < j ==> !Releases(es, id, k)
    ensures Taken(After(es[..j]), id)
    decreases j
  {
    if i < j {
      StaysClaimed(es, id, i, j - 1);
      PrefixStep(es, j - 1);
      ReachableBasics(es[..j - 1]);
      assert !Releases(es, id, j - 1);
      StaysTaken(After(es[..j - 1]), es[j - 1], id);
    }
  }

  /** A claim takes a pending job and leaves it claimed. */
  lemma ClaimTakesPending(es: seq<Event>, id: JobId, i: nat)
    requires Legal(es) && i < |es| && ClaimsId(es[i], id)
    ensures id in After(es[..i]).jobs && After(es[..i]).jobs[id].state == Pending
    ensures id in After(es[..i + 1]).jobs && Taken(After(es[..i + 1]), id)
  {
    PrefixStep(es, i);
    ReachableBasics(es[..i]);
    var m :| 0 <= m < |es[i].ids| && es[i].ids[m] == id;
    assert id in PendingIn(After(es[..i]).jobs, es[i].r.queue);
    JobStep(After(es[..i]), es[i], id);
  }

  /** Between two claims of the same job lies a Fail or a recovery of it. */
  lemma ClaimsAreSeparated(es: seq<Event>, id: JobId, i: nat, j: nat)
    requires Legal(es) && i < j < |es| && ClaimsId(es[i], id) && ClaimsId(es[j], id)
    ensures exists k :: i < k < j && Releases(es, id, k)
  {
    ClaimTakesPending(es, id, i);
    ClaimTakesPending(es, id, j);
    if forall k :: i + 1 <= k < j ==> !Releases(es, id, k) {
      StaysClaimed(es, id, i + 1, j);
      assert false;
    }
  }

  // ----- one holder at a time

  /** The token's claim has not been settled with the store. */
  predicate Active(tok: Token) {
    !tok.stage.Settled?
  }

  /** A recovery, if this is one, frees no job that a token still works on. */
  ghost predicate Spares(w: World, e: Event) {
    e.RecoverStale? ==> forall k :: k in w.tokens && Active(w.tokens[k]) ==> w.tokens[k].job.id !in e.freed
  }

  /** No recovery overtakes an unsettled claim. */
  ghost predicate Timely(es: seq<Event>) {
    forall i :: 0 <= i < |es| ==> Spares(After(es[..i]), es[i])
  }

  /** An unsettled token holds the stored, claimed job itself, and holds it alone. */
  ghost predicate Exclusive(w: World) {
    && (forall k :: k in w.tokens && Active(w.tokens[k]) ==>
          var j := w.tokens[k].job; j.state == Claimed && j.id in w.jobs && w.jobs[j.id] == j)
    && (forall k, m :: k in w.tokens && m in w.tokens && k != m && Active(w.tokens[k]) && Active(w.tokens[m]) ==>
          w.tokens[k].job.id != w.tokens[m].job.id)
  }

  /** A token other than the one settled keeps its job as it was. */
  lemma OthersKept(w: World, e: Event, k: nat)
    requires Basics(w) && Exclusive(w) && Enabled(w, e) && Spares(w, e)
    requires k in w.tokens && Active(w.tokens[k]) && k in Next(w, e).tokens && Active(Next(w, e).tokens[k])
    ensures var j := w.tokens[k].job;
      Next(w, e).tokens[k].job == j && j.id in Next(w, e).jobs && Next(w, e).jobs[j.id] == j
  {
    var j := w.tokens[k].job;
    JobStep(w, e, j.id);
  }

  lemma StepExclusive(w: World, e: Event)
    requires Basics(w) && Exclusive(w) && Enabled(w, e) && Spares(w, e)
    ensures Exclusive(Next(w, e))
  {
    var w' := Next(w, e);
    if e.ClaimBatch? {
      ClaimExclusive(w, e.r, e.ids);
    } else {
      forall k | k in w'.tokens && Active(w'.tokens[k])
        ensures k in w.tokens && Active(w.tokens[k])
      {
      }
      forall k | k in w'.tokens && Active(w'.tokens[k])
        ensures w'.tokens[k].job == w.tokens[k].job
        ensures var j := w'.tokens[k].job; j.state == Claimed && j.id in w'.jobs && w'.jobs[j.id] == j
      {
        OthersKept(w, e, k);
      }
    }
  }

  lemma ClaimExclusive(w: World, r: Request, ids: seq<JobId>)
    requires Basics(w) && Exclusive(w) && Enabled(w, ClaimBatch(r, ids))
    ensures Exclusive(Next(w, ClaimBatch(r, ids)))
  {
    var e := ClaimBatch(r, ids);
    var w' := Next(w, e);
    var made := NewTokens(w, r, ids);
    forall k | k in w'.tokens && Active(w'.tokens[k])
      ensures var j := w'.tokens[k].job; j.state == Claimed && j.id in w'.jobs && w'.jobs[j.id] == j
      ensures k in made ==> w'.tokens[k].job.id == TokenId(w, ids, k)
      ensures k !in made ==> w'.tokens[k].job.id !in ids
    {
      if k in made {
        assert TokenId(w, ids, k) in ids;
      } else {
        OthersKept(w, e, k);
      }
    }
  }

  lemma TimelyPrefix(es: seq<Event>, n: nat)
    requires Timely(es) && n <= |es|
    ensures Timely(es[..n])
  {
    forall i | 0 <= i < n
      ensures Spares(After(es[..n][..i]), es[..n][i])
    {
      assert es[..n][..i] == es[..i];
    }
  }

  lemma {:induction false} TimelyIsExclusive(es: seq<Event>)
    requires Legal(es) && Timely(es)
    ensures Exclusive(After(es))
    decreases |es|
  {
    if es == [] {
    } else {
      var n := |es| - 1;
      TimelyPrefix(es, n);
      TimelyIsExclusive(es[..n]);
      ReachableBasics(es[..n]);
      StepExclusive(After(es[..n]), es[n]);
    }
  }

  /** A recovery that overtakes an unsettled claim takes the job away from its holder. */
  lemma OvertakenIsNotExclusive(w: World, e: Event)
    requires Exclusive(w) && !Spares(w, e)
    ensures !Exclusive(Next(w, e))
  {
    var k :| k in w.tokens && Active(w.tokens[k]) && w.tokens[k].job.id in e.freed;
    var w' := Next(w, e);
    assert w'.tokens[k] == w.tokens[k] && w'.jobs[w.tokens[k].job.id].state == Pending;
  }

  /** All through a run each unsettled claim is held by its holder alone, if and only if
      no recovery frees a job that is still being worked on. */
  lemma ExclusiveIff(es: seq<Event>)
    requires Legal(es)
    ensures (forall n :: 0 <= n <= |es| ==> Exclusive(After(es[..n]))) <==> Timely(es)
  {
    if Timely(es) {
      forall n | 0 <= n <= |es|
        ensures Exclusive(After(es[..n]))
      {
        LegalPrefix(es, n);
        TimelyPrefix(es, n);
        TimelyIsExclusive(es[..n]);
      }
    }
    if forall n :: 0 <= n <= |es| ==> Exclusive(After(es[..n])) {
      forall i | 0 <= i < |es|
        ensures Spares(After(es[..i]), es[i])
      {
        PrefixStep(es, i);
        assert Exclusive(After(es[..i])) && Exclusive(After(es[..i + 1]));
        if !Spares(After(es[..i]), es[i]) {
          OvertakenIsNotExclusive(After(es[..i]), es[i]);
        }
      }
    }
  }

  /** Two tokens of one job are running. */
  ghost predicate Overlap(w: World, k: nat, m: nat) {
    && k != m && k in w.tokens && m in w.tokens
    && w.tokens[k].stage.Running? && w.tokens[m].stage.Running? && w.tokens[k].job.id == w.tokens[m].job.id
  }

  /** If no recovery overtakes an unsettled claim, no job is ever run by two workers at once. */
  lemma NoDoubleExecution(es: seq<Event>, k: nat, m: nat)
    requires Legal(es) && Timely(es)
    ensures !Overlap(After(es), k, m)
  {
    TimelyIsExclusive(es);
  }

  /** A claim dropped on cancellation or by a crash leaves its job claimed in the store. */
  lemma DroppedIsStillClaimed(es: seq<Event>, k: nat)
    requires Legal(es) && Timely(es) && k in After(es).tokens && Active(After(es).tokens[k])
    ensures var w := After(es + [Lose(k)]); var id := After(es).tokens[k].job.id;
      k !in w.tokens && id in w.jobs && w.jobs[id].state == Claimed
  {
    TimelyIsExclusive(es);
    Extend(es, Lose(k));
  }

  /** A pending job claimed alone and started by the next token. */
  ghost function Started(w: World, r: Request, id: JobId): World
    requires id in w.jobs
  {
    var j := Claim(w.jobs[id], r);
    w.(jobs := w.jobs[id := j], tokens := w.tokens[w.next := Token(j, Running)], next := w.next + 1,
       log := w.log + [OnStart(j.id, j.queue, j.attempt + 1)])
  }

  lemma StartsClaimed(w: World, r: Request, id: JobId)
    requires id in PendingIn(w.jobs, r.queue)
    ensures Enabled(w, ClaimBatch(r, [id]))
    ensures var w1 := Next(w, ClaimBatch(r, [id]));
      Enabled(w1, Begin(w.next)) && Next(w1, Begin(w.next)) == Started(w, r, id)
  {
    OneClaim(w, r, id);
  }

  lemma OneClaim(w: World, r: Request, id: JobId)
    requires id in w.jobs
    ensures Next(w, ClaimBatch(r, [id]))
         == w.(jobs := w.jobs[id := Claim(w.jobs[id], r)],
               tokens := w.tokens[w.next := Token(Claim(w.jobs[id], r), Held)], next := w.next + 1)
  {
    assert TokenId(w, [id], w.next) == id;
    assert NewTokens(w, r, [id]) == map[w.next := Token(Claim(w.jobs[id], r), Held)];
    assert Elements([id]) == {id};
    assert ClaimAll(w.jobs, {id}, r) == w.jobs[id := Claim(w.jobs[id], r)];
  }

  // ----- terminal decisions

  /** Worker and store draw the same conclusion from the same job exactly when its limit is positive
      or its attempts are below the worker's default of three. */
  lemma TerminalAgreesIff(j: Job)
    ensures (GivesUp(j) <==> Exhausts(j)) <==> 0 < j.maxAttempts || j.attempt + 1 < 3
  {
  }

  /** The worker's failed job is requeued and OnRetry is due,
      or it is out of attempts, deleted, and OnFailure is due. */
  ghost predicate SettledAlike(j: Job, error: string, at: Time, t: Table, stage: Stage) {
    if j.id in t then
      PutBack(error, at, j, t[j.id]) && stage == Settled(OnRetry(j.id, j.queue, j.attempt + 1))
    else
      j.attempt + 1 == j.maxAttempts && stage == Settled(OnFailure(j.id, j.queue, j.attempt + 1))
  }

  lemma SettleAgrees(w: World, k: nat, at: Time, error: string)
    requires Exclusive(w) && k in w.tokens && w.tokens[k].stage == Returned(false)
    requires w.tokens[k].job.attempt < w.tokens[k].job.maxAttempts
    ensures var w' := Next(w, Settle(k, at, error, false));
      k in w'.tokens && SettledAlike(w.tokens[k].job, error, at, w'.jobs, w'.tokens[k].stage)
  {
  }

  /** When no recovery has overtaken a claim and a worker settles a failure of a job with a positive limit,
      the store call succeeds, and the worker fires OnFailure exactly when the store deletes the job,
      OnRetry exactly when it requeues it. */
  lemma WorkerAndStoreAgree(es: seq<Event>, k: nat, at: Time, error: string)
    requires Legal(es) && Timely(es)
    requires k in After(es).tokens && After(es).tokens[k].stage == Returned(false)
    requires 0 < After(es).tokens[k].job.maxAttempts
    ensures var w' := Next(After(es), Settle(k, at, error, false));
      k in w'.tokens && SettledAlike(After(es).tokens[k].job, error, at, w'.jobs, w'.tokens[k].stage)
  {
    TimelyIsExclusive(es);
    var w := After(es);
    HeldIsStored(w, k);
    ReachableAccounted(es, w.tokens[k].job.id);
    SettleAgrees(w, k, at, error);
  }

  lemma HeldIsStored(w: World, k: nat)
    requires Exclusive(w) && k in w.tokens && w.tokens[k].stage == Returned(false)
    ensures w.tokens[k].job.id in w.jobs && w.jobs[w.tokens[k].job.id] == w.tokens[k].job
  {
  }
}
