/** The order of a job's hooks in terms of two times a deployment can know: how long a retry is put off,
    and how long a worker takes to fire OnRetry. */
module HookTiming {
  import Backoff
  import opened Jobs
  import opened Table
  import opened Runs
  import opened Accounting
  import opened Exclusion
  import opened HookOrder
  import opened HookEndings

  /** After the a-th attempt fails the worker reads the clock, sets the retry delay(a) later, calls Fail and fires
      OnRetry, all within h of the reading; the store claims no job more than early before it is due. */
  datatype Pace = Pace(delay: int -> int, h: nat, early: nat)

  /** The time from which the retry of token k's job was counted. */
  ghost function ReadAt(pc: Pace, es: seq<Event>, k: nat): Time {
    if es == [] then 0
    else
      var init, e := es[..|es| - 1], es[|es| - 1];
      if e.Settle? && e.k == k && k in After(init).tokens then e.at - pc.delay(After(init).tokens[k].job.attempt + 1)
      else ReadAt(pc, init, k)
  }

  predicate OwesRetry(w: World, k: nat) {
    k in w.tokens && w.tokens[k].stage.Settled? && w.tokens[k].stage.hook.OnRetry?
  }

  /** Claims take due jobs by a clock read before; retries are set by a clock read at most h before, and their hooks
      fire within h of it; no pending job is brought forward. */
  ghost predicate PacedStep(pc: Pace, es: seq<Event>, e: Event) {
    var w := After(es);
    match e
    case ClaimBatch(r, ids) =>
      r.now <= w.now && forall id :: id in ids && id in w.jobs ==> w.jobs[id].runAt <= r.now + pc.early
    case Settle(k, at, _, _) =>
      k in w.tokens && w.tokens[k].stage == Returned(false) && !GivesUp(w.tokens[k].job) ==>
        var read := at - pc.delay(w.tokens[k].job.attempt + 1);
        read <= w.now <= read + pc.h
    case Tick(x) => forall k :: OwesRetry(w, k) ==> w.now + x <= ReadAt(pc, es, k) + pc.h
    case RescheduleJob(id, at) => id in w.jobs && w.jobs[id].state == Pending ==> w.jobs[id].runAt <= at
    case _ => true
  }

  ghost predicate Paced(pc: Pace, es: seq<Event>) {
    es == [] || (Paced(pc, es[..|es| - 1]) && PacedStep(pc, es[..|es| - 1], es[|es| - 1]))
  }

  /** Every retry of a job with limit m comes due only after the hook of the failure before it has fired. */
  ghost predicate Patient(pc: Pace, m: int) {
    forall a :: 1 <= a < m ==> pc.h + pc.early < pc.delay(a)
  }

  // ----- enough

  /** While token k owes the job's OnRetry, the job waits in the store, not due before the hook has fired. */
  ghost predicate Waits(pc: Pace, es: seq<Event>, id: JobId, k: nat)
    requires OwesRetry(After(es), k)
  {
    var w, read := After(es), ReadAt(pc, es, k);
    && w.now <= read + pc.h
    && (id in w.jobs ==>
          w.jobs[id].state == Pending && read + pc.delay(w.tokens[k].stage.hook.attempt) <= w.jobs[id].runAt)
  }

  ghost predicate AllWait(pc: Pace, es: seq<Event>, id: JobId) {
    forall k :: Mine(After(es), id, k) && OwesRetry(After(es), k) ==> Waits(pc, es, id, k)
  }

  /** A token that owes OnRetry after the event owed it before, or has just called Fail. */
  lemma OwedBefore(w: World, e: Event, k: nat)
    requires Basics(w) && Enabled(w, e) && OwesRetry(Next(w, e), k)
    ensures (e.Settle? && e.k == k) || (OwesRetry(w, k) && Next(w, e).tokens[k] == w.tokens[k])
  {
    assert k in w.tokens ==> TokenOk(w, k);
  }

  /** A worker that comes to owe OnRetry has put its job back, due at the time it passed. */
  lemma SettleOwes(w: World, k: nat, at: Time, error: string, fault: bool)
    requires Enabled(w, Settle(k, at, error, fault)) && OwesRetry(Next(w, Settle(k, at, error, fault)), k)
    ensures var j, w' := w.tokens[k].job, Next(w, Settle(k, at, error, fault));
      && w.tokens[k].stage == Returned(false) && !GivesUp(j)
      && w'.tokens[k].stage.hook.attempt == j.attempt + 1 && w'.now == w.now
      && (j.id in w'.jobs ==> w'.jobs[j.id].state == Pending && w'.jobs[j.id].runAt == at)
  {
  }

  lemma SettleWaits(pc: Pace, es: seq<Event>, id: JobId, k: nat)
    requires es != [] && Legal(es) && Paced(pc, es) && Mine(After(es), id, k) && OwesRetry(After(es), k)
    requires es[|es| - 1].Settle? && es[|es| - 1].k == k
    ensures Waits(pc, es, id, k)
  {
    var init, e := es[..|es| - 1], es[|es| - 1];
    SettleOwes(After(init), k, e.at, e.error, e.fault);
  }

  /** A job that waits is touched by nothing but a later rescheduling. */
  lemma StillWaits(pc: Pace, es: seq<Event>, id: JobId, m: int, k: nat)
    requires es != [] && Legal(es) && Paced(pc, es) && Patient(pc, m)
    requires var init, e := es[..|es| - 1], es[|es| - 1]; var w := After(init);
      && SmoothStep(w, e, id) && id in w.used && Orderly(w, id, m) && Mine(w, id, k)
      && OwesRetry(w, k) && Waits(pc, init, id, k)
      && OwesRetry(After(es), k) && After(es).tokens[k] == w.tokens[k] && !(e.Settle? && e.k == k)
    ensures Waits(pc, es, id, k)
  {
    var init, e := es[..|es| - 1], es[|es| - 1];
    var w := After(init);
    ReachableBasics(init);
    assert MySettled(w, id, k) && SettledOk(w, id, m, |HooksOf(w.log, id)|, k);
    if id in w.jobs {
      JobStep(w, e, id);
    } else if id in After(es).jobs {
      NewJob(w, e, id);
    }
  }

  lemma StepWaits(pc: Pace, es: seq<Event>, id: JobId, m: int)
    requires es != [] && Legal(es) && Paced(pc, es) && Patient(pc, m)
    requires var init, e := es[..|es| - 1], es[|es| - 1];
      SmoothStep(After(init), e, id) && id in After(init).used && Orderly(After(init), id, m) && AllWait(pc, init, id)
    ensures AllWait(pc, es, id)
  {
    var init, e := es[..|es| - 1], es[|es| - 1];
    ReachableBasics(init);
    forall k | Mine(After(es), id, k) && OwesRetry(After(es), k)
      ensures Waits(pc, es, id, k)
    {
      OwedBefore(After(init), e, k);
      if e.Settle? && e.k == k {
        SettleWaits(pc, es, id, k);
      } else {
        assert Mine(After(init), id, k) && Waits(pc, init, id, k);
        StillWaits(pc, es, id, m, k);
      }
    }
  }

  lemma SettledOwesRetry(w: World, id: JobId, m: int, k: nat)
    requires Orderly(w, id, m) && id in w.jobs
    ensures MySettled(w, id, k) ==> OwesRetry(w, k)
  {
    if MySettled(w, id, k) {
      assert SettledOk(w, id, m, |HooksOf(w.log, id)|, k);
    }
  }

  /** So the next worker cannot start before the hook has fired. */
  lemma WaitingIsPrompt(pc: Pace, es: seq<Event>, e: Event, id: JobId, m: int)
    requires Enabled(After(es), e) && Orderly(After(es), id, m) && AllWait(pc, es, id)
    ensures PromptStep(After(es), e, id)
  {
    var w := After(es);
    if e.Begin? && OnToken(w, e, id) {
      assert MyActive(w, id, e.k) && ActiveOk(w, id, e.k);
      forall k | k in w.tokens && w.tokens[k].job.id == id
        ensures !w.tokens[k].stage.Settled?
      {
        SettledOwesRetry(w, id, m, k);
        assert Mine(w, id, k) && !OwesRetry(w, k);
      }
    }
  }

  lemma {:induction false} PacedIsPrompt(pc: Pace, es: seq<Event>, id: JobId)
    requires Legal(es) && Paced(pc, es) && Smooth(es, id) && id in After(es).used
    requires 0 < SavedLimit(es, id) && Patient(pc, SavedLimit(es, id))
    ensures Prompt(es, id) && AllWait(pc, es, id)
    decreases |es|
  {
    var init, e := es[..|es| - 1], es[|es| - 1];
    if id in After(init).used {
      PacedIsPrompt(pc, init, id);
      PromptIsOrderly(init, id);
      WaitingIsPrompt(pc, init, e, id, SavedLimit(init, id));
      StepWaits(pc, es, id, SavedLimit(init, id));
    } else {
      PromptBefore(init, id);
      NoHooksYet(init, id);
      forall k
        ensures !Mine(After(es), id, k)
      {
        assert !Mine(After(init), id, k);
      }
    }
  }

  // ----- needed

  /** Nothing goes wrong in the run, and nothing is cancelled. */
  ghost predicate Quiet(es: seq<Event>) {
    forall i :: 0 <= i < |es| ==>
      && !es[i].NoHandler? && !es[i].Lose? && !es[i].RecoverStale? && !es[i].CancelJob?
      && !(es[i].Settle? && es[i].fault)
  }

  lemma {:induction false} QuietIsSmooth(es: seq<Event>, id: JobId)
    requires Quiet(es)
    ensures Smooth(es, id) && !WasCancelled(es, id)
    decreases |es|
  {
    if es == [] {
    } else {
      QuietIsSmooth(es[..|es| - 1], id);
    }
  }

  function Sample(m: int): Job {
    Job("id", "q", "n", "", "", 1, 0, 0, m, Pending, 0, "", ZERO_TIME, "", "", 0, 0)
  }

  /** A quiet run within the pace, in which the sample job was saved with limit m. */
  ghost predicate Good(pc: Pace, m: int, es: seq<Event>) {
    Legal(es) && Paced(pc, es) && Quiet(es) && "id" in After(es).used && SavedLimit(es, "id") == m
  }

  lemma ExtendGood(pc: Pace, m: int, es: seq<Event>, e: Event)
    requires Good(pc, m, es) && Enabled(After(es), e) && PacedStep(pc, es, e)
    requires Quiet([e]) && !e.Enqueue?
    ensures Good(pc, m, es + [e]) && After(es + [e]) == Next(After(es), e)
    ensures forall k :: !(e.Settle? && e.k == k) ==> ReadAt(pc, es + [e], k) == ReadAt(pc, es, k)
    ensures Prompt(es + [e], "id") ==> Prompt(es, "id") && PromptStep(After(es), e, "id")
  {
    assert (es + [e])[..|es|] == es && [e][0] == e;
  }

  /** The sample job has failed a - 1 times and is pending; no worker has it. */
  ghost predicate Resting(w: World, m: int, a: int) {
    && w.tokens == map[] && w.jobs.Keys == {"id"}
    && var j := w.jobs["id"];
       j.id == "id" && j.queue == "q" && j.state == Pending && j.maxAttempts == m && j.attempt == a - 1
  }

  /** ... a worker is running it, */
  ghost predicate RunningIn(w: World, m: int, a: int, k: nat) {
    && w.tokens.Keys == {k} && w.tokens[k].stage == Running && w.jobs == map["id" := w.tokens[k].job] && k < w.next
    && var j := w.tokens[k].job;
       j.id == "id" && j.queue == "q" && j.state == Claimed && j.maxAttempts == m && j.attempt == a - 1
  }

  /** ... the worker has called Fail just now, and OnRetry is still to fire. */
  ghost predicate FailedIn(pc: Pace, es: seq<Event>, m: int, a: int, k: nat) {
    var w := After(es);
    && w.tokens.Keys == {k} && w.tokens[k].stage == Settled(OnRetry("id", "q", a)) && w.tokens[k].job.id == "id"
    && w.jobs.Keys == {"id"} && k < w.next && ReadAt(pc, es, k) == w.now
    && var j := w.jobs["id"];
       j.id == "id" && j.queue == "q" && j.state == Pending && j.maxAttempts == m && j.attempt == a
       && j.runAt == w.now + pc.delay(a)
  }

  lemma Beginning(pc: Pace, m: int) returns (es: seq<Event>)
    ensures Good(pc, m, es) && Resting(After(es), m, 1)
  {
    var e := Enqueue(Sample(m));
    Extend([], e);
    es := [] + [e];
    assert es[..|es| - 1] == [] && es[|es| - 1] == e;
    assert PacedStep(pc, [], e) && Paced(pc, []);
    assert SavedLimit(es, "id") == m;
    assert After(es).jobs == map["id" := Sample(m)] && After(es).used == {"id"};
  }

  /** It waits until the job is due, and a worker starts it. */
  lemma StartDue(pc: Pace, m: int, a: int, es: seq<Event>) returns (es': seq<Event>, k: nat)
    requires Good(pc, m, es) && Resting(After(es), m, a)
    ensures Good(pc, m, es') && RunningIn(After(es'), m, a, k)
  {
    var w := After(es);
    var x: nat := if w.jobs["id"].runAt <= w.now then 0 else w.jobs["id"].runAt - w.now;
    ExtendGood(pc, m, es, Tick(x));
    es', k := StartNow(pc, m, es + [Tick(x)]);
  }

  /** A job that is due is claimed and started at once. */
  lemma StartNow(pc: Pace, m: int, es: seq<Event>) returns (es': seq<Event>, k: nat)
    requires Good(pc, m, es)
    requires var w := After(es);
      && w.jobs.Keys == {"id"} && w.jobs["id"].id == "id" && w.jobs["id"].queue == "q"
      && w.jobs["id"].state == Pending && w.jobs["id"].runAt <= w.now + pc.early && w.next !in w.tokens
    ensures Good(pc, m, es') && k == After(es).next
    ensures After(es') == Started(After(es), Request("q", After(es).now, 1, "", 0), "id")
    ensures Prompt(es', "id") ==> NoneOwed(After(es))
  {
    var w := After(es);
    var r := Request("q", w.now, 1, "", 0);
    k := w.next;
    StartsClaimed(w, r, "id");
    BeginsPromptly(w, r);
    ExtendGood(pc, m, es, ClaimBatch(r, ["id"]));
    es' := es + [ClaimBatch(r, ["id"])];
    ExtendGood(pc, m, es', Begin(k));
    es' := es' + [Begin(k)];
  }

  /** No worker of the sample job has a hook to fire. */
  ghost predicate NoneOwed(w: World) {
    forall l :: l in w.tokens && w.tokens[l].job.id == "id" ==> !w.tokens[l].stage.Settled?
  }

  lemma BeginsPromptly(w: World, r: Request)
    requires "id" in w.jobs && w.jobs["id"].id == "id" && w.next !in w.tokens
    ensures PromptStep(Next(w, ClaimBatch(r, ["id"])), Begin(w.next), "id") ==> NoneOwed(w)
  {
    var w1 := Next(w, ClaimBatch(r, ["id"]));
    OneClaim(w, r, "id");
    assert forall l :: l in w.tokens ==> l in w1.tokens && w1.tokens[l] == w.tokens[l];
  }

  lemma FailNow(pc: Pace, m: int, a: int, es: seq<Event>, k: nat) returns (es': seq<Event>)
    requires Good(pc, m, es) && RunningIn(After(es), m, a, k) && 1 <= a < m
    ensures Good(pc, m, es') && FailedIn(pc, es', m, a, k)
  {
    ExtendGood(pc, m, es, Return(k, false));
    es' := es + [Return(k, false)];
    var e := Settle(k, After(es).now + pc.delay(a), "", false);
    ExtendGood(pc, m, es', e);
    assert (es' + [e])[..|es'|] == es';
    es' := es' + [e];
  }

  /** One attempt that fails, with its hook fired in time. */
  lemma OneAttempt(pc: Pace, m: int, a: int, es: seq<Event>) returns (es': seq<Event>)
    requires Good(pc, m, es) && Resting(After(es), m, a) && 1 <= a < m
    ensures Good(pc, m, es') && Resting(After(es'), m, a + 1)
  {
    var k;
    es', k := StartDue(pc, m, a, es);
    es' := FailNow(pc, m, a, es', k);
    ExtendGood(pc, m, es', FireHook(k));
    es' := es' + [FireHook(k)];
  }

  lemma {:induction false} FailUpTo(pc: Pace, m: int, a: int) returns (es: seq<Event>)
    requires 1 <= a <= m
    ensures Good(pc, m, es) && Resting(After(es), m, a)
    decreases a
  {
    if a == 1 {
      es := Beginning(pc, m);
    } else {
      es := FailUpTo(pc, m, a - 1);
      es := OneAttempt(pc, m, a - 1, es);
    }
  }

  /** The job's next worker has started while token k still owes OnRetry. */
  ghost predicate RacingIn(w: World, m: int, k: nat, l: nat) {
    && k != l && w.tokens.Keys == {k, l} && l < w.next
    && w.tokens[k].stage.Settled? && w.tokens[k].job.id == "id"
    && w.tokens[l].stage == Running && w.jobs == map["id" := w.tokens[l].job]
    && w.tokens[l].job.id == "id" && w.tokens[l].job.state == Claimed
  }

  /** The retry comes due before the hook has fired. */
  lemma StartTooSoon(pc: Pace, m: int, a: int, es: seq<Event>, k: nat) returns (es': seq<Event>, l: nat)
    requires Good(pc, m, es) && FailedIn(pc, es, m, a, k) && pc.delay(a) <= pc.h + pc.early
    ensures Good(pc, m, es') && RacingIn(After(es'), m, k, l) && !Prompt(es', "id")
  {
    var x: nat := if pc.delay(a) <= pc.early then 0 else pc.delay(a) - pc.early;
    ExtendGood(pc, m, es, Tick(x));
    es', l := StartNow(pc, m, es + [Tick(x)]);
  }

  /** Both workers finish, and the job is done. */
  lemma FinishRace(pc: Pace, m: int, es: seq<Event>, k: nat, l: nat) returns (es': seq<Event>)
    requires Good(pc, m, es) && RacingIn(After(es), m, k, l) && !Prompt(es, "id")
    ensures Good(pc, m, es') && !Prompt(es', "id") && After(es').jobs == map[] && After(es').tokens == map[]
  {
    ExtendGood(pc, m, es, FireHook(k));
    es' := es + [FireHook(k)];
    ExtendGood(pc, m, es', Return(l, true));
    es' := es' + [Return(l, true)];
    ExtendGood(pc, m, es', Settle(l, 0, "", false));
    es' := es' + [Settle(l, 0, "", false)];
    ExtendGood(pc, m, es', FireHook(l));
    es' := es' + [FireHook(l)];
  }

  /** If some retry can come due before the hook of the failure before it has fired, a job's hooks can come out of
      order although nothing goes wrong and only due jobs are claimed. */
  lemma HooksCanRace(pc: Pace, m: int, a: int) returns (es: seq<Event>)
    requires 1 <= a < m && pc.delay(a) <= pc.h + pc.early
    ensures Good(pc, m, es) && After(es).jobs == map[] && After(es).tokens == map[]
    ensures Smooth(es, "id") && !WasCancelled(es, "id") && !WellOrdered(HooksOf(After(es).log, "id"), m)
  {
    var k, l;
    es := FailUpTo(pc, m, a);
    es, k := StartDue(pc, m, a, es);
    es := FailNow(pc, m, a, es, k);
    es, l := StartTooSoon(pc, m, a, es, k);
    es := FinishRace(pc, m, es, k, l);
    QuietIsSmooth(es, "id");
    HooksInOrderIff(es, "id");
  }

  // ----- exactly

  /** A run within the pace in which nothing goes wrong with the job, saved with limit m. */
  ghost predicate Regular(pc: Pace, m: int, es: seq<Event>, id: JobId) {
    Legal(es) && Paced(pc, es) && Smooth(es, id) && id in After(es).used && SavedLimit(es, id) == m
  }

  ghost predicate AlwaysOrdered(pc: Pace, m: int) {
    forall es, id :: Regular(pc, m, es, id) ==> WellOrdered(HooksOf(After(es).log, id), m)
  }

  /** The hooks of jobs with limit m are in order in every regular run, if and only if
      every retry comes due only after the hook of the failure before it must have fired. */
  lemma OrderedIffPatient(pc: Pace, m: int)
    requires 0 < m
    ensures AlwaysOrdered(pc, m) <==> Patient(pc, m)
  {
    if Patient(pc, m) {
      forall es, id | Regular(pc, m, es, id)
        ensures WellOrdered(HooksOf(After(es).log, id), m)
      {
        PacedIsPrompt(pc, es, id);
        HooksInOrderIff(es, id);
      }
    } else {
      var a :| 1 <= a < m && pc.delay(a) <= pc.h + pc.early;
      var es := HooksCanRace(pc, m, a);
      assert Regular(pc, m, es, "id");
    }
  }

  /** The job has left the store, and no worker is occupied with it. */
  ghost predicate Over(es: seq<Event>, id: JobId) {
    id !in After(es).jobs && forall k :: !Mine(After(es), id, k)
  }

  ghost predicate AlwaysCompleted(pc: Pace, m: int) {
    forall es, id :: Regular(pc, m, es, id) && Over(es, id) ==>
      (Complete(HooksOf(After(es).log, id), m) <==> !WasCancelled(es, id))
  }

  /** Under the same condition exactly, every job that is over has fired all its hooks in order and ended in one
      OnSuccess, or one OnFailure at its limit, unless it was cancelled. */
  lemma CompletedIffPatient(pc: Pace, m: int)
    requires 0 < m
    ensures AlwaysCompleted(pc, m) <==> Patient(pc, m)
  {
    if Patient(pc, m) {
      forall es, id | Regular(pc, m, es, id) && Over(es, id)
        ensures Complete(HooksOf(After(es).log, id), m) <==> !WasCancelled(es, id)
      {
        PacedIsPrompt(pc, es, id);
        HooksCompleteIff(es, id);
      }
    } else {
      var a :| 1 <= a < m && pc.delay(a) <= pc.h + pc.early;
      var es := HooksCanRace(pc, m, a);
      assert Regular(pc, m, es, "id") && Over(es, "id");
    }
  }

  // ----- exponential backoff

  ghost function BackoffPace(base: int, cap: int, h: nat, early: nat): Pace {
    Pace((a: int) => Backoff.Outcome(base, cap, a), h, early)
  }

  /** With exponential backoff the first retry decides: hooks fire in order if and only if h is below the base
      (or the cap, if that is less). */
  lemma BackoffOrderedIff(base: nat, cap: int, h: nat, early: nat, m: int)
    requires 1 < m
    ensures AlwaysOrdered(BackoffPace(base, cap, h, early), m) <==> h + early < base && h + early < Backoff.Limit(cap)
  {
    var pc := BackoffPace(base, cap, h, early);
    OrderedIffPatient(pc, m);
    assert Backoff.Ideal(base, 1) == base by {
      assert Backoff.Pow2(0) == 1;
    }
    assert pc.delay(1) == Backoff.Delay(base, cap, 1);
    forall a | 1 <= a < m
      ensures pc.delay(1) <= pc.delay(a)
    {
      Backoff.DelayMonotone(base, cap, 1, a);
    }
  }
}
