/** How the hooks of one job end. */
module HookEndings {
  import opened Jobs
  import opened Runs
  import opened Accounting
  import opened HookOrder

  ghost predicate Final(log: seq<Hook>) {
    log != [] && IsFinal(log[|log| - 1])
  }

  ghost predicate WasCancelled(es: seq<Event>, id: JobId) {
    es != [] && (WasCancelled(es[..|es| - 1], id) || Cancels(After(es[..|es| - 1]), es[|es| - 1], id))
  }

  /** A final hook of the job is still to fire. */
  predicate Due(w: World, id: JobId, k: nat) {
    MySettled(w, id, k) && IsFinal(w.tokens[k].stage.hook)
  }

  /** A job that has left the store without being cancelled has fired its final hook or has it still to fire;
      one that was cancelled has not, and at most OnRetry is still to fire. */
  ghost predicate Ending(w: World, id: JobId, cancelled: bool) {
    if id in w.jobs then !cancelled
    else if cancelled then
      && !Final(HooksOf(w.log, id))
      && forall k :: Mine(w, id, k) ==> MySettled(w, id, k) && w.tokens[k].stage.hook.OnRetry?
    else Final(HooksOf(w.log, id)) || exists k :: Due(w, id, k)
  }

  lemma CancelEnding(w: World, id: JobId, m: int)
    requires Cancels(w, CancelJob(id), id) && Orderly(w, id, m)
    ensures Ending(Next(w, CancelJob(id)), id, true)
  {
    var w' := Next(w, CancelJob(id));
    forall k | Mine(w', id, k)
      ensures MySettled(w', id, k) && w'.tokens[k].stage.hook.OnRetry?
    {
      assert MyActive(w, id, k) ==> ActiveOk(w, id, k);
      assert MySettled(w, id, k) ==> SettledOk(w, id, m, |HooksOf(w.log, id)|, k);
    }
  }

  /** The store deletes a job only as its worker comes to owe the final hook. */
  lemma SettleEnding(w: World, k: nat, at: Time, error: string, id: JobId, m: int)
    requires Basics(w) && Enabled(w, Settle(k, at, error, false)) && Mine(w, id, k) && Orderly(w, id, m) && id in w.jobs
    ensures Ending(Next(w, Settle(k, at, error, false)), id, false)
  {
    var w' := Next(w, Settle(k, at, error, false));
    assert MyActive(w, id, k) && ActiveOk(w, id, k);
    assert id !in w'.jobs ==> Due(w', id, k);
  }

  lemma FireEnding(w: World, k: nat, id: JobId, m: int, cancelled: bool)
    requires Basics(w) && Enabled(w, FireHook(k)) && Mine(w, id, k) && Orderly(w, id, m) && Ending(w, id, cancelled)
    requires id !in w.jobs
    ensures Ending(Next(w, FireHook(k)), id, cancelled)
  {
    var w' := Next(w, FireHook(k));
    var h := w.tokens[k].stage.hook;
    assert MySettled(w, id, k);
    assert TokenOk(w, k);
    HooksOfAppend(w.log, h, id);
    if cancelled {
      forall l | Mine(w', id, l)
        ensures MySettled(w', id, l) && w'.tokens[l].stage.hook.OnRetry?
      {
        assert Mine(w, id, l);
      }
    } else {
      var l :| Due(w, id, l);
      assert MySettled(w, id, l);
    }
  }

  lemma UntouchedEnding(w: World, w': World, id: JobId, cancelled: bool)
    requires Untouched(w, w', id) && Ending(w, id, cancelled)
    ensures Ending(w', id, cancelled)
  {
    if id !in w.jobs && !cancelled && !Final(HooksOf(w.log, id)) {
      var k :| Due(w, id, k);
      assert Mine(w, id, k) && Due(w', id, k);
    }
  }

  /** Once the job has left the store, its tokens only fire hooks. */
  lemma GoneEvents(w: World, e: Event, id: JobId, m: int)
    requires Basics(w) && Enabled(w, e) && SmoothStep(w, e, id) && Orderly(w, id, m)
    requires id in w.used && id !in w.jobs && Concerns(w, e, id)
    ensures e.FireHook? && Mine(w, id, e.k)
  {
    if OnToken(w, e, id) {
      assert MyActive(w, id, e.k) ==> ActiveOk(w, id, e.k);
    }
  }

  lemma StepEnding(w: World, e: Event, id: JobId, m: int, cancelled: bool)
    requires Basics(w) && Enabled(w, e) && SmoothStep(w, e, id) && id in w.used
    requires Orderly(w, id, m) && Ending(w, id, cancelled)
    ensures Ending(Next(w, e), id, cancelled || Cancels(w, e, id))
  {
    if !Concerns(w, e, id) {
      OtherSteps(w, e, id);
      UntouchedEnding(w, Next(w, e), id, cancelled);
    } else if id !in w.jobs {
      GoneEvents(w, e, id, m);
      FireEnding(w, e.k, id, m, cancelled);
    } else if Cancels(w, e, id) {
      CancelEnding(w, id, m);
    } else if e.Settle? {
      SettleEnding(w, e.k, e.at, e.error, id, m);
    } else {
      JobStep(w, e, id);
    }
  }

  lemma {:induction false} ReachableEnding(es: seq<Event>, id: JobId)
    requires Legal(es) && Smooth(es, id) && Prompt(es, id) && id in After(es).used && 0 < SavedLimit(es, id)
    ensures Ending(After(es), id, WasCancelled(es, id))
    decreases |es|
  {
    var init, e := es[..|es| - 1], es[|es| - 1];
    ReachableBasics(init);
    if id in After(init).used {
      PromptIsOrderly(init, id);
      ReachableEnding(init, id);
      StepEnding(After(init), e, id, SavedLimit(init, id), WasCancelled(init, id));
    } else {
      NotCancelledYet(init, id);
    }
  }

  lemma {:induction false} NotCancelledYet(es: seq<Event>, id: JobId)
    requires Legal(es) && id !in After(es).used
    ensures !WasCancelled(es, id)
    decreases |es|
  {
    if es == [] {
    } else {
      ReachableBasics(es[..|es| - 1]);
      NotCancelledYet(es[..|es| - 1], id);
    }
  }

  /** All of OnStart(1), OnRetry(1), OnStart(2), ..., ending in OnSuccess, or in OnFailure after exactly m attempts. */
  ghost predicate Complete(log: seq<Hook>, m: int) {
    WellOrdered(log, m) && Final(log)
  }

  /** In a smooth run, a job with limit m > 0 that has left the store and that no worker is occupied with has fired
      its hooks in order up to exactly one final one, if and only if it was not cancelled and it was never started
      while an earlier worker of it had called Fail but not yet fired OnRetry. */
  lemma HooksCompleteIff(es: seq<Event>, id: JobId)
    requires Legal(es) && Smooth(es, id) && id in After(es).used && 0 < SavedLimit(es, id)
    requires id !in After(es).jobs && forall k :: !Mine(After(es), id, k)
    ensures Complete(HooksOf(After(es).log, id), SavedLimit(es, id)) <==> Prompt(es, id) && !WasCancelled(es, id)
  {
    HooksInOrderIff(es, id);
    if Prompt(es, id) {
      ReachableEnding(es, id);
      assert forall k :: !Due(After(es), id, k);
    }
  }
}
