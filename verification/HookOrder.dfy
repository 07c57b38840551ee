/** The lifecycle hooks of one job, in the order they fire. */
module HookOrder {
  import opened Jobs
  import opened Table
  import opened Runs
  import opened Accounting

  /** The hooks fired for one job. */
  ghost function HooksOf(log: seq<Hook>, id: JobId): seq<Hook> {
    if log == [] then []
    else HooksOf(log[..|log| - 1], id) + if log[|log| - 1].id == id then [log[|log| - 1]] else []
  }

  lemma HooksOfAppend(log: seq<Hook>, h: Hook, id: JobId)
    ensures HooksOf(log + [h], id) == HooksOf(log, id) + if h.id == id then [h] else []
  {
    assert (log + [h])[..|log|] == log;
  }

  predicate IsFinal(h: Hook) {
    h.OnSuccess? || h.OnFailure?
  }

  /** Position i of a well-ordered log with limit m. */
  predicate InPlace(log: seq<Hook>, m: int, i: nat)
    requires i < |log|
  {
    var h := log[i];
    && h.attempt == i / 2 + 1
    && if i % 2 == 0 then h.OnStart?
       else
         || (h.OnRetry? && h.attempt < m)
         || (i == |log| - 1 && h.OnSuccess?)
         || (i == |log| - 1 && h.OnFailure? && h.attempt == m)
  }

  /** OnStart(1), OnRetry(1), OnStart(2), ... and at most one final hook, which comes last:
      OnSuccess, or OnFailure after exactly m attempts. */
  ghost predicate WellOrdered(log: seq<Hook>, m: int) {
    forall i :: 0 <= i < |log| ==> InPlace(log, m, i)
  }

  predicate OnToken(w: World, e: Event, id: JobId) {
    && (e.Begin? || e.NoHandler? || e.Return? || e.Settle? || e.FireHook? || e.Lose?)
    && e.k in w.tokens && w.tokens[e.k].job.id == id
  }

  /** Nothing goes wrong with this job: its handler is registered, its store calls do not fault,
      its claims are neither lost nor recovered. */
  predicate SmoothStep(w: World, e: Event, id: JobId) {
    && !Recovers(w, e, id)
    && (OnToken(w, e, id) ==> !e.NoHandler? && !e.Lose? && !(e.Settle? && e.fault))
  }

  ghost predicate Smooth(es: seq<Event>, id: JobId) {
    es == [] || (Smooth(es[..|es| - 1], id) && SmoothStep(After(es[..|es| - 1]), es[|es| - 1], id))
  }

  /** When a worker starts the job, no earlier worker still has a hook of it to fire. */
  ghost predicate PromptStep(w: World, e: Event, id: JobId) {
    e.Begin? && OnToken(w, e, id) ==>
      forall k :: k in w.tokens && w.tokens[k].job.id == id ==> !w.tokens[k].stage.Settled?
  }

  ghost predicate Prompt(es: seq<Event>, id: JobId) {
    es == [] || (Prompt(es[..|es| - 1], id) && PromptStep(After(es[..|es| - 1]), es[|es| - 1], id))
  }

  // ----- invariant of one job's tokens and log

  predicate Mine(w: World, id: JobId, k: nat) {
    k in w.tokens && w.tokens[k].job.id == id
  }

  predicate MyActive(w: World, id: JobId, k: nat) {
    Mine(w, id, k) && !w.tokens[k].stage.Settled?
  }

  predicate MySettled(w: World, id: JobId, k: nat) {
    Mine(w, id, k) && w.tokens[k].stage.Settled?
  }

  /** An unsettled token carries the stored claimed job. */
  ghost predicate ActiveOk(w: World, id: JobId, k: nat)
    requires MyActive(w, id, k)
  {
    id in w.jobs && w.jobs[id] == w.tokens[k].job && w.jobs[id].state == Claimed
  }

  /** A hook still to fire is the next one in order. */
  ghost predicate SettledOk(w: World, id: JobId, m: int, n: nat, k: nat)
    requires MySettled(w, id, k)
  {
    var h := w.tokens[k].stage.hook;
    && h.id == id && n == 2 * h.attempt - 1
    && (if h.OnRetry? then h.attempt < m && (id in w.jobs ==> w.jobs[id].attempt == h.attempt)
        else id !in w.jobs && (h.OnSuccess? || (h.OnFailure? && h.attempt == m)))
  }

  /** With no hook outstanding, the log length tells how far the job has got. */
  ghost predicate LengthOk(w: World, id: JobId, n: nat) {
    (forall k :: !MySettled(w, id, k)) && id in w.jobs ==>
      if exists k :: MyActive(w, id, k) && !w.tokens[k].stage.Held? then n == 2 * w.jobs[id].attempt + 1
      else n == 2 * w.jobs[id].attempt
  }

  ghost predicate Orderly(w: World, id: JobId, m: int) {
    var log := HooksOf(w.log, id);
    && (id !in w.used ==> log == [])
    && (id in w.jobs ==> w.jobs[id].maxAttempts == m && 0 <= w.jobs[id].attempt < m)
    && (forall k :: MyActive(w, id, k) ==> ActiveOk(w, id, k))
    && (forall k, l :: MyActive(w, id, k) && MyActive(w, id, l) ==> k == l)
    && (forall k :: MySettled(w, id, k) ==> SettledOk(w, id, m, |log|, k))
    && (forall k, l :: MySettled(w, id, k) && MySettled(w, id, l) ==> k == l)
    && (forall k, l :: MySettled(w, id, k) && MyActive(w, id, l) ==> w.tokens[l].stage.Held?)
    && LengthOk(w, id, |log|)
    && WellOrdered(log, m)
    && (log != [] && IsFinal(log[|log| - 1]) ==> id !in w.jobs && forall k :: !Mine(w, id, k))
  }

  // ----- steps that do not concern the job

  ghost predicate Untouched(w: World, w': World, id: JobId) {
    && (forall k :: Mine(w, id, k) <==> Mine(w', id, k))
    && (forall k :: Mine(w, id, k) ==> w'.tokens[k] == w.tokens[k])
    && HooksOf(w'.log, id) == HooksOf(w.log, id)
    && (id in w.used <==> id in w'.used)
    && (id in w.jobs <==> id in w'.jobs)
    && (id in w.jobs ==>
          || w'.jobs[id] == w.jobs[id]
          || (w.jobs[id].state == Pending && w'.jobs[id] == w.jobs[id].(runAt := w'.jobs[id].runAt)))
  }

  lemma UntouchedOrderly(w: World, w': World, id: JobId, m: int)
    requires Orderly(w, id, m) && Untouched(w, w', id)
    ensures Orderly(w', id, m)
  {
    assert forall k :: MyActive(w', id, k) <==> MyActive(w, id, k);
    assert forall k :: MySettled(w', id, k) <==> MySettled(w, id, k);
  }

  /** The event acts on this job's tokens, log or presence in the store. */
  predicate Concerns(w: World, e: Event, id: JobId) {
    || (e.Enqueue? && e.job.id == id)
    || ClaimsId(e, id)
    || OnToken(w, e, id)
    || Cancels(w, e, id)
  }

  lemma OtherToken(w: World, e: Event, id: JobId, k: nat)
    requires Basics(w) && Enabled(w, e) && !Concerns(w, e, id)
    ensures Mine(w, id, k) <==> Mine(Next(w, e), id, k)
    ensures Mine(w, id, k) ==> Next(w, e).tokens[k] == w.tokens[k]
  {
    assert k in w.tokens ==> TokenOk(w, k);
    if e.ClaimBatch? && k in NewTokens(w, e.r, e.ids) {
      assert TokenId(w, e.ids, k) in e.ids;
    }
  }

  lemma OtherTokens(w: World, e: Event, id: JobId)
    requires Basics(w) && Enabled(w, e) && !Concerns(w, e, id)
    ensures forall k :: Mine(w, id, k) <==> Mine(Next(w, e), id, k)
    ensures forall k :: Mine(w, id, k) ==> Next(w, e).tokens[k] == w.tokens[k]
  {
    var w' := Next(w, e);
    forall k: nat
      ensures (Mine(w, id, k) <==> Mine(w', id, k)) && (Mine(w, id, k) ==> w'.tokens[k] == w.tokens[k])
    {
      OtherToken(w, e, id, k);
    }
  }

  lemma OtherHooks(w: World, e: Event, id: JobId)
    requires Basics(w) && Enabled(w, e) && !Concerns(w, e, id)
    ensures HooksOf(Next(w, e).log, id) == HooksOf(w.log, id)
  {
    if e.Begin? {
      HooksOfAppend(w.log, OnStart(w.tokens[e.k].job.id, w.tokens[e.k].job.queue, w.tokens[e.k].job.attempt + 1), id);
    } else if e.FireHook? {
      assert TokenOk(w, e.k);
      HooksOfAppend(w.log, w.tokens[e.k].stage.hook, id);
    }
  }

  lemma OtherSteps(w: World, e: Event, id: JobId)
    requires Basics(w) && Enabled(w, e) && SmoothStep(w, e, id) && !Concerns(w, e, id)
    ensures Untouched(w, Next(w, e), id)
  {
    OtherTokens(w, e, id);
    OtherHooks(w, e, id);
    if id in w.jobs {
      JobStep(w, e, id);
    } else if id in Next(w, e).jobs {
      NewJob(w, e, id);
    }
  }

  // ----- steps that do

  lemma EnqueueOrderly(w: World, j: Job)
    requires Basics(w) && FreshJob(w, j) && HooksOf(w.log, j.id) == [] && 0 < j.maxAttempts
    ensures Orderly(Next(w, Enqueue(j)), j.id, j.maxAttempts)
  {
    var w' := Next(w, Enqueue(j));
    forall k ensures !Mine(w', j.id, k) {
      if k in w.tokens { assert TokenOk(w, k); }
    }
  }

  /** The tokens of id after it is claimed: those it had, and one new one. */
  lemma ClaimTokens(w: World, r: Request, ids: seq<JobId>, id: JobId) returns (n: nat)
    requires Basics(w) && Enabled(w, ClaimBatch(r, ids)) && id in ids
    ensures var w' := Next(w, ClaimBatch(r, ids));
      && id in w.jobs && w.jobs[id].state == Pending
      && Mine(w', id, n) && !Mine(w, id, n) && w'.tokens[n] == Token(Claim(w.jobs[id], r), Held)
      && forall k :: k != n ==>
           (Mine(w', id, k) <==> Mine(w, id, k)) && (Mine(w, id, k) ==> w'.tokens[k] == w.tokens[k])
  {
    var w' := Next(w, ClaimBatch(r, ids));
    var i :| 0 <= i < |ids| && ids[i] == id;
    n := w.next + i;
    assert TokenId(w, ids, n) == id;
    assert n in w.tokens ==> TokenOk(w, n);
    forall k: nat | k != n
      ensures (Mine(w', id, k) <==> Mine(w, id, k)) && (Mine(w, id, k) ==> w'.tokens[k] == w.tokens[k])
    {
      if k in w.tokens { assert TokenOk(w, k); }
      if k in NewTokens(w, r, ids) { assert TokenId(w, ids, k) == ids[k - w.next]; }
    }
  }

  /** w' is w with the pending job id claimed by one new token n. */
  ghost predicate NewlyHeld(w: World, w': World, id: JobId, r: Request, n: nat) {
    && w'.used == w.used && w'.log == w.log
    && id in w.jobs && w.jobs[id].state == Pending && id in w'.jobs && w'.jobs[id] == Claim(w.jobs[id], r)
    && Mine(w', id, n) && !Mine(w, id, n) && w'.tokens[n] == Token(w'.jobs[id], Held)
    && forall k :: k != n ==> (Mine(w', id, k) <==> Mine(w, id, k)) && (Mine(w, id, k) ==> w'.tokens[k] == w.tokens[k])
  }

  lemma NewlyHeldOrderly(w: World, w': World, id: JobId, r: Request, n: nat, m: int)
    requires Orderly(w, id, m) && NewlyHeld(w, w', id, r, n)
    ensures Orderly(w', id, m)
  {
    forall k ensures (MyActive(w', id, k) <==> k == n) && (MySettled(w', id, k) <==> MySettled(w, id, k)) {
      assert MyActive(w, id, k) ==> ActiveOk(w, id, k);
    }
  }

  lemma ClaimOrderly(w: World, r: Request, ids: seq<JobId>, id: JobId, m: int)
    requires Basics(w) && Enabled(w, ClaimBatch(r, ids)) && id in ids && Orderly(w, id, m)
    ensures Orderly(Next(w, ClaimBatch(r, ids)), id, m)
  {
    var n := ClaimTokens(w, r, ids, id);
    JobStep(w, ClaimBatch(r, ids), id);
    NewlyHeldOrderly(w, Next(w, ClaimBatch(r, ids)), id, r, n, m);
  }

  lemma WellOrderedAppend(log: seq<Hook>, m: int, h: Hook)
    requires WellOrdered(log, m) && (log != [] ==> !IsFinal(log[|log| - 1]))
    requires h.attempt == |log| / 2 + 1
    requires if |log| % 2 == 0 then h.OnStart?
             else (h.OnRetry? && h.attempt < m) || h.OnSuccess? || (h.OnFailure? && h.attempt == m)
    ensures WellOrdered(log + [h], m)
  {
    var log' := log + [h];
    forall i | 0 <= i < |log'| ensures InPlace(log', m, i) {
      if i < |log| { assert InPlace(log, m, i); }
    }
  }

  lemma BeginLog(w: World, k: nat, id: JobId, m: int)
    requires Basics(w) && Enabled(w, Begin(k)) && Mine(w, id, k) && Orderly(w, id, m) && PromptStep(w, Begin(k), id)
    ensures forall l :: !MySettled(w, id, l) && (MyActive(w, id, l) <==> l == k)
    ensures var j, log := w.tokens[k].job, HooksOf(w.log, id);
      && id in w.jobs && w.jobs[id] == j && j.state == Claimed && |log| == 2 * j.attempt
      && (log != [] ==> !IsFinal(log[|log| - 1]))
  {
    assert MyActive(w, id, k) && ActiveOk(w, id, k);
    forall l ensures !MySettled(w, id, l) && (MyActive(w, id, l) <==> l == k) {
    }
  }

  lemma BeginTokens(w: World, k: nat, id: JobId)
    requires Enabled(w, Begin(k)) && Mine(w, id, k)
    requires forall l :: !MySettled(w, id, l) && (MyActive(w, id, l) <==> l == k)
    ensures var w' := Next(w, Begin(k)); var j := w.tokens[k].job;
      && MyActive(w', id, k) && (forall l :: (MyActive(w', id, l) <==> l == k) && !MySettled(w', id, l))
      && w'.tokens[k] == Token(j, Running) && w'.jobs == w.jobs && w'.used == w.used
      && w'.log == w.log + [OnStart(j.id, j.queue, j.attempt + 1)]
  {
    var w' := Next(w, Begin(k));
    forall l ensures (MyActive(w', id, l) <==> l == k) && !MySettled(w', id, l) {
      assert (MyActive(w, id, l) <==> l == k) && !MySettled(w, id, l);
    }
  }

  lemma BeginOrderly(w: World, k: nat, id: JobId, m: int)
    requires Basics(w) && Enabled(w, Begin(k)) && Mine(w, id, k) && Orderly(w, id, m) && PromptStep(w, Begin(k), id)
    ensures Orderly(Next(w, Begin(k)), id, m)
  {
    var j := w.tokens[k].job;
    var h := OnStart(j.id, j.queue, j.attempt + 1);
    BeginLog(w, k, id, m);
    BeginTokens(w, k, id);
    HooksOfAppend(w.log, h, id);
    WellOrderedAppend(HooksOf(w.log, id), m, h);
    BegunOrderly(Next(w, Begin(k)), id, k, m);
  }

  /** Exactly one worker has the job and has started it, and the log says so. */
  lemma BegunOrderly(w: World, id: JobId, k: nat, m: int)
    requires MyActive(w, id, k) && forall l :: (MyActive(w, id, l) <==> l == k) && !MySettled(w, id, l)
    requires id in w.used && id in w.jobs && w.jobs[id] == w.tokens[k].job && w.tokens[k].stage == Running
    requires w.jobs[id].state == Claimed && w.jobs[id].maxAttempts == m && 0 <= w.jobs[id].attempt < m
    requires var log := HooksOf(w.log, id);
      |log| == 2 * w.jobs[id].attempt + 1 && WellOrdered(log, m) && log[|log| - 1].OnStart?
    ensures Orderly(w, id, m)
  {
  }

  lemma ReturnOrderly(w: World, k: nat, ok: bool, id: JobId, m: int)
    requires Basics(w) && Enabled(w, Return(k, ok)) && Mine(w, id, k) && Orderly(w, id, m)
    ensures Orderly(Next(w, Return(k, ok)), id, m)
  {
    var w' := Next(w, Return(k, ok));
    assert MyActive(w, id, k) && ActiveOk(w, id, k);
    assert forall l :: MyActive(w, id, l) ==> l == k;
    assert forall l :: !MySettled(w, id, l);
    forall l ensures (MyActive(w', id, l) <==> l == k) && !MySettled(w', id, l) {
      assert MyActive(w, id, l) ==> l == k;
      assert !MySettled(w, id, l);
    }
    assert MyActive(w', id, k);
  }

  lemma SettleOrderly(w: World, k: nat, at: Time, error: string, id: JobId, m: int)
    requires Basics(w) && Enabled(w, Settle(k, at, error, false)) && Mine(w, id, k) && Orderly(w, id, m)
    ensures Orderly(Next(w, Settle(k, at, error, false)), id, m)
  {
    var w' := Next(w, Settle(k, at, error, false));
    assert MyActive(w, id, k) && ActiveOk(w, id, k);
    assert forall l :: MyActive(w, id, l) ==> l == k;
    assert forall l :: !MySettled(w, id, l);
    forall l ensures !MyActive(w', id, l) && (MySettled(w', id, l) <==> l == k) {
      assert MyActive(w, id, l) ==> l == k;
      assert !MySettled(w, id, l);
    }
    assert SettledOk(w', id, m, |HooksOf(w'.log, id)|, k);
  }

  lemma FireOrderly(w: World, k: nat, id: JobId, m: int)
    requires Basics(w) && Enabled(w, FireHook(k)) && Mine(w, id, k) && Orderly(w, id, m)
    ensures Orderly(Next(w, FireHook(k)), id, m)
  {
    var w' := Next(w, FireHook(k));
    var h := w.tokens[k].stage.hook;
    var log := HooksOf(w.log, id);
    HooksOfAppend(w.log, h, id);
    assert MySettled(w, id, k) && SettledOk(w, id, m, |log|, k);
    assert forall l :: MySettled(w, id, l) ==> l == k;
    WellOrderedAppend(log, m, h);
    forall l ensures !MySettled(w', id, l) && (MyActive(w', id, l) <==> MyActive(w, id, l)) {
      assert MySettled(w, id, l) ==> l == k;
    }
    forall l ensures MyActive(w, id, l) ==> ActiveOk(w', id, l) && w.tokens[l].stage.Held? {
      assert MyActive(w, id, l) ==> ActiveOk(w, id, l);
    }
    forall l ensures IsFinal(h) ==> !Mine(w', id, l) {
      assert Mine(w', id, l) ==> MyActive(w, id, l);
    }
  }

  lemma CancelOrderly(w: World, id: JobId, m: int)
    requires Basics(w) && Cancels(w, CancelJob(id), id) && Orderly(w, id, m)
    ensures Orderly(Next(w, CancelJob(id)), id, m)
  {
    var w' := Next(w, CancelJob(id));
    assert forall k :: MyActive(w, id, k) ==> ActiveOk(w, id, k);
    assert forall k :: MyActive(w', id, k) <==> MyActive(w, id, k);
    assert forall k :: MySettled(w', id, k) <==> MySettled(w, id, k);
    assert forall k :: MySettled(w, id, k) ==> SettledOk(w, id, m, |HooksOf(w.log, id)|, k);
  }

  lemma StepOrderly(w: World, e: Event, id: JobId, m: int)
    requires Basics(w) && Enabled(w, e) && SmoothStep(w, e, id) && PromptStep(w, e, id)
    requires !(e.Enqueue? && e.job.id == id) && Orderly(w, id, m)
    ensures Orderly(Next(w, e), id, m)
  {
    if !Concerns(w, e, id) {
      OtherSteps(w, e, id);
      UntouchedOrderly(w, Next(w, e), id, m);
    } else {
      match e
      case ClaimBatch(r, ids) => ClaimOrderly(w, r, ids, id, m);
      case Begin(k) => BeginOrderly(w, k, id, m);
      case Return(k, ok) => ReturnOrderly(w, k, ok, id, m);
      case Settle(k, at, error, fault) => SettleOrderly(w, k, at, error, id, m);
      case FireHook(k) => FireOrderly(w, k, id, m);
      case CancelJob(_) => CancelOrderly(w, id, m);
    }
  }

  /** Before it is saved a job has no hooks. */
  lemma {:induction false} NoHooksYet(es: seq<Event>, id: JobId)
    requires Legal(es) && id !in After(es).used
    ensures HooksOf(After(es).log, id) == [] && forall k :: !Mine(After(es), id, k)
    decreases |es|
  {
    ReachableBasics(es);
    forall k ensures !Mine(After(es), id, k) {
      assert k in After(es).tokens ==> TokenOk(After(es), k);
    }
    if es == [] {
    } else {
      var init, e := es[..|es| - 1], es[|es| - 1];
      NoHooksYet(init, id);
      ReachableBasics(init);
      OtherHooks(After(init), e, id) by {
        assert Concerns(After(init), e, id) ==>
            ClaimsId(e, id) || (e.Enqueue? && e.job.id == id) || Cancels(After(init), e, id);
      }
    }
  }

  lemma {:induction false} PromptIsOrderly(es: seq<Event>, id: JobId)
    requires Legal(es) && Smooth(es, id) && Prompt(es, id) && id in After(es).used && 0 < SavedLimit(es, id)
    ensures Orderly(After(es), id, SavedLimit(es, id))
    decreases |es|
  {
    var init, e := es[..|es| - 1], es[|es| - 1];
    ReachableBasics(init);
    if id in After(init).used {
      PromptIsOrderly(init, id);
      StepOrderly(After(init), e, id, SavedLimit(init, id));
    } else {
      NoHooksYet(init, id);
      EnqueueOrderly(After(init), e.job);
    }
  }

  lemma WellOrderedPrefix(log: seq<Hook>, m: int, h: Hook)
    requires WellOrdered(log + [h], m)
    ensures WellOrdered(log, m)
  {
    forall i | 0 <= i < |log| ensures InPlace(log, m, i) {
      assert InPlace(log + [h], m, i);
    }
  }

  lemma {:induction false} PromptBefore(es: seq<Event>, id: JobId)
    requires Legal(es) && id !in After(es).used
    ensures Prompt(es, id)
    decreases |es|
  {
    if es == [] {
    } else {
      var init, e := es[..|es| - 1], es[|es| - 1];
      PromptBefore(init, id);
      NoHooksYet(init, id);
      assert e.Begin? ==> !Mine(After(init), id, e.k);
    }
  }

  /** Each event adds at most one hook to the job's log. */
  lemma HooksGrow(w: World, e: Event, id: JobId)
    ensures var a, b := HooksOf(w.log, id), HooksOf(Next(w, e).log, id);
      b == a || exists h :: b == a + [h]
  {
    if e.Begin? && e.k in w.tokens {
      var j := w.tokens[e.k].job;
      HooksOfAppend(w.log, OnStart(j.id, j.queue, j.attempt + 1), id);
    } else if e.FireHook? && e.k in w.tokens && w.tokens[e.k].stage.Settled? {
      HooksOfAppend(w.log, w.tokens[e.k].stage.hook, id);
    }
  }

  /** Starting the job while a hook of it is outstanding puts OnStart where OnRetry belongs. */
  lemma RacingStart(w: World, k: nat, id: JobId, m: int)
    requires Basics(w) && Orderly(w, id, m) && Enabled(w, Begin(k)) && Mine(w, id, k) && !PromptStep(w, Begin(k), id)
    ensures !WellOrdered(HooksOf(Next(w, Begin(k)).log, id), m)
  {
    var l :| l in w.tokens && w.tokens[l].job.id == id && w.tokens[l].stage.Settled?;
    var log := HooksOf(w.log, id);
    assert MySettled(w, id, l) && SettledOk(w, id, m, |log|, l);
    var j := w.tokens[k].job;
    var h := OnStart(j.id, j.queue, j.attempt + 1);
    HooksOfAppend(w.log, h, id);
    assert (log + [h])[|log|] == h;
    assert !InPlace(log + [h], m, |log|);
  }

  lemma {:induction false} OrderedIsPrompt(es: seq<Event>, id: JobId)
    requires Legal(es) && Smooth(es, id) && id in After(es).used && 0 < SavedLimit(es, id)
    requires WellOrdered(HooksOf(After(es).log, id), SavedLimit(es, id))
    ensures Prompt(es, id)
    decreases |es|
  {
    var init, e := es[..|es| - 1], es[|es| - 1];
    var w, m := After(init), SavedLimit(es, id);
    ReachableBasics(init);
    if id in w.used {
      HooksGrow(w, e, id);
      if HooksOf(After(es).log, id) != HooksOf(w.log, id) {
        var h :| HooksOf(After(es).log, id) == HooksOf(w.log, id) + [h];
        WellOrderedPrefix(HooksOf(w.log, id), m, h);
      }
      OrderedIsPrompt(init, id);
      PromptIsOrderly(init, id);
      if !PromptStep(w, e, id) {
        RacingStart(w, e.k, id, m);
      }
    } else {
      PromptBefore(init, id);
    }
  }

  /** In a smooth run of a job with limit m > 0, its hooks are OnStart(1), OnRetry(1), OnStart(2), ... ending in at
      most one OnSuccess, or one OnFailure after exactly m attempts, if and only if the job is never started
      while an earlier worker of it has called Fail but not yet fired OnRetry. */
  lemma HooksInOrderIff(es: seq<Event>, id: JobId)
    requires Legal(es) && Smooth(es, id) && id in After(es).used && 0 < SavedLimit(es, id)
    ensures WellOrdered(HooksOf(After(es).log, id), SavedLimit(es, id)) <==> Prompt(es, id)
  {
    if Prompt(es, id) {
      PromptIsOrderly(es, id);
    }
    if WellOrdered(HooksOf(After(es).log, id), SavedLimit(es, id)) {
      OrderedIsPrompt(es, id);
    }
  }
}
