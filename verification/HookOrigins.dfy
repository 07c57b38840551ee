/** Which hook fires and why, from the events of a run alone: missing handlers, faults, lost claims and recoveries
    included. */
module HookOrigins {
  import opened Jobs
  import opened Runs

  /** No attempt is left after this one; without a limit, three are made. */
  predicate LastAttempt(j: Job) {
    if 0 < j.maxAttempts then j.maxAttempts <= j.attempt + 1 else 3 <= j.attempt + 1
  }

  /** The event that decides how token k ends: no handler was found for it, or its handler returned. */
  predicate Decides(e: Event, k: nat) {
    (e.NoHandler? || e.Return?) && e.k == k
  }

  ghost function Decision(es: seq<Event>, k: nat): (d: Option<Event>)
    ensures d.Some? ==> Decides(d.value, k)
  {
    if es == [] then None
    else if Decides(es[|es| - 1], k) then Some(es[|es| - 1])
    else Decision(es[..|es| - 1], k)
  }

  /** The hook that the decision calls for. */
  function HookFor(j: Job, d: Event): Hook {
    if d.Return? && d.ok then OnSuccess(j.id, j.queue, j.attempt + 1)
    else if d.NoHandler? || LastAttempt(j) then OnFailure(j.id, j.queue, j.attempt + 1)
    else OnRetry(j.id, j.queue, j.attempt + 1)
  }

  // ----- one event

  /** A job without a handler owes OnFailure with its own attempt, whether or not the store takes the failure. */
  lemma MissingHandlerOwesFailure(w: World, k: nat, at: Time, fault: bool)
    requires Enabled(w, NoHandler(k, at, fault))
    ensures var j, w' := w.tokens[k].job, Next(w, NoHandler(k, at, fault));
      k in w'.tokens && w'.tokens[k] == Token(j, Settled(OnFailure(j.id, j.queue, j.attempt + 1)))
  {
  }

  /** Whatever the store answers, a success owes OnSuccess and a failed last attempt OnFailure. Any other failure owes
      OnRetry if the store put the job back, and nothing if the call faulted or found no claimed job. */
  lemma SettlingOwes(w: World, k: nat, at: Time, error: string, fault: bool)
    requires Enabled(w, Settle(k, at, error, fault))
    ensures var j, w' := w.tokens[k].job, Next(w, Settle(k, at, error, fault));
      if w.tokens[k].stage.ok then
        k in w'.tokens && w'.tokens[k] == Token(j, Settled(OnSuccess(j.id, j.queue, j.attempt + 1)))
      else if LastAttempt(j) then
        k in w'.tokens && w'.tokens[k] == Token(j, Settled(OnFailure(j.id, j.queue, j.attempt + 1)))
      else if !fault && j.id in w.jobs && w.jobs[j.id].state == Claimed then
        k in w'.tokens && w'.tokens[k] == Token(j, Settled(OnRetry(j.id, j.queue, j.attempt + 1)))
      else k !in w'.tokens
  {
  }

  // ----- whole runs

  /** How far a token has got agrees with its decision, and a hook it is about to fire is the one called for. */
  predicate StageFits(tok: Token, k: nat, d: Option<Event>) {
    match tok.stage
    case Held => d.None?
    case Running => d.None?
    case Returned(ok) => d == Some(Return(k, ok))
    case Settled(h) => d.Some? && h == HookFor(tok.job, d.value)
  }

  ghost predicate Decided(es: seq<Event>, k: nat) {
    var w, d := After(es), Decision(es, k);
    (w.next <= k ==> d.None?) && (k in w.tokens ==> StageFits(w.tokens[k], k, d))
  }

  lemma OwnStage(w: World, e: Event, k: nat, d: Option<Event>)
    requires Enabled(w, e) && OwnEvent(e, k) && StageFits(w.tokens[k], k, d) && k in Next(w, e).tokens
    ensures StageFits(Next(w, e).tokens[k], k, if Decides(e, k) then Some(e) else d)
  {
    match e
    case NoHandler(_, at, fault) => MissingHandlerOwesFailure(w, k, at, fault);
    case Settle(_, at, error, fault) => SettlingOwes(w, k, at, error, fault);
    case _ =>
  }

  lemma OwnStep(es: seq<Event>, k: nat)
    requires es != [] && Legal(es) && Decided(es[..|es| - 1], k) && OwnEvent(es[|es| - 1], k)
    ensures Decided(es, k)
  {
    var init, e := es[..|es| - 1], es[|es| - 1];
    ReachableBasics(init);
    assert TokenOk(After(init), k);
    if k in After(es).tokens {
      OwnStage(After(init), e, k, Decision(init, k));
    }
  }

  lemma OtherStep(es: seq<Event>, k: nat)
    requires es != [] && Legal(es) && Decided(es[..|es| - 1], k) && !OwnEvent(es[|es| - 1], k)
    ensures Decided(es, k)
  {
    var init, e := es[..|es| - 1], es[|es| - 1];
    ReachableBasics(init);
    if k in After(es).tokens {
      TokenStep(After(init), e, k);
    }
  }

  lemma {:induction false} ReachableDecided(es: seq<Event>, k: nat)
    requires Legal(es)
    ensures Decided(es, k)
    decreases |es|
  {
    if es == [] {
    } else {
      ReachableDecided(es[..|es| - 1], k);
      if OwnEvent(es[|es| - 1], k) {
        OwnStep(es, k);
      } else {
        OtherStep(es, k);
      }
    }
  }

  /** The hook an event fires, if it fires one: a start, or what the token's decision calls for. */
  ghost function Fired(es: seq<Event>, e: Event): seq<Hook> {
    var w := After(es);
    match e
    case Begin(k) =>
      if k in w.tokens then [OnStart(w.tokens[k].job.id, w.tokens[k].job.queue, w.tokens[k].job.attempt + 1)] else []
    case FireHook(k) =>
      if k in w.tokens && Decision(es, k).Some? then [HookFor(w.tokens[k].job, Decision(es, k).value)] else []
    case _ => []
  }

  ghost function LogOf(es: seq<Event>): seq<Hook> {
    if es == [] then [] else LogOf(es[..|es| - 1]) + Fired(es[..|es| - 1], es[|es| - 1])
  }

  lemma LogStep(w: World, e: Event)
    requires Enabled(w, e)
    ensures Next(w, e).log == w.log + match e {
        case Begin(k) => [OnStart(w.tokens[k].job.id, w.tokens[k].job.queue, w.tokens[k].job.attempt + 1)]
        case FireHook(k) => [w.tokens[k].stage.hook]
        case _ => []
      }
  {
  }

  lemma FiresNext(es: seq<Event>, e: Event)
    requires Legal(es) && Enabled(After(es), e)
    ensures Next(After(es), e).log == After(es).log + Fired(es, e)
  {
    LogStep(After(es), e);
    if e.FireHook? {
      ReachableDecided(es, e.k);
    }
  }

  /** In every run the hooks fired are those the events call for, in that order. */
  lemma {:induction false} LogIsCalledFor(es: seq<Event>)
    requires Legal(es)
    ensures After(es).log == LogOf(es)
    decreases |es|
  {
    if es == [] {
    } else {
      var init, e := es[..|es| - 1], es[|es| - 1];
      LogIsCalledFor(init);
      FiresNext(init, e);
    }
  }

  /** Event b of the run, concerning token k, is the reason for hook h. */
  ghost predicate Reason(es: seq<Event>, b: nat, k: nat, h: Hook) {
    && b < |es| && k in After(es[..b]).tokens
    && var j, e := After(es[..b]).tokens[k].job, es[b];
       && h.id == j.id && h.queue == j.queue && h.attempt == j.attempt + 1
       && match h {
            case OnStart(_, _, _) => e == Begin(k)
            case OnSuccess(_, _, _) => e == Return(k, true)
            case OnFailure(_, _, _) => (e.NoHandler? && e.k == k) || (e == Return(k, false) && LastAttempt(j))
            case OnRetry(_, _, _) => e == Return(k, false) && !LastAttempt(j)
          }
  }

  lemma ReasonExtends(es: seq<Event>, b: nat, k: nat, h: Hook)
    requires es != [] && Reason(es[..|es| - 1], b, k, h)
    ensures Reason(es, b, k, h)
  {
    assert es[..|es| - 1][..b] == es[..b];
  }

  /** A decision was an event of the run, made about the job the token still has. */
  lemma {:induction false} DecisionHappened(es: seq<Event>, k: nat) returns (b: nat)
    requires Legal(es) && k in After(es).tokens && Decision(es, k).Some?
    ensures b < |es| && es[b] == Decision(es, k).value
    ensures k in After(es[..b]).tokens && After(es[..b]).tokens[k].job == After(es).tokens[k].job
    decreases |es|
  {
    var init, e := es[..|es| - 1], es[|es| - 1];
    ReachableBasics(init);
    TokenStep(After(init), e, k);
    if Decides(e, k) {
      b := |es| - 1;
    } else {
      ReachableDecided(init, k);
      b := DecisionHappened(init, k);
      assert init[..b] == es[..b];
    }
  }

  lemma HookHasReason(es: seq<Event>, k: nat, h: Hook) returns (b: nat)
    requires Legal(es) && k in After(es).tokens && Decision(es, k).Some?
    requires h == HookFor(After(es).tokens[k].job, Decision(es, k).value)
    ensures Reason(es, b, k, h)
  {
    b := DecisionHappened(es, k);
  }

  /** In every run each hook in the log has its reason among the events: OnSuccess a handler that returned nil,
      OnFailure a missing handler or an error at the last attempt, OnRetry an error before it,
      each of the attempt that the hook names. */
  lemma {:induction false} EveryHookHasReason(es: seq<Event>, i: nat) returns (b: nat, k: nat)
    requires Legal(es) && i < |After(es).log|
    ensures Reason(es, b, k, After(es).log[i])
    decreases |es|
  {
    var n := |es| - 1;
    var init, e := es[..n], es[n];
    LogIsCalledFor(init);
    LogIsCalledFor(es);
    if i < |After(init).log| {
      b, k := EveryHookHasReason(init, i);
      ReasonExtends(es, b, k, After(es).log[i]);
    } else if e.Begin? {
      b, k := n, e.k;
    } else {
      k := e.k;
      b := HookHasReason(init, k, After(es).log[i]);
      ReasonExtends(es, b, k, After(es).log[i]);
    }
  }
}
