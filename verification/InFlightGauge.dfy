/** The Prometheus in-flight gauge, driven by the hooks, against what workers are doing. */
module InFlightGauge {
  import opened Jobs
  import opened Runs
  import opened HookOrigins

  /** OnStart increments the queue's gauge; every other hook decrements it. */
  ghost function Gauge(log: seq<Hook>, queue: string): int {
    if log == [] then 0
    else
      var h := log[|log| - 1];
      Gauge(log[..|log| - 1], queue) + if h.queue != queue then 0 else if h.OnStart? then 1 else -1
  }

  lemma GaugeAppend(log: seq<Hook>, h: Hook, queue: string)
    ensures Gauge(log + [h], queue) == Gauge(log, queue) + if h.queue != queue then 0 else if h.OnStart? then 1 else -1
  {
    assert (log + [h])[..|log|] == log;
  }

  /** Jobs of the queue that a worker has taken up and not finished with. */
  ghost function Busy(w: World, queue: string): set<nat> {
    set k | k in w.tokens && w.tokens[k].job.queue == queue && !w.tokens[k].stage.Held?
  }

  /** A job of the queue found no handler. */
  predicate Unhandled(w: World, e: Event, queue: string) {
    e.NoHandler? && e.k in w.tokens && w.tokens[e.k].job.queue == queue
  }

  /** A worker gave up on a busy job without firing a hook: it crashed, or its handler failed with attempts left
      and the Fail call faulted or found no claimed job. */
  ghost predicate Abandoned(w: World, e: Event, queue: string) {
    || (e.Lose? && e.k in Busy(w, queue))
    || (e.Settle? && e.k in Busy(w, queue)
        && var tok := w.tokens[e.k];
           && tok.stage == Returned(false) && !LastAttempt(tok.job)
           && (e.fault || tok.job.id !in w.jobs || w.jobs[tok.job.id].state != Claimed))
  }

  ghost function UnhandledCount(es: seq<Event>, queue: string): nat {
    if es == [] then 0
    else UnhandledCount(es[..|es| - 1], queue) + if Unhandled(After(es[..|es| - 1]), es[|es| - 1], queue) then 1 else 0
  }

  ghost function AbandonedCount(es: seq<Event>, queue: string): nat {
    if es == [] then 0
    else AbandonedCount(es[..|es| - 1], queue) + if Abandoned(After(es[..|es| - 1]), es[|es| - 1], queue) then 1 else 0
  }

  /** The difference between gauge and busy workers changes only by the two irregular events. */
  ghost predicate Balanced(w: World, e: Event, queue: string) {
    var w' := Next(w, e);
    Gauge(w'.log, queue) - |Busy(w', queue)|
    == Gauge(w.log, queue) - |Busy(w, queue)|
       - (if Unhandled(w, e, queue) then 1 else 0) + (if Abandoned(w, e, queue) then 1 else 0)
  }

  lemma QuietBalance(w: World, e: Event, queue: string)
    requires Basics(w) && Enabled(w, e)
    requires !e.Begin? && !e.NoHandler? && !e.Settle? && !e.FireHook? && !e.Lose?
    ensures Balanced(w, e, queue)
  {
    QuietBusy(w, e, queue);
  }

  lemma QuietBusy(w: World, e: Event, queue: string)
    requires Basics(w) && Enabled(w, e)
    requires !e.Begin? && !e.NoHandler? && !e.Settle? && !e.FireHook? && !e.Lose?
    ensures Busy(Next(w, e), queue) == Busy(w, queue)
  {
    forall k: nat ensures k in Busy(Next(w, e), queue) <==> k in Busy(w, queue) {
      assert k in w.tokens ==> TokenOk(w, k);
    }
  }

  lemma BeginBalance(w: World, k: nat, queue: string)
    requires Enabled(w, Begin(k))
    ensures Balanced(w, Begin(k), queue)
  {
    var j := w.tokens[k].job;
    GaugeAppend(w.log, OnStart(j.id, j.queue, j.attempt + 1), queue);
    BusyGains(w, Next(w, Begin(k)), k, queue);
  }

  lemma SettlesOne(w: World, e: Event)
    requires e.Settle? && Enabled(w, e)
    ensures var w' := Next(w, e);
      && w'.log == w.log
      && w'.tokens == if e.k in w'.tokens then w.tokens[e.k := w'.tokens[e.k]] else w.tokens - {e.k}
  {
  }

  lemma SettleBalance(w: World, e: Event, queue: string)
    requires e.Settle? && Enabled(w, e)
    ensures Balanced(w, e, queue)
  {
    var w' := Next(w, e);
    SettlingOwes(w, e.k, e.at, e.error, e.fault);
    SettlesOne(w, e);
    if e.k in w'.tokens {
      assert Busy(w', queue) == Busy(w, queue);
    } else {
      BusyLoses(w, w', e.k, queue);
    }
  }

  lemma FireBalance(w: World, k: nat, queue: string)
    requires Basics(w) && Enabled(w, FireHook(k)) && !w.tokens[k].stage.hook.OnStart?
    ensures Balanced(w, FireHook(k), queue)
  {
    assert TokenOk(w, k);
    GaugeAppend(w.log, w.tokens[k].stage.hook, queue);
    BusyLoses(w, Next(w, FireHook(k)), k, queue);
  }

  lemma StepBalance(w: World, e: Event, queue: string)
    requires Basics(w) && Enabled(w, e)
    ensures Balanced(w, e, queue)
  {
    match e
    case Begin(k) => BeginBalance(w, k, queue);
    case NoHandler(k, _, _) => BusyGains(w, Next(w, e), k, queue);
    case Settle(_, _, _, _) => SettleBalance(w, e, queue);
    case FireHook(k) =>
      assert TokenOk(w, k);
      FireBalance(w, k, queue);
    case Lose(k) => BusyLoses(w, Next(w, e), k, queue);
    case _ => QuietBalance(w, e, queue);
  }

  lemma BusyGains(w: World, w': World, k: nat, queue: string)
    requires k in w.tokens && w.tokens[k].stage.Held? && k in w'.tokens && !w'.tokens[k].stage.Held?
    requires w'.tokens == w.tokens[k := w'.tokens[k]] && w'.tokens[k].job == w.tokens[k].job
    ensures |Busy(w', queue)| == |Busy(w, queue)| + if w.tokens[k].job.queue == queue then 1 else 0
  {
    if w.tokens[k].job.queue == queue {
      assert Busy(w', queue) == Busy(w, queue) + {k};
    } else {
      assert Busy(w', queue) == Busy(w, queue);
    }
  }

  lemma BusyLoses(w: World, w': World, k: nat, queue: string)
    requires k in w.tokens && w'.tokens == w.tokens - {k}
    ensures |Busy(w', queue)| == |Busy(w, queue)| - if k in Busy(w, queue) then 1 else 0
  {
    assert Busy(w', queue) == Busy(w, queue) - {k};
  }

  /** In every run the gauge is the number of busy workers, plus the jobs they abandoned,
      minus the jobs without a handler. */
  lemma {:induction false} GaugeBalance(es: seq<Event>, queue: string)
    requires Legal(es)
    ensures Gauge(After(es).log, queue)
         == |Busy(After(es), queue)| + AbandonedCount(es, queue) - UnhandledCount(es, queue)
    decreases |es|
  {
    if es != [] {
      var init := es[..|es| - 1];
      GaugeBalance(init, queue);
      ReachableBasics(init);
      StepBalance(After(init), es[|es| - 1], queue);
    } else {
      assert Busy(START, queue) == {};
    }
  }

  /** An idle queue's gauge is back at zero exactly when as many jobs were abandoned as found no handler. */
  lemma IdleGaugeIff(es: seq<Event>, queue: string)
    requires Legal(es) && Busy(After(es), queue) == {}
    ensures Gauge(After(es).log, queue) == 0 <==> AbandonedCount(es, queue) == UnhandledCount(es, queue)
  {
    GaugeBalance(es, queue);
  }

  /** It can go below zero: one job without a handler is enough. */
  lemma GaugeCanGoNegative(es: seq<Event>, k: nat, queue: string, fault: bool) returns (es': seq<Event>)
    requires Legal(es) && Gauge(After(es).log, queue) == 0 && k in After(es).tokens
    requires After(es).tokens[k].stage.Held? && After(es).tokens[k].job.queue == queue
    ensures es' == es + [NoHandler(k, 0, fault)] + [FireHook(k)] && Legal(es')
    ensures Gauge(After(es').log, queue) == -1
    ensures var j := After(es).tokens[k].job;
      After(es').log == After(es).log + [OnFailure(j.id, j.queue, j.attempt + 1)]
  {
    var j := After(es).tokens[k].job;
    es' := RunsWithoutHandler(es, k, fault);
    OneBelow(After(es).log, OnFailure(j.id, j.queue, j.attempt + 1), After(es').log, queue);
  }

  lemma OneBelow(log: seq<Hook>, h: Hook, log': seq<Hook>, queue: string)
    requires Gauge(log, queue) == 0 && log' == log + [h] && h.queue == queue && !h.OnStart?
    ensures Gauge(log', queue) == -1
  {
    GaugeAppend(log, h, queue);
  }

  lemma RunsWithoutHandler(es: seq<Event>, k: nat, fault: bool) returns (es': seq<Event>)
    requires Legal(es) && Enabled(After(es), NoHandler(k, 0, fault))
    ensures es' == es + [NoHandler(k, 0, fault)] + [FireHook(k)] && Legal(es')
    ensures var j := After(es).tokens[k].job;
      After(es').log == After(es).log + [OnFailure(j.id, j.queue, j.attempt + 1)]
  {
    MissingHandlerFires(After(es), k, 0, fault);
    Extend(es, NoHandler(k, 0, fault));
    es' := es + [NoHandler(k, 0, fault)];
    Extend(es', FireHook(k));
    es' := es' + [FireHook(k)];
  }

  lemma MissingHandlerFires(w: World, k: nat, at: Time, fault: bool)
    requires Enabled(w, NoHandler(k, at, fault))
    ensures var j, w' := w.tokens[k].job, Next(w, NoHandler(k, at, fault));
      Enabled(w', FireHook(k)) && Next(w', FireHook(k)).log == w.log + [OnFailure(j.id, j.queue, j.attempt + 1)]
  {
    var w' := Next(w, NoHandler(k, at, fault));
    MissingHandlerOwesFailure(w, k, at, fault);
    LogStep(w, NoHandler(k, at, fault));
    LogStep(w', FireHook(k));
  }

  /** And it can stay up: the last busy worker's Fail call does not get through, and no worker is busy any more. */
  lemma GaugeCanStayUp(es: seq<Event>, k: nat, queue: string, at: Time, error: string)
    requires Legal(es) && Busy(After(es), queue) == {k} && Gauge(After(es).log, queue) == 1
    requires After(es).tokens[k].stage == Returned(false) && !LastAttempt(After(es).tokens[k].job)
    ensures var es' := es + [Settle(k, at, error, true)];
      Legal(es') && Busy(After(es'), queue) == {} && Gauge(After(es').log, queue) == 1
  {
    Extend(es, Settle(k, at, error, true));
    SettlingOwes(After(es), k, at, error, true);
  }
}
