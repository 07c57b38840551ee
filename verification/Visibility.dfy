/** Visibility timeouts: when no job is ever run by two workers at once, in terms of the two times
    a deployment chooses, how long a claim is locked and how long a worker may keep it. */
module Visibility {
  import opened Jobs
  import opened Table
  import opened Runs
  import opened Records
  import opened Exclusion

  /** Claims are locked for v and settled within d; the backend tests a lock time against its clock with
      expiry; the clock shows only times in during. */
  datatype Timing = Timing(v: nat, d: nat, expiry: (Time, Time) -> bool, during: Time -> bool)

  function ClaimedAt(tm: Timing, tok: Token): Time {
    tok.job.lockedUntil - tm.v
  }

  /** A claim takes due jobs and is locked for v, by a clock read before it; no unsettled claim lives longer than d
      from that reading; and a recovery frees exactly the expired claims. */
  ghost predicate KeepsTime(tm: Timing, w: World, e: Event) {
    match e
    case ClaimBatch(r, ids) =>
      && 0 <= r.now <= w.now <= r.now + tm.d && tm.during(r.now) && r.until == r.now + tm.v
      && forall id :: id in ids && id in w.jobs ==> w.jobs[id].runAt <= r.now
    case Tick(x) =>
      && tm.during(w.now + x)
      && forall k :: k in w.tokens && Active(w.tokens[k]) ==> w.now + x <= ClaimedAt(tm, w.tokens[k]) + tm.d
    case RecoverStale(freed) => freed == Expired(w.jobs, tm.expiry, w.now)
    case _ => true
  }

  ghost predicate Timed(tm: Timing, es: seq<Event>) {
    es == [] || (Timed(tm, es[..|es| - 1]) && KeepsTime(tm, After(es[..|es| - 1]), es[|es| - 1]))
  }

  /** No interleaving of claims, workers, crashes and recoveries runs a job twice at once. */
  ghost predicate Safe(tm: Timing) {
    forall es, k, m :: Legal(es) && Timed(tm, es) ==> !Overlap(After(es), k, m)
  }

  /** No claim expires while it may still be worked on. */
  ghost predicate Outlasts(tm: Timing) {
    forall c, t :: tm.during(c) && tm.during(t) && 0 <= c <= t <= c + tm.d ==> !tm.expiry(c + tm.v, t)
  }

  // ----- enough

  ghost predicate OnTime(tm: Timing, w: World) {
    && 0 <= w.now && tm.during(w.now)
    && forall k :: k in w.tokens && Active(w.tokens[k]) ==>
         var c := ClaimedAt(tm, w.tokens[k]);
         tm.during(c) && 0 <= c <= w.now <= c + tm.d
  }

  /** A token keeps its claim, and a new one is locked as its batch was. */
  lemma TokenLock(w: World, e: Event, k: nat)
    requires Basics(w) && Enabled(w, e) && k in Next(w, e).tokens && Active(Next(w, e).tokens[k])
    ensures if k in w.tokens then Active(w.tokens[k]) && Next(w, e).tokens[k].job == w.tokens[k].job
            else e.ClaimBatch? && Next(w, e).tokens[k].job.lockedUntil == e.r.until
  {
    assert k in w.tokens ==> TokenOk(w, k);
  }

  lemma StepOnTime(tm: Timing, w: World, e: Event)
    requires Basics(w) && Enabled(w, e) && KeepsTime(tm, w, e) && OnTime(tm, w)
    ensures OnTime(tm, Next(w, e))
  {
    var w' := Next(w, e);
    assert w'.now == if e.Tick? then w.now + e.d else w.now;
    forall k | k in w'.tokens && Active(w'.tokens[k])
      ensures var c := ClaimedAt(tm, w'.tokens[k]); tm.during(c) && 0 <= c <= w'.now <= c + tm.d
    {
      TokenOnTime(tm, w, e, k);
    }
  }

  lemma TokenOnTime(tm: Timing, w: World, e: Event, k: nat)
    requires Basics(w) && Enabled(w, e) && KeepsTime(tm, w, e) && OnTime(tm, w)
    requires k in Next(w, e).tokens && Active(Next(w, e).tokens[k])
    ensures var c := ClaimedAt(tm, Next(w, e).tokens[k]); tm.during(c) && 0 <= c <= Next(w, e).now <= c + tm.d
  {
    TokenLock(w, e, k);
    assert k in w.tokens ==> Active(w.tokens[k]);
  }

  /** A claim still worked on is within d of its start, so a recovery passes it over. */
  lemma OnTimeIsSpared(tm: Timing, w: World, e: Event)
    requires Outlasts(tm) && OnTime(tm, w) && Exclusive(w) && KeepsTime(tm, w, e)
    ensures Spares(w, e)
  {
    if e.RecoverStale? {
      forall k | k in w.tokens && Active(w.tokens[k])
        ensures w.tokens[k].job.id !in e.freed
      {
        var c := ClaimedAt(tm, w.tokens[k]);
        assert !tm.expiry(c + tm.v, w.now);
      }
    }
  }

  lemma {:induction false} TimedIsTimely(tm: Timing, es: seq<Event>)
    requires Legal(es) && Timed(tm, es) && Outlasts(tm) && tm.during(0)
    ensures Timely(es) && OnTime(tm, After(es))
    decreases |es|
  {
    if es == [] {
    } else {
      var n := |es| - 1;
      TimedIsTimely(tm, es[..n]);
      TimelyIsExclusive(es[..n]);
      ReachableBasics(es[..n]);
      OnTimeIsSpared(tm, After(es[..n]), es[n]);
      StepOnTime(tm, After(es[..n]), es[n]);
      TimelyExtends(es);
    }
  }

  lemma TimelyExtends(es: seq<Event>)
    requires es != [] && Timely(es[..|es| - 1]) && Spares(After(es[..|es| - 1]), es[|es| - 1])
    ensures Timely(es)
  {
    var n := |es| - 1;
    forall i | 0 <= i < |es|
      ensures Spares(After(es[..i]), es[i])
    {
      if i < n {
        SparedBefore(es, n, i);
      }
    }
  }

  lemma SparedBefore(es: seq<Event>, n: nat, i: nat)
    requires i < n <= |es| && Timely(es[..n])
    ensures Spares(After(es[..i]), es[i])
  {
    var init := es[..n];
    assert init[..i] == es[..i] && init[i] == es[i];
    assert Spares(After(init[..i]), init[i]);
  }

  /** In such a run a claim dropped on cancellation or by a crash leaves its job claimed in the store, */
  lemma DroppedStaysClaimed(tm: Timing, es: seq<Event>, k: nat)
    requires Legal(es) && Timed(tm, es) && Outlasts(tm) && tm.during(0)
    requires k in After(es).tokens && Active(After(es).tokens[k])
    ensures var w := After(es + [Lose(k)]); var id := After(es).tokens[k].job.id;
      k !in w.tokens && id in w.jobs && w.jobs[id].state == Claimed
  {
    TimedIsTimely(tm, es);
    DroppedIsStillClaimed(es, k);
  }

  /** and a worker and the store draw the same conclusion from a failure of a job with a positive limit. */
  lemma FailureSettledAlike(tm: Timing, es: seq<Event>, k: nat, at: Time, error: string)
    requires Legal(es) && Timed(tm, es) && Outlasts(tm) && tm.during(0)
    requires k in After(es).tokens && After(es).tokens[k].stage == Returned(false)
    requires 0 < After(es).tokens[k].job.maxAttempts
    ensures var w' := Next(After(es), Settle(k, at, error, false));
      k in w'.tokens && SettledAlike(After(es).tokens[k].job, error, at, w'.jobs, w'.tokens[k].stage)
  {
    TimedIsTimely(tm, es);
    WorkerAndStoreAgree(es, k, at, error);
  }

  // ----- needed

  lemma ExtendTimed(tm: Timing, es: seq<Event>, e: Event)
    requires Legal(es) && Timed(tm, es) && Enabled(After(es), e) && KeepsTime(tm, After(es), e)
    ensures Legal(es + [e]) && Timed(tm, es + [e]) && After(es + [e]) == Next(After(es), e)
  {
    assert (es + [e])[..|es|] == es;
  }

  function RequestAt(tm: Timing, queue: string, now: Time): Request {
    Request(queue, now, 1, "", now + tm.v)
  }

  /** Any pending job can be claimed and started at once. */
  lemma TimedStart(tm: Timing, es: seq<Event>, j: Job) returns (es': seq<Event>)
    requires Legal(es) && Timed(tm, es) && j.id in PendingIn(After(es).jobs, j.queue)
    requires 0 <= After(es).now && tm.during(After(es).now) && After(es).jobs[j.id].runAt <= After(es).now
    ensures Legal(es') && Timed(tm, es')
    ensures After(es') == Started(After(es), RequestAt(tm, j.queue, After(es).now), j.id)
  {
    var w := After(es);
    var r := RequestAt(tm, j.queue, w.now);
    StartsClaimed(w, r, j.id);
    ExtendTimed(tm, es, ClaimBatch(r, [j.id]));
    es' := es + [ClaimBatch(r, [j.id])];
    ExtendTimed(tm, es', Begin(w.next));
    es' := es' + [Begin(w.next)];
  }

  const SAMPLE := Job("id", "q", "n", "", "", 1, 0, 0, 3, Pending, 0, "", ZERO_TIME, "", "", 0, 0)

  /** A worker is running the sample job, claimed at time c. */
  ghost predicate SampleRuns(tm: Timing, c: Time, w: World) {
    var claimed := Claim(SAMPLE, RequestAt(tm, "q", c));
    w.jobs == map["id" := claimed] && w.tokens == map[0 := Token(claimed, Running)] && w.next == 1 && w.now == c
  }

  lemma FirstWorker(tm: Timing, c: nat) returns (es: seq<Event>)
    requires tm.during(c)
    ensures Legal(es) && Timed(tm, es) && SampleRuns(tm, c, After(es))
  {
    ExtendTimed(tm, [], Enqueue(SAMPLE));
    es := [] + [Enqueue(SAMPLE)];
    ExtendTimed(tm, es, Tick(c));
    es := es + [Tick(c)];
    es := TimedStart(tm, es, SAMPLE);
  }

  /** At time t the claim counts as expired, and the job is given back under the running worker. */
  lemma Overtaken(tm: Timing, c: nat, t: Time, es: seq<Event>) returns (es': seq<Event>)
    requires tm.during(t) && c <= t <= c + tm.d && tm.expiry(c + tm.v, t)
    requires Legal(es) && Timed(tm, es) && SampleRuns(tm, c, After(es))
    ensures Legal(es') && Timed(tm, es')
    ensures After(es') == After(es).(now := t, jobs := map["id" := Release(After(es).jobs["id"])])
  {
    SampleExpires(tm, c, t, After(es));
    ExtendTimed(tm, es, Tick(t - c));
    es' := es + [Tick(t - c)];
    ExtendTimed(tm, es', RecoverStale({"id"}));
    es' := es' + [RecoverStale({"id"})];
  }

  lemma SampleExpires(tm: Timing, c: Time, t: Time, w: World)
    requires SampleRuns(tm, c, w) && tm.expiry(c + tm.v, t) && tm.during(t) && c <= t <= c + tm.d
    ensures Enabled(w, Tick(t - c)) && KeepsTime(tm, w, Tick(t - c))
    ensures var w1, e := Next(w, Tick(t - c)), RecoverStale({"id"});
      Enabled(w1, e) && KeepsTime(tm, w1, e) && Next(w1, e) == w.(now := t, jobs := map["id" := Release(w.jobs["id"])])
  {
    assert Expired(w.jobs, tm.expiry, t) == {"id"};
    assert ReleaseAll(w.jobs, {"id"}) == map["id" := Release(w.jobs["id"])];
  }

  /** If a claim can expire under its worker, a second worker can start the job. */
  lemma OverdueWorkersOverlap(tm: Timing, c: nat, t: Time) returns (es: seq<Event>)
    requires tm.during(c) && tm.during(t) && c <= t <= c + tm.d && tm.expiry(c + tm.v, t)
    ensures Legal(es) && Timed(tm, es) && Overlap(After(es), 0, 1)
  {
    es := FirstWorker(tm, c);
    es := Overtaken(tm, c, t, es);
    es := TimedStart(tm, es, SAMPLE);
  }

  /** No job is ever run by two workers at once, if and only if no claim expires while it may still be worked on. */
  lemma SafeIffOutlasts(tm: Timing)
    requires tm.during(0)
    ensures Safe(tm) <==> Outlasts(tm)
  {
    if Outlasts(tm) {
      forall es, k, m | Legal(es) && Timed(tm, es)
        ensures !Overlap(After(es), k, m)
      {
        TimedIsTimely(tm, es);
        NoDoubleExecution(es, k, m);
      }
    } else {
      var c, t :| tm.during(c) && tm.during(t) && 0 <= c <= t <= c + tm.d && tm.expiry(c + tm.v, t);
      var es := OverdueWorkersOverlap(tm, c, t);
    }
  }

  // ----- the SQL stores

  /** `locked_until > 0 AND locked_until < now` */
  function SqlExpiry(): (Time, Time) -> bool {
    (lockedUntil: Time, now: Time) => 0 < lockedUntil < now
  }

  ghost function SqlTiming(v: nat, d: nat): Timing {
    Timing(v, d, SqlExpiry(), (t: Time) => true)
  }

  /** A recovery on the SQL stores frees a claimed job exactly when the lock of its claim ended before now,
      unless that lock ended in 1970 or before: then never. */
  lemma SqlRecoversIff(v: nat, d: nat, es: seq<Event>, freed: set<JobId>, id: JobId)
    requires Legal(es) && id in After(es).jobs && KeepsTime(SqlTiming(v, d), After(es), RecoverStale(freed))
    ensures id in freed <==>
      var h := HistoryOf(es, id); h.held && h.claim.Some? && 1 <= h.claim.value.until <= After(es).now - 1
  {
    StoredIsRecorded(es, id);
  }

  /** On the SQL stores: if and only if claims are settled within the visibility timeout. */
  lemma SqlSafeIff(v: nat, d: nat)
    ensures Safe(SqlTiming(v, d)) <==> d <= v
  {
    var tm := SqlTiming(v, d);
    SafeIffOutlasts(tm);
    if v < d {
      assert tm.during(1) && tm.during(v + 2) && tm.expiry(1 + v, v + 2);
    }
  }
}
