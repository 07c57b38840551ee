/** One queue's pipeline inside one process: a dispatcher that claims batches of at most c
    jobs and hands them one by one to a channel of capacity c, and c workers that take them. */
module Pipeline {
  import opened Jobs
  import opened Claims

  /** The n-th job claimed by this pipeline. */
  datatype Item = Item(n: nat, job: Job)

  datatype Worker = Idle | Busy(item: Item) | Gone

  datatype Pipe = Pipe(
    c: nat,                    // concurrency: batch size, channel capacity and number of workers
    dispatching: bool,
    cancelled: bool,
    batch: seq<Item>,          // claimed, not yet sent
    channel: seq<Item>,
    workers: seq<Worker>,
    // history
    claimed: seq<Item>,
    started: seq<Item>,
    finished: set<nat>,
    dropped: seq<Item>)

  datatype Event =
    | Poll(jobs: seq<Job>)     // ClaimDue returned these jobs
    | Send
    | Take(i: nat)
    | Finish(i: nat)
    | Cancel
    | StopDispatching          // ctx.Done seen by the dispatcher: the unsent part of the batch is dropped
    | StopWorking(i: nat)      // ctx.Done seen by an idle worker

  function Open(c: nat): Pipe {
    Pipe(c, true, false, [], [], seq(c, _ => Idle), [], [], {}, [])
  }

  predicate Enabled(p: Pipe, e: Event) {
    match e
    case Poll(jobs) => p.dispatching && p.batch == [] && |jobs| <= p.c
    case Send => p.dispatching && p.batch != [] && |p.channel| < p.c
    case Take(i) => i < |p.workers| && p.workers[i].Idle? && p.channel != []
    case Finish(i) => i < |p.workers| && p.workers[i].Busy?
    case Cancel => true
    case StopDispatching => p.dispatching && p.cancelled
    case StopWorking(i) => p.cancelled && i < |p.workers| && p.workers[i].Idle?
  }

  function Numbered(from: nat, jobs: seq<Job>): seq<Item> {
    seq(|jobs|, i requires 0 <= i < |jobs| => Item(from + i, jobs[i]))
  }

  function Next(p: Pipe, e: Event): Pipe
    requires Enabled(p, e)
  {
    match e
    case Poll(jobs) =>
      var items := Numbered(|p.claimed|, jobs);
      p.(batch := items, claimed := p.claimed + items)
    case Send => p.(batch := p.batch[1..], channel := p.channel + [p.batch[0]])
    case Take(i) =>
      p.(workers := p.workers[i := Busy(p.channel[0])], channel := p.channel[1..],
         started := p.started + [p.channel[0]])
    case Finish(i) => p.(workers := p.workers[i := Idle], finished := p.finished + {p.workers[i].item.n})
    case Cancel => p.(cancelled := true)
    case StopDispatching => p.(dispatching := false, batch := [], dropped := p.batch)
    case StopWorking(i) => p.(workers := p.workers[i := Gone])
  }

  // ----- invariant

  predicate Working(p: Pipe, i: nat, n: nat) {
    i < |p.workers| && p.workers[i].Busy? && p.workers[i].item.n == n
  }

  ghost predicate WorkersOk(p: Pipe) {
    && |p.workers| == p.c
    && (forall i :: 0 <= i < |p.workers| && p.workers[i].Busy? ==> p.workers[i].item in p.started)
    && (forall n :: n in p.finished ==> n < |p.started|)
    && (forall i, n :: Working(p, i, n) ==> n !in p.finished)
    && (forall i, j, n :: Working(p, i, n) && Working(p, j, n) ==> i == j)
    && (forall n :: 0 <= n < |p.started| && n !in p.finished ==> exists i :: Working(p, i, n))
  }

  /** Everything claimed is, in claim order: started, then in the channel, then in the unsent batch or dropped. */
  ghost predicate ItemsOk(p: Pipe) {
    && p.claimed == p.started + p.channel + p.batch + p.dropped
    && (forall n :: 0 <= n < |p.claimed| ==> p.claimed[n].n == n)
    && (p.dispatching ==> p.dropped == [])
    && (!p.dispatching ==> p.batch == [])
    && |p.batch| <= p.c && |p.channel| <= p.c
  }

  ghost predicate Inv(p: Pipe) {
    ItemsOk(p) && WorkersOk(p)
  }

  lemma TakeOk(p: Pipe, i: nat)
    requires Inv(p) && Enabled(p, Take(i))
    ensures WorkersOk(Next(p, Take(i)))
  {
    var p' := Next(p, Take(i));
    var item := p.channel[0];
    assert p.claimed[|p.started|] == item;
    forall k, n ensures Working(p', k, n) <==> if k == i then n == item.n else Working(p, k, n) {
    }
    forall k: nat, n: nat | Working(p, k, n) ensures n < |p.started| {
      var m :| 0 <= m < |p.started| && p.started[m] == p.workers[k].item;
      assert p.claimed[m] == p.started[m];
    }
    forall n | 0 <= n < |p'.started| && n !in p'.finished ensures exists k :: Working(p', k, n) {
      if n == |p.started| {
        assert Working(p', i, n);
      } else {
        var k :| Working(p, k, n);
        assert Working(p', k, n);
      }
    }
  }

  lemma FinishOk(p: Pipe, i: nat)
    requires Inv(p) && Enabled(p, Finish(i))
    ensures WorkersOk(Next(p, Finish(i)))
  {
    var p' := Next(p, Finish(i));
    var item := p.workers[i].item;
    var m :| 0 <= m < |p.started| && p.started[m] == item;
    assert p.claimed[m] == item;
    assert Working(p, i, item.n);
    forall k, n ensures Working(p', k, n) <==> k != i && Working(p, k, n) {
    }
    forall n | 0 <= n < |p'.started| && n !in p'.finished ensures exists k :: Working(p', k, n) {
      var k :| Working(p, k, n);
      assert Working(p', k, n);
    }
  }

  lemma StopOk(p: Pipe, i: nat)
    requires Inv(p) && Enabled(p, StopWorking(i))
    ensures WorkersOk(Next(p, StopWorking(i)))
  {
    var p' := Next(p, StopWorking(i));
    forall k, n ensures Working(p', k, n) <==> Working(p, k, n) {
    }
  }

  lemma PollItems(p: Pipe, jobs: seq<Job>)
    requires ItemsOk(p) && Enabled(p, Poll(jobs))
    ensures ItemsOk(Next(p, Poll(jobs)))
  {
  }

  lemma SendItems(p: Pipe)
    requires ItemsOk(p) && Enabled(p, Send)
    ensures ItemsOk(Next(p, Send))
  {
    var (x, rest) := (p.batch[0], p.batch[1..]);
    assert p.started + (p.channel + [x]) + rest == p.started + p.channel + p.batch;
  }

  lemma TakeItems(p: Pipe, i: nat)
    requires ItemsOk(p) && Enabled(p, Take(i))
    ensures ItemsOk(Next(p, Take(i)))
  {
    var (x, rest) := (p.channel[0], p.channel[1..]);
    assert (p.started + [x]) + rest == p.started + p.channel;
  }

  lemma ItemsKept(p: Pipe, e: Event)
    requires ItemsOk(p) && Enabled(p, e)
    ensures ItemsOk(Next(p, e))
  {
    match e
    case Poll(jobs) => PollItems(p, jobs);
    case Send => SendItems(p);
    case Take(i) => TakeItems(p, i);
    case _ =>
  }

  lemma StepKeepsInv(p: Pipe, e: Event)
    requires Inv(p) && Enabled(p, e)
    ensures Inv(Next(p, e))
  {
    ItemsKept(p, e);
    match e
    case Take(i) => TakeOk(p, i);
    case Finish(i) => FinishOk(p, i);
    case StopWorking(i) => StopOk(p, i);
    case _ => SameWorkers(p, Next(p, e));
  }

  lemma SameWorkers(p: Pipe, p': Pipe)
    requires WorkersOk(p) && p'.c == p.c && p'.workers == p.workers
    requires p'.started == p.started && p'.finished == p.finished
    ensures WorkersOk(p')
  {
    assert forall k, n :: Working(p', k, n) <==> Working(p, k, n);
  }

  // ----- runs

  ghost function After(c: nat, es: seq<Event>): Pipe
    requires Legal(c, es)
    decreases |es|, 1
  {
    if es == [] then Open(c) else Next(After(c, es[..|es| - 1]), es[|es| - 1])
  }

  ghost predicate Legal(c: nat, es: seq<Event>)
    decreases |es|, 0
  {
    es == [] || (Legal(c, es[..|es| - 1]) && Enabled(After(c, es[..|es| - 1]), es[|es| - 1]))
  }

  lemma {:induction false} Reachable(c: nat, es: seq<Event>)
    requires Legal(c, es)
    ensures Inv(After(c, es)) && After(c, es).c == c
    decreases |es|
  {
    if es == [] {
      forall i, n ensures !Working(Open(c), i, n) {
      }
    } else {
      Reachable(c, es[..|es| - 1]);
      StepKeepsInv(After(c, es[..|es| - 1]), es[|es| - 1]);
    }
  }

  // ----- what the invariant says

  /** Everything that ClaimDue returned over the run, batch after batch. */
  ghost function AllReturned(es: seq<Event>): seq<Job> {
    if es == [] then []
    else AllReturned(es[..|es| - 1]) + if es[|es| - 1].Poll? then es[|es| - 1].jobs else []
  }

  ghost function JobsOf(items: seq<Item>): (jobs: seq<Job>)
    ensures |jobs| == |items| && forall i :: 0 <= i < |items| ==> jobs[i] == items[i].job
  {
    seq(|items|, i requires 0 <= i < |items| => items[i].job)
  }

  /** The pipeline's history of claims is what the store returned. */
  lemma {:induction false} ClaimedIsReturned(c: nat, es: seq<Event>)
    requires Legal(c, es)
    ensures JobsOf(After(c, es).claimed) == AllReturned(es)
    decreases |es|
  {
    if es == [] {
    } else {
      ClaimedIsReturned(c, es[..|es| - 1]);
    }
  }

  /** Workers start jobs in exactly the order the store returned them, and what they have started, what waits in
      the channel, the unsent batch and what was dropped are together all it returned. */
  lemma StartedInClaimOrder(c: nat, es: seq<Event>)
    requires Legal(c, es)
    ensures var p := After(c, es);
      && JobsOf(p.started) <= AllReturned(es)
      && JobsOf(p.started) + JobsOf(p.channel) + JobsOf(p.batch) + JobsOf(p.dropped) == AllReturned(es)
  {
    Reachable(c, es);
    ClaimedIsReturned(c, es);
    var p := After(c, es);
    JobsOfAppend(p.started, p.channel);
    JobsOfAppend(p.started + p.channel, p.batch);
    JobsOfAppend(p.started + p.channel + p.batch, p.dropped);
  }

  lemma JobsOfAppend(a: seq<Item>, b: seq<Item>)
    ensures JobsOf(a + b) == JobsOf(a) + JobsOf(b)
  {
  }

  /** Until the scheduler is stopped the dispatcher goes on, no worker leaves and nothing is dropped. */
  ghost predicate RunningOn(p: Pipe) {
    p.dispatching && p.dropped == [] && forall i :: 0 <= i < |p.workers| ==> !p.workers[i].Gone?
  }

  lemma {:induction false} DroppedOnlyWhenCancelled(c: nat, es: seq<Event>)
    requires Legal(c, es)
    ensures After(c, es).cancelled <==> Cancel in es
    ensures Cancel !in es ==> RunningOn(After(c, es))
    decreases |es|
  {
    if es == [] {
    } else {
      var n := |es| - 1;
      DroppedOnlyWhenCancelled(c, es[..n]);
      assert es == es[..n] + [es[n]];
    }
  }

  ghost function NumbersIn(items: seq<Item>): set<nat> {
    set item | item in items :: item.n
  }

  ghost function Held(ws: seq<Worker>): set<nat> {
    set i | 0 <= i < |ws| && ws[i].Busy? :: ws[i].item.n
  }

  /** In how many places is the n-th claimed job? */
  ghost function Places(p: Pipe, n: nat): nat {
    (if n in NumbersIn(p.batch) then 1 else 0) + (if n in NumbersIn(p.channel) then 1 else 0)
    + (if n in Held(p.workers) then 1 else 0) + (if n in p.finished then 1 else 0)
    + (if n in NumbersIn(p.dropped) then 1 else 0)
  }

  /** Every claimed job is in exactly one place: the unsent batch, the channel, a worker, finished or dropped. */
  lemma ExactlyOnePlace(c: nat, es: seq<Event>, n: nat)
    requires Legal(c, es) && n < |After(c, es).claimed|
    ensures Places(After(c, es), n) == 1
  {
    Reachable(c, es);
    OnePlace(After(c, es), n);
  }

  lemma OnePlace(p: Pipe, n: nat)
    requires Inv(p) && n < |p.claimed|
    ensures Places(p, n) == 1
  {
    Segment(p, p.started, p.channel, p.batch + p.dropped, n);
    Segment(p, p.started + p.channel, p.batch, p.dropped, n);
    Segment(p, p.started + p.channel + p.batch, p.dropped, [], n);
    WorkerSegment(p, n);
  }

  /** A stretch of the claimed items holds exactly its own numbers. */
  lemma Segment(p: Pipe, before: seq<Item>, part: seq<Item>, behind: seq<Item>, n: nat)
    requires Inv(p) && p.claimed == before + part + behind
    ensures n in NumbersIn(part) <==> |before| <= n < |before| + |part|
  {
    var from := |before|;
    forall i | 0 <= i < |part|
      ensures part[i].n == from + i
    {
      assert p.claimed[from + i] == part[i];
    }
    if n in NumbersIn(part) {
      var item :| item in part && item.n == n;
      var i :| 0 <= i < |part| && part[i] == item;
    }
    if from <= n < from + |part| {
      assert part[n - from] in part;
    }
  }

  lemma WorkerSegment(p: Pipe, n: nat)
    requires Inv(p)
    ensures n in Held(p.workers) <==> n < |p.started| && n !in p.finished
  {
    if n in Held(p.workers) {
      var i :| 0 <= i < |p.workers| && p.workers[i].Busy? && p.workers[i].item.n == n;
      assert Working(p, i, n);
      var m :| 0 <= m < |p.started| && p.started[m] == p.workers[i].item;
      assert p.claimed[m] == p.started[m];
    }
    if n < |p.started| && n !in p.finished {
      var i: nat :| Working(p, i, n);
      assert p.workers[i].item.n in Held(p.workers);
    }
  }

  /** A pipeline of concurrency c never holds more than 3c unfinished jobs. */
  lemma AtMostThreeTimesConcurrency(c: nat, es: seq<Event>)
    requires Legal(c, es)
    ensures var p := After(c, es); |p.batch| + |p.channel| + |Held(p.workers)| <= 3 * c
  {
    Reachable(c, es);
    HeldCard(After(c, es).workers);
  }

  lemma {:induction false} HeldCard(ws: seq<Worker>)
    ensures |Held(ws)| <= |ws|
    decreases |ws|
  {
    if ws != [] {
      var n := |ws| - 1;
      HeldCard(ws[..n]);
      if ws[n].Busy? {
        assert Held(ws) <= Held(ws[..n]) + {ws[n].item.n} by {
          forall m | m in Held(ws) ensures m in Held(ws[..n]) + {ws[n].item.n} {
            var i :| 0 <= i < |ws| && ws[i].Busy? && ws[i].item.n == m;
            assert i < n ==> ws[..n][i] == ws[i];
          }
        }
        SubsetCard(Held(ws), Held(ws[..n]) + {ws[n].item.n});
      } else {
        assert Held(ws) <= Held(ws[..n]) by {
          forall m | m in Held(ws) ensures m in Held(ws[..n]) {
            var i :| 0 <= i < |ws| && ws[i].Busy? && ws[i].item.n == m;
            assert ws[..n][i] == ws[i];
          }
        }
        SubsetCard(Held(ws), Held(ws[..n]));
      }
    } else {
      assert Held(ws) == {};
    }
  }

  // ----- the bound is reached

  lemma Extend(c: nat, es: seq<Event>, e: Event)
    requires Legal(c, es) && Enabled(After(c, es), e)
    ensures Legal(c, es + [e]) && After(c, es + [e]) == Next(After(c, es), e)
  {
    assert (es + [e])[..|es|] == es;
  }

  /** Dispatching, with b jobs unsent, m in the channel, and the first n workers busy. */
  ghost predicate Loaded(p: Pipe, b: nat, m: nat, n: nat) {
    && p.dispatching && |p.batch| == b && |p.channel| == m && n <= |p.workers| == p.c
    && forall i :: 0 <= i < p.c ==> if i < n then p.workers[i].Busy? else p.workers[i].Idle?
  }

  /** The dispatcher sends and the next idle worker takes, until every worker is busy. */
  lemma {:induction false} FillWorkers(c: nat, es: seq<Event>, n: nat) returns (es': seq<Event>)
    requires n <= c && Legal(c, es) && After(c, es).c == c && Loaded(After(c, es), c - n, 0, n)
    ensures Legal(c, es') && After(c, es').c == c && Loaded(After(c, es'), 0, 0, c)
    decreases c - n
  {
    es' := es;
    if n < c {
      Extend(c, es, Send);
      var e1 := es + [Send];
      Extend(c, e1, Take(n));
      es' := FillWorkers(c, e1 + [Take(n)], n + 1);
    }
  }

  lemma {:induction false} FillChannel(c: nat, es: seq<Event>, m: nat) returns (es': seq<Event>)
    requires m <= c && Legal(c, es) && After(c, es).c == c && Loaded(After(c, es), c - m, m, c)
    ensures Legal(c, es') && After(c, es').c == c && Loaded(After(c, es'), 0, c, c)
    decreases c - m
  {
    es' := es;
    if m < c {
      Extend(c, es, Send);
      es' := FillChannel(c, es + [Send], m + 1);
    }
  }

  /** When jobs come faster than they finish, a pipeline holds exactly 3c: c running, c in the channel, c unsent. */
  lemma ThreeTimesReached(c: nat, jobs: seq<Job>) returns (es: seq<Event>)
    requires |jobs| == c
    ensures Legal(c, es)
    ensures var p := After(c, es); |p.batch| + |p.channel| + |Held(p.workers)| == 3 * c
  {
    Extend(c, [], Poll(jobs));
    es := FillWorkers(c, [] + [Poll(jobs)], 0);
    Extend(c, es, Poll(jobs));
    es := FillChannel(c, es + [Poll(jobs)], 0);
    Extend(c, es, Poll(jobs));
    es := es + [Poll(jobs)];
    Reachable(c, es);
    AllHeld(After(c, es));
  }

  /** Workers that are all busy are busy with different jobs. */
  lemma AllHeld(p: Pipe)
    requires Inv(p) && forall i :: 0 <= i < |p.workers| ==> p.workers[i].Busy?
    ensures |Held(p.workers)| == |p.workers|
  {
    var ws := p.workers;
    var nums := seq(|ws|, i requires 0 <= i < |ws| => ws[i].item.n);
    forall i, j | 0 <= i < j < |nums| ensures nums[i] != nums[j] {
      assert Working(p, i, nums[i]) && Working(p, j, nums[j]);
    }
    DistinctCard(nums);
    forall n ensures n in Held(ws) <==> n in Elements(nums) {
      if n in Held(ws) {
        var i :| 0 <= i < |ws| && ws[i].Busy? && ws[i].item.n == n;
        assert nums[i] == n;
      }
    }
    assert Held(ws) == Elements(nums);
  }
}
