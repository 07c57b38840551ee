/** Several schedulers run the same recurring spec. Each works from its own clock reading and
    its own, possibly stale, snapshot of the spec; only the lease keeps them apart. */
module LeaseRuns {
  import opened Jobs
  import opened Recurring

  /** A runner's progress through one cycle, for this spec. */
  datatype Stage =
    | Resting
    | Read(r: Time)                                  // has read the clock
    | Listed(r: Time, next: Time)                    // has listed the specs, seeing this NextRunAt
    | Firing(r: Time, next: Time, left: seq<Time>)   // holds the lease; slots still to save

  datatype Lease = NoLease | Lease(until: Time, holder: nat)

  datatype Sys = Sys(
    now: Time,
    next: Time,              // the stored NextRunAt
    lease: Lease,
    runners: map<nat, Stage>,
    saved: seq<Time>)        // slots saved as jobs, in order

  datatype Event =
    | Tick(d: nat)
    | ReadClock(w: nat)
    | List(w: nat)
    | Acquire(w: nat)
    | SaveFire(w: nat)
    | Update(w: nat)

  /** The spec, the longest time d a cycle takes from clock read to update, the delay after the clock read
      beyond which the store refuses the lease, and when a lease ends that was granted at time a to a runner
      that read the clock at r. */
  datatype Config = Config(
    adv: Time -> Time, catchup: bool, first: Time, d: nat, patience: int, until: (Time, Time) -> Time)

  /** The longest delay from clock read to lease. */
  function Reach(c: Config): int {
    if c.d < c.patience then c.d else c.patience
  }

  function StageOf(s: Sys, w: nat): Stage {
    if w in s.runners then s.runners[w] else Resting
  }

  function WithStage(s: Sys, w: nat, g: Stage): Sys {
    s.(runners := s.runners[w := g])
  }

  /** The slots a cycle reading the clock at r fires from NextRunAt n, and the NextRunAt it stores. */
  ghost function FireList(c: Config, n: Time, r: Time): seq<Time>
    requires Forward(c.adv)
  {
    var due := DueSlots(c.adv, n, r);
    Slots(c.adv, n, FireCount(c.catchup, due))
  }

  ghost function NextRun(c: Config, n: Time, r: Time): Time
    requires Forward(c.adv)
  {
    Slot(c.adv, n, StepsPast(c.adv, n, r))
  }

  predicate Grantable(s: Sys, w: nat) {
    s.lease.NoLease? || s.lease.until < s.now || s.lease.holder == w
  }

  /** No runner's cycle takes longer than d. */
  ghost predicate Enabled(c: Config, s: Sys, e: Event) {
    match e
    case Tick(d) => forall w :: w in s.runners && !s.runners[w].Resting? ==> s.now + d <= s.runners[w].r + c.d
    case ReadClock(w) => StageOf(s, w).Resting?
    case List(w) => StageOf(s, w).Read?
    case Acquire(w) => StageOf(s, w).Listed?
    case SaveFire(w) => StageOf(s, w).Firing? && StageOf(s, w).left != []
    case Update(w) => StageOf(s, w).Firing? && StageOf(s, w).left == []
  }

  ghost function Next(c: Config, s: Sys, e: Event): Sys
    requires Forward(c.adv) && Enabled(c, s, e)
  {
    match e
    case Tick(d) => s.(now := s.now + d)
    case ReadClock(w) => WithStage(s, w, Read(s.now))
    case List(w) => WithStage(s, w, Listed(StageOf(s, w).r, s.next))
    case Acquire(w) =>
      var g := StageOf(s, w);
      if g.next <= g.r && s.now <= g.r + c.patience && Grantable(s, w) then
        WithStage(s, w, Firing(g.r, g.next, FireList(c, g.next, g.r))).(lease := Lease(c.until(g.r, s.now), w))
      else WithStage(s, w, Resting)
    case SaveFire(w) =>
      var g := StageOf(s, w);
      WithStage(s, w, g.(left := g.left[1..])).(saved := s.saved + [g.left[0]])
    case Update(w) =>
      var g := StageOf(s, w);
      WithStage(s, w, Resting).(next := NextRun(c, g.next, g.r))
  }

  // ----- invariant

  ghost predicate Increasing(s: seq<Time>) {
    forall i, j :: 0 <= i < j < |s| ==> s[i] < s[j]
  }

  ghost predicate AllBelow(s: seq<Time>, t: Time) {
    forall i :: 0 <= i < |s| ==> s[i] < t
  }

  /** A lease outlasts its holder's longest cycle by the longest delay of another runner. */
  ghost predicate Lasting(c: Config) {
    forall r, a :: r <= a <= r + Reach(c) ==> r + c.d + Reach(c) <= c.until(r, a)
  }

  /** The lease holder fires from the stored NextRunAt, and its remaining slots come after all saved ones. */
  ghost predicate HolderOk(c: Config, s: Sys, w: nat)
    requires Forward(c.adv) && StageOf(s, w).Firing?
  {
    var g := StageOf(s, w);
    && g.next == s.next && g.next <= g.r
    && s.lease.Lease? && s.lease.holder == w && g.r + c.d + Reach(c) <= s.lease.until && 0 <= Reach(c)
    && Increasing(s.saved + g.left) && AllBelow(s.saved + g.left, NextRun(c, g.next, g.r))
  }

  /** A runner with an outdated snapshot is locked out for as long as it could still be granted the lease. */
  ghost predicate SnapshotOk(c: Config, s: Sys, w: nat)
    requires StageOf(s, w).Listed?
  {
    var g := StageOf(s, w);
    g.next != s.next ==> s.lease.Lease? && s.lease.holder != w && g.r + Reach(c) <= s.lease.until
  }

  ghost predicate Inv(c: Config, s: Sys)
    requires Forward(c.adv)
  {
    && (forall w :: !StageOf(s, w).Resting? ==> StageOf(s, w).r <= s.now <= StageOf(s, w).r + c.d)
    && (forall w :: StageOf(s, w).Firing? ==> HolderOk(c, s, w))
    && (forall w :: StageOf(s, w).Listed? ==> SnapshotOk(c, s, w))
    && Increasing(s.saved)
    && ((forall w :: !StageOf(s, w).Firing?) ==> AllBelow(s.saved, s.next))
  }

  lemma OneHolder(c: Config, s: Sys, v: nat, w: nat)
    requires Forward(c.adv) && Inv(c, s) && StageOf(s, v).Firing? && StageOf(s, w).Firing?
    ensures v == w
  {
    assert HolderOk(c, s, v) && HolderOk(c, s, w);
  }

  lemma FireListOk(c: Config, n: Time, r: Time)
    requires Forward(c.adv) && n <= r
    ensures var fires := FireList(c, n, r);
      && fires != [] && fires[0] == n && Increasing(fires) && AllBelow(fires, NextRun(c, n, r)) && n < NextRun(c, n, r)
  {
    var fires := FireList(c, n, r);
    var k := StepsPast(c.adv, n, r);
    forall i, j | 0 <= i < j < |fires| ensures fires[i] < fires[j] {
      SlotsIncrease(c.adv, n, i, j);
    }
    forall i | 0 <= i < |fires| ensures fires[i] < NextRun(c, n, r) {
      SlotsIncrease(c.adv, n, i, k);
    }
    assert fires[0] == Slot(c.adv, n, 0);
  }

  lemma TickOk(c: Config, s: Sys, d: nat)
    requires Forward(c.adv) && Inv(c, s) && Enabled(c, s, Tick(d))
    ensures Inv(c, Next(c, s, Tick(d)))
  {
    var s' := Next(c, s, Tick(d));
    assert forall w :: StageOf(s', w) == StageOf(s, w);
    forall w | StageOf(s', w).Firing? ensures HolderOk(c, s', w) {
      assert HolderOk(c, s, w);
    }
    forall w | StageOf(s', w).Listed? ensures SnapshotOk(c, s', w) {
      assert SnapshotOk(c, s, w);
    }
  }

  /** Nothing but the stage of w changes, and w neither holds the lease nor has a snapshot that differs. */
  lemma OnlyStage(c: Config, s: Sys, w: nat, g: Stage)
    requires Forward(c.adv) && Inv(c, s) && !StageOf(s, w).Firing? && !g.Firing?
    requires !g.Resting? ==> g.r <= s.now <= g.r + c.d
    requires g.Listed? ==> g.next == s.next
    ensures Inv(c, WithStage(s, w, g))
  {
    var s' := WithStage(s, w, g);
    assert forall v :: StageOf(s', v) == if v == w then g else StageOf(s, v);
    forall v | StageOf(s', v).Firing? ensures HolderOk(c, s', v) {
      assert HolderOk(c, s, v);
    }
    forall v | StageOf(s', v).Listed? ensures SnapshotOk(c, s', v) {
      assert v != w ==> SnapshotOk(c, s, v);
    }
    if forall v :: !StageOf(s', v).Firing? {
      forall v ensures !StageOf(s, v).Firing? {
        assert v != w ==> StageOf(s', v) == StageOf(s, v);
      }
    }
  }

  /** If the lease can be granted, the snapshot is current and nobody is firing. */
  lemma GrantedIsCurrent(c: Config, s: Sys, w: nat)
    requires Forward(c.adv) && Inv(c, s) && Grantable(s, w)
    requires StageOf(s, w).Listed? && s.now <= StageOf(s, w).r + c.patience
    ensures StageOf(s, w).next == s.next
    ensures forall v :: !StageOf(s, v).Firing?
  {
    assert SnapshotOk(c, s, w);
    forall v ensures !StageOf(s, v).Firing? {
      assert StageOf(s, v).Firing? ==> HolderOk(c, s, v);
    }
  }

  lemma AcquireOk(c: Config, s: Sys, w: nat)
    requires Forward(c.adv) && Lasting(c) && Inv(c, s) && Enabled(c, s, Acquire(w))
    ensures Inv(c, Next(c, s, Acquire(w)))
  {
    var g := StageOf(s, w);
    if g.next <= g.r && s.now <= g.r + c.patience && Grantable(s, w) {
      GrantedIsCurrent(c, s, w);
      FireListOk(c, g.next, g.r);
      var s' := Next(c, s, Acquire(w));
      var fires := FireList(c, g.next, g.r);
      assert forall v :: StageOf(s', v) == if v == w then Firing(g.r, g.next, fires) else StageOf(s, v);
      assert HolderOk(c, s', w);
      forall v | StageOf(s', v).Listed? ensures SnapshotOk(c, s', v) {
        assert StageOf(s, v).r <= s.now;
      }
    } else {
      OnlyStage(c, s, w, Resting);
    }
  }

  lemma SaveFireOk(c: Config, s: Sys, w: nat)
    requires Forward(c.adv) && Inv(c, s) && Enabled(c, s, SaveFire(w))
    ensures Inv(c, Next(c, s, SaveFire(w)))
  {
    var g := StageOf(s, w);
    var s' := Next(c, s, SaveFire(w));
    assert HolderOk(c, s, w);
    assert forall v :: StageOf(s', v) == if v == w then g.(left := g.left[1..]) else StageOf(s, v);
    assert s'.saved + g.left[1..] == s.saved + g.left;
    forall i, j | 0 <= i < j < |s'.saved| ensures s'.saved[i] < s'.saved[j] {
      assert s'.saved[i] == (s.saved + g.left)[i] && s'.saved[j] == (s.saved + g.left)[j];
    }
    forall v | StageOf(s', v).Firing? ensures HolderOk(c, s', v) {
      if v != w { OneHolder(c, s, v, w); }
    }
    forall v | StageOf(s', v).Listed? ensures SnapshotOk(c, s', v) {
      assert SnapshotOk(c, s, v);
    }
    assert StageOf(s', w).Firing?;
  }

  lemma UpdateOk(c: Config, s: Sys, w: nat)
    requires Forward(c.adv) && Inv(c, s) && Enabled(c, s, Update(w))
    ensures Inv(c, Next(c, s, Update(w)))
  {
    var g := StageOf(s, w);
    var s' := Next(c, s, Update(w));
    assert HolderOk(c, s, w);
    assert forall v :: StageOf(s', v) == if v == w then Resting else StageOf(s, v);
    assert s.saved + g.left == s.saved;
    forall v ensures !StageOf(s', v).Firing? {
      if v != w && StageOf(s, v).Firing? { OneHolder(c, s, v, w); }
    }
    forall v | StageOf(s', v).Listed? ensures SnapshotOk(c, s', v) {
      assert StageOf(s, v) == StageOf(s', v) && StageOf(s, v).r <= s.now <= g.r + c.d;
    }
  }

  lemma StepKeepsInv(c: Config, s: Sys, e: Event)
    requires Forward(c.adv) && Lasting(c) && Inv(c, s) && Enabled(c, s, e)
    ensures Inv(c, Next(c, s, e))
  {
    match e
    case Tick(d) => TickOk(c, s, d);
    case ReadClock(w) => OnlyStage(c, s, w, Read(s.now));
    case List(w) => OnlyStage(c, s, w, Listed(StageOf(s, w).r, s.next));
    case Acquire(w) => AcquireOk(c, s, w);
    case SaveFire(w) => SaveFireOk(c, s, w);
    case Update(w) => UpdateOk(c, s, w);
  }

  // ----- runs

  ghost function Start(c: Config): Sys {
    Sys(0, c.first, NoLease, map[], [])
  }

  ghost predicate Legal(c: Config, es: seq<Event>)
    requires Forward(c.adv)
    decreases |es|, 0
  {
    es == [] || (Legal(c, es[..|es| - 1]) && Enabled(c, After(c, es[..|es| - 1]), es[|es| - 1]))
  }

  ghost function After(c: Config, es: seq<Event>): Sys
    requires Forward(c.adv) && Legal(c, es)
    decreases |es|, 1
  {
    if es == [] then Start(c) else Next(c, After(c, es[..|es| - 1]), es[|es| - 1])
  }

  lemma {:induction false} Reachable(c: Config, es: seq<Event>)
    requires Forward(c.adv) && Lasting(c) && Legal(c, es)
    ensures Inv(c, After(c, es))
    decreases |es|
  {
    if es == [] {
    } else {
      Reachable(c, es[..|es| - 1]);
      StepKeepsInv(c, After(c, es[..|es| - 1]), es[|es| - 1]);
    }
  }

  /** No slot occurs twice among the saved jobs. */
  ghost predicate NoSlotTwice(s: Sys) {
    forall i, j :: 0 <= i < j < |s.saved| ==> s.saved[i] != s.saved[j]
  }

  /** If leases last, no interleaving of runners saves a slot twice;
      the slots are even saved in increasing order. */
  lemma LastingLeaseIsSafe(c: Config, es: seq<Event>)
    requires Forward(c.adv) && Lasting(c) && Legal(c, es)
    ensures NoSlotTwice(After(c, es)) && Increasing(After(c, es).saved)
  {
    Reachable(c, es);
  }

  lemma Extend(c: Config, es: seq<Event>, e: Event)
    requires Forward(c.adv) && Legal(c, es) && Enabled(c, After(c, es), e)
    ensures Legal(c, es + [e]) && After(c, es + [e]) == Next(c, After(c, es), e)
  {
    assert (es + [e])[..|es|] == es;
  }

  lemma FirstFire(c: Config, n: Time, r: Time)
    requires Forward(c.adv) && n <= r
    ensures FireList(c, n, r) != [] && FireList(c, n, r)[0] == n
  {
    FireListOk(c, n, r);
  }

  // ----- the bound is exact

  /** Runner 0, which read the clock at r, holds the lease since time r + a. */
  ghost function HeldSince(c: Config, r: Time, a: nat, left: seq<Time>, saved: seq<Time>): Sys {
    Sys(r + a, c.first, Lease(c.until(r, r + a), 0), map[0 := Firing(r, c.first, left)], saved)
  }

  /** A resting runner reads the clock and lists the specs. */
  lemma ReadAndList(c: Config, es: seq<Event>, w: nat) returns (es': seq<Event>)
    requires Forward(c.adv) && Legal(c, es) && StageOf(After(c, es), w).Resting?
    ensures Legal(c, es')
    ensures var s := After(c, es); After(c, es') == WithStage(s, w, Listed(s.now, s.next))
  {
    var s := After(c, es);
    Extend(c, es, ReadClock(w));
    es' := es + [ReadClock(w)];
    Extend(c, es', List(w));
    es' := es' + [List(w)];
    assert s.runners[w := Read(s.now)][w := Listed(s.now, s.next)] == s.runners[w := Listed(s.now, s.next)];
  }

  lemma FirstRunnerAcquires(c: Config, r: nat, a: nat) returns (es: seq<Event>)
    requires Forward(c.adv) && c.first <= r && a <= Reach(c)
    ensures Legal(c, es) && After(c, es) == HeldSince(c, r, a, FireList(c, c.first, r), [])
  {
    Extend(c, [], Tick(r));
    es := ReadAndList(c, [] + [Tick(r)], 0);
    assert After(c, es).runners == map[0 := Listed(r, c.first)];
    Extend(c, es, Tick(a));
    es := es + [Tick(a)];
    Extend(c, es, Acquire(0));
    es := es + [Acquire(0)];
    assert After(c, es).runners == map[0 := Firing(r, c.first, FireList(c, c.first, r))];
  }

  /** It saves all its slots. */
  lemma {:induction false} FirstRunnerFires(
      c: Config, r: Time, a: nat, es: seq<Event>, left: seq<Time>, saved: seq<Time>) returns (es': seq<Event>)
    requires Forward(c.adv) && Legal(c, es) && After(c, es) == HeldSince(c, r, a, left, saved)
    ensures Legal(c, es') && After(c, es') == HeldSince(c, r, a, [], saved + left)
    decreases |left|
  {
    if left == [] {
      es' := es;
      assert saved + left == saved;
    } else {
      Extend(c, es, SaveFire(0));
      assert After(c, es + [SaveFire(0)]).runners == map[0 := Firing(r, c.first, left[1..])];
      es' := FirstRunnerFires(c, r, a, es + [SaveFire(0)], left[1..], saved + [left[0]]);
      assert saved + [left[0]] + left[1..] == saved + left;
    }
  }

  /** Runner 1 has listed the spec as it was at the end of runner 0's cycle. */
  ghost function BothIn(c: Config, r: Time, until: Time, next: Time, zero: Stage, saved: seq<Time>): Sys {
    Sys(r + c.d, next, Lease(until, 0), map[0 := zero, 1 := Listed(r + c.d, c.first)], saved)
  }

  lemma SecondRunnerLists(c: Config, r: Time, a: nat, es: seq<Event>, saved: seq<Time>) returns (es': seq<Event>)
    requires Forward(c.adv) && a <= Reach(c) && Legal(c, es) && After(c, es) == HeldSince(c, r, a, [], saved)
    ensures Legal(c, es')
    ensures After(c, es') == BothIn(c, r, c.until(r, r + a), c.first, Firing(r, c.first, []), saved)
  {
    WaitsOut(c, r, a, saved);
    Extend(c, es, Tick(c.d - a));
    BothListed(c, r, a, saved);
    es' := ReadAndList(c, es + [Tick(c.d - a)], 1);
  }

  lemma BothListed(c: Config, r: Time, a: nat, saved: seq<Time>)
    ensures var s := HeldSince(c, r, a, [], saved).(now := r + c.d);
      && StageOf(s, 1).Resting?
      && WithStage(s, 1, Listed(s.now, s.next))
         == BothIn(c, r, c.until(r, r + a), c.first, Firing(r, c.first, []), saved)
  {
    var zero := Firing(r, c.first, []);
    assert map[0 := zero][1 := Listed(r + c.d, c.first)] == map[0 := zero, 1 := Listed(r + c.d, c.first)];
  }

  lemma WaitsOut(c: Config, r: Time, a: nat, saved: seq<Time>)
    requires Forward(c.adv) && a <= Reach(c)
    ensures var s, e := HeldSince(c, r, a, [], saved), Tick(c.d - a);
      Enabled(c, s, e) && Next(c, s, e) == s.(now := r + c.d)
  {
  }

  /** Only then does runner 0 update it. */
  lemma FirstRunnerUpdates(c: Config, r: Time, until: Time, es: seq<Event>, saved: seq<Time>) returns (es': seq<Event>)
    requires Forward(c.adv) && Legal(c, es)
    requires After(c, es) == BothIn(c, r, until, c.first, Firing(r, c.first, []), saved)
    ensures Legal(c, es') && After(c, es') == BothIn(c, r, until, NextRun(c, c.first, r), Resting, saved)
  {
    Extend(c, es, Update(0));
    es' := es + [Update(0)];
    assert After(c, es').runners == map[0 := Resting, 1 := Listed(r + c.d, c.first)];
  }

  /** Late enough, runner 1 takes the lease with its stale snapshot and saves the first slot again. */
  lemma SecondRunnerFires(c: Config, r: Time, until: Time, next: Time, es: seq<Event>, saved: seq<Time>)
      returns (es': seq<Event>)
    requires Forward(c.adv) && c.first <= r && 0 <= Reach(c) && until < r + c.d + Reach(c)
    requires Legal(c, es) && After(c, es) == BothIn(c, r, until, next, Resting, saved)
    ensures Legal(c, es') && After(c, es').saved == saved + [c.first]
  {
    FirstFire(c, c.first, r + c.d);
    var fires := FireList(c, c.first, r + c.d);
    Extend(c, es, Tick(Reach(c)));
    var e1 := es + [Tick(Reach(c))];
    Extend(c, e1, Acquire(1));
    var e2 := e1 + [Acquire(1)];
    assert StageOf(After(c, e2), 1) == Firing(r + c.d, c.first, fires) && After(c, e2).saved == saved;
    Extend(c, e2, SaveFire(1));
    es' := e2 + [SaveFire(1)];
  }

  /** If the first lease ends too early, the first slot can be saved twice. */
  lemma ShortLeaseIsUnsafe(c: Config, r: nat, a: nat) returns (es: seq<Event>)
    requires Forward(c.adv) && c.first <= r && a <= Reach(c) && c.until(r, r + a) < r + c.d + Reach(c)
    ensures Legal(c, es) && !NoSlotTwice(After(c, es))
  {
    var fires, until := FireList(c, c.first, r), c.until(r, r + a);
    FirstFire(c, c.first, r);
    var e0 := FirstRunnerAcquires(c, r, a);
    var e1 := FirstRunnerFires(c, r, a, e0, fires, []);
    var e2 := SecondRunnerLists(c, r, a, e1, [] + fires);
    var e3 := FirstRunnerUpdates(c, r, until, e2, [] + fires);
    es := SecondRunnerFires(c, r, until, NextRun(c, c.first, r), e3, [] + fires);
    var saved := After(c, es).saved;
    assert saved[0] == c.first == saved[|fires|];
  }

  /** No interleaving of any number of runners saves a slot twice. */
  ghost predicate Safe(c: Config)
    requires Forward(c.adv)
  {
    forall es :: Legal(c, es) ==> NoSlotTwice(After(c, es))
  }

  /** How long a lease lasts depends only on how long after the clock read it was granted. */
  ghost predicate Uniform(c: Config) {
    forall r, a :: c.until(r, a) == r + c.until(0, a - r)
  }

  /** Safety is exactly that every lease lasts. */
  lemma SafeIffLasting(c: Config)
    requires Forward(c.adv) && Uniform(c)
    ensures Safe(c) <==> Lasting(c)
  {
    if Lasting(c) {
      forall es | Legal(c, es)
        ensures NoSlotTwice(After(c, es))
      {
        LastingLeaseIsSafe(c, es);
      }
    } else {
      var r, a :| r <= a <= r + Reach(c) && c.until(r, a) < r + c.d + Reach(c);
      var f: nat, b: nat := if c.first < 0 then 0 else c.first, a - r;
      assert c.until(r, a) == r + c.until(0, b) && c.until(f, f + b) == f + c.until(0, f + b - f);
      var es := ShortLeaseIsUnsafe(c, f, b);
    }
  }

  /** The SQL stores: a lease taken by a runner that read the clock at r ends at r + leaseEvery, and none is refused. */
  ghost function SqlConfig(adv: Time -> Time, catchup: bool, first: Time, d: nat, leaseEvery: nat): Config {
    Config(adv, catchup, first, d, d, (r: Time, a: Time) => r + leaseEvery)
  }

  /** On the SQL stores: if and only if cycles take at most half of leaseEvery. */
  lemma SqlSafeIffHalf(adv: Time -> Time, catchup: bool, first: Time, d: nat, leaseEvery: nat)
    requires Forward(adv)
    ensures Safe(SqlConfig(adv, catchup, first, d, leaseEvery)) <==> 2 * d <= leaseEvery
  {
    var c := SqlConfig(adv, catchup, first, d, leaseEvery);
    SafeIffLasting(c);
    if Lasting(c) {
      assert 0 + 2 * d <= c.until(0, 0);
    }
  }

  // ----- Redis leases are whole seconds

  const SECOND: int := 1_000_000_000

  /** The last nanosecond at which a Redis lease granted at a, asked to last until leaseUntil, still exists. */
  function RedisUntil(leaseUntil: Time, a: Time): Time {
    var ttl := (leaseUntil - a) / SECOND;
    a + SECOND * (if ttl < 1 then 1 else ttl) - 1
  }

  ghost function RedisConfig(adv: Time -> Time, catchup: bool, first: Time, d: nat, leaseEvery: nat): Config {
    Config(adv, catchup, first, d, leaseEvery - 1, (r: Time, a: Time) => RedisUntil(r + leaseEvery, a))
  }

  /** A lease under two seconds lasts one second, and is refused once leaseEvery has passed since the clock read;
      a longer one loses the fraction of a second that is left when it is granted, a whole second at worst. */
  predicate RedisBound(d: nat, leaseEvery: nat) {
    if leaseEvery < 2 * SECOND then leaseEvery == 0 || 2 * d < SECOND || d + leaseEvery <= SECOND
    else if d <= leaseEvery % SECOND then 2 * d < leaseEvery - leaseEvery % SECOND
    else 2 * d + SECOND <= leaseEvery
  }

  /** A lease granted a nanoseconds after the clock read. */
  lemma RedisLeaseLength(leaseEvery: nat, a: nat)
    ensures RedisUntil(leaseEvery, a) == if leaseEvery - a < 2 * SECOND then a + SECOND - 1
                                         else leaseEvery - 1 - (leaseEvery - a) % SECOND
  {
  }

  lemma RedisBoundIsEnough(d: nat, leaseEvery: nat, a: nat)
    requires RedisBound(d, leaseEvery) && a <= d && a < leaseEvery
    ensures d + (if d < leaseEvery - 1 then d else leaseEvery - 1) <= RedisUntil(leaseEvery, a)
  {
    RedisLeaseLength(leaseEvery, a);
    if a <= leaseEvery % SECOND {
      assert 2 * SECOND <= leaseEvery - a ==> (leaseEvery - a) % SECOND == leaseEvery % SECOND - a;
    }
  }

  /** Granted at once, or a nanosecond into the next second, a lease is at its shortest. */
  lemma RedisBoundIsNeeded(d: nat, leaseEvery: nat) returns (a: nat)
    requires !RedisBound(d, leaseEvery)
    ensures a <= d && a < leaseEvery && RedisUntil(leaseEvery, a) < d + if d < leaseEvery - 1 then d else leaseEvery - 1
  {
    a := if leaseEvery < 2 * SECOND || d <= leaseEvery % SECOND then 0 else leaseEvery % SECOND + 1;
    RedisLeaseLength(leaseEvery, a);
  }

  lemma RedisShift(leaseEvery: nat, r: Time, a: Time)
    ensures RedisUntil(r + leaseEvery, a) == r + RedisUntil(leaseEvery, a - r)
  {
    assert r + leaseEvery - a == leaseEvery - (a - r);
  }

  /** On Redis: if and only if cycles keep to the bound above. */
  lemma RedisSafeIff(adv: Time -> Time, catchup: bool, first: Time, d: nat, leaseEvery: nat)
    requires Forward(adv)
    ensures Safe(RedisConfig(adv, catchup, first, d, leaseEvery)) <==> RedisBound(d, leaseEvery)
  {
    var c := RedisConfig(adv, catchup, first, d, leaseEvery);
    forall r, a
      ensures c.until(r, a) == r + c.until(0, a - r)
    {
      RedisShift(leaseEvery, r, a);
    }
    SafeIffLasting(c);
    if RedisBound(d, leaseEvery) {
      forall r, a | r <= a <= r + Reach(c)
        ensures r + d + Reach(c) <= c.until(r, a)
      {
        RedisBoundIsEnough(d, leaseEvery, a - r);
        assert c.until(r, a) == r + c.until(0, a - r);
      }
    } else {
      var a := RedisBoundIsNeeded(d, leaseEvery);
      assert c.until(0, a) < 0 + d + Reach(c);
    }
  }

  /** So half of leaseEvery is not enough on Redis: with leaseEvery = 1.9 s the lease lasts only one second. */
  lemma RedisHalfIsUnsafe(adv: Time -> Time, catchup: bool, first: Time)
    requires Forward(adv)
    ensures !Safe(RedisConfig(adv, catchup, first, 950_000_000, 1_900_000_000))
  {
    RedisSafeIff(adv, catchup, first, 950_000_000, 1_900_000_000);
  }
}
