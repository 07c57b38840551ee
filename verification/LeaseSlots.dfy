/** Which slots several schedulers save between them, and the next run they leave stored, while leases last. */
module LeaseSlots {
  import opened Jobs
  import opened Recurring
  import opened LeaseRuns

  ghost predicate Busy(s: Sys) {
    s.lease.Lease? && StageOf(s, s.lease.holder).Firing?
  }

  /** The slots the holder of the lease has still to save. */
  ghost function Left(s: Sys): seq<Time> {
    if Busy(s) then StageOf(s, s.lease.holder).left else []
  }

  /** The stored next run, or the one the holder is about to store. */
  ghost function Upcoming(c: Config, s: Sys): Time
    requires Forward(c.adv)
  {
    if Busy(s) then NextRun(c, StageOf(s, s.lease.holder).next, StageOf(s, s.lease.holder).r) else s.next
  }

  /** The event gives runner w the lease. */
  ghost predicate Granted(c: Config, s: Sys, e: Event)
    requires Forward(c.adv)
  {
    Enabled(c, s, e) && e.Acquire? && StageOf(Next(c, s, e), e.w).Firing?
  }

  /** The next runs that were stored when a runner got the lease. */
  ghost function Grants(c: Config, es: seq<Event>): seq<Time>
    requires Forward(c.adv) && Legal(c, es)
    decreases |es|
  {
    if es == [] then []
    else
      var s, e := After(c, es[..|es| - 1]), es[|es| - 1];
      Grants(c, es[..|es| - 1]) + if Granted(c, s, e) then [s.next] else []
  }

  /** No runner that got the lease found more than 1001 slots due. */
  ghost predicate WithinReach(c: Config, es: seq<Event>)
    requires Forward(c.adv) && Legal(c, es)
    decreases |es|
  {
    es == []
    || (WithinReach(c, es[..|es| - 1]) && StepWithinReach(c, After(c, es[..|es| - 1]), es[|es| - 1]))
  }

  ghost predicate StepWithinReach(c: Config, s: Sys, e: Event)
    requires Forward(c.adv)
  {
    Granted(c, s, e) ==> DueSlots(c.adv, StageOf(s, e.w).next, StageOf(s, e.w).r) <= 1001
  }

  // ----- where the run stands on the grid of slots

  /** The stored next run is slot q and the upcoming one slot p; what is saved or about to be is an increasing selection
      from the slots below p, marked by their numbers: all of them with catch-up, if no cycle had too many due. */
  ghost predicate OnGrid(c: Config, s: Sys, reached: bool, q: nat, p: nat, marks: seq<nat>)
    requires Forward(c.adv)
  {
    var all := s.saved + Left(s);
    && s.next == Slot(c.adv, c.first, q) && Upcoming(c, s) == Slot(c.adv, c.first, p)
    && SelectedFrom(c.adv, c.first, p, all, marks)
    && |all| <= p
    && (c.catchup ==> (|all| == p <==> reached))
  }

  /** Neither the slots nor the next run change. */
  lemma QuietOnGrid(c: Config, s: Sys, e: Event)
    requires Forward(c.adv) && Inv(c, s) && Enabled(c, s, e) && !e.SaveFire? && !e.Update? && !Granted(c, s, e)
    ensures var s' := Next(c, s, e);
      s'.saved == s.saved && Left(s') == Left(s) && s'.next == s.next && Upcoming(c, s') == Upcoming(c, s)
  {
  }

  lemma SaveOnGrid(c: Config, s: Sys, w: nat)
    requires Forward(c.adv) && Inv(c, s) && Enabled(c, s, SaveFire(w))
    ensures var s' := Next(c, s, SaveFire(w));
      s'.saved + Left(s') == s.saved + Left(s) && s'.next == s.next && Upcoming(c, s') == Upcoming(c, s)
  {
    assert HolderOk(c, s, w);
  }

  lemma UpdateOnGrid(c: Config, s: Sys, w: nat)
    requires Forward(c.adv) && Inv(c, s) && Enabled(c, s, Update(w))
    ensures var s' := Next(c, s, Update(w));
      s'.saved + Left(s') == s.saved + Left(s) && s'.next == Upcoming(c, s') == Upcoming(c, s)
  {
    assert HolderOk(c, s, w);
  }

  lemma GrantOnGrid(c: Config, s: Sys, e: Event)
    requires Forward(c.adv) && Inv(c, s) && Granted(c, s, e)
    ensures var s', g := Next(c, s, e), StageOf(s, e.w);
      && Left(s) == [] && Upcoming(c, s) == s.next == g.next <= g.r
      && s'.saved == s.saved && s'.next == s.next
      && Left(s') == FireList(c, s.next, g.r) && Upcoming(c, s') == NextRun(c, s.next, g.r)
  {
    GrantedIsCurrent(c, s, e.w);
  }

  lemma GridGrows(c: Config, saved: seq<Time>, r: Time, reached: bool, p: nat, marks: seq<nat>)
    requires Forward(c.adv) && Slot(c.adv, c.first, p) <= r
    requires SelectedFrom(c.adv, c.first, p, saved, marks) && |saved| <= p
    requires c.catchup ==> (|saved| == p <==> reached)
    ensures var n := Slot(c.adv, c.first, p); var due, more := DueSlots(c.adv, n, r), FireList(c, n, r);
      && NextRun(c, n, r) == Slot(c.adv, c.first, p + due)
      && SelectedFrom(c.adv, c.first, p + due, saved + more, marks + Count(p, |more|))
      && |saved + more| <= p + due
      && (c.catchup ==> (|saved + more| == p + due <==> reached && due <= 1001))
  {
    var n := Slot(c.adv, c.first, p);
    var due, more := DueSlots(c.adv, n, r), FireList(c, n, r);
    MoreSlots(c.adv, c.first, p, more);
    SelectMore(c.adv, c.first, p, saved, marks, more, due);
    SlotShift(c.adv, c.first, p, due);
  }

  lemma GridStep(c: Config, s: Sys, e: Event, reached: bool, q: nat, p: nat, marks: seq<nat>)
      returns (q': nat, p': nat, marks': seq<nat>)
    requires Forward(c.adv) && Inv(c, s) && Enabled(c, s, e) && OnGrid(c, s, reached, q, p, marks)
    ensures OnGrid(c, Next(c, s, e), reached && StepWithinReach(c, s, e), q', p', marks')
  {
    q', p', marks' := q, p, marks;
    if e.SaveFire? {
      SaveOnGrid(c, s, e.w);
    } else if e.Update? {
      UpdateOnGrid(c, s, e.w);
      q' := p;
    } else if Granted(c, s, e) {
      GrantOnGrid(c, s, e);
      var r := StageOf(s, e.w).r;
      assert s.saved + [] == s.saved;
      GridGrows(c, s.saved, r, reached, p, marks);
      p', marks' := p + DueSlots(c.adv, s.next, r), marks + Count(p, |FireList(c, s.next, r)|);
    } else {
      QuietOnGrid(c, s, e);
    }
  }

  lemma {:induction false} ReachableGrid(c: Config, es: seq<Event>) returns (q: nat, p: nat, marks: seq<nat>)
    requires Forward(c.adv) && Lasting(c) && Legal(c, es)
    ensures OnGrid(c, After(c, es), WithinReach(c, es), q, p, marks)
    decreases |es|
  {
    if es == [] {
      q, p, marks := 0, 0, [];
    } else {
      var init := es[..|es| - 1];
      q, p, marks := ReachableGrid(c, init);
      Reachable(c, init);
      q, p, marks := GridStep(c, After(c, init), es[|es| - 1], WithinReach(c, init), q, p, marks);
    }
  }

  // ----- what is saved

  ghost predicate Idle(s: Sys) {
    forall w :: !StageOf(s, w).Firing?
  }

  /** In every run the stored next run is a slot. With catch-up, whenever nobody is firing, the saved slots are exactly
      those before it, in order and without gap, if and only if no cycle found more than 1001 due. */
  lemma SavedUpToNextRun(c: Config, es: seq<Event>) returns (p: nat)
    requires Forward(c.adv) && Lasting(c) && Legal(c, es)
    ensures After(c, es).next == Slot(c.adv, c.first, p)
    ensures c.catchup && Idle(After(c, es)) ==>
              (After(c, es).saved == Slots(c.adv, c.first, p) <==> WithinReach(c, es))
  {
    var q, m, marks := ReachableGrid(c, es);
    p := q;
    var s := After(c, es);
    if c.catchup && Idle(s) {
      assert s.saved + Left(s) == s.saved;
      p := m;
      if |s.saved| == p {
        FullSelection(c.adv, c.first, p, s.saved, marks);
      }
    }
  }

  /** Without catch-up, each runner that gets the lease saves the one slot that is stored as the next run then. */
  lemma {:induction false} OneSlotPerGrant(c: Config, es: seq<Event>)
    requires Forward(c.adv) && Lasting(c) && Legal(c, es) && !c.catchup
    ensures After(c, es).saved + Left(After(c, es)) == Grants(c, es)
    decreases |es|
  {
    if es == [] {
    } else {
      var init, e := es[..|es| - 1], es[|es| - 1];
      var s := After(c, init);
      OneSlotPerGrant(c, init);
      Reachable(c, init);
      if e.SaveFire? {
        SaveOnGrid(c, s, e.w);
      } else if e.Update? {
        UpdateOnGrid(c, s, e.w);
      } else if Granted(c, s, e) {
        GrantOnGrid(c, s, e);
        assert FireList(c, s.next, StageOf(s, e.w).r) == [s.next];
      } else {
        QuietOnGrid(c, s, e);
      }
    }
  }

  /** Time t is the first slot after r. */
  ghost predicate FirstAfter(c: Config, r: Time, t: Time, p: nat) {
    t == Slot(c.adv, c.first, p) && r < t && forall m :: 0 <= m < p ==> Slot(c.adv, c.first, m) <= r
  }

  /** With and without catch-up, the next run a runner stores is the first slot after its clock reading. */
  lemma StoresFirstAfter(c: Config, es: seq<Event>, w: nat) returns (p: nat)
    requires Forward(c.adv) && Lasting(c) && Legal(c, es) && Enabled(c, After(c, es), Update(w))
    ensures var s := After(c, es); FirstAfter(c, StageOf(s, w).r, Next(c, s, Update(w)).next, p)
  {
    var s := After(c, es);
    var q, _, _ := ReachableGrid(c, es);
    Reachable(c, es);
    assert HolderOk(c, s, w);
    var r, k := StageOf(s, w).r, StepsPast(c.adv, s.next, StageOf(s, w).r);
    p := q + k;
    SlotShift(c.adv, c.first, q, k);
    forall m: nat | m < p ensures Slot(c.adv, c.first, m) <= r {
      if m < q {
        SlotsIncrease(c.adv, c.first, m, q);
      } else {
        SlotShift(c.adv, c.first, q, m - q);
        assert m == q ==> Slot(c.adv, s.next, m - q) == s.next;
      }
    }
  }

  /** An interval spec with catch-up: the saved jobs run at first, first + every, first + 2 every, ... up to the stored
      next run, whichever runners saved them. */
  lemma IntervalRuns(c: Config, spec: Spec, cronNext: (string, Time) -> Option<Time>, es: seq<Event>)
      returns (p: nat)
    requires c.adv == Schedule(spec, cronNext) && 0 < spec.every && c.catchup
    requires Forward(c.adv) && Lasting(c) && Legal(c, es) && Idle(After(c, es)) && WithinReach(c, es)
    ensures After(c, es).next == c.first + p * spec.every
    ensures |After(c, es).saved| == p
    ensures forall i :: 0 <= i < p ==> After(c, es).saved[i] == c.first + i * spec.every
  {
    p := SavedUpToNextRun(c, es);
    IntervalSlot(spec, cronNext, c.first, p);
    forall i | 0 <= i < p ensures After(c, es).saved[i] == c.first + i * spec.every {
      IntervalSlot(spec, cronNext, c.first, i);
    }
  }

  /** On the SQL stores a lease ends leaseEvery after its holder's clock reading, however late it was granted;
      so a runner that comes that long after the reading finds it over. */
  lemma SqlLeaseEnds(adv: Time -> Time, catchup: bool, first: Time, d: nat, leaseEvery: nat, s: Sys, e: Event, v: nat)
    requires Forward(adv)
    requires Granted(SqlConfig(adv, catchup, first, d, leaseEvery), s, e)
    ensures var s' := Next(SqlConfig(adv, catchup, first, d, leaseEvery), s, e);
      v != e.w ==> forall t :: Grantable(s'.(now := t), v) <==> StageOf(s, e.w).r + leaseEvery < t
  {
  }

  // ----- one runner alone

  ghost predicate Alone(es: seq<Event>, w: nat) {
    forall i :: 0 <= i < |es| ==> es[i].Tick? || es[i].w == w
  }

  lemma {:induction false} LoneHolder(c: Config, es: seq<Event>, w: nat)
    requires Forward(c.adv) && Legal(c, es) && Alone(es, w)
    ensures After(c, es).lease.NoLease? || After(c, es).lease.holder == w
    decreases |es|
  {
    if es == [] {
    } else {
      LoneHolder(c, es[..|es| - 1], w);
    }
  }

  /** A runner's own lease never keeps it out: alone, it gets the lease in every cycle that finds the spec due,
      unless the store refuses it for the time that has passed since the clock read. */
  lemma LoneRunnerIsGranted(c: Config, es: seq<Event>, w: nat)
    requires Forward(c.adv) && Legal(c, es) && Alone(es, w) && Enabled(c, After(c, es), Acquire(w))
    ensures var s := After(c, es); var g := StageOf(s, w);
      Granted(c, s, Acquire(w)) <==> g.next <= g.r && s.now <= g.r + c.patience
  {
    LoneHolder(c, es, w);
  }
}
