/** Recurring schedules: which slots fire, and when the schedule runs next. */
module Recurring {
  import opened Arithmetic
  import opened Jobs

  const HOUR: int := 3600_000_000_000
  const MAX_CATCHUP: nat := 1000

  datatype Spec = Spec(every: int, cron: string, catchup: bool, nextRunAt: Time)

  /** The slot after `from`. cronNext gives the next time of a cron expression, None if it does not parse. */
  function Advance(spec: Spec, cronNext: (string, Time) -> Option<Time>, from: Time): Time {
    if spec.every > 0 then from + spec.every
    else if spec.cron != "" then
      match cronNext(spec.cron, from)
      case None => from + HOUR
      case Some(t) => t
    else from + HOUR
  }

  /** Every step moves strictly forward in time. */
  ghost predicate Forward(adv: Time -> Time) {
    forall t :: t < adv(t)
  }

  function Schedule(spec: Spec, cronNext: (string, Time) -> Option<Time>): Time -> Time {
    t => Advance(spec, cronNext, t)
  }

  /** Advance moves forward unless a parsed cron expression fails to. */
  lemma AdvanceIsForward(spec: Spec, cronNext: (string, Time) -> Option<Time>)
    requires
      || spec.every > 0 || spec.cron == ""
      || forall t :: cronNext(spec.cron, t).None? || t < cronNext(spec.cron, t).value
    ensures Forward(Schedule(spec, cronNext))
  {
  }

  /** The k-th slot from t. */
  ghost function Slot(adv: Time -> Time, t: Time, k: nat): Time {
    if k == 0 then t else adv(Slot(adv, t, k - 1))
  }

  ghost function Slots(adv: Time -> Time, t: Time, n: nat): (s: seq<Time>)
    ensures |s| == n && forall i :: 0 <= i < n ==> s[i] == Slot(adv, t, i)
  {
    seq(n, i requires 0 <= i < n => Slot(adv, t, i))
  }

  lemma {:induction false} SlotShift(adv: Time -> Time, t: Time, j: nat, k: nat)
    ensures Slot(adv, Slot(adv, t, j), k) == Slot(adv, t, j + k)
    decreases k
  {
    if k == 0 {
    } else {
      SlotShift(adv, t, j, k - 1);
    }
  }

  lemma {:induction false} SlotsIncrease(adv: Time -> Time, t: Time, j: nat, k: nat)
    requires Forward(adv) && j < k
    ensures Slot(adv, t, j) < Slot(adv, t, k)
    decreases k
  {
    if j < k - 1 {
      SlotsIncrease(adv, t, j, k - 1);
    }
  }

  // ----- the two loops

  /** The slots a cycle fires: the stored one, and with catch-up the missed ones after it, up to the bound. */
  method ComputeFires(adv: Time -> Time, catchup: bool, start: Time, now: Time) returns (fires: seq<Time>)
    ensures 1 <= |fires| <= MAX_CATCHUP + 1 && fires == Slots(adv, start, |fires|)
    ensures forall i :: 1 <= i < |fires| ==> fires[i - 1] < fires[i] <= now
    ensures !catchup ==> |fires| == 1
    ensures catchup && |fires| <= MAX_CATCHUP ==>
              var next := Slot(adv, start, |fires|); next <= fires[|fires| - 1] || now < next
  {
    fires := [start];
    if !catchup {
      return;
    }
    var at := start;
    for i := 0 to MAX_CATCHUP
      invariant |fires| == i + 1 && fires == Slots(adv, start, i + 1) && at == fires[i]
      invariant forall k :: 1 <= k <= i ==> fires[k - 1] < fires[k] <= now
    {
      var next := adv(at);
      if next <= at {
        break;
      }
      if now < next {
        break;
      }
      fires := fires + [next];
      at := next;
    }
  }

  /** How many steps from t to pass now, taking at least one. */
  ghost function StepsPast(adv: Time -> Time, t: Time, now: Time): (k: nat)
    requires Forward(adv)
    ensures 1 <= k && now < Slot(adv, t, k) && forall m :: 1 <= m < k ==> Slot(adv, t, m) <= now
    decreases now - t
  {
    if now < adv(t) then
      assert Slot(adv, t, 0) == t;
      1
    else
      var k := StepsPast(adv, adv(t), now);
      assert forall m: nat :: Slot(adv, t, m + 1) == Slot(adv, adv(t), m) by {
        forall m: nat ensures Slot(adv, t, m + 1) == Slot(adv, adv(t), m) {
          SlotShift(adv, t, 1, m);
          assert Slot(adv, t, 0) == t;
        }
      }
      assert forall m :: 2 <= m < k + 1 ==> Slot(adv, t, m) == Slot(adv, adv(t), m - 1);
      k + 1
  }

  /** The next slot after both the stored one and now; the loop ends because every step moves forward. */
  method NextAfter(adv: Time -> Time, start: Time, now: Time) returns (next: Time)
    requires Forward(adv)
    ensures next == Slot(adv, start, StepsPast(adv, start, now))
  {
    next := adv(start);
    ghost var k := 1;
    assert Slot(adv, start, 0) == start;
    while next <= now
      invariant 1 <= k && next == Slot(adv, start, k)
      invariant forall m :: 1 <= m < k ==> Slot(adv, start, m) <= now
      decreases now - next
    {
      next := adv(next);
      k := k + 1;
    }
    StepsPastUnique(adv, start, now, k);
  }

  lemma StepsPastUnique(adv: Time -> Time, t: Time, now: Time, k: nat)
    requires Forward(adv) && 1 <= k && now < Slot(adv, t, k) && forall m :: 1 <= m < k ==> Slot(adv, t, m) <= now
    ensures k == StepsPast(adv, t, now)
  {
    var s := StepsPast(adv, t, now);
    assert now < Slot(adv, t, s);
  }

  // ----- one cycle

  /** The number of slots due: from the stored one up to now. */
  ghost function DueSlots(adv: Time -> Time, start: Time, now: Time): nat
    requires Forward(adv)
  {
    if now < start then 0 else StepsPast(adv, start, now)
  }

  /** How many of the due slots a cycle fires. */
  function FireCount(catchup: bool, due: nat): nat {
    if due == 0 then 0 else if !catchup then 1 else if due <= MAX_CATCHUP + 1 then due else MAX_CATCHUP + 1
  }

  /** With catch-up a cycle fires every due slot, but only the first 1001; without it, only the stored slot. */
  lemma FiresCount(adv: Time -> Time, catchup: bool, start: Time, now: Time, fires: seq<Time>)
    requires Forward(adv) && start <= now
    requires 1 <= |fires| <= MAX_CATCHUP + 1 && fires == Slots(adv, start, |fires|)
    requires forall i :: 1 <= i < |fires| ==> fires[i - 1] < fires[i] <= now
    requires !catchup ==> |fires| == 1
    requires catchup && |fires| <= MAX_CATCHUP ==>
               var next := Slot(adv, start, |fires|); next <= fires[|fires| - 1] || now < next
    ensures var due := DueSlots(adv, start, now);
      |fires| == FireCount(catchup, due)
  {
    var n, due := |fires|, StepsPast(adv, start, now);
    assert forall m :: 1 <= m < n ==> Slot(adv, start, m) == fires[m];
    if catchup {
      assert now < Slot(adv, start, due);
      if n <= MAX_CATCHUP {
        SlotsIncrease(adv, start, n - 1, n);
        StepsPastUnique(adv, start, now, n);
      }
    }
  }

  // ----- any number of cycles

  /** Where the schedule stands, counted in slots from the first, after cycles at the given times.
      It does not depend on catch-up. */
  ghost function Position(adv: Time -> Time, first: Time, nows: seq<Time>): nat
    requires Forward(adv)
  {
    if nows == [] then 0
    else
      var p := Position(adv, first, nows[..|nows| - 1]);
      p + DueSlots(adv, Slot(adv, first, p), nows[|nows| - 1])
  }

  /** The number of slots due at the i-th cycle. */
  ghost function DueAt(adv: Time -> Time, first: Time, nows: seq<Time>, i: nat): nat
    requires Forward(adv) && i < |nows|
  {
    DueSlots(adv, Slot(adv, first, Position(adv, first, nows[..i])), nows[i])
  }

  /** The fired slots are an increasing selection from the first n slots. */
  ghost predicate SelectedFrom(adv: Time -> Time, first: Time, n: nat, fires: seq<Time>, marks: seq<nat>) {
    && |marks| == |fires|
    && (forall i :: 0 <= i < |marks| ==> marks[i] < n && fires[i] == Slot(adv, first, marks[i]))
    && (forall i, j :: 0 <= i < j < |marks| ==> marks[i] < marks[j])
  }

  ghost function Count(from: nat, c: nat): (s: seq<nat>)
    ensures |s| == c && forall i :: 0 <= i < c ==> s[i] == from + i
  {
    seq(c, i requires 0 <= i < c => from + i)
  }

  lemma SelectMore(adv: Time -> Time, first: Time, n: nat, fires: seq<Time>, marks: seq<nat>, more: seq<Time>, d: nat)
    requires SelectedFrom(adv, first, n, fires, marks) && |more| <= d
    requires forall i :: 0 <= i < |more| ==> more[i] == Slot(adv, first, n + i)
    ensures SelectedFrom(adv, first, n + d, fires + more, marks + Count(n, |more|))
  {
  }

  lemma MoreSlot(adv: Time -> Time, first: Time, n: nat, c: nat, i: nat)
    requires i < c
    ensures Slots(adv, Slot(adv, first, n), c)[i] == Slot(adv, first, n + i)
  {
    SlotShift(adv, first, n, i);
  }

  lemma MoreSlots(adv: Time -> Time, first: Time, n: nat, more: seq<Time>)
    requires more == Slots(adv, Slot(adv, first, n), |more|)
    ensures forall i :: 0 <= i < |more| ==> more[i] == Slot(adv, first, n + i)
  {
    forall i | 0 <= i < |more| ensures more[i] == Slot(adv, first, n + i) {
      MoreSlot(adv, first, n, |more|, i);
    }
  }

  /** No cycle had more than 1001 slots due. */
  ghost predicate WithinBound(adv: Time -> Time, first: Time, nows: seq<Time>)
    requires Forward(adv)
  {
    forall i :: 0 <= i < |nows| ==> DueAt(adv, first, nows, i) <= MAX_CATCHUP + 1
  }

  lemma DueSoFar(adv: Time -> Time, first: Time, nows: seq<Time>, i: nat, k: nat)
    requires Forward(adv) && k < i <= |nows|
    ensures DueAt(adv, first, nows[..i], k) == DueAt(adv, first, nows, k)
  {
    assert nows[..i][..k] == nows[..k];
  }

  lemma PositionStep(adv: Time -> Time, first: Time, nows: seq<Time>, i: nat)
    requires Forward(adv) && i < |nows|
    ensures Position(adv, first, nows[..i + 1]) == Position(adv, first, nows[..i]) + DueAt(adv, first, nows, i)
  {
    assert nows[..i + 1][..i] == nows[..i];
  }

  lemma BoundSoFar(adv: Time -> Time, first: Time, nows: seq<Time>, i: nat)
    requires Forward(adv) && i < |nows|
    ensures WithinBound(adv, first, nows[..i + 1])
       <==> WithinBound(adv, first, nows[..i]) && DueAt(adv, first, nows, i) <= MAX_CATCHUP + 1
  {
    var a, b := nows[..i], nows[..i + 1];
    DueSoFar(adv, first, nows, i + 1, i);
    forall k | 0 <= k < i
      ensures DueAt(adv, first, a, k) == DueAt(adv, first, b, k)
    {
      DueSoFar(adv, first, nows, i, k);
      DueSoFar(adv, first, nows, i + 1, k);
    }
  }

  /** One cycle of the runner for one spec: fires the due slots and moves the schedule past now. */
  method RunCycle(adv: Time -> Time, catchup: bool, start: Time, now: Time) returns (fires: seq<Time>, next: Time)
    requires Forward(adv)
    ensures var due := DueSlots(adv, start, now);
      && next == Slot(adv, start, due)
      && fires == Slots(adv, start, |fires|)
      && |fires| == FireCount(catchup, due)
      && (catchup && 1 <= due <= MAX_CATCHUP + 1 ==> next == adv(fires[|fires| - 1]))
  {
    if now < start {
      return [], start;
    }
    fires := ComputeFires(adv, catchup, start, now);
    FiresCount(adv, catchup, start, now, fires);
    next := NextAfter(adv, start, now);
  }

  /** What the schedule has fired and where it stands after cycles at the given times. */
  ghost predicate RanTo(adv: Time -> Time, catchup: bool, first: Time, nows: seq<Time>,
                        fires: seq<Time>, next: Time, marks: seq<nat>)
    requires Forward(adv)
  {
    var p := Position(adv, first, nows);
    && next == Slot(adv, first, p)
    && SelectedFrom(adv, first, p, fires, marks)
    && |fires| <= p
    && (catchup ==> (|fires| == p <==> WithinBound(adv, first, nows)))
  }

  lemma RanOneMore(adv: Time -> Time, catchup: bool, first: Time, nows: seq<Time>, i: nat,
                   fires: seq<Time>, next: Time, marks: seq<nat>, more: seq<Time>)
    requires Forward(adv) && i < |nows| && RanTo(adv, catchup, first, nows[..i], fires, next, marks)
    requires var due := DueSlots(adv, next, nows[i]);
      && more == Slots(adv, next, |more|)
      && |more| == FireCount(catchup, due)
    ensures RanTo(adv, catchup, first, nows[..i + 1], fires + more, Slot(adv, next, DueSlots(adv, next, nows[i])),
                  marks + Count(Position(adv, first, nows[..i]), |more|))
  {
    PositionStep(adv, first, nows, i);
    BoundSoFar(adv, first, nows, i);
    var p, d := Position(adv, first, nows[..i]), DueSlots(adv, next, nows[i]);
    MoreSlots(adv, first, p, more);
    SelectMore(adv, first, p, fires, marks, more, d);
    SlotShift(adv, first, p, d);
  }

  /** A schedule's cycles, one after the other, at any times: with catch-up the fires are all slots up to the
      stored next run exactly when no cycle finds more than 1001 due; always they are an increasing selection. */
  method RunCycles(adv: Time -> Time, catchup: bool, first: Time, nows: seq<Time>)
      returns (fires: seq<Time>, next: Time, ghost marks: seq<nat>)
    requires Forward(adv)
    ensures next == Slot(adv, first, Position(adv, first, nows))
    ensures SelectedFrom(adv, first, Position(adv, first, nows), fires, marks)
    ensures catchup ==> (fires == Slots(adv, first, Position(adv, first, nows)) <==> WithinBound(adv, first, nows))
  {
    fires, next, marks := [], first, [];
    for i := 0 to |nows|
      invariant RanTo(adv, catchup, first, nows[..i], fires, next, marks)
    {
      var more, next' := RunCycle(adv, catchup, next, nows[i]);
      RanOneMore(adv, catchup, first, nows, i, fires, next, marks, more);
      marks := marks + Count(Position(adv, first, nows[..i]), |more|);
      fires, next := fires + more, next';
    }
    assert nows[..|nows|] == nows;
    if |fires| == Position(adv, first, nows) {
      FullSelection(adv, first, |fires|, fires, marks);
    }
  }

  /** A selection as large as what it is selected from is all of it: the fires are the slots, in order,
      without gap or repetition. */
  lemma {:induction false} FullSelection(adv: Time -> Time, first: Time, n: nat, fires: seq<Time>, marks: seq<nat>)
    requires SelectedFrom(adv, first, n, fires, marks) && |fires| == n
    ensures fires == Slots(adv, first, n)
  {
    forall i | 0 <= i < n ensures marks[i] == i {
      MarksAtLeast(marks, i);
      MarksAtMost(marks, n, i);
    }
  }

  lemma {:induction false} MarksAtLeast(marks: seq<nat>, i: nat)
    requires i < |marks| && forall i, j :: 0 <= i < j < |marks| ==> marks[i] < marks[j]
    ensures i <= marks[i]
  {
    if i == 0 {
    } else {
      MarksAtLeast(marks, i - 1);
    }
  }

  lemma {:induction false} MarksAtMost(marks: seq<nat>, n: nat, i: nat)
    requires i < |marks| == n && forall i :: 0 <= i < |marks| ==> marks[i] < n
    requires forall i, j :: 0 <= i < j < |marks| ==> marks[i] < marks[j]
    ensures marks[i] <= i
    decreases n - i
  {
    if i < n - 1 {
      MarksAtMost(marks, n, i + 1);
    }
  }

  // ----- fixed intervals

  lemma {:induction false} IntervalSlot(spec: Spec, cronNext: (string, Time) -> Option<Time>, t: Time, k: nat)
    requires 0 < spec.every
    ensures Slot(Schedule(spec, cronNext), t, k) == t + k * spec.every
  {
    if k == 0 {
    } else {
      IntervalSlot(spec, cronNext, t, k - 1);
      assert k * spec.every == (k - 1) * spec.every + spec.every;
    }
  }

  /** No drift: the next run of an interval schedule that is due is the first grid point after now. */
  lemma IntervalNext(spec: Spec, cronNext: (string, Time) -> Option<Time>, start: Time, now: Time)
    requires 0 < spec.every && start <= now
    ensures Forward(Schedule(spec, cronNext))
    ensures StepsPast(Schedule(spec, cronNext), start, now) == (now - start) / spec.every + 1
    ensures Slot(Schedule(spec, cronNext), start, StepsPast(Schedule(spec, cronNext), start, now))
         == start + spec.every * ((now - start) / spec.every + 1)
  {
    var adv, e := Schedule(spec, cronNext), spec.every;
    var q := (now - start) / e;
    var k := q + 1;
    assert now - start == q * e + (now - start) % e;
    assert k * e == q * e + e;
    forall m: nat | 1 <= m <= k ensures Slot(adv, start, m) == start + m * e && (m < k ==> m * e <= q * e) {
      IntervalSlot(spec, cronNext, start, m);
      if m < k { MulLe(m, q, e); }
    }
    StepsPastUnique(adv, start, now, k);
  }

  // ----- one spec

  /** Time b is the slot after a: one interval later, or what the cron expression says, or one hour later. */
  predicate Follows(spec: Spec, cronNext: (string, Time) -> Option<Time>, a: Time, b: Time) {
    && (0 < spec.every ==> b - a == spec.every)
    && (spec.every <= 0 && spec.cron != "" && cronNext(spec.cron, a).Some? ==> Some(b) == cronNext(spec.cron, a))
    && (spec.every <= 0 && (spec.cron == "" || cronNext(spec.cron, a).None?) ==> b - a == 60 * 60 * 1_000_000_000)
  }

  /** From the stored next run, slot after slot up to the first after now. */
  ghost predicate Timetable(spec: Spec, cronNext: (string, Time) -> Option<Time>, now: Time, slots: seq<Time>) {
    && slots != [] && slots[0] == spec.nextRunAt
    && (forall i, j :: 0 <= i < j < |slots| && j == i + 1 ==>
          slots[i] <= now && Follows(spec, cronNext, slots[i], slots[j]))
    && now < slots[|slots| - 1]
  }

  lemma SlotFollows(spec: Spec, cronNext: (string, Time) -> Option<Time>, t: Time, k: nat)
    ensures var adv := Schedule(spec, cronNext); Follows(spec, cronNext, Slot(adv, t, k), Slot(adv, t, k + 1))
  {
  }

  lemma DueTimetable(spec: Spec, cronNext: (string, Time) -> Option<Time>, now: Time) returns (slots: seq<Time>)
    requires Forward(Schedule(spec, cronNext))
    ensures var adv := Schedule(spec, cronNext);
      slots == Slots(adv, spec.nextRunAt, DueSlots(adv, spec.nextRunAt, now) + 1)
    ensures Timetable(spec, cronNext, now, slots)
  {
    var adv := Schedule(spec, cronNext);
    slots := Slots(adv, spec.nextRunAt, DueSlots(adv, spec.nextRunAt, now) + 1);
    forall i, j | 0 <= i < j < |slots| && j == i + 1
      ensures slots[i] <= now && Follows(spec, cronNext, slots[i], slots[j])
    {
      SlotFollows(spec, cronNext, spec.nextRunAt, i);
    }
  }

  /** An interval's slots: the fired ones are start, start + every, ..., and the next run is the first after now. */
  ghost predicate OnInterval(spec: Spec, now: Time, fires: seq<Time>, next: Time)
    requires 0 < spec.every
  {
    && (forall i :: 0 <= i < |fires| ==> fires[i] == spec.nextRunAt + i * spec.every)
    && next == spec.nextRunAt + spec.every * ((now - spec.nextRunAt) / spec.every + 1)
    && (spec.catchup && (now - spec.nextRunAt) / spec.every <= 1000 ==>
          |fires| == (now - spec.nextRunAt) / spec.every + 1)
  }

  lemma IntervalCycle(spec: Spec, cronNext: (string, Time) -> Option<Time>, now: Time, fires: seq<Time>, next: Time)
    requires 0 < spec.every && spec.nextRunAt <= now && Forward(Schedule(spec, cronNext))
    requires var adv := Schedule(spec, cronNext); var due := DueSlots(adv, spec.nextRunAt, now);
      && next == Slot(adv, spec.nextRunAt, due)
      && fires == Slots(adv, spec.nextRunAt, |fires|) && |fires| == FireCount(spec.catchup, due)
    ensures OnInterval(spec, now, fires, next)
  {
    IntervalNext(spec, cronNext, spec.nextRunAt, now);
    forall i | 0 <= i < |fires| ensures fires[i] == spec.nextRunAt + i * spec.every {
      IntervalSlot(spec, cronNext, spec.nextRunAt, i);
    }
  }

  /** What the runner does with one spec: it fires the slots of the timetable up to now, only the stored one without
      catch-up and at most 1001 with it, and stores the one after now. An interval's slots lie on its grid. */
  method RunSpec(spec: Spec, cronNext: (string, Time) -> Option<Time>, now: Time)
      returns (fires: seq<Time>, next: Time, ghost slots: seq<Time>)
    requires Forward(Schedule(spec, cronNext))
    ensures Timetable(spec, cronNext, now, slots) && next == slots[|slots| - 1]
    ensures fires <= slots
    ensures |fires| == if now < spec.nextRunAt then 0 else if !spec.catchup then 1
                       else if |slots| - 1 <= 1001 then |slots| - 1 else 1001
    ensures 0 < spec.every && spec.nextRunAt <= now ==> OnInterval(spec, now, fires, next)
  {
    slots := DueTimetable(spec, cronNext, now);
    fires, next := RunCycle(Schedule(spec, cronNext), spec.catchup, spec.nextRunAt, now);
    if 0 < spec.every && spec.nextRunAt <= now {
      IntervalCycle(spec, cronNext, now, fires, next);
    }
  }

  /** A schedule of one slot a nanosecond that was left alone for 1001 of them loses slots in its next cycle. */
  lemma CatchupCanDrop(cronNext: (string, Time) -> Option<Time>)
    ensures var adv := Schedule(Spec(1, "", true, 0), cronNext); Forward(adv) && !WithinBound(adv, 0, [1001])
  {
    var spec := Spec(1, "", true, 0);
    IntervalNext(spec, cronNext, 0, 1001);
    assert [1001][..0] == [];
    assert DueAt(Schedule(spec, cronNext), 0, [1001], 0) == 1002;
  }
}
