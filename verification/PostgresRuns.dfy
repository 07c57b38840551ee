/** Fail, Cancel and Reschedule of the Postgres store: a plain SELECT, and then a write that does not look at the
    row's state again (only the retry of Fail does). Statements of other transactions may commit in between. */
module PostgresRuns {
  import opened Jobs
  import T = Table
  import opened Table

  /** What a call goes on to write after its SELECT, or the error it returns. */
  datatype Plan = Refuse(outcome: Outcome) | DeleteRow | RetryRow | MoveRow

  function Look(t: Table, call: Call): Plan {
    match call
    case FailCall(id, _, _) =>
      if id !in t || t[id].state != Claimed then Refuse(NotFound) else if Exhausts(t[id]) then DeleteRow else RetryRow
    case CancelCall(id) =>
      if id !in t then Refuse(NotFound) else if t[id].state != Pending then Refuse(NotPending) else DeleteRow
    case RescheduleCall(id, _) =>
      if id !in t then Refuse(NotFound) else if t[id].state != Pending then Refuse(NotPending) else MoveRow
  }

  function Write(t: Table, call: Call, plan: Plan): Table {
    match plan
    case Refuse(_) => t
    case DeleteRow => t - {call.id}
    case RetryRow =>
      if call.FailCall? && call.id in t && t[call.id].state == Claimed then
        var j := t[call.id];
        t[call.id := j.(attempt := j.attempt + 1, lastError := call.error, state := Pending, runAt := call.at,
                        lockedBy := "", lockedUntil := ZERO_TIME)]
      else t
    case MoveRow =>
      if call.RescheduleCall? && call.id in t then t[call.id := t[call.id].(runAt := call.at)] else t
  }

  /** Uninterrupted, a call is the reference operation. */
  lemma UninterruptedIsReference(t: Table, call: Call)
    ensures Write(t, call, Look(t, call)) == CallEffect(t, call).table
    ensures CallEffect(t, call).outcome == if Look(t, call).Refuse? then Look(t, call).outcome else Ok
    ensures call.FailCall? ==>
      FailsAs(t, call.id, call.error, call.at,
              Reply(Write(t, call, Look(t, call)), if Look(t, call).Refuse? then Look(t, call).outcome else Ok))
  {
    if call.FailCall? {
      FailLaw(t, call.id, call.error, call.at);
    }
  }

  /** The row still is what the plan takes it to be, or is gone, or the difference does not show. */
  predicate StillFits(t: Table, call: Call, plan: Plan) {
    call.id in t ==>
      var j := t[call.id];
      match plan
      case Refuse(_) => CallEffect(t, call).table == t
      case DeleteRow => if call.FailCall? then j.state == Claimed && Exhausts(j) else j.state == Pending
      case RetryRow => j.state == Claimed ==> !Exhausts(j)
      case MoveRow => j.state == Pending || (call.RescheduleCall? && j.runAt == call.at)
  }

  /** A plan that a SELECT of some earlier table led to. */
  ghost predicate Planned(call: Call, plan: Plan) {
    exists t :: Look(t, call) == plan
  }

  /** It does whenever the SELECT would lead to the same plan again. */
  lemma SamePlanFits(t: Table, call: Call)
    ensures StillFits(t, call, Look(t, call))
  {
  }

  lemma WriteAgreesIff(t: Table, call: Call, plan: Plan)
    requires Planned(call, plan)
    ensures Write(t, call, plan) == CallEffect(t, call).table <==> StillFits(t, call, plan)
  {
    var id := call.id;
    var w, c := Write(t, call, plan), CallEffect(t, call).table;
    if id !in t {
      assert t - {id} == t;
    } else if StillFits(t, call, plan) {
      assert w == c;
    } else {
      assert (id in w) != (id in c) || (id in w && id in c && w[id] != c[id]) || (plan.Refuse? && w == t != c);
    }
  }

  // ----- runs

  datatype Waiting = Waiting(call: Call, plan: Plan)

  datatype Sys = Sys(jobs: Table, waiting: map<nat, Waiting>)

  datatype Event =
    | SaveRow(job: Job)
    | ClaimRows(r: Request, ids: set<JobId>)
    | AckRow(id: JobId)
    | RecoverRows(freed: set<JobId>)
    | Select(client: nat, call: Call)
    | Commit(client: nat)

  const EMPTY := Sys(map[], map[])

  predicate Enabled(s: Sys, e: Event) {
    match e
    case SaveRow(_) => true
    case ClaimRows(r, ids) => ids <= PendingIn(s.jobs, r.queue)
    case AckRow(_) => true
    case RecoverRows(freed) => forall id :: id in freed ==> id in s.jobs && s.jobs[id].state == Claimed
    case Select(client, _) => client !in s.waiting
    case Commit(client) => client in s.waiting
  }

  ghost function Next(s: Sys, e: Event): Sys {
    match e
    case SaveRow(j) => s.(jobs := T.Save(s.jobs, j))
    case ClaimRows(r, ids) => s.(jobs := ClaimAll(s.jobs, ids, r))
    case AckRow(id) => s.(jobs := T.Ack(s.jobs, id).table)
    case RecoverRows(freed) => s.(jobs := ReleaseAll(s.jobs, freed))
    case Select(client, call) => s.(waiting := s.waiting[client := Waiting(call, Look(s.jobs, call))])
    case Commit(client) =>
      if client in s.waiting then
        var w := s.waiting[client];
        Sys(Write(s.jobs, w.call, w.plan), s.waiting - {client})
      else s
  }

  /** The same events on a plain map, each call taking effect as a whole when it commits. */
  ghost function PlainNext(t: Table, s: Sys, e: Event): Table {
    match e
    case SaveRow(j) => T.Save(t, j)
    case ClaimRows(r, ids) => ClaimAll(t, ids, r)
    case AckRow(id) => T.Ack(t, id).table
    case RecoverRows(freed) => ReleaseAll(t, freed)
    case Select(_, _) => t
    case Commit(client) =>
      if client in s.waiting && !s.waiting[client].plan.Refuse? then CallEffect(t, s.waiting[client].call).table else t
  }

  ghost function After(es: seq<Event>): Sys {
    if es == [] then EMPTY else Next(After(es[..|es| - 1]), es[|es| - 1])
  }

  ghost function PlainAfter(es: seq<Event>): Table {
    if es == [] then map[] else PlainNext(PlainAfter(es[..|es| - 1]), After(es[..|es| - 1]), es[|es| - 1])
  }

  ghost predicate Legal(es: seq<Event>) {
    es == [] || (Legal(es[..|es| - 1]) && Enabled(After(es[..|es| - 1]), es[|es| - 1]))
  }

  /** A call that commits finds its row as its plan takes it to be. */
  ghost predicate FitsStep(s: Sys, e: Event) {
    e.Commit? && e.client in s.waiting && !s.waiting[e.client].plan.Refuse? ==>
      StillFits(s.jobs, s.waiting[e.client].call, s.waiting[e.client].plan)
  }

  ghost predicate PlansOk(s: Sys) {
    forall c :: c in s.waiting ==> Planned(s.waiting[c].call, s.waiting[c].plan)
  }

  lemma {:induction false} ReachablePlans(es: seq<Event>)
    ensures PlansOk(After(es))
    decreases |es|
  {
    if es == [] {
    } else {
      var init, e := es[..|es| - 1], es[|es| - 1];
      ReachablePlans(init);
      if e.Select? {
        assert Look(After(init).jobs, e.call) == Look(After(init).jobs, e.call);
      }
    }
  }

  lemma StepAgreesIff(s: Sys, e: Event)
    requires PlansOk(s) && Enabled(s, e)
    ensures Next(s, e).jobs == PlainNext(s.jobs, s, e) <==> FitsStep(s, e)
  {
    if e.Commit? {
      WriteAgreesIff(s.jobs, s.waiting[e.client].call, s.waiting[e.client].plan);
    }
  }

  lemma {:induction false} LegalPrefix(es: seq<Event>, n: nat)
    requires Legal(es) && n <= |es|
    ensures Legal(es[..n])
    decreases |es|
  {
    if n == |es| {
      assert es[..n] == es;
    } else {
      LegalPrefix(es[..|es| - 1], n);
      assert es[..|es| - 1][..n] == es[..n];
    }
  }

  lemma PrefixStep(es: seq<Event>, i: nat)
    requires Legal(es) && i < |es|
    ensures Enabled(After(es[..i]), es[i]) && After(es[..i + 1]) == Next(After(es[..i]), es[i])
    ensures PlainAfter(es[..i + 1]) == PlainNext(PlainAfter(es[..i]), After(es[..i]), es[i])
  {
    LegalPrefix(es, i + 1);
    assert es[..i + 1][..i] == es[..i];
  }

  ghost predicate Fits(es: seq<Event>) {
    forall i :: 0 <= i < |es| ==> FitsStep(After(es[..i]), es[i])
  }

  lemma {:induction false} FittingRunRefines(es: seq<Event>, n: nat)
    requires Legal(es) && Fits(es) && n <= |es|
    ensures After(es[..n]).jobs == PlainAfter(es[..n])
    decreases n
  {
    if n == 0 {
    } else {
      FittingRunRefines(es, n - 1);
      PrefixStep(es, n - 1);
      ReachablePlans(es[..n - 1]);
      StepAgreesIff(After(es[..n - 1]), es[n - 1]);
    }
  }

  /** All through a run the rows are what the plain map holds after the same operations, if and only if
      every call that commits finds its row as its SELECT led it to expect. */
  lemma RunRefinesIff(es: seq<Event>)
    requires Legal(es)
    ensures (forall n :: 0 <= n <= |es| ==> After(es[..n]).jobs == PlainAfter(es[..n])) <==> Fits(es)
  {
    if Fits(es) {
      forall n | 0 <= n <= |es|
        ensures After(es[..n]).jobs == PlainAfter(es[..n])
      {
        FittingRunRefines(es, n);
      }
    }
    if forall n :: 0 <= n <= |es| ==> After(es[..n]).jobs == PlainAfter(es[..n]) {
      forall i | 0 <= i < |es|
        ensures FitsStep(After(es[..i]), es[i])
      {
        assert After(es[..i]).jobs == PlainAfter(es[..i]) && After(es[..i + 1]).jobs == PlainAfter(es[..i + 1]);
        PrefixStep(es, i);
        ReachablePlans(es[..i]);
        StepAgreesIff(After(es[..i]), es[i]);
      }
    }
  }

  lemma Extend(es: seq<Event>, e: Event)
    requires Legal(es) && Enabled(After(es), e)
    ensures Legal(es + [e]) && After(es + [e]) == Next(After(es), e)
    ensures PlainAfter(es + [e]) == PlainNext(PlainAfter(es), After(es), e)
  {
    assert (es + [e])[..|es|] == es;
  }

  /** A job claimed between a Cancel's SELECT and its DELETE is lost: it was neither finished, nor out of attempts,
      nor pending when it was deleted. */
  lemma CancelDeletesClaimed(j: Job, r: Request) returns (es: seq<Event>)
    requires j.state == Pending && j.queue == r.queue
    ensures Legal(es) && After(es).jobs == map[] && PlainAfter(es).Keys == {j.id}
    ensures LockedFor(r, j, PlainAfter(es)[j.id])
  {
    Extend([], SaveRow(j));
    es := [] + [SaveRow(j)];
    Extend(es, Select(0, CancelCall(j.id)));
    es := es + [Select(0, CancelCall(j.id))];
    Extend(es, ClaimRows(r, {j.id}));
    es := es + [ClaimRows(r, {j.id})];
    assert After(es).jobs == PlainAfter(es) == map[j.id := Claim(j, r)];
    Extend(es, Commit(0));
    es := es + [Commit(0)];
  }
}
