/** Attempt accounting and conservation of jobs over whole runs. */
module Accounting {
  import opened Jobs
  import opened Runs

  ghost function Claims(es: seq<Event>, id: JobId): nat {
    if es == [] then 0
    else Claims(es[..|es| - 1], id) + if ClaimsId(es[|es| - 1], id) then 1 else 0
  }

  ghost function Recoveries(es: seq<Event>, id: JobId): nat {
    if es == [] then 0
    else Recoveries(es[..|es| - 1], id) + if Recovers(After(es[..|es| - 1]), es[|es| - 1], id) then 1 else 0
  }

  ghost function Failures(es: seq<Event>, id: JobId): nat {
    if es == [] then 0
    else Failures(es[..|es| - 1], id) + if Fails(After(es[..|es| - 1]), es[|es| - 1], id) then 1 else 0
  }

  /** The attempt limit the job was saved with. */
  ghost function SavedLimit(es: seq<Event>, id: JobId): int {
    if es == [] then 0
    else
      var e := es[|es| - 1];
      if e.Enqueue? && e.job.id == id then e.job.maxAttempts else SavedLimit(es[..|es| - 1], id)
  }

  ghost predicate Accounted(es: seq<Event>, id: JobId) {
    var w := After(es);
    && (id !in w.used ==> Claims(es, id) == Recoveries(es, id) == Failures(es, id) == 0)
    && (id in w.jobs ==>
          var j := w.jobs[id];
          && j.maxAttempts == SavedLimit(es, id)
          && j.attempt == Failures(es, id)
          && Claims(es, id) == j.attempt + Recoveries(es, id) + (if j.state == Claimed then 1 else 0)
          && (0 < j.maxAttempts ==> j.attempt < j.maxAttempts))
    && (id in w.used && 0 < SavedLimit(es, id) ==>
          Claims(es, id) <= SavedLimit(es, id) + Recoveries(es, id) && Failures(es, id) <= SavedLimit(es, id))
  }

  lemma AccountedStep(es: seq<Event>, id: JobId)
    requires es != [] && Legal(es) && Accounted(es[..|es| - 1], id)
    ensures Accounted(es, id)
  {
    var init, e := es[..|es| - 1], es[|es| - 1];
    var w := After(init);
    ReachableBasics(init);
    if id in w.jobs {
      JobStep(w, e, id);
    } else if id in After(es).jobs {
      NewJob(w, e, id);
    }
  }

  /** For every job, stored or gone, over any run. */
  lemma {:induction false} ReachableAccounted(es: seq<Event>, id: JobId)
    requires Legal(es)
    ensures Accounted(es, id)
    decreases |es|
  {
    if es == [] {
    } else {
      ReachableAccounted(es[..|es| - 1], id);
      AccountedStep(es, id);
    }
  }

  /** While a job is stored: claims = failed attempts + recoveries + (1 if claimed). */
  lemma ClaimsBalance(es: seq<Event>, id: JobId)
    requires Legal(es) && id in After(es).jobs
    ensures var j := After(es).jobs[id];
      Claims(es, id) == j.attempt + Recoveries(es, id) + (if j.state == Claimed then 1 else 0)
  {
    ReachableAccounted(es, id);
  }

  /** A job saved with limit M > 0 is claimed at most M + recoveries times, ever. */
  lemma ClaimsBounded(es: seq<Event>, id: JobId)
    requires Legal(es) && id in After(es).used && 0 < SavedLimit(es, id)
    ensures Claims(es, id) <= SavedLimit(es, id) + Recoveries(es, id)
  {
    ReachableAccounted(es, id);
  }

  // ----- no job is lost

  /** Event i of the run removed the job, for one of the three allowed reasons. */
  ghost predicate Exit(es: seq<Event>, id: JobId, i: nat)
    requires i < |es|
  {
    var w, e := After(es[..i]), es[i];
    || (Acks(w, e, id) && exists b :: 0 <= b < i && es[b] == Return(e.k, true))
    || (Fails(w, e, id) && Failures(es[..i + 1], id) == SavedLimit(es[..i], id) > 0)
    || Cancels(w, e, id)
  }

  /** A handler result is only ever recorded by the handler's return. */
  lemma {:induction false} ReturnedEarlier(es: seq<Event>, k: nat, ok: bool)
    requires Legal(es) && k in After(es).tokens && After(es).tokens[k].stage == Returned(ok)
    ensures exists b :: 0 <= b < |es| && es[b] == Return(k, ok)
    decreases |es|
  {
    var n := |es| - 1;
    var w, e := After(es[..n]), es[n];
    if e != Return(k, ok) {
      ReturnedEarlier(es[..n], k, ok);
      var b :| 0 <= b < n && es[..n][b] == Return(k, ok);
      assert es[b] == Return(k, ok);
    }
  }

  /** A saved job is in the store, or some event of the run took it out by an Ack after its handler
      returned nil, by its last permitted failure, or by a Cancel while it was pending. */
  lemma {:induction false} NoJobLost(es: seq<Event>, id: JobId)
    requires Legal(es) && id in After(es).used && id !in After(es).jobs
    ensures exists i :: 0 <= i < |es| && Exit(es, id, i)
    decreases |es|
  {
    var n := |es| - 1;
    var init, e := es[..n], es[n];
    var w := After(init);
    ReachableBasics(init);
    if id in w.jobs {
      JobStep(w, e, id);
      ReachableAccounted(init, id);
      if Acks(w, e, id) {
        ReturnedEarlier(init, e.k, true);
        var b :| 0 <= b < n && init[b] == Return(e.k, true);
        assert es[b] == Return(e.k, true);
      }
      assert es[..n + 1] == es;
      assert Exit(es, id, n);
    } else {
      NoJobLost(init, id);
      var i :| 0 <= i < n && Exit(init, id, i);
      ExitExtends(es, id, i);
    }
  }

  lemma ExitExtends(es: seq<Event>, id: JobId, i: nat)
    requires es != [] && i < |es| - 1 && Exit(es[..|es| - 1], id, i)
    ensures Exit(es, id, i)
  {
    var init := es[..|es| - 1];
    assert init[..i] == es[..i] && init[..i + 1] == es[..i + 1] && init[i] == es[i];
    if Acks(After(es[..i]), es[i], id) {
      var b :| 0 <= b < i && init[b] == Return(init[i].k, true);
      assert es[b] == init[b];
    }
  }
}
