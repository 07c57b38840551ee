/** The deterministic clock used in tests: timers kept in a slice that is sorted and compacted in place. */
module FakeClock {
  import opened Insertion
  import opened Jobs

  /** A timer; ch names the channel it fires on. */
  datatype Waiter = Waiter(deadline: Time, ch: nat)

  /** A channel of capacity one: the values sent, and whether it is closed. */
  datatype Channel = Channel(sent: seq<Time>, closed: bool)

  const OPEN := Channel([], false)

  /** The waiters of s whose deadline is still to come, in order. */
  ghost function Later(s: seq<Waiter>, now: Time): seq<Waiter> {
    if s == [] then []
    else
      var w := s[|s| - 1];
      Later(s[..|s| - 1], now) + if w.deadline > now then [w] else []
  }

  ghost predicate ByDeadline(s: seq<Waiter>) {
    forall i, j :: 0 <= i < j < |s| ==> s[i].deadline <= s[j].deadline
  }

  /** No two waiters share a channel. */
  ghost predicate OwnChannels(s: seq<Waiter>) {
    forall i, j :: 0 <= i < j < |s| ==> s[i].ch != s[j].ch
  }

  /** Filtering keeps exactly the later waiters, */
  lemma {:induction false} LaterElements(s: seq<Waiter>, now: Time)
    ensures |Later(s, now)| <= |s|
    ensures forall w :: w in Later(s, now) <==> w in s && w.deadline > now
    decreases |s|
  {
    if s == [] {
    } else {
      var n := |s| - 1;
      LaterElements(s[..n], now);
      assert s == s[..n] + [s[n]];
    }
  }

  /** x comes after all of s. */
  ghost predicate AllBefore(s: seq<Waiter>, x: Waiter) {
    forall w :: w in s ==> w.deadline <= x.deadline && w.ch != x.ch
  }

  lemma OneMoreInOrder(s: seq<Waiter>, x: Waiter)
    requires ByDeadline(s) && OwnChannels(s) && AllBefore(s, x)
    ensures ByDeadline(s + [x]) && OwnChannels(s + [x])
  {
    forall i | 0 <= i < |s|
      ensures s[i].deadline <= x.deadline && s[i].ch != x.ch
    {
      assert s[i] in s;
    }
  }

  lemma LastIsAfter(s: seq<Waiter>)
    requires s != [] && ByDeadline(s) && OwnChannels(s)
    ensures AllBefore(s[..|s| - 1], s[|s| - 1])
  {
  }

  /** in order, and each once. */
  lemma {:induction false} LaterInOrder(s: seq<Waiter>, now: Time)
    requires ByDeadline(s) && OwnChannels(s)
    ensures ByDeadline(Later(s, now)) && OwnChannels(Later(s, now))
    decreases |s|
  {
    if s == [] {
    } else {
      var n := |s| - 1;
      LaterInOrder(s[..n], now);
      LaterElements(s[..n], now);
      LastIsAfter(s);
      OneMoreInOrder(Later(s[..n], now), s[n]);
    }
  }

  predicate Earlier(a: Waiter, b: Waiter) {
    a.deadline < b.deadline
  }

  /** w after every waiter that is not later. */
  function Inserted(s: seq<Waiter>, w: Waiter): seq<Waiter> {
    Insert(Earlier, s, w)
  }

  lemma InsertedElements(s: seq<Waiter>, w: Waiter)
    ensures forall x :: x in Inserted(s, w) <==> x in s || x == w
  {
    InsertPermutes(Earlier, s, w);
    assert forall x :: x in Inserted(s, w) <==> x in multiset(Inserted(s, w));
  }

  lemma {:induction false} InsertedInOrder(s: seq<Waiter>, w: Waiter)
    requires ByDeadline(s) && OwnChannels(s) && forall i :: 0 <= i < |s| ==> s[i].ch != w.ch
    ensures ByDeadline(Inserted(s, w)) && OwnChannels(Inserted(s, w))
    decreases |s|
  {
    if s != [] && w.deadline < s[|s| - 1].deadline {
      var n := |s| - 1;
      InsertedInOrder(s[..n], w);
      InsertedElements(s[..n], w);
      assert AllBefore(Inserted(s[..n], w), s[n]);
    }
  }

  /** The channels once the due waiters of s have fired. */
  ghost function AfterFiring(channels: map<nat, Channel>, s: seq<Waiter>, now: Time): map<nat, Channel> {
    if s == [] then channels
    else
      var w, rest := s[|s| - 1], AfterFiring(channels, s[..|s| - 1], now);
      if w.deadline > now then rest else rest[w.ch := Channel([now], true)]
  }

  /** A channel that no due waiter of s owns is left alone; one that a due waiter owns has received now. */
  lemma {:induction false} FiringAt(channels: map<nat, Channel>, s: seq<Waiter>, now: Time, c: nat)
    requires c in channels
    ensures c in AfterFiring(channels, s, now)
    ensures AfterFiring(channels, s, now)[c] ==
            if exists i :: 0 <= i < |s| && s[i].ch == c && s[i].deadline <= now then Channel([now], true)
            else channels[c]
    decreases |s|
  {
    if s == [] {
    } else {
      var n := |s| - 1;
      FiringAt(channels, s[..n], now, c);
      if exists i :: 0 <= i < |s| && s[i].ch == c && s[i].deadline <= now {
        var i :| 0 <= i < |s| && s[i].ch == c && s[i].deadline <= now;
        assert i < n ==> s[..n][i] == s[i];
      }
      if exists i :: 0 <= i < n && s[..n][i].ch == c && s[..n][i].deadline <= now {
        var i :| 0 <= i < n && s[..n][i].ch == c && s[..n][i].deadline <= now;
        assert s[i] == s[..n][i];
      }
    }
  }

  /** Every waiter has a channel of its own, still open, */
  ghost predicate AllOpen(s: seq<Waiter>, channels: map<nat, Channel>) {
    OwnChannels(s) && forall i :: 0 <= i < |s| ==> s[i].ch in channels && channels[s[i].ch] == OPEN
  }

  /** and finds it open when the sweep comes to it. */
  lemma StillOpen(channels: map<nat, Channel>, s: seq<Waiter>, now: Time, i: nat)
    requires i < |s| && AllOpen(s, channels)
    ensures s[i].ch in AfterFiring(channels, s[..i], now) && AfterFiring(channels, s[..i], now)[s[i].ch] == OPEN
  {
    FiringAt(channels, s[..i], now, s[i].ch);
  }

  lemma StepSweep(channels: map<nat, Channel>, s: seq<Waiter>, now: Time, i: nat)
    requires i < |s|
    ensures Later(s[..i + 1], now) == Later(s[..i], now) + if s[i].deadline > now then [s[i]] else []
    ensures var rest := AfterFiring(channels, s[..i], now);
      AfterFiring(channels, s[..i + 1], now)
      == if s[i].deadline > now then rest else rest[s[i].ch := Channel([now], true)]
  {
    assert s[..i + 1][..i] == s[..i];
  }

  lemma {:induction false} FiringKeys(channels: map<nat, Channel>, s: seq<Waiter>, now: Time)
    requires forall i :: 0 <= i < |s| ==> s[i].ch in channels
    ensures AfterFiring(channels, s, now).Keys == channels.Keys
    decreases |s|
  {
    if s == [] {
    } else {
      FiringKeys(channels, s[..|s| - 1], now);
    }
  }

  /** What a sweep at time now owes the callers: every open channel whose deadline has come receives now and
      is closed; every other channel is as it was. */
  ghost function Fired(channels: map<nat, Channel>, due: map<nat, Time>, now: Time): map<nat, Channel> {
    map c | c in channels ::
      if channels[c] == OPEN && c in due && due[c] <= now then Channel([now], true) else channels[c]
  }

  /** w fires on an open channel, at the deadline asked for. */
  ghost predicate Armed(w: Waiter, channels: map<nat, Channel>, due: map<nat, Time>) {
    w.ch in channels && channels[w.ch] == OPEN && w.ch in due && due[w.ch] == w.deadline
  }

  /** A channel is waited on, or has received one value, not before its deadline, and is closed. */
  ghost predicate Served(c: nat, s: seq<Waiter>, channels: map<nat, Channel>, due: map<nat, Time>)
    requires c in channels
  {
    c in due &&
    if channels[c] == OPEN then Waiter(due[c], c) in s
    else |channels[c].sent| == 1 && channels[c].closed && due[c] <= channels[c].sent[0]
  }

  ghost predicate Ahead(s: seq<Waiter>, now: Time) {
    forall w :: w in s ==> now < w.deadline
  }

  ghost predicate Accounted(s: seq<Waiter>, channels: map<nat, Channel>, due: map<nat, Time>) {
    && ByDeadline(s) && OwnChannels(s)
    && (forall w :: w in s ==> Armed(w, channels, due))
    && (forall c :: c in channels ==> Served(c, s, channels, due))
  }

  /** The sweep does what is owed, */
  lemma SweepFires(s: seq<Waiter>, channels: map<nat, Channel>, due: map<nat, Time>, now: Time)
    requires Accounted(s, channels, due)
    ensures AllOpen(s, channels) && AfterFiring(channels, s, now) == Fired(channels, due, now)
  {
    forall i | 0 <= i < |s|
      ensures s[i].ch in channels && channels[s[i].ch] == OPEN
    {
      assert Armed(s[i], channels, due);
    }
    FiringKeys(channels, s, now);
    forall c | c in channels
      ensures AfterFiring(channels, s, now)[c] == Fired(channels, due, now)[c]
    {
      FiringAt(channels, s, now, c);
      assert Served(c, s, channels, due);
      forall i | 0 <= i < |s| && s[i].ch == c
        ensures channels[c] == OPEN && due[c] == s[i].deadline
      {
        assert Armed(s[i], channels, due);
      }
    }
  }

  /** and leaves exactly the open channels waited on. */
  lemma SweepAccounted(s: seq<Waiter>, channels: map<nat, Channel>, due: map<nat, Time>, now: Time)
    requires Accounted(s, channels, due)
    ensures Accounted(Later(s, now), Fired(channels, due, now), due)
  {
    LaterInOrder(s, now);
    LaterElements(s, now);
    forall w | w in Later(s, now)
      ensures Armed(w, Fired(channels, due, now), due)
    {
      assert Armed(w, channels, due);
    }
    forall c | c in Fired(channels, due, now)
      ensures Served(c, Later(s, now), Fired(channels, due, now), due)
    {
      assert Served(c, s, channels, due);
    }
  }

  /** A new waiter on a new channel joins. */
  lemma JoinAccounted(s: seq<Waiter>, channels: map<nat, Channel>, due: map<nat, Time>, w: Waiter)
    requires Accounted(s, channels, due) && w.ch !in channels
    ensures Accounted(Inserted(s, w), channels[w.ch := OPEN], due[w.ch := w.deadline])
  {
    forall i | 0 <= i < |s|
      ensures s[i].ch != w.ch
    {
      assert Armed(s[i], channels, due);
    }
    InsertedInOrder(s, w);
    InsertedElements(s, w);
    var t, more, later := Inserted(s, w), channels[w.ch := OPEN], due[w.ch := w.deadline];
    forall x | x in t
      ensures Armed(x, more, later)
    {
      assert x == w || (x in s && Armed(x, channels, due));
    }
    forall c | c in more
      ensures Served(c, t, more, later)
    {
      assert c in channels ==> Served(c, s, channels, due);
    }
  }

  /** With every waiter still in the future, only a new one can be due. */
  lemma JoinFires(s: seq<Waiter>, channels: map<nat, Channel>, due: map<nat, Time>, w: Waiter, now: Time)
    requires Accounted(s, channels, due) && w.ch !in channels
    requires Ahead(s, now)
    ensures Fired(channels[w.ch := OPEN], due[w.ch := w.deadline], now)
         == channels[w.ch := if w.deadline <= now then Channel([now], true) else OPEN]
  {
    forall c | c in channels && channels[c] == OPEN
      ensures now < due[c]
    {
      assert Served(c, s, channels, due);
    }
  }

  lemma JoinFuture(s: seq<Waiter>, w: Waiter, now: Time)
    requires now < w.deadline && Ahead(s, now)
    ensures Ahead(Inserted(s, w), now)
  {
    InsertedElements(s, w);
  }

  lemma Joined(s: seq<Waiter>, channels: map<nat, Channel>, due: map<nat, Time>, w: Waiter, now: Time)
    requires Accounted(s, channels, due) && w.ch !in channels && Ahead(s, now)
    ensures Accounted(Inserted(s, w), channels[w.ch := OPEN], due[w.ch := w.deadline])
    ensures Fired(channels[w.ch := OPEN], due[w.ch := w.deadline], now)
         == channels[w.ch := if w.deadline <= now then Channel([now], true) else OPEN]
    ensures now < w.deadline ==> Ahead(Inserted(s, w), now)
  {
    JoinAccounted(s, channels, due, w);
    JoinFires(s, channels, due, w, now);
    if now < w.deadline {
      JoinFuture(s, w, now);
    }
  }

  class Clock {
    var now: Time
    var waiters: array<Waiter>         // backing array of the slice
    var n: nat                         // its length
    var channels: map<nat, Channel>    // every channel handed out
    var next: nat                      // the next channel
    ghost var due: map<nat, Time>      // the deadline asked for on each channel

    ghost predicate InStep()
      reads this, waiters
    {
      && n <= waiters.Length && Accounted(waiters[..n], channels, due)
      && forall c :: c in channels ==> c < next
    }

    /** Between calls every waiter lies strictly in the future. */
    ghost predicate Valid()
      reads this, waiters
    {
      InStep() && Ahead(waiters[..n], now)
    }

    constructor (start: Time)
      ensures Valid() && now == start && channels == map[]
    {
      now := start;
      waiters := new Waiter[0];
      n := 0;
      channels := map[];
      next := 0;
      due := map[];
    }

    /** A send would block on a full channel and panic on a closed one. */
    method Send(ch: nat, value: Time)
      requires ch in channels && channels[ch] == OPEN
      modifies this`channels
      ensures channels == old(channels)[ch := Channel([value], true)]
    {
      var sent := channels[ch].sent + [value];
      assert sent == [value];
      channels := channels[ch := Channel(sent, true)];
    }

    /** The loop of fireDueLocked: fires what is due and writes the rest back to the front of the array
        it is still reading from. */
    method Sweep() returns (m: nat)
      requires n <= waiters.Length && AllOpen(waiters[..n], channels)
      modifies waiters, this`channels
      ensures m <= n && waiters[..m] == Later(old(waiters[..n]), now)
      ensures channels == AfterFiring(old(channels), old(waiters[..n]), now)
    {
      ghost var s := waiters[..n];
      m := 0;
      for i := 0 to n
        invariant m <= i <= n <= waiters.Length && s == old(waiters[..n])
        invariant waiters[..m] == Later(s[..i], now)
        invariant forall k :: i <= k < n ==> waiters[k] == s[k]
        invariant channels == AfterFiring(old(channels), s[..i], now)
      {
        var w := waiters[i];
        StillOpen(old(channels), s, now, i);
        StepSweep(old(channels), s, now, i);
        if !(w.deadline > now) {
          Send(w.ch, now);
        } else {
          waiters[m] := w;
          m := m + 1;
        }
      }
      assert s[..n] == s;
    }

    method FireDue()
      requires InStep()
      modifies this`n, this`channels, waiters
      ensures Valid()
      ensures channels == Fired(old(channels), due, now)
    {
      ghost var s := waiters[..n];
      SweepFires(s, channels, due, now);
      SweepAccounted(s, channels, due, now);
      LaterElements(s, now);
      n := Sweep();
    }

    /** append, which moves the slice to a larger array when it is full. */
    method Append(w: Waiter)
      requires n <= waiters.Length
      modifies this`n, this`waiters, waiters
      ensures waiters == old(waiters) || fresh(waiters)
      ensures n == old(n) + 1 <= waiters.Length && waiters[..n] == old(waiters[..n]) + [w]
    {
      if n == waiters.Length {
        var more := new Waiter[2 * n + 1];
        forall i | 0 <= i < n {
          more[i] := waiters[i];
        }
        waiters := more;
      }
      waiters[n] := w;
      n := n + 1;
    }

    /** Stable sort of a slice that is sorted but for its last element. */
    method SortLast()
      requires 0 < n <= waiters.Length
      modifies waiters
      ensures waiters[..n] == Inserted(old(waiters[..n - 1]), old(waiters[n - 1]))
    {
      InsertInPlace(Earlier, waiters, n - 1);
    }

    method Join(w: Waiter)
      requires n <= waiters.Length
      modifies this`n, this`waiters, waiters
      ensures waiters == old(waiters) || fresh(waiters)
      ensures n == old(n) + 1 <= waiters.Length && waiters[..n] == Inserted(old(waiters[..n]), w)
    {
      ghost var s := waiters[..n];
      Append(w);
      assert waiters[..n - 1] == waiters[..n][..n - 1] == s;
      assert waiters[n - 1] == waiters[..n][n - 1];
      SortLast();
    }

    /** Hands out a new channel: fired already if the wait is not positive, pending in the future otherwise. */
    method After(d: int) returns (ch: nat)
      requires Valid()
      modifies this, waiters
      ensures Valid() && now == old(now)
      ensures ch !in old(channels) && due == old(due)[ch := now + d]
      ensures channels == old(channels)[ch := if d <= 0 then Channel([now], true) else OPEN]
    {
      ch := next;
      var w := Waiter(now + d, ch);
      Joined(waiters[..n], channels, due, w, now);
      Join(w);
      next := next + 1;
      channels := channels[ch := OPEN];
      due := due[ch := w.deadline];
      if d <= 0 {
        FireDue();
      }
    }

    /** Fires exactly the waits whose time has come. */
    method Advance(d: int)
      requires Valid()
      modifies this`now, this`n, this`channels, waiters
      ensures Valid() && now == old(now) + d
      ensures channels == Fired(old(channels), due, now)
    {
      now := now + d;
      FireDue();
    }
  }
}
