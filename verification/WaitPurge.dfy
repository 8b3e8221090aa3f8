/** The purge of a deque, under its event's mutex, while other calls go on: what had stopped waiting when the mutex
 was taken is dropped, what still waits at the end is kept. */
module WaitPurge {
  import opened Options
  import opened Sequences
  import opened WaitModel
  import opened WaitLocks
  import opened WaitQueues
  import opened WaitModes
  import opened WaitFifo
  import opened WaitExpiry
  import opened WaitRuns
  import opened WaitSets

  predicate Purging(t: Thread) {
    (t.Many? && (t.m == MScan || t.m == MDropExpired)) || (t.Purger? && (t.u == PScan || t.u == PDropExpired))
  }

  /** The thread has locked an event and is about to look at the first entry of its deque. */
  predicate BeginsPurge(t: Thread) {
    (t.Many? && t.m == MScan && t.k == 0) || (t.Purger? && t.u == PScan && t.cursor == 0)
  }

  function EventAt(c: Config, s: State, a: nat): nat
    requires a < |c.ops| && a < |s.threads|
  {
    EventOf(c.ops[a], s.threads[a])
  }

  function QueueAt(c: Config, s: State, a: nat): seq<Registration>
    requires a < |c.ops| && a < |s.threads|
  {
    if EventAt(c, s, a) < |s.events| then s.events[EventAt(c, s, a)].queue else []
  }

  /** The entries already looked at still waited in the state `before` in which the purge began. */
  ghost predicate Clean(c: Config, before: State, s: State, a: nat) {
    && a < |c.ops| && a < |s.threads|
    && forall j :: 0 <= j < CursorOf(s.threads[a]) && j < |QueueAt(c, s, a)| ==> !NotWaiting(before, QueueAt(c, s, a)[j])
  }

  /** What was queued then and waits still is queued still. */
  ghost predicate Keeps(c: Config, before: State, s: State, a: nat) {
    && a < |c.ops| && a < |before.threads| && a < |s.threads| && EventAt(c, s, a) == EventAt(c, before, a)
    && forall r :: r in QueueAt(c, before, a) && !NotWaiting(s, r) ==> r in QueueAt(c, s, a)
  }

  // ---------------------------------------------------------------- one step

  /** What a purging thread does. */
  lemma PurgeMove(c: Config, a: nat, op: Op, t: Thread, v: View, timedOut: bool)
    requires GoodLocals(op, t) && Purging(t)
    ensures var t', act := NextThread(c, op, t, v, timedOut), ActionOf(a, op, t, v);
      && EventOf(op, t') == EventOf(op, t)
      && (act.DropExpired? ==> act == DropExpired(EventOf(op, t), CursorOf(t)) && Purging(t') && CursorOf(t') == CursorOf(t))
      && (!act.DropExpired? ==>
            && act == Nothing
            && (Purging(t') ==>
                  CursorOf(t') == CursorOf(t) || (CursorOf(t') == CursorOf(t) + 1 && v.waiting))
            && (!Purging(t') ==> CursorOf(t') == CursorOf(t) && CursorOf(t) >= |v.event.queue|))
  {
  }

  lemma OwnPurge(c: Config, s: State, a: nat, ch: Choice, act: Action, s': State, before: State)
    requires Inv(c, s) && IsMarkStep(c, s, a, ch, act, s') && Purging(s.threads[a])
    requires Clean(c, before, s, a) && Keeps(c, before, s, a)
    requires forall r :: NotWaiting(before, r) ==> NotWaiting(s, r)
    ensures Clean(c, before, s', a) && Keeps(c, before, s', a)
    ensures !Purging(s'.threads[a]) ==> CursorOf(s'.threads[a]) >= |QueueAt(c, s', a)|
  {
    StepSizes(c, s, a, ch, act, s');
    assert GoodThread(c, s, a) && ThreadLocks(c, s, a);
    PurgeMove(c, a, c.ops[a], s.threads[a], ViewOf(c, s, a), ch.timedOut);
    if act.DropExpired? {
      DropKeeps(c, s, a, ch, act, s', before);
    } else {
      LookKeeps(c, s, a, ch, act, s', before);
    }
  }

  lemma LookKeeps(c: Config, s: State, a: nat, ch: Choice, act: Action, s': State, before: State)
    requires Inv(c, s) && IsMarkStep(c, s, a, ch, act, s') && Purging(s.threads[a]) && act == Nothing
    requires Clean(c, before, s, a) && Keeps(c, before, s, a)
    requires forall r :: NotWaiting(before, r) ==> NotWaiting(s, r)
    ensures Clean(c, before, s', a) && Keeps(c, before, s', a)
    ensures !Purging(s'.threads[a]) ==> CursorOf(s'.threads[a]) >= |QueueAt(c, s', a)|
  {
    PurgeLook(c, s, a, ch, act, s');
    SameState(c, s, a, ch, act, s');
    SeesCursor(c, s, a);
    Looked(c, s, a, s', before);
  }

  lemma PurgeLook(c: Config, s: State, a: nat, ch: Choice, act: Action, s': State)
    requires IsMarkStep(c, s, a, ch, act, s') && Purging(s.threads[a]) && act == Nothing
    ensures a < |s'.threads| && EventAt(c, s', a) == EventAt(c, s, a)
    ensures var k, k', v := CursorOf(s.threads[a]), CursorOf(s'.threads[a]), ViewOf(c, s, a);
      if Purging(s'.threads[a]) then k' == k || (k' == k + 1 && v.waiting) else k' == k && k >= |v.event.queue|
  {
    assert GoodThread(c, s, a);
    PurgeMove(c, a, c.ops[a], s.threads[a], ViewOf(c, s, a), ch.timedOut);
  }

  lemma Looked(c: Config, s: State, a: nat, s': State, before: State)
    requires Clean(c, before, s, a) && Keeps(c, before, s, a)
    requires a < |s'.threads| && EventAt(c, s', a) == EventAt(c, s, a) && s'.events == s.events && s'.waiters == s.waiters
    requires forall r :: NotWaiting(before, r) ==> NotWaiting(s, r)
    requires var k, k', q := CursorOf(s.threads[a]), CursorOf(s'.threads[a]), QueueAt(c, s, a);
      k' == k || (k' == k + 1 && (k < |q| ==> !NotWaiting(s, q[k])))
    ensures Clean(c, before, s', a) && Keeps(c, before, s', a)
  {
    assert QueueAt(c, s', a) == QueueAt(c, s, a);
    assert forall r :: NotWaiting(s', r) <==> NotWaiting(s, r);
  }

  lemma SameState(c: Config, s: State, a: nat, ch: Choice, act: Action, s': State)
    requires IsStep(c, s, a, ch, act, s') && act == Nothing
    ensures s'.events == s.events && s'.waiters == s.waiters
  {
  }

  /** The entry a purging thread looks at, and what it sees of it. */
  lemma SeesCursor(c: Config, s: State, a: nat)
    requires Locks(c, s) && a < |c.ops| && Purging(s.threads[a])
    ensures EventAt(c, s, a) < |s.events| && ViewOf(c, s, a).event == s.events[EventAt(c, s, a)]
    ensures var q, k, v := QueueAt(c, s, a), CursorOf(s.threads[a]), ViewOf(c, s, a);
      k < |q| ==> v.entry == q[k] && (v.waiting ==> !NotWaiting(s, q[k]))
  {
    assert GoodThread(c, s, a);
  }

  lemma DropKeeps(c: Config, s: State, a: nat, ch: Choice, act: Action, s': State, before: State)
    requires Inv(c, s) && IsMarkStep(c, s, a, ch, act, s') && Purging(s.threads[a])
    requires EventAt(c, s, a) < |s.events| && a < |s'.threads|
    requires act == DropExpired(EventAt(c, s, a), CursorOf(s.threads[a]))
    requires CursorOf(s'.threads[a]) == CursorOf(s.threads[a]) && Purging(s'.threads[a])
    requires EventAt(c, s', a) == EventAt(c, s, a)
    requires Clean(c, before, s, a) && Keeps(c, before, s, a)
    ensures Clean(c, before, s', a) && Keeps(c, before, s', a)
  {
    var q, k := QueueAt(c, s, a), CursorOf(s.threads[a]);
    ApplyEvents(c, s, a, act, ch.pick);
    SeesCursor(c, s, a);
    DropsExpired(c, s, a, ch, act, s');
    var q' := QueueAt(c, s', a);
    assert q' == RemoveAt(q, k);
    forall j | 0 <= j < k && j < |q'| ensures q'[j] == q[j] {
    }
    forall r | r in q && r != q[k] ensures r in q' {
      InRemoved(q, k, r);
    }
    forall r | r in QueueAt(c, before, a) && !NotWaiting(s', r) ensures r in q' {
      if NotWaiting(s, r) {
        StoppedForGood(c, s, a, ch, act, s', r);
      }
    }
  }

  /** The entry that is dropped has stopped waiting for good. */
  lemma DropsExpired(c: Config, s: State, a: nat, ch: Choice, act: Action, s': State)
    requires Inv(c, s) && IsMarkStep(c, s, a, ch, act, s') && Purging(s.threads[a]) && act.DropExpired?
    requires act == DropExpired(EventAt(c, s, a), CursorOf(s.threads[a])) && EventAt(c, s, a) < |s.events|
    ensures CursorOf(s.threads[a]) < |QueueAt(c, s, a)|
    ensures NotWaiting(s', QueueAt(c, s, a)[CursorOf(s.threads[a])])
  {
    SeesCursor(c, s, a);
    assert ExpiryOk(c, s, a) && GoodThread(c, s, a);
    var r := QueueAt(c, s, a)[CursorOf(s.threads[a])];
    assert NotWaiting(s, r);
    StoppedForGood(c, s, a, ch, act, s', r);
  }

  lemma InRemoved<T>(q: seq<T>, k: nat, x: T)
    requires k < |q| && x in q && x != q[k]
    ensures x in RemoveAt(q, k)
  {
    var j :| 0 <= j < |q| && q[j] == x;
    assert RemoveAt(q, k)[if j < k then j else j - 1] == x;
  }

  lemma OtherPurge(c: Config, s: State, b: nat, ch: Choice, act: Action, s': State, a: nat, before: State)
    requires Inv(c, s) && IsMarkStep(c, s, b, ch, act, s') && a < |c.ops| && b != a && Purging(s.threads[a])
    requires Clean(c, before, s, a) && Keeps(c, before, s, a)
    ensures Clean(c, before, s', a) && Keeps(c, before, s', a) && s'.threads[a] == s.threads[a]
  {
    OtherThread(c, s, b, ch, act, s', a);
    OthersEventUntouched(c, s, b, ch, act, s', a);
    ApplyEvents(c, s, b, act, ch.pick);
    assert s'.threads[a] == s.threads[a];
    assert QueueAt(c, s', a) == QueueAt(c, s, a);
    forall r | NotWaiting(s, r) ensures NotWaiting(s', r) {
      StoppedForGood(c, s, b, ch, act, s', r);
    }
  }

  lemma StepPurge(c: Config, s: State, b: nat, ch: Choice, a: nat, before: State)
    requires Inv(c, s) && b < |c.ops| && CanStep(c, s, b, ch) && a < |c.ops| && Purging(s.threads[a])
    requires Clean(c, before, s, a) && Keeps(c, before, s, a)
    requires forall r :: NotWaiting(before, r) ==> NotWaiting(s, r)
    ensures var s' := Step(c, s, b, ch);
      && Clean(c, before, s', a) && Keeps(c, before, s', a)
      && (!Purging(s'.threads[a]) ==> CursorOf(s'.threads[a]) >= |QueueAt(c, s', a)|)
  {
    var act, s' := StepParts(c, s, b, ch);
    QueueMoves(c, s, b, ch, act, s');
    if a == b {
      OwnPurge(c, s, a, ch, act, s', before);
    } else {
      OtherPurge(c, s, b, ch, act, s', a, before);
    }
  }

  // ---------------------------------------------------------------- whole runs

  lemma NextPurging(c: Config, run: seq<State>, n: nat, a: nat, before: State)
    requires IsRun(c, run) && n + 1 < |run| && a < |c.ops| && a < |run[n].threads| && Purging(run[n].threads[a])
    requires Clean(c, before, run[n], a) && Keeps(c, before, run[n], a)
    requires forall r :: NotWaiting(before, r) ==> NotWaiting(run[n], r)
    ensures Clean(c, before, run[n + 1], a) && Keeps(c, before, run[n + 1], a)
    ensures !Purging(run[n + 1].threads[a]) ==> CursorOf(run[n + 1].threads[a]) >= |QueueAt(c, run[n + 1], a)|
  {
    RunInv(c, run, n);
    assert NextAt(c, run, n);
    var s, s' := run[n], run[n + 1];
    if b: nat, ch: Choice :| b < |c.ops| && CanStep(c, s, b, ch) && s' == Step(c, s, b, ch) {
      StepPurge(c, s, b, ch, a, before);
    } else {
      var e: nat :| e < |s.events| && s' == Reset(s, e);
      assert QueueAt(c, s', a) == QueueAt(c, s, a);
      assert forall r :: NotWaiting(s', r) <==> NotWaiting(s, r);
    }
  }

  lemma NextStopped(c: Config, run: seq<State>, n: nat, r: Registration)
    requires IsRun(c, run) && n + 1 < |run| && NotWaiting(run[n], r)
    ensures NotWaiting(run[n + 1], r)
  {
    RunInv(c, run, n);
    assert NextAt(c, run, n);
    var s, s' := run[n], run[n + 1];
    if b: nat, ch: Choice :| b < |c.ops| && CanStep(c, s, b, ch) && s' == Step(c, s, b, ch) {
      var act, s'' := StepParts(c, s, b, ch);
      StoppedForGood(c, s, b, ch, act, s', r);
    }
  }

  lemma {:induction false} StaysStopped(c: Config, run: seq<State>, l: nat, n: nat, r: Registration)
    requires IsRun(c, run) && l <= n < |run| && NotWaiting(run[l], r)
    ensures NotWaiting(run[n], r)
    decreases n - l
  {
    if l < n {
      NextStopped(c, run, l, r);
      StaysStopped(c, run, l + 1, n, r);
    }
  }

  /** From l on, up to n, the thread purges. */
  ghost predicate PurgesFrom(run: seq<State>, l: nat, n: nat, a: nat) {
    && l <= n < |run| && forall k :: l <= k <= n ==> a < |run[k].threads| && Purging(run[k].threads[a])
  }

  lemma {:induction false} PurgeSoFar(c: Config, run: seq<State>, l: nat, n: nat, a: nat)
    requires IsRun(c, run) && a < |c.ops| && PurgesFrom(run, l, n, a) && BeginsPurge(run[l].threads[a])
    ensures Clean(c, run[l], run[n], a) && Keeps(c, run[l], run[n], a)
    decreases n
  {
    if l < n {
      PurgeSoFar(c, run, l, n - 1, a);
      forall r | NotWaiting(run[l], r) ensures NotWaiting(run[n - 1], r) {
        StaysStopped(c, run, l, n - 1, r);
      }
      NextPurging(c, run, n - 1, a, run[l]);
    }
  }

  /** In every run, when a purge that began at state l ends, no registration is left in the deque whose waiter had
    stopped waiting by then, and every one is left that was in it and whose waiter still waits. */
  lemma PurgeDropsTheExpired(c: Config, run: seq<State>, l: nat, n: nat, a: nat)
    requires IsRun(c, run) && a < |c.ops| && n + 1 < |run| && PurgesFrom(run, l, n, a) && BeginsPurge(run[l].threads[a])
    requires a < |run[n + 1].threads| && !Purging(run[n + 1].threads[a])
    ensures EventAt(c, run[n + 1], a) == EventAt(c, run[l], a)
    ensures forall r :: r in QueueAt(c, run[n + 1], a) ==> !NotWaiting(run[l], r)
    ensures forall r :: r in QueueAt(c, run[l], a) && !NotWaiting(run[n + 1], r) ==> r in QueueAt(c, run[n + 1], a)
  {
    PurgeSoFar(c, run, l, n, a);
    forall r | NotWaiting(run[l], r) ensures NotWaiting(run[n], r) {
      StaysStopped(c, run, l, n, r);
    }
    NextPurging(c, run, n, a, run[l]);
  }

  // ---------------------------------------------------------------- every lock is followed by a purge

  predicate LocksForPurge(t: Thread) {
    (t.Many? && t.m == MLockEvent) || (t.Purger? && t.u == PLock)
  }

  /** A WaitMany call that has locked an event, and a destroying call, purge first. */
  lemma LockThenPurge(c: Config, run: seq<State>, n: nat, a: nat)
    requires IsRun(c, run) && n + 1 < |run| && a < |c.ops| && a < |run[n].threads| && a < |run[n + 1].threads|
    requires LocksForPurge(run[n].threads[a]) && run[n + 1].threads[a] != run[n].threads[a]
    ensures BeginsPurge(run[n + 1].threads[a]) && EventAt(c, run[n + 1], a) == EventAt(c, run[n], a)
    ensures QueueAt(c, run[n + 1], a) == QueueAt(c, run[n], a)
  {
    RunInv(c, run, n);
    assert NextAt(c, run, n);
    NextLock(c, run[n], run[n + 1], a);
  }

  lemma NextLock(c: Config, s: State, s': State, a: nat)
    requires Inv(c, s) && Next(c, s, s') && a < |c.ops| && a < |s.threads| && a < |s'.threads|
    requires LocksForPurge(s.threads[a]) && s'.threads[a] != s.threads[a]
    ensures BeginsPurge(s'.threads[a]) && EventAt(c, s', a) == EventAt(c, s, a) && QueueAt(c, s', a) == QueueAt(c, s, a)
  {
    if b: nat, ch: Choice :| b < |c.ops| && CanStep(c, s, b, ch) && s' == Step(c, s, b, ch) {
      if a == b {
        LockStep(c, s, a, ch);
      } else {
        KeepsThread(c, s, b, ch, a);
      }
    }
  }

  lemma LockStep(c: Config, s: State, a: nat, ch: Choice)
    requires Inv(c, s) && a < |c.ops| && CanStep(c, s, a, ch) && LocksForPurge(s.threads[a])
    ensures var s' := Step(c, s, a, ch);
      && a < |s'.threads| && BeginsPurge(s'.threads[a]) && EventAt(c, s', a) == EventAt(c, s, a)
      && QueueAt(c, s', a) == QueueAt(c, s, a)
  {
    var act, s' := StepParts(c, s, a, ch);
    LockMove(c, a, c.ops[a], s.threads[a], ViewOf(c, s, a), ch.timedOut);
    ApplyEvents(c, s, a, act, ch.pick);
    assert GoodThread(c, s, a) && c.ValidOp(c.ops[a]);
  }

  lemma LockMove(c: Config, a: nat, op: Op, t: Thread, v: View, timedOut: bool)
    requires GoodLocals(op, t) && LocksForPurge(t)
    ensures BeginsPurge(NextThread(c, op, t, v, timedOut))
    ensures EventOf(op, NextThread(c, op, t, v, timedOut)) == EventOf(op, t)
    ensures ActionOf(a, op, t, v) == LockEvent(EventOf(op, t))
  {
  }

  // ---------------------------------------------------------------- a set does not notify what had stopped

  /** The set goes for the waiter at the head of the deque, or is at it. */
  predicate GoesFor(t: Thread) {
    t.Setter? && (t.p == SLockWaiter || t.p == SRecheck || t.p == SFire)
  }

  ghost predicate HeadWaited(c: Config, before: State, s: State, a: nat) {
    && a < |c.ops| && a < |s.threads|
    && (GoesFor(s.threads[a]) && QueueAt(c, s, a) != [] ==> !NotWaiting(before, QueueAt(c, s, a)[0]))
  }

  lemma GoMove(op: Op, t: Thread, v: View)
    requires op.Set? && t.Setter?
    ensures var t', act := NextSet(t, v), ActionSet(op, t, v);
      GoesFor(t') ==> (GoesFor(t) || (t.p == SHead && v.waiting)) && !act.DropHead? && !act.Enqueue? && !act.DropExpired?
  {
  }

  lemma OwnGoes(c: Config, s: State, a: nat, ch: Choice, act: Action, s': State, before: State)
    requires Inv(c, s) && IsMarkStep(c, s, a, ch, act, s') && c.ops[a].Set? && HeadWaited(c, before, s, a)
    requires forall r :: NotWaiting(before, r) ==> NotWaiting(s, r)
    ensures HeadWaited(c, before, s', a)
  {
    StepSizes(c, s, a, ch, act, s');
    SeesHead(c, s, a);
    GoMove(c.ops[a], s.threads[a], ViewOf(c, s, a));
    QueueOfOwn(c, s, a, ch, act, s');
    assert GoodThread(c, s, a) && ExpiryHead(c, s, a);
  }

  /** A head seen waiting has not stopped. */
  ghost predicate ExpiryHead(c: Config, s: State, a: nat)
    requires a < |c.ops| && a < |s.threads|
  {
    var v := ViewOf(c, s, a);
    v.event.queue != [] && v.waiting ==> !NotWaiting(s, v.entry)
  }

  lemma StepGoes(c: Config, s: State, b: nat, ch: Choice, a: nat, before: State)
    requires Inv(c, s) && b < |c.ops| && CanStep(c, s, b, ch) && a < |c.ops| && c.ops[a].Set? && HeadWaited(c, before, s, a)
    requires forall r :: NotWaiting(before, r) ==> NotWaiting(s, r)
    ensures HeadWaited(c, before, Step(c, s, b, ch), a)
  {
    var act, s' := StepParts(c, s, b, ch);
    QueueMoves(c, s, b, ch, act, s');
    if a == b {
      OwnGoes(c, s, a, ch, act, s', before);
    } else {
      OtherThread(c, s, b, ch, act, s', a);
      assert GoodThread(c, s, a);
      if GoesFor(s.threads[a]) {
        OthersEventUntouched(c, s, b, ch, act, s', a);
        ApplyEvents(c, s, b, act, ch.pick);
      }
    }
  }

  lemma NextGoes(c: Config, run: seq<State>, n: nat, a: nat, before: State)
    requires IsRun(c, run) && n + 1 < |run| && a < |c.ops| && c.ops[a].Set? && HeadWaited(c, before, run[n], a)
    requires forall r :: NotWaiting(before, r) ==> NotWaiting(run[n], r)
    ensures HeadWaited(c, before, run[n + 1], a)
  {
    RunInv(c, run, n);
    assert NextAt(c, run, n);
    var s, s' := run[n], run[n + 1];
    if b: nat, ch: Choice :| b < |c.ops| && CanStep(c, s, b, ch) && s' == Step(c, s, b, ch) {
      StepGoes(c, s, b, ch, a, before);
    } else {
      var e: nat :| e < |s.events| && s' == Reset(s, e);
      assert QueueAt(c, s', a) == QueueAt(c, s, a);
    }
  }

  lemma {:induction false} GoesForWaiting(c: Config, run: seq<State>, l: nat, n: nat, a: nat)
    requires IsRun(c, run) && l <= n < |run| && a < |c.ops| && c.ops[a].Set?
    requires a < |run[l].threads| && !GoesFor(run[l].threads[a])
    ensures HeadWaited(c, run[l], run[n], a)
    decreases n
  {
    if l < n {
      GoesForWaiting(c, run, l, n - 1, a);
      forall r | NotWaiting(run[l], r) ensures NotWaiting(run[n - 1], r) {
        StaysStopped(c, run, l, n - 1, r);
      }
      NextGoes(c, run, n - 1, a, run[l]);
    }
  }

  /** In every run, a set, of either kind of event, notifies no registration whose waiter had stopped waiting when
    it locked the event. */
  lemma NoticesOnlyTheWaiting(c: Config, run: seq<State>, l: nat, n: nat, a: nat, r: Registration)
    requires IsRun(c, run) && l <= n && n + 1 < |run| && a < |c.ops| && c.ops[a].Set?
    requires a < |run[l].threads| && !Began(run[l].threads[a])
    requires a < |run[n].threads| && run[n].threads[a].Setter? && run[n].threads[a].p == SFire
    requires QueueAt(c, run[n], a) != [] && QueueAt(c, run[n], a)[0] == r
    ensures !NotWaiting(run[l], r)
  {
    RunInv(c, run, l);
    assert GoodThread(c, run[l], a);
    GoesForWaiting(c, run, l, n, a);
  }
}
