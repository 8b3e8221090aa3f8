/** What the event library guarantees to its callers, in every run. */
module WaitTheorems {
  import opened Options
  import opened WaitModel
  import opened WaitLocks
  import opened WaitQueues
  import opened WaitCounts
  import opened WaitModes
  import opened WaitSignals
  import opened WaitWakeups
  import opened WaitFifo
  import opened WaitRuns
  import opened WaitSets
  import opened WaitBalance

  // ---------------------------------------------------------------- signals and deques

  /** Whenever an event's mutex is free, a signalled event has an empty deque: nobody is left queued
    on a signal that is there to be taken. */
  lemma NoLostWakeup(c: Config, run: seq<State>, n: nat, e: nat)
    requires IsRun(c, run) && n < |run| && e < |c.auto|
    ensures e < |run[n].events|
    ensures run[n].events[e].owner == None && run[n].events[e].state ==>
              run[n].events[e].swept == [] && run[n].events[e].queue == []
  {
    RunInv(c, run, n);
    assert Quiet(c, run[n], e);
  }

  /** The sets counted for an auto-reset event are its SetEvent calls that have taken effect, every finished
    one among them, and the signals handed over are those of the calls that served a waiter. The signals
    consumed and handed over are with the calls that got them: one for each WaitForEvent call that succeeded
    and one for each position of a WaitMany call that took or was handed one. As long as ResetEvent has not
    been called on it, every signal (the initial one, and one for each set) was consumed by a wait, handed to a
    queued waiter, absorbed by a signal that was already pending, or is still pending. */
  lemma SignalConservation(c: Config, run: seq<State>, n: nat, e: nat)
    requires IsRun(c, run) && n < |run| && e < |c.auto| && c.auto[e]
    ensures e < |run[n].events| && e < |c.signalled|
    ensures forall a: nat :: a < |c.ops| && a < |run[n].threads| && c.ops[a] == Set(e) && Finished(run[n].threads[a]) ==>
              a in EffectiveSets(c, run[n], e)
    ensures run[n].events[e].sets == |EffectiveSets(c, run[n], e)|
    ensures run[n].events[e].handed == |HandingSets(c, run[n], e)|
    ensures run[n].events[e].taken + run[n].events[e].handed ==
              |GotOnes(c, run[n], e)| + |GotPositions(c, run[n], e)|
    ensures var ev := run[n].events[e];
      ev.resets == 0 ==>
        (if c.signalled[e] then 1 else 0) + ev.sets
          == ev.taken + ev.handed + ev.absorbed + (if ev.state then 1 else 0)
  {
    RunInv(c, run, n);
    assert Conserved(c, run[n], e);
    RunTallied(c, run, n, e);
    RunBalanced(c, run, n, e);
    forall a: nat | a < |c.ops| && a < |run[n].threads| && c.ops[a] == Set(e) && Finished(run[n].threads[a])
      ensures a in EffectiveSets(c, run[n], e)
    {
      assert GoodThread(c, run[n], a);
    }
  }

  /** A finished SetEvent on an auto-reset event took effect at exactly one step. At that step, the waiters of
    all the registrations it had passed over had stopped waiting. Either it handed its signal there to one
    registration, the next one in the deque it had locked, whose waiter still waited; or it had passed over the
    whole deque, which was empty by then, and left the event signalled. */
  lemma SetServesEarliestWaiter(c: Config, run: seq<State>, n: nat, a: nat) returns (m: nat)
    requires IsRun(c, run) && n < |run| && a < |c.ops| && c.ops[a].Set? && IsAuto(c, c.ops[a].event)
    requires a < |run[n].threads| && run[n].threads[a].Setter? && run[n].threads[a].p == SDone
    ensures m < n && EffectAt(c, run[m], run[m + 1], a)
    ensures forall k :: 0 <= k < n && TakesEffect(run[k], run[k + 1], a) ==> k == m
    ensures var t, e := run[n].threads[a], c.ops[a].event;
      match t.handedTo
      case Some(r) =>
        && Hands(c, run[m], run[m + 1], e, r)
        && t.gone < |t.seen| && t.seen[t.gone] == r
        && forall j :: 0 <= j < t.gone ==> NotWaiting(run[m], t.seen[j])
      case None =>
        && Latches(run[m], run[m + 1], e)
        && forall j :: 0 <= j < |t.seen| ==> NotWaiting(run[m], t.seen[j])
  {
    m := EffectHappened(c, run, n, a);
    forall k: nat | k < n && TakesEffect(run[k], run[k + 1], a) ensures k == m {
      OneEffect(c, run, m, k, a);
    }
  }

  lemma OneEffect(c: Config, run: seq<State>, m: nat, k: nat, a: nat)
    requires IsRun(c, run) && m + 1 < |run| && k + 1 < |run|
    requires a < |c.ops| && c.ops[a].Set? && IsAuto(c, c.ops[a].event)
    requires TakesEffect(run[k], run[k + 1], a) && TakesEffect(run[m], run[m + 1], a)
    ensures k == m
  {
    if k < m {
      EffectStays(c, run, k + 1, m, a);
    } else if m < k {
      EffectStays(c, run, m + 1, k, a);
    }
  }

  // ---------------------------------------------------------------- waiting for any event

  /** A call that waits for any event consumes at most one auto-reset signal. If all its events are
    auto-reset, the index it reports when it is over is the position of the signal it consumed, and -1
    if it consumed none, also when it times out while an event is being set. */
  lemma AnyConsumesWhatItReports(c: Config, run: seq<State>, n: nat, w: nat)
    requires IsRun(c, run) && n < |run| && w < |c.ops| && c.ops[w].WaitMany? && !c.ops[w].all
    ensures w < |run[n].waiters| && w < |run[n].threads| && run[n].threads[w].Many?
    ensures |run[n].waiters[w].taken| <= 1
    ensures forall i :: i in run[n].waiters[w].taken ==>
              i < |c.ops[w].events| && IsAuto(c, c.ops[w].events[i])
    ensures run[n].threads[w].m == MDone && AllAuto(c, c.ops[w]) ==>
              run[n].threads[w].index == TakenIndex(run[n].waiters[w].taken)
    ensures run[n].threads[w].m == MDone && run[n].threads[w].result == Success ==>
              0 <= run[n].threads[w].index < |c.ops[w].events|
  {
    RunInv(c, run, n);
    assert GoodThread(c, run[n], w) && WaiterMode(c, run[n], w) && GoodWaiter(c, run[n], w);
  }

  // ---------------------------------------------------------------- waiting for all events

  /** Positions of a call that are registered and not notified yet. */
  function Unfired(s: State, w: nat): nat
    requires w < |s.waiters|
  {
    Count(s.waiters[w].marks, {Queued})
  }

  /** The wait-all counter is the number of positions less those counted as signalled. It is never
    negative and never less than the registrations that still wait to be notified together with the
    positions not visited, so once it is zero no registration is left to notify. */
  lemma AllCounter(c: Config, run: seq<State>, n: nat, w: nat)
    requires IsRun(c, run) && n < |run| && w < |c.ops| && c.ops[w].WaitMany? && c.ops[w].all
    ensures w < |run[n].waiters| && w < |run[n].threads| && run[n].threads[w].Many?
    ensures var wt, t := run[n].waiters[w], run[n].threads[w];
      && wt.status == |c.ops[w].events| - Count(wt.marks, {Satisfied}) - Count(wt.marks, {Firing, Fired})
      && wt.status >= Unfired(run[n], w) + (|c.ops[w].events| - t.i) >= 0
      && (wt.status == 0 ==> Unfired(run[n], w) == 0 && t.i == |c.ops[w].events|)
  {
    RunInv(c, run, n);
    var s := run[n];
    assert GoodThread(c, s, w) && WaiterCounts(c, s, w) && WaiterMarks(c, s, w) && GoodWaiter(c, s, w);
    CountPartition(s.waiters[w].marks);
    CountUnvisited(s.waiters[w].marks, s.threads[w].i);
  }

  /** When a call that waits for all events returns 0, every position was satisfied or fired exactly
    once, and it consumed exactly one signal for every position of an auto-reset event. */
  lemma AllReturnsOnce(c: Config, run: seq<State>, n: nat, w: nat)
    requires IsRun(c, run) && n < |run| && w < |c.ops| && c.ops[w].WaitMany? && c.ops[w].all
    ensures w < |run[n].waiters| && w < |run[n].threads| && run[n].threads[w].Many?
    ensures |run[n].waiters[w].hits| == |c.ops[w].events|
    ensures run[n].threads[w].m == MDone && run[n].threads[w].result == Success ==>
      && (forall i :: 0 <= i < |c.ops[w].events| ==> run[n].waiters[w].hits[i] == 1)
      && (forall i: nat :: i in run[n].waiters[w].taken <==>
            i < |c.ops[w].events| && IsAuto(c, c.ops[w].events[i]))
    ensures forall j, k :: 0 <= j < k < |run[n].waiters[w].taken| ==>
              run[n].waiters[w].taken[j] != run[n].waiters[w].taken[k]
  {
    RunInv(c, run, n);
    var s := run[n];
    assert GoodThread(c, s, w) && WaiterCounts(c, s, w) && WaiterMarks(c, s, w);
    assert WaiterMode(c, s, w) && GoodWaiter(c, s, w);
    var marks := s.waiters[w].marks;
    if s.threads[w].m == MDone && s.threads[w].result == Success {
      forall i | 0 <= i < |marks| ensures Counted(marks[i]) {
        if !Counted(marks[i]) { CountPositive(marks, i, {Unvisited, Queued, Expired}); }
      }
    }
  }
}
