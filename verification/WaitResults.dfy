/** When a wait succeeds, and when it times out. */
module WaitResults {
  import opened Options
  import opened WaitModel
  import opened WaitLocks
  import opened WaitQueues
  import opened WaitCounts
  import opened WaitModes
  import opened WaitRuns
  import opened WaitSets

  /** The call's result is the time-out. */
  predicate GaveUp(t: Thread) {
    (t.Many? && t.result == TimedOut) || (t.One? && t.outcome == TimedOut)
  }

  predicate IsWait(op: Op) {
    op.WaitMany? || op.WaitOne?
  }

  /** The call, which has a finite timeout, sleeps without a signal, and its sleep runs out. */
  predicate SleepRunsOut(c: Config, s: State, s': State, a: nat) {
    && a < |c.ops| && a < |s.threads| && a < |s'.threads| && IsWait(c.ops[a]) && c.ops[a].timeout == Finite
    && IsAsleep(s.threads[a]) && !IsWoken(s.threads[a])
    && !IsAsleep(s'.threads[a]) && GaveUp(s'.threads[a])
  }

  /** The call polls its one event and finds it unsignalled. */
  predicate PollFails(c: Config, s: State, s': State, a: nat) {
    && a < |c.ops| && a < |s.threads| && a < |s'.threads| && c.ops[a].WaitOne? && c.ops[a].timeout == Zero
    && s.threads[a].One? && s'.threads[a] != s.threads[a] && GaveUp(s'.threads[a])
    && c.ops[a].event < |s.events| && !s.events[c.ops[a].event].state
  }

  /** The call polls several events: it has dealt with every position, and then none of them has been signalled,
    or, when it waits for all, not all of them. */
  ghost predicate PollsFail(c: Config, s: State, s': State, a: nat) {
    && a < |c.ops| && a < |s.threads| && a < |s'.threads| && c.ops[a].WaitMany? && c.ops[a].timeout == Zero
    && s.threads[a].Many? && s'.threads[a].Many? && s'.threads[a] != s.threads[a] && GaveUp(s'.threads[a])
    && s'.threads[a].i == |c.ops[a].events|
    && a < |s'.waiters| && |s'.waiters[a].hits| == |c.ops[a].events|
    && if c.ops[a].all then SomeUnhit(s'.waiters[a]) else forall i :: 0 <= i < |s'.waiters[a].hits| ==> s'.waiters[a].hits[i] == 0
  }

  ghost predicate SomeUnhit(w: Waiter) {
    exists i :: 0 <= i < |w.hits| && w.hits[i] == 0
  }

  /** The two ways to time out. */
  ghost predicate TimesOutAt(c: Config, s: State, s': State, a: nat) {
    SleepRunsOut(c, s, s', a) || PollFails(c, s, s', a) || PollsFail(c, s, s', a)
  }

  // ---------------------------------------------------------------- one step, seen locally

  /** How a WaitMany call comes to its result. */
  lemma ManyResult(c: Config, op: Op, t: Thread, v: View, timedOut: bool)
    requires op.WaitMany? && t.Many? && GoodLocals(op, t)
    ensures var t' := NextMany(c, op, t, v, timedOut);
      && (GaveUp(t) && (t.m == MRelock || t.m == MFinish || Stopped(t)) ==>
            GaveUp(t') && (t'.m == MFinish || Stopped(t')))
      && (t'.result != t.result && GaveUp(t') ==>
            if t.m == MSleep then timedOut && t'.m == MRelock
            else
              && op.timeout == Zero && t'.m == MFinish && t'.i == |op.events|
              && (t.m == MLockSelf || t.m == MUnlockQueued || (t.m == MTaken && op.all))
              && !(op.all && 0 == if t.m == MTaken then v.own.status - 1 else v.own.status))
  {
  }

  /** How a WaitForEvent call does. */
  lemma OneResult(op: Op, t: Thread, v: View, timedOut: bool)
    requires op.WaitOne? && t.One?
    ensures var t' := NextOne(op, t, v, timedOut);
      && (GaveUp(t) && (t.o == ORelock || t.o == OUnlock || t.o == ODone) ==>
            GaveUp(t') && (t'.o == OUnlock || t'.o == ODone))
      && (t'.outcome != t.outcome && GaveUp(t') ==>
            if t.o == OSleep then timedOut && t'.o == ORelock
            else !v.event.state && (t.o == OPeek || (t.o == OTest && op.timeout == Zero)) && (t'.o == OUnlock || t'.o == ODone))
  {
  }

  /** Where a call can be when its result is the time-out. */
  predicate Flow(op: Op, t: Thread) {
    && (op.WaitMany? && t.Many? && GaveUp(t) ==> t.m == MRelock || t.m == MFinish || Stopped(t))
    && (op.WaitOne? && t.One? ==>
          && (GaveUp(t) ==> t.o == ORelock || t.o == OUnlock || t.o == ODone)
          && (t.o == OPeek ==> op.timeout == Zero))
  }

  lemma FlowStep(c: Config, op: Op, t: Thread, v: View, timedOut: bool)
    requires IsWait(op) && GoodLocals(op, t) && Flow(op, t)
    ensures Flow(op, NextThread(c, op, t, v, timedOut))
    ensures GaveUp(t) ==> GaveUp(NextThread(c, op, t, v, timedOut))
  {
    if op.WaitMany? {
      ManyResult(c, op, t, v, timedOut);
    } else {
      OneResult(op, t, v, timedOut);
      OnePeek(op, t, v, timedOut);
    }
  }

  lemma OnePeek(op: Op, t: Thread, v: View, timedOut: bool)
    requires op.WaitOne? && t.One?
    ensures NextOne(op, t, v, timedOut).o != OPeek
  {
  }

  // ---------------------------------------------------------------- one step

  /** Waiting for any: a status of -1 means that nothing has been signalled. */
  lemma NothingHit(c: Config, s: State, a: nat)
    requires Inv(c, s) && a < |c.ops| && c.ops[a].WaitMany? && !c.ops[a].all && s.waiters[a].status == -1
    ensures |s.waiters[a].hits| == |c.ops[a].events|
    ensures forall i :: 0 <= i < |s.waiters[a].hits| ==> s.waiters[a].hits[i] == 0
  {
    assert GoodThread(c, s, a) && GoodWaiter(c, s, a) && WaiterMarks(c, s, a) && WaiterMode(c, s, a);
  }

  /** Waiting for all: a counter that is not 0 means that something has not been signalled. */
  lemma SomethingUnhit(c: Config, s: State, a: nat)
    requires Inv(c, s) && a < |c.ops| && c.ops[a].WaitMany? && c.ops[a].all && s.waiters[a].status != 0
    ensures |s.waiters[a].hits| == |c.ops[a].events| && SomeUnhit(s.waiters[a])
  {
    assert GoodThread(c, s, a) && GoodWaiter(c, s, a) && WaiterMarks(c, s, a) && WaiterCounts(c, s, a);
    var i := FindCounted(s.waiters[a].marks);
    assert s.waiters[a].hits[i] == 0;
  }

  lemma {:induction false} FindCounted(marks: seq<Mark>) returns (i: nat)
    requires Count(marks, {Unvisited, Queued, Expired}) != 0
    ensures i < |marks| && !Counted(marks[i])
  {
    var last := |marks| - 1;
    if marks[last] in {Unvisited, Queued, Expired} {
      i := last;
    } else {
      i := FindCounted(marks[..last]);
    }
  }

  /** A poll of several events that fails. */
  lemma PollStep(c: Config, s: State, a: nat, ch: Choice, act: Action, s': State)
    requires Inv(c, s) && Inv(c, s') && IsMarkStep(c, s, a, ch, act, s') && c.ops[a].WaitMany?
    requires s.threads[a].Many? && s.threads[a].m != MSleep && !GaveUp(s.threads[a]) && GaveUp(s'.threads[a])
    ensures PollsFail(c, s, s', a)
  {
    StepSizes(c, s, a, ch, act, s');
    StepOwnWaiter(c, s, a, ch, act, s');
    assert GoodThread(c, s, a) && GoodThread(c, s', a);
    ManyResult(c, c.ops[a], s.threads[a], ViewOf(c, s, a), ch.timedOut);
    PollStatus(c, s, a, ch, act, s');
    if c.ops[a].all {
      SomethingUnhit(c, s', a);
    } else {
      NothingHit(c, s', a);
    }
  }

  lemma PollStatus(c: Config, s: State, a: nat, ch: Choice, act: Action, s': State)
    requires Inv(c, s) && IsMarkStep(c, s, a, ch, act, s') && c.ops[a].WaitMany?
    requires s.threads[a].Many? && s.threads[a].m != MSleep && !GaveUp(s.threads[a]) && GaveUp(s'.threads[a])
    ensures a < |s'.waiters|
    ensures if c.ops[a].all then s'.waiters[a].status != 0 else s'.waiters[a].status == -1
  {
    StepOwnWaiter(c, s, a, ch, act, s');
    assert GoodThread(c, s, a) && WaiterMode(c, s, a);
    ManyResult(c, c.ops[a], s.threads[a], ViewOf(c, s, a), ch.timedOut);
  }

  lemma OwnTimeOut(c: Config, s: State, a: nat, ch: Choice, act: Action, s': State)
    requires Inv(c, s) && Inv(c, s') && IsMarkStep(c, s, a, ch, act, s') && IsWait(c.ops[a])
    requires Flow(c.ops[a], s.threads[a]) && !GaveUp(s.threads[a]) && a < |s'.threads| && GaveUp(s'.threads[a])
    ensures TimesOutAt(c, s, s', a)
  {
    assert GoodThread(c, s, a) && GoodThread(c, s', a) && c.ValidOp(c.ops[a]);
    if c.ops[a].WaitOne? {
      OneResult(c.ops[a], s.threads[a], ViewOf(c, s, a), ch.timedOut);
    } else {
      ManyResult(c, c.ops[a], s.threads[a], ViewOf(c, s, a), ch.timedOut);
      if s.threads[a].m != MSleep {
        PollStep(c, s, a, ch, act, s');
      }
    }
  }

  lemma NextResult(c: Config, s: State, s': State, a: nat)
    requires Inv(c, s) && Inv(c, s') && Next(c, s, s') && a < |c.ops| && IsWait(c.ops[a]) && Flow(c.ops[a], s.threads[a])
    ensures a < |s'.threads| && Flow(c.ops[a], s'.threads[a])
    ensures GaveUp(s.threads[a]) ==> GaveUp(s'.threads[a])
    ensures !GaveUp(s.threads[a]) && GaveUp(s'.threads[a]) ==> TimesOutAt(c, s, s', a)
  {
    if b: nat, ch: Choice :| b < |c.ops| && CanStep(c, s, b, ch) && s' == Step(c, s, b, ch) {
      if a == b {
        StepResult(c, s, a, ch);
      } else {
        KeepsThread(c, s, b, ch, a);
      }
    }
  }

  lemma StepResult(c: Config, s: State, a: nat, ch: Choice)
    requires Inv(c, s) && a < |c.ops| && IsWait(c.ops[a]) && Flow(c.ops[a], s.threads[a]) && CanStep(c, s, a, ch)
    requires Inv(c, Step(c, s, a, ch))
    ensures var s' := Step(c, s, a, ch);
      && a < |s'.threads| && Flow(c.ops[a], s'.threads[a]) && (GaveUp(s.threads[a]) ==> GaveUp(s'.threads[a]))
      && (!GaveUp(s.threads[a]) && GaveUp(s'.threads[a]) ==> TimesOutAt(c, s, s', a))
  {
    var act, s' := StepParts(c, s, a, ch);
    QueueMoves(c, s, a, ch, act, s');
    StepSizes(c, s, a, ch, act, s');
    assert GoodThread(c, s, a);
    FlowStep(c, c.ops[a], s.threads[a], ViewOf(c, s, a), ch.timedOut);
    if !GaveUp(s.threads[a]) && GaveUp(s'.threads[a]) {
      OwnTimeOut(c, s, a, ch, act, s');
    }
  }

  // ---------------------------------------------------------------- whole runs

  lemma RunResult(c: Config, run: seq<State>, n: nat, a: nat)
    requires IsRun(c, run) && n + 1 < |run| && a < |c.ops| && IsWait(c.ops[a])
    requires a < |run[n].threads| && Flow(c.ops[a], run[n].threads[a])
    ensures a < |run[n + 1].threads| && Flow(c.ops[a], run[n + 1].threads[a])
    ensures GaveUp(run[n].threads[a]) ==> GaveUp(run[n + 1].threads[a])
    ensures !GaveUp(run[n].threads[a]) && GaveUp(run[n + 1].threads[a]) ==> TimesOutAt(c, run[n], run[n + 1], a)
  {
    RunInv(c, run, n);
    RunInv(c, run, n + 1);
    assert NextAt(c, run, n);
    NextResult(c, run[n], run[n + 1], a);
  }

  lemma {:induction false} RunFlow(c: Config, run: seq<State>, n: nat, a: nat)
    requires IsRun(c, run) && n < |run| && a < |c.ops| && IsWait(c.ops[a])
    ensures a < |run[n].threads| && Flow(c.ops[a], run[n].threads[a])
  {
    if n == 0 {
      InitialThreads(c, run, a);
    } else {
      RunFlow(c, run, n - 1, a);
      RunResult(c, run, n - 1, a);
    }
  }

  /** In every run, a wait whose result is the time-out came to it at a step of its own: with a finite timeout,
    its sleep ran out, while no signal had reached it; with none, it found its event unsignalled, or, of several
    events, none signalled or not all of them as the case may be. An infinite wait never times out. */
  lemma {:induction false} WhyTimedOut(c: Config, run: seq<State>, n: nat, a: nat) returns (m: nat)
    requires IsRun(c, run) && n < |run| && a < |c.ops| && IsWait(c.ops[a])
    requires a < |run[n].threads| && GaveUp(run[n].threads[a])
    ensures m < n && TimesOutAt(c, run[m], run[m + 1], a)
    ensures c.ops[a].timeout != Infinite
    ensures c.ops[a].timeout == Finite ==> SleepRunsOut(c, run[m], run[m + 1], a)
    ensures c.ops[a].timeout == Zero ==> PollFails(c, run[m], run[m + 1], a) || PollsFail(c, run[m], run[m + 1], a)
  {
    if n == 0 {
      InitialThreads(c, run, a);
      assert false;
    } else {
      RunFlow(c, run, n - 1, a);
      RunResult(c, run, n - 1, a);
      if GaveUp(run[n - 1].threads[a]) {
        m := WhyTimedOut(c, run, n - 1, a);
      } else {
        m := n - 1;
      }
    }
  }

  // ---------------------------------------------------------------- falling asleep

  /** The call falls asleep: its one event is unsignalled, or, of several events, none has been signalled, or not
    all of them as the case may be. */
  ghost predicate FallsAsleep(c: Config, s: State, s': State, a: nat) {
    && a < |c.ops| && a < |s.threads| && a < |s'.threads| && !IsAsleep(s.threads[a]) && IsAsleep(s'.threads[a])
    && match c.ops[a]
       case WaitOne(e, _) => e < |s.events| && !s.events[e].state
       case WaitMany(events, all, _) =>
         && a < |s.waiters| && |s.waiters[a].hits| == |events|
         && if all then SomeUnhit(s.waiters[a]) else forall i :: 0 <= i < |events| ==> s.waiters[a].hits[i] == 0
       case _ => false
  }

  lemma SleepMove(c: Config, op: Op, t: Thread, v: View, timedOut: bool)
    requires IsWait(op) && GoodLocals(op, t)
    ensures var t' := NextThread(c, op, t, v, timedOut);
      && (IsAsleep(t) ==> !IsAsleep(t'))
      && (IsAsleep(t') ==>
            if t.Many? then t.m == MCheck && op.WaitMany? && !ConditionMet(op.all, v.own.status)
            else t.One? && t.o == OTest && op.WaitOne? && !v.event.state)
  {
  }

  lemma StepAsleep(c: Config, s: State, a: nat, ch: Choice)
    requires Inv(c, s) && a < |c.ops| && IsWait(c.ops[a]) && CanStep(c, s, a, ch)
    requires a < |Step(c, s, a, ch).threads| && IsAsleep(Step(c, s, a, ch).threads[a])
    ensures FallsAsleep(c, s, Step(c, s, a, ch), a)
  {
    assert GoodThread(c, s, a) && c.ValidOp(c.ops[a]);
    SleepMove(c, c.ops[a], s.threads[a], ViewOf(c, s, a), ch.timedOut);
    if c.ops[a].WaitMany? {
      if c.ops[a].all {
        SomethingUnhit(c, s, a);
      } else {
        NothingHit(c, s, a);
      }
    }
  }

  lemma RunAsleep(c: Config, run: seq<State>, n: nat, a: nat)
    requires IsRun(c, run) && n + 1 < |run| && a < |c.ops| && IsWait(c.ops[a])
    requires a < |run[n].threads| && a < |run[n + 1].threads| && IsAsleep(run[n + 1].threads[a])
    ensures IsAsleep(run[n].threads[a]) || FallsAsleep(c, run[n], run[n + 1], a)
  {
    RunInv(c, run, n);
    assert NextAt(c, run, n);
    var s, s' := run[n], run[n + 1];
    if b: nat, ch: Choice :| b < |c.ops| && CanStep(c, s, b, ch) && s' == Step(c, s, b, ch) {
      if a == b {
        StepAsleep(c, s, a, ch);
      } else {
        KeepsThread(c, s, b, ch, a);
      }
    }
  }

  ghost predicate AsleepFrom(run: seq<State>, m: nat, n: nat, a: nat) {
    m < n < |run| && forall k :: m < k <= n ==> a < |run[k].threads| && IsAsleep(run[k].threads[a])
  }

  /** A call that sleeps fell asleep because it could not be served then, and has slept ever since. With
    WhyTimedOut: a wait with a finite timeout times out only after that. */
  lemma {:induction false} WhyAsleep(c: Config, run: seq<State>, n: nat, a: nat) returns (m: nat)
    requires IsRun(c, run) && n < |run| && a < |c.ops| && IsWait(c.ops[a])
    requires a < |run[n].threads| && IsAsleep(run[n].threads[a])
    ensures AsleepFrom(run, m, n, a) && FallsAsleep(c, run[m], run[m + 1], a)
  {
    if n == 0 {
      InitialThreads(c, run, a);
      assert false;
    } else {
      RunFlow(c, run, n - 1, a);
      RunAsleep(c, run, n - 1, a);
      if IsAsleep(run[n - 1].threads[a]) {
        m := WhyAsleep(c, run, n - 1, a);
      } else {
        m := n - 1;
      }
    }
  }

  // ---------------------------------------------------------------- success of a wait for one event

  /** The call has seen its event signalled. */
  predicate Won(t: Thread) {
    t.One? && t.outcome == Success && (t.o == OConsume || t.o == OUnlock || t.o == ODone)
  }

  /** Between these two states, the call sees its event signalled. */
  predicate SeesSignal(c: Config, s: State, s': State, a: nat) {
    && a < |c.ops| && c.ops[a].WaitOne? && a < |s.threads| && a < |s'.threads|
    && !Won(s.threads[a]) && Won(s'.threads[a])
    && c.ops[a].event < |s.events| && s.events[c.ops[a].event].state
  }

  lemma WinMove(op: Op, t: Thread, v: View, timedOut: bool)
    requires op.WaitOne? && t.One? && Flow(op, t)
    ensures !Won(t) && Won(NextOne(op, t, v, timedOut)) ==> v.event.state
  {
  }

  lemma StepWins(c: Config, s: State, a: nat, ch: Choice)
    requires Inv(c, s) && a < |c.ops| && c.ops[a].WaitOne? && CanStep(c, s, a, ch) && Flow(c.ops[a], s.threads[a])
    requires a < |Step(c, s, a, ch).threads| && !Won(s.threads[a]) && Won(Step(c, s, a, ch).threads[a])
    ensures SeesSignal(c, s, Step(c, s, a, ch), a)
  {
    assert GoodThread(c, s, a) && c.ValidOp(c.ops[a]);
    WinMove(c.ops[a], s.threads[a], ViewOf(c, s, a), ch.timedOut);
  }

  lemma RunWins(c: Config, run: seq<State>, n: nat, a: nat)
    requires IsRun(c, run) && n + 1 < |run| && a < |c.ops| && c.ops[a].WaitOne?
    requires a < |run[n].threads| && a < |run[n + 1].threads| && Won(run[n + 1].threads[a])
    ensures Won(run[n].threads[a]) || SeesSignal(c, run[n], run[n + 1], a)
  {
    RunInv(c, run, n);
    RunFlow(c, run, n, a);
    assert NextAt(c, run, n);
    var s, s' := run[n], run[n + 1];
    if !Won(s.threads[a]) {
      if b: nat, ch: Choice :| b < |c.ops| && CanStep(c, s, b, ch) && s' == Step(c, s, b, ch) {
        if a == b {
          StepWins(c, s, a, ch);
        } else {
          KeepsThread(c, s, b, ch, a);
        }
      }
    }
  }

  /** In every run, a WaitForEvent call that succeeds saw its event signalled at one of its steps, whichever kind
    of event it is. */
  lemma {:induction false} SuccessSawSignal(c: Config, run: seq<State>, n: nat, a: nat) returns (m: nat)
    requires IsRun(c, run) && n < |run| && a < |c.ops| && c.ops[a].WaitOne?
    requires a < |run[n].threads| && Won(run[n].threads[a])
    ensures m < n && SeesSignal(c, run[m], run[m + 1], a)
  {
    if n == 0 {
      InitialThreads(c, run, a);
      assert false;
    } else {
      RunFlow(c, run, n - 1, a);
      RunWins(c, run, n - 1, a);
      if Won(run[n - 1].threads[a]) {
        m := SuccessSawSignal(c, run, n - 1, a);
      } else {
        m := n - 1;
      }
    }
  }

  /** A finished call has one of the two results, for one of these reasons. */
  lemma FinishedOne(c: Config, run: seq<State>, n: nat, a: nat) returns (m: nat)
    requires IsRun(c, run) && n < |run| && a < |c.ops| && c.ops[a].WaitOne?
    requires a < |run[n].threads| && Finished(run[n].threads[a])
    ensures m < n && run[n].threads[a].One?
    ensures match run[n].threads[a].outcome
            case Success => SeesSignal(c, run[m], run[m + 1], a)
            case TimedOut => TimesOutAt(c, run[m], run[m + 1], a)
  {
    RunInv(c, run, n);
    assert GoodThread(c, run[n], a);
    if run[n].threads[a].outcome == Success {
      m := SuccessSawSignal(c, run, n, a);
    } else {
      m := WhyTimedOut(c, run, n, a);
    }
  }

  /** In every run, a sleep that is over because its time is up makes the call give up. */
  lemma RunningOutIsTheTimeout(c: Config, run: seq<State>, n: nat, a: nat, ch: Choice)
    requires IsRun(c, run) && n < |run| && a < |c.ops|
    requires Shape(c, run[n]) && CanStep(c, run[n], a, ch) && ch.timedOut
    ensures SleepRunsOut(c, run[n], Step(c, run[n], a, ch), a)
  {
    RunInv(c, run, n);
    assert GoodThread(c, run[n], a);
    TimeUp(c, c.ops[a], run[n].threads[a], ViewOf(c, run[n], a));
  }

  lemma TimeUp(c: Config, op: Op, t: Thread, v: View)
    requires IsWait(op) && GoodLocals(op, t) && IsAsleep(t)
    ensures var t' := NextThread(c, op, t, v, true); !IsAsleep(t') && GaveUp(t')
  {
  }
}
