/** The index that a wait for any event reports names an event that was signalled. */
module WaitIndex {
  import opened Options
  import opened WaitModel
  import opened WaitLocks
  import opened WaitQueues
  import opened WaitCounts
  import opened WaitModes
  import opened WaitRuns

  predicate NamesCounted(w: Waiter, i: int) {
    i >= 0 ==> i < |w.marks| && Counted(w.marks[i])
  }

  ghost predicate Named(op: Op, t: Thread, w: Waiter) {
    op.WaitMany? && !op.all && t.Many? ==>
      NamesCounted(w, w.status) && (Stopped(t) ==> NamesCounted(w, t.index))
  }

  ghost predicate AllNamed(c: Config, s: State)
    requires |s.waiters| == |s.threads| == |c.ops|
  {
    forall w :: 0 <= w < |c.ops| ==> Named(c.ops[w], s.threads[w], s.waiters[w])
  }

  lemma OwnNamed(c: Config, a: nat, op: Op, t: Thread, v: View, timedOut: bool, w: Waiter, w': Waiter)
    requires op.WaitMany? && t.Many? && GoodLocals(op, t) && v.own == w && |w.marks| == |op.events|
    requires Named(op, t, w) && OwnWaiter(c, op, t, ActionMany(a, op, t, v), w, w')
    ensures Named(op, NextMany(c, op, t, v, timedOut), w')
  {
  }

  lemma KeptNamed(op: Op, t: Thread, t': Thread, w: Waiter, w': Waiter)
    requires Named(op, t, w) && (t' == t || t' == Wake(t)) && w'.status == w.status && |w'.marks| == |w.marks|
    requires forall i :: 0 <= i < |w.marks| ==> Counted(w'.marks[i]) == Counted(w.marks[i])
    ensures Named(op, t', w')
  {
  }

  lemma FiredNamed(c: Config, s: State, a: nat, ch: Choice, act: Action, s': State, w: nat)
    requires Modes(c, s) && IsMarkStep(c, s, a, ch, act, s')
    requires act.Fire? && Signals(s, a, act, w) && w < |c.ops| && Named(c.ops[w], s.threads[w], s.waiters[w])
    ensures w < |s'.waiters| && w < |s'.threads| && Named(c.ops[w], s'.threads[w], s'.waiters[w])
  {
    FiredWhileOut(c, s, a, ch, act, s', w);
    FiredCounted(c, s, a, ch, act, s', w);
    ApplyMode(c, s, a, act, ch.pick, w);
  }

  lemma StepNamed(c: Config, s: State, a: nat, ch: Choice, act: Action, s': State, w: nat)
    requires Modes(c, s) && IsMarkStep(c, s, a, ch, act, s')
    requires w < |c.ops| && c.ops[w].WaitMany? && Named(c.ops[w], s.threads[w], s.waiters[w])
    ensures w < |s'.waiters| && w < |s'.threads| && Named(c.ops[w], s'.threads[w], s'.waiters[w])
  {
    if act.Fire? && Signals(s, a, act, w) {
      FiredNamed(c, s, a, ch, act, s', w);
    } else if w == a {
      StepSizes(c, s, a, ch, act, s');
      StepOwnWaiter(c, s, a, ch, act, s');
      assert GoodWaiter(c, s, a);
      OwnNamed(c, a, c.ops[a], s.threads[a], ViewOf(c, s, a), ch.timedOut, s.waiters[a], s'.waiters[a]);
    } else {
      OtherThread(c, s, a, ch, act, s', w);
      FieldsKept(c, s, a, ch, act, s', w);
      CountedKept(c, s, a, ch, act, s', w);
      KeptNamed(c.ops[w], s.threads[w], s'.threads[w], s.waiters[w], s'.waiters[w]);
    }
  }

  lemma {:induction false} RunNamed(c: Config, run: seq<State>, n: nat)
    requires IsRun(c, run) && n < |run|
    ensures |run[n].waiters| == |run[n].threads| == |c.ops| && AllNamed(c, run[n])
  {
    if n == 0 {
      InitNamed(c, run[0]);
    } else {
      RunNamed(c, run, n - 1);
      RunNextNamed(c, run, n - 1);
    }
  }

  lemma RunNextNamed(c: Config, run: seq<State>, n: nat)
    requires IsRun(c, run) && n + 1 < |run|
    requires |run[n].waiters| == |run[n].threads| == |c.ops| && AllNamed(c, run[n])
    ensures |run[n + 1].waiters| == |run[n + 1].threads| == |c.ops| && AllNamed(c, run[n + 1])
  {
    RunModes(c, run, n);
    assert NextAt(c, run, n);
    NextNamed(c, run[n], run[n + 1]);
  }

  lemma RunModes(c: Config, run: seq<State>, n: nat)
    requires IsRun(c, run) && n < |run|
    ensures Modes(c, run[n])
  {
    RunInv(c, run, n);
  }

  lemma InitNamed(c: Config, s: State)
    requires c.Valid() && Init(c, s)
    ensures |s.waiters| == |s.threads| == |c.ops| && AllNamed(c, s)
  {
  }

  lemma NextNamed(c: Config, s: State, s': State)
    requires Modes(c, s) && AllNamed(c, s) && Next(c, s, s')
    ensures |s'.waiters| == |s'.threads| == |c.ops| && AllNamed(c, s')
  {
    if a: nat, ch: Choice :| a < |c.ops| && CanStep(c, s, a, ch) && s' == Step(c, s, a, ch) {
      StepAllNamed(c, s, a, ch);
    }
  }

  lemma StepAllNamed(c: Config, s: State, a: nat, ch: Choice)
    requires Modes(c, s) && AllNamed(c, s) && a < |c.ops| && CanStep(c, s, a, ch)
    ensures var s' := Step(c, s, a, ch); |s'.waiters| == |s'.threads| == |c.ops| && AllNamed(c, s')
  {
    var act, s' := StepParts(c, s, a, ch);
    QueueMoves(c, s, a, ch, act, s');
    StepSizes(c, s, a, ch, act, s');
    forall w | 0 <= w < |c.ops| ensures Named(c.ops[w], s'.threads[w], s'.waiters[w]) {
      if c.ops[w].WaitMany? {
        StepNamed(c, s, a, ch, act, s', w);
      }
    }
  }

  /** Whatever the kinds of its events, a finished call that waits for any event reports -1 or a position that
    was found signalled while registering or was notified by a setter, and a call that succeeds never -1. */
  lemma AnyReportsASignal(c: Config, run: seq<State>, n: nat, w: nat)
    requires IsRun(c, run) && n < |run| && w < |c.ops| && c.ops[w].WaitMany? && !c.ops[w].all
    ensures w < |run[n].waiters| && w < |run[n].threads| && run[n].threads[w].Many?
    ensures |run[n].waiters[w].hits| == |c.ops[w].events|
    ensures run[n].threads[w].m == MDone ==>
      var index := run[n].threads[w].index;
      && -1 <= index < |c.ops[w].events|
      && (index != -1 ==> run[n].waiters[w].hits[index] == 1)
      && (run[n].threads[w].result == Success ==> index != -1)
  {
    RunInv(c, run, n);
    RunNamed(c, run, n);
    var s := run[n];
    assert GoodThread(c, s, w) && GoodWaiter(c, s, w) && WaiterMarks(c, s, w) && WaiterMode(c, s, w);
    assert Named(c.ops[w], s.threads[w], s.waiters[w]);
  }
}
