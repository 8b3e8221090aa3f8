/** Reference counts and the wait-all counter, as sums over the history of a waiter's positions. */
module WaitCounts {
  import opened Options
  import opened WaitModel
  import opened WaitLocks
  import opened WaitQueues

  // ---------------------------------------------------------------- counting marks

  /** How many marks are in `kinds`. */
  function Count(marks: seq<Mark>, kinds: set<Mark>): nat {
    if marks == [] then 0
    else Count(marks[..|marks| - 1], kinds) + if marks[|marks| - 1] in kinds then 1 else 0
  }

  lemma {:induction false} CountUpdate(marks: seq<Mark>, i: nat, m: Mark, kinds: set<Mark>)
    requires i < |marks|
    ensures Count(marks[i := m], kinds) + (if marks[i] in kinds then 1 else 0)
         == Count(marks, kinds) + (if m in kinds then 1 else 0)
  {
    var last := |marks| - 1;
    if i == last {
      assert marks[i := m][..last] == marks[..last];
    } else {
      CountUpdate(marks[..last], i, m, kinds);
      assert marks[i := m][..last] == marks[..last][i := m];
    }
  }

  lemma {:induction false} CountPositive(marks: seq<Mark>, i: nat, kinds: set<Mark>)
    requires i < |marks| && marks[i] in kinds
    ensures Count(marks, kinds) >= 1
  {
    if i < |marks| - 1 { CountPositive(marks[..|marks| - 1], i, kinds); }
  }

  /** Positions from `i` on are unvisited, and no others. */
  lemma {:induction false} CountUnvisited(marks: seq<Mark>, i: nat)
    requires i <= |marks|
    requires forall j :: 0 <= j < |marks| ==> (marks[j] == Unvisited <==> i <= j)
    ensures Count(marks, {Unvisited}) == |marks| - i
  {
    if marks != [] {
      var last := |marks| - 1;
      if i <= last { CountUnvisited(marks[..last], i); }
      else { CountUnvisited(marks[..last], last); }
    }
  }

  /** Every mark is counted exactly once. */
  lemma {:induction false} CountPartition(marks: seq<Mark>)
    ensures Count(marks, {Unvisited, Queued, Expired}) + Count(marks, {Satisfied, Firing, Fired}) == |marks|
    ensures Count(marks, {Unvisited}) + Count(marks, {Queued}) <= Count(marks, {Unvisited, Queued, Expired})
    ensures Count(marks, {Satisfied, Firing, Fired})
         == Count(marks, {Satisfied}) + Count(marks, {Firing, Fired})
  {
    if marks != [] {
      CountPartition(marks[..|marks| - 1]);
      match marks[|marks| - 1] {
        case Unvisited => case Satisfied => case Queued => case Firing => case Fired => case Expired =>
      }
    }
  }

  lemma {:induction false} CountInitial(n: nat, kinds: set<Mark>)
    ensures Count(seq(n, i => Unvisited), kinds) == if Unvisited in kinds then n else 0
  {
    if n > 0 {
      assert seq(n, i => Unvisited)[..n - 1] == seq(n - 1, i => Unvisited);
      CountInitial(n - 1, kinds);
    }
  }

  // ---------------------------------------------------------------- the invariant

  /** The registration loop is over. */
  predicate LoopOver(t: Thread) {
    t.Many? && (t.m == MCheck || t.m == MSleep || t.m == MRelock || t.m == MFinish || t.m == MUnlockSelf
                || t.m == MRelease || t.m == MDone)
  }

  /** The reference count of a waiter, from the history of its positions: one for each registration
    whose reference was not dropped yet, and, until the call's own final subtraction, one for the call
    itself, for each position that needed no registration and for each position not visited. */
  function References(marks: seq<Mark>, released: bool): nat {
    Count(marks, {Queued, Firing})
    + if released then 0 else 1 + Count(marks, {Satisfied}) + Count(marks, {Unvisited})
  }

  ghost predicate WaiterCounts(c: Config, s: State, w: nat)
    requires w < |s.waiters| && w < |c.ops| && w < |s.threads|
  {
    c.ops[w].WaitMany? && s.threads[w].Many? ==>
      var wt, t := s.waiters[w], s.threads[w];
      && wt.refCount == References(wt.marks, t.m == MDone)
      && wt.deletes == (if wt.refCount == 0 then 1 else 0)
      && t.skipped == Count(wt.marks, {Satisfied}) + (if LoopOver(t) then Count(wt.marks, {Unvisited}) else 0)
      && (c.ops[w].all ==> wt.status == Count(wt.marks, {Unvisited, Queued, Expired}))
  }

  ghost predicate Counts(c: Config, s: State) {
    && Marks(c, s)
    && (forall w :: 0 <= w < |s.waiters| ==> WaiterCounts(c, s, w))
  }

  // ---------------------------------------------------------------- one step, seen locally

  /** How `skipped` and the end of the loop move. */
  ghost predicate SkipMove(op: Op, t: Thread, t': Thread, act: Action) {
    op.WaitMany? && t.Many? ==>
      && t'.Many?
      && (LoopOver(t) ==> LoopOver(t') && t'.skipped == t.skipped && !act.Satisfy?)
      && (!LoopOver(t) && !LoopOver(t') ==> t'.skipped == t.skipped + if act.Satisfy? then 1 else 0)
      && (!LoopOver(t) && LoopOver(t') ==>
            if act.Satisfy? && !op.all then t'.skipped == t.skipped + |op.events| - t.i
            else t'.skipped == t.skipped + (if act.Satisfy? then 1 else 0) && t'.i == |op.events|)
      && (act.Release? ==> act.n == 1 + t.skipped && LoopOver(t) && t'.m == MDone)
      && (t.m != MDone && t'.m == MDone ==> act.Release?)
  }

  lemma ManySkipMove(c: Config, a: nat, op: Op, t: Thread, v: View, timedOut: bool)
    requires op.WaitMany? && GoodLocals(op, t) && !Finished(t)
    ensures SkipMove(op, t, NextMany(c, op, t, v, timedOut), ActionMany(a, op, t, v))
  {
  }

  // ---------------------------------------------------------------- what an action does to a waiter

  /** References of waiter `w` that an action drops. */
  function Dropped(s: State, a: nat, act: Action, w: nat): nat {
    if act.Release? && a == w then act.n
    else if (act.DropExpired? || act.DropHead?) && Marked(s, a, act).Some?
            && Marked(s, a, act).value.0.waiter == w then 1
    else 0
  }

  /** The action counts one more position of `w` as signalled. */
  predicate Signals(s: State, a: nat, act: Action, w: nat) {
    (act.Satisfy? || act.Fire?) && Marked(s, a, act).Some? && Marked(s, a, act).value.0.waiter == w
  }

  lemma ApplyReferences(c: Config, s: State, a: nat, act: Action, pick: nat, w: nat)
    requires Applicable(c, s, a, act) && w < |s.waiters|
    ensures var wt, wt', n := s.waiters[w], Apply(c, s, a, act, pick).waiters[w], Dropped(s, a, act, w);
      && wt'.refCount == wt.refCount - n
      && (n > 0 ==> wt'.deletes == wt.deletes + if wt.refCount == n then 1 else 0)
      && (n == 0 && !act.Release? ==> wt'.deletes == wt.deletes)
  {
  }

  lemma ApplyStatus(c: Config, s: State, a: nat, act: Action, pick: nat, w: nat)
    requires Applicable(c, s, a, act) && w < |s.waiters| && c.ops[w].WaitMany? && c.ops[w].all
    ensures Apply(c, s, a, act, pick).waiters[w].status == s.waiters[w].status - if Signals(s, a, act, w) then 1 else 0
  {
  }

  lemma ApplyMarksOf(c: Config, s: State, a: nat, act: Action, pick: nat, w: nat)
    requires Applicable(c, s, a, act) && w < |s.waiters|
    ensures Apply(c, s, a, act, pick).waiters[w].marks ==
      var wt := s.waiters[w];
      if Marked(s, a, act).Some? && Marked(s, a, act).value.0.waiter == w
         && Marked(s, a, act).value.0.index < |wt.marks|
      then wt.marks[Marked(s, a, act).value.0.index := Marked(s, a, act).value.1] else wt.marks
  {
  }

  // ---------------------------------------------------------------- preservation

  ghost predicate IsCountStep(c: Config, s: State, a: nat, ch: Choice, act: Action, s': State, w: nat) {
    && IsMarkStep(c, s, a, ch, act, s')
    && w < |c.ops| && c.ops[w].WaitMany? && s.threads[w].Many?
    && WaiterCounts(c, s, w)
    && (a == w ==> SkipMove(c.ops[a], s.threads[a], s'.threads[a], act))
  }

  /** The one position of `w` whose mark changes, with the change to every count. */
  lemma CountChange(c: Config, s: State, a: nat, ch: Choice, act: Action, s': State, w: nat, kinds: set<Mark>)
    requires IsCountStep(c, s, a, ch, act, s', w)
    ensures w < |s'.waiters|
    ensures var wt, wt' := s.waiters[w], s'.waiters[w];
      if Marked(s, a, act).Some? && Marked(s, a, act).value.0.waiter == w then
        Count(wt'.marks, kinds) + (if MarkOf(s, Marked(s, a, act).value.0) in kinds then 1 else 0)
          == Count(wt.marks, kinds) + (if Marked(s, a, act).value.1 in kinds then 1 else 0)
      else wt'.marks == wt.marks
  {
    ApplyMarksOf(c, s, a, act, ch.pick, w);
    assert GoodWaiter(c, s, w);
    if Marked(s, a, act).Some? && Marked(s, a, act).value.0.waiter == w {
      CountUpdate(s.waiters[w].marks, Marked(s, a, act).value.0.index, Marked(s, a, act).value.1, kinds);
    }
  }

  /** The mark that changes, before and after. */
  lemma MarkBefore(c: Config, s: State, a: nat, ch: Choice, act: Action, s': State)
    requires IsMarkStep(c, s, a, ch, act, s')
    ensures Marked(s, a, act).Some? ==>
      var m, m' := MarkOf(s, Marked(s, a, act).value.0), Marked(s, a, act).value.1;
      match act
      case Enqueue(_) => m == Unvisited && m' == Queued
      case Satisfy => m == Unvisited && m' == Satisfied
      case DropExpired(_, _) => m == Queued && m' == Expired
      case Fire(_) => m == Queued && m' == Firing
      case DropHead(_, mark) => m' == mark && ((m == Queued && mark == Expired) || (m == Firing && mark == Fired))
      case _ => false
    ensures act.Enqueue? || act.Satisfy? || act.DropExpired? || act.Fire? || act.DropHead?
      <==> Marked(s, a, act).Some?
  {
    if act.Enqueue? || act.Satisfy? { VisitedIsNew(c, s, a, ch, act, s'); }
    else if act.DropExpired? || act.Fire? || act.DropHead? { RemovedWasLive(c, s, a, ch, act, s'); }
  }

  lemma StepStatus(c: Config, s: State, a: nat, ch: Choice, act: Action, s': State, w: nat)
    requires IsCountStep(c, s, a, ch, act, s', w)
    ensures w < |s'.waiters|
    ensures c.ops[w].all ==>
              s'.waiters[w].status == Count(s'.waiters[w].marks, {Unvisited, Queued, Expired})
  {
    if c.ops[w].all {
      ApplyStatus(c, s, a, act, ch.pick, w);
    }
    MarkBefore(c, s, a, ch, act, s');
    CountChange(c, s, a, ch, act, s', w, {Unvisited, Queued, Expired});
  }

  lemma StepReferences(c: Config, s: State, a: nat, ch: Choice, act: Action, s': State, w: nat)
    requires IsCountStep(c, s, a, ch, act, s', w)
    ensures w < |s'.waiters| && w < |s'.threads| && s'.threads[w].Many?
    ensures s'.waiters[w].refCount == References(s'.waiters[w].marks, s'.threads[w].m == MDone)
  {
    ApplyReferences(c, s, a, act, ch.pick, w);
    ApplyThreads(c, s, a, act, ch.pick);
    SkippedCounts(c, s, a, ch, act, s', w);
    LiveCounts(c, s, a, ch, act, s', w);
  }

  lemma LiveCounts(c: Config, s: State, a: nat, ch: Choice, act: Action, s': State, w: nat)
    requires IsCountStep(c, s, a, ch, act, s', w)
    ensures w < |s'.waiters|
    ensures Count(s'.waiters[w].marks, {Queued, Firing}) == Count(s.waiters[w].marks, {Queued, Firing})
              + (if act.Enqueue? && a == w then 1 else 0) - (if act.Release? then 0 else Dropped(s, a, act, w))
  {
    MarkBefore(c, s, a, ch, act, s');
    CountChange(c, s, a, ch, act, s', w, {Queued, Firing});
  }

  lemma StepDeletes(c: Config, s: State, a: nat, ch: Choice, act: Action, s': State, w: nat)
    requires IsCountStep(c, s, a, ch, act, s', w)
    ensures w < |s'.waiters|
    ensures s'.waiters[w].deletes == if s'.waiters[w].refCount == 0 then 1 else 0
  {
    ApplyReferences(c, s, a, act, ch.pick, w);
    assert GoodWaiter(c, s, w);
    if Dropped(s, a, act, w) > 0 && !act.Release? {
      MarkBefore(c, s, a, ch, act, s');
      CountPositive(s.waiters[w].marks, Marked(s, a, act).value.0.index, {Queued, Firing});
    }
  }

  lemma StepSkipped(c: Config, s: State, a: nat, ch: Choice, act: Action, s': State, w: nat)
    requires IsCountStep(c, s, a, ch, act, s', w)
    ensures w < |s'.waiters| && w < |s'.threads| && s'.threads[w].Many?
    ensures s'.threads[w].skipped == Count(s'.waiters[w].marks, {Satisfied})
              + (if LoopOver(s'.threads[w]) then Count(s'.waiters[w].marks, {Unvisited}) else 0)
  {
    ApplyThreads(c, s, a, act, ch.pick);
    SkippedCounts(c, s, a, ch, act, s', w);
    if a == w {
      assert WaiterMarks(c, s, w) && GoodWaiter(c, s, w) && GoodThread(c, s, w);
      CountUnvisited(s.waiters[w].marks, s.threads[w].i);
    }
  }

  /** How the positions satisfied and unvisited change. */
  lemma SkippedCounts(c: Config, s: State, a: nat, ch: Choice, act: Action, s': State, w: nat)
    requires IsCountStep(c, s, a, ch, act, s', w)
    ensures w < |s'.waiters|
    ensures Count(s'.waiters[w].marks, {Satisfied}) == Count(s.waiters[w].marks, {Satisfied})
              + if act.Satisfy? && a == w then 1 else 0
    ensures Count(s'.waiters[w].marks, {Unvisited}) == Count(s.waiters[w].marks, {Unvisited})
              - if (act.Satisfy? || act.Enqueue?) && a == w then 1 else 0
  {
    MarkBefore(c, s, a, ch, act, s');
    CountChange(c, s, a, ch, act, s', w, {Satisfied});
    CountChange(c, s, a, ch, act, s', w, {Unvisited});
  }

  lemma StepCounts(c: Config, s: State, a: nat, ch: Choice)
    requires Counts(c, s) && a < |c.ops| && CanStep(c, s, a, ch)
    ensures Counts(c, Step(c, s, a, ch))
  {
    var act, s' := StepParts(c, s, a, ch);
    QueueMoves(c, s, a, ch, act, s');
    StepMarks(c, s, a, ch);
    if c.ops[a].WaitMany? {
      ManySkipMove(c, a, c.ops[a], s.threads[a], ViewOf(c, s, a), ch.timedOut);
    }
    forall w | 0 <= w < |s'.waiters| ensures WaiterCounts(c, s', w) {
      assert GoodThread(c, s, w);
      if c.ops[w].WaitMany? {
        StepReferences(c, s, a, ch, act, s', w);
        StepDeletes(c, s, a, ch, act, s', w);
        StepSkipped(c, s, a, ch, act, s', w);
        StepStatus(c, s, a, ch, act, s', w);
      }
    }
  }

  lemma ResetCounts(c: Config, s: State, e: nat)
    requires Counts(c, s) && e < |s.events|
    ensures Counts(c, Reset(s, e))
  {
    ResetMarks(c, s, e);
    forall w | 0 <= w < |s.waiters| ensures WaiterCounts(c, Reset(s, e), w) {
      assert WaiterCounts(c, s, w);
    }
  }

  lemma InitCounts(c: Config, s: State)
    requires c.Valid() && Init(c, s)
    ensures Counts(c, s)
  {
    InitMarks(c, s);
    forall w | 0 <= w < |s.waiters| ensures WaiterCounts(c, s, w) {
      if c.ops[w].WaitMany? {
        var n := |c.ops[w].events|;
        CountInitial(n, {Queued, Firing});
        CountInitial(n, {Satisfied});
        CountInitial(n, {Unvisited});
        CountInitial(n, {Unvisited, Queued, Expired});
      }
    }
  }
}
