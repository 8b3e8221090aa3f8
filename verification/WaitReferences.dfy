/** Lifetime of the shared waiter objects: reference counts, single destruction, no use after it. */
module WaitReferences {
  import opened WaitModel
  import opened WaitLocks
  import opened WaitQueues
  import opened WaitCounts
  import opened WaitModes
  import opened WaitRuns

  // ---------------------------------------------------------------- counting entries

  /** Two finite sets that a function matches one to one have the same size. */
  lemma {:induction false} SameSize<A, B>(xs: set<A>, ys: set<B>, f: A -> B)
    requires forall x :: x in xs ==> f(x) in ys
    requires forall x, x' :: x in xs && x' in xs && f(x) == f(x') ==> x == x'
    requires forall y :: y in ys ==> exists x :: x in xs && f(x) == y
    ensures |xs| == |ys|
  {
    if xs == {} {
      assert ys == {};
    } else {
      var x :| x in xs;
      SameSize(xs - {x}, ys - {f(x)}, f);
    }
  }

  function LivePositions(marks: seq<Mark>): set<nat> {
    set i: nat | i < |marks| && Live(marks[i])
  }

  lemma {:induction false} CountLive(marks: seq<Mark>)
    ensures |LivePositions(marks)| == Count(marks, {Queued, Firing})
  {
    if marks != [] {
      var last := |marks| - 1;
      CountLive(marks[..last]);
      var before := LivePositions(marks[..last]);
      assert LivePositions(marks) == if Live(marks[last]) then before + {last} else before;
    }
  }

  /** The entries, over all deques, that hold a reference to waiter `w`: event and place. */
  function EntriesOf(s: State, w: nat): set<(nat, nat)> {
    set e: nat, k: nat | e < |s.events| && k < |s.events[e].queue| && s.events[e].queue[k].waiter == w :: (e, k)
  }

  function PositionAt(s: State, p: (nat, nat)): nat {
    if p.0 < |s.events| && p.1 < |s.events[p.0].queue| then s.events[p.0].queue[p.1].index else 0
  }

  /** Entries of a waiter and live positions of its call match one to one. */
  lemma EntriesAreLivePositions(c: Config, s: State, w: nat)
    requires Counts(c, s) && w < |c.ops| && c.ops[w].WaitMany?
    ensures |EntriesOf(s, w)| == Count(s.waiters[w].marks, {Queued, Firing})
  {
    var marks := s.waiters[w].marks;
    var xs, ys := EntriesOf(s, w), LivePositions(marks);
    var f := (p: (nat, nat)) => PositionAt(s, p);
    assert GoodWaiter(c, s, w) && WaiterMarks(c, s, w) && GoodThread(c, s, w);
    forall p | p in xs ensures f(p) in ys && c.ops[w].events[f(p)] == p.0 {
      assert GoodEvent(c, s, p.0) && QueueMarks(s, p.0);
    }
    forall p, p' | p in xs && p' in xs && f(p) == f(p') ensures p == p' {
      assert QueueMarks(s, p.0);
    }
    forall i | i in ys ensures exists p :: p in xs && f(p) == i {
      var e := c.ops[w].events[i];
      var k :| 0 <= k < |s.events[e].queue| && s.events[e].queue[k] == Registration(w, i);
      assert (e, k) in xs && f((e, k)) == i;
    }
    SameSize(xs, ys, f);
    CountLive(marks);
  }

  // ---------------------------------------------------------------- the theorems

  /** References that do not belong to a deque: until its final subtraction, the call counts itself,
    the positions it skipped and, inside the registration loop, those not visited yet. */
  function OwnReferences(op: Op, t: Thread): int
    requires op.WaitMany? && t.Many?
  {
    if t.m == MDone then 0
    else 1 + t.skipped + if LoopOver(t) then 0 else |op.events| - t.i
  }

  /** In every run, a waiter's RefCount is the number of deque entries that still hold a reference
    plus the references of the call itself. */
  lemma ReferenceCount(c: Config, run: seq<State>, n: nat, w: nat)
    requires IsRun(c, run) && n < |run| && w < |c.ops| && c.ops[w].WaitMany?
    ensures w < |run[n].waiters| && w < |run[n].threads| && run[n].threads[w].Many?
    ensures run[n].waiters[w].refCount == |EntriesOf(run[n], w)| + OwnReferences(c.ops[w], run[n].threads[w])
  {
    RunInv(c, run, n);
    var s := run[n];
    assert GoodThread(c, s, w) && WaiterCounts(c, s, w) && WaiterMarks(c, s, w) && GoodWaiter(c, s, w);
    EntriesAreLivePositions(c, s, w);
    CountUnvisited(s.waiters[w].marks, s.threads[w].i);
  }

  /** In every run, a waiter object has been destroyed once if its call is over and no entry refers to
    it, and not at all otherwise. */
  lemma DestroyedOnce(c: Config, run: seq<State>, n: nat, w: nat)
    requires IsRun(c, run) && n < |run| && w < |c.ops| && c.ops[w].WaitMany?
    ensures w < |run[n].waiters| && w < |run[n].threads|
    ensures run[n].waiters[w].deletes ==
              if Finished(run[n].threads[w]) && EntriesOf(run[n], w) == {} then 1 else 0
  {
    ReferenceCount(c, run, n, w);
    RunInv(c, run, n);
    assert WaiterCounts(c, run[n], w);
  }

  /** The waiter object whose fields the next step of thread `a` reads or writes, if any: its own
    until the final subtraction, and the one named by the deque entry it works on. */
  ghost predicate Touches(c: Config, s: State, a: nat, w: nat)
    requires a < |c.ops| && a < |s.threads|
  {
    var t, v := s.threads[a], ViewOf(c, s, a);
    || (c.ops[a].WaitMany? && a == w && !Finished(t))
    || (CursorOf(t) < |v.event.queue| && v.entry.waiter == w
        && match t
           case Many(m, _, _, _, _, _, _) => m == MScan || m == MDropExpired
           case One(_, _, _) => false
           case Setter(p, _, _, _) => p == SHead || HasTarget(t)
           case Purger(u, _) => u == PScan || u == PDropExpired)
  }

  /** An action changes no waiter other than those it touches. */
  lemma TouchesCoverWrites(c: Config, s: State, a: nat, ch: Choice, w: nat)
    requires Inv(c, s) && a < |c.ops| && CanStep(c, s, a, ch) && w < |s.waiters|
    requires c.ops[w].WaitMany? && !Touches(c, s, a, w)
    ensures Step(c, s, a, ch).waiters[w] == s.waiters[w]
  {
    var act, s' := StepParts(c, s, a, ch);
    if act.LockWaiter? || act.UnlockWaiter? || act.Fire? || act.DropHead? || act.DropExpired? {
      WritesOfEntries(c, s, a, ch, act, s', w);
    }
  }

  /** The actions on the waiter of a deque entry. */
  lemma WritesOfEntries(c: Config, s: State, a: nat, ch: Choice, act: Action, s': State, w: nat)
    requires IsStep(c, s, a, ch, act, s') && w < |s.waiters| && c.ops[w].WaitMany? && !Touches(c, s, a, w)
    requires act.LockWaiter? || act.UnlockWaiter? || act.Fire? || act.DropHead? || act.DropExpired?
    ensures s'.waiters[w] == s.waiters[w]
  {
    assert c.ValidOp(c.ops[a]);
    if act.LockWaiter? || act.UnlockWaiter? {
      assert GoodThread(c, s, a);
    } else {
      OtherEntry(c, s, a, ch, act, s', w);
    }
  }

  lemma OtherEntry(c: Config, s: State, a: nat, ch: Choice, act: Action, s': State, w: nat)
    requires IsStep(c, s, a, ch, act, s') && w < |s.waiters| && !Touches(c, s, a, w) && c.ValidOp(c.ops[a])
    requires act.Fire? || act.DropHead? || act.DropExpired?
    ensures s'.waiters[w] == s.waiters[w]
  {
  }

  /** In every run, no thread ever touches a destroyed waiter, and every object it touches still has a
    positive reference count (the assertions on `ref_count` in the code hold). */
  lemma NeverTouchedAfterDestruction(c: Config, run: seq<State>, n: nat, a: nat, w: nat)
    requires IsRun(c, run) && n < |run| && a < |c.ops|
    requires a < |run[n].threads| && Touches(c, run[n], a, w)
    ensures w < |run[n].waiters|
    ensures run[n].waiters[w].deletes == 0 && run[n].waiters[w].refCount >= 1
  {
    RunInv(c, run, n);
    var s := run[n];
    assert GoodThread(c, s, a) && c.ValidOp(c.ops[a]);
    if !(c.ops[a].WaitMany? && a == w) {
      var e, k := EventOf(c.ops[a], s.threads[a]), CursorOf(s.threads[a]);
      assert GoodEvent(c, s, e);
      assert (e, k) in EntriesOf(s, w);
    }
    assert GoodThread(c, s, w) && WaiterMarks(c, s, w) && GoodWaiter(c, s, w);
    ReferenceCount(c, run, n, w);
    DestroyedOnce(c, run, n, w);
  }
}
