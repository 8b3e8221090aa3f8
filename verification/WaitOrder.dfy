/**
 Deadlock freedom, and what a state in which nothing moves looks like.

 A WaitMany call locks its waiter and then each event in turn; a setter locks its event and then
 waiters. The two orders are opposite, yet no cycle of blocked threads arises as long as every
 WaitMany call lists its events in one global order.
*/
module WaitOrder {
  import opened Options
  import opened WaitModel
  import opened WaitLocks
  import opened WaitQueues
  import opened WaitCounts
  import opened WaitModes
  import opened WaitSignals
  import opened WaitWakeups
  import opened WaitFifo
  import opened WaitExpiry
  import opened WaitRuns

  /** Every WaitMany call lists distinct events, in increasing `rank`. */
  ghost predicate Ordered(c: Config, rank: seq<nat>) {
    && |rank| == |c.auto|
    && forall a, i, j :: 0 <= a < |c.ops| && c.ops[a].WaitMany? && 0 <= i < j < |c.ops[a].events|
                         && c.ops[a].events[i] < |rank| && c.ops[a].events[j] < |rank|
         ==> rank[c.ops[a].events[i]] < rank[c.ops[a].events[j]]
  }

  function NextAction(c: Config, s: State, a: nat): Action
    requires Shape(c, s) && a < |c.ops|
  {
    assert GoodThread(c, s, a);
    ActionOf(a, c.ops[a], s.threads[a], ViewOf(c, s, a))
  }

  /** The next step of `a` locks a mutex that `b` holds. */
  ghost predicate BlockedOn(c: Config, s: State, a: nat, b: nat)
    requires Shape(c, s)
  {
    && a < |c.ops| && b < |c.ops| && !Finished(s.threads[a])
    && match NextAction(c, s, a)
       case LockEvent(e) => e < |s.events| && s.events[e].owner == Some(b)
       case LockWaiter(w) => w < |s.waiters| && s.waiters[w].owner == Some(b)
       case _ => false
  }

  ghost predicate Blocked(c: Config, s: State, a: nat)
    requires Shape(c, s) && a < |c.ops|
  {
    !Finished(s.threads[a]) && !LockFree(s, NextAction(c, s, a))
  }

  /** How far along the global order a blocked thread is. */
  function Level(c: Config, s: State, rank: seq<nat>, a: nat): nat
    requires Shape(c, s) && a < |c.ops|
  {
    match NextAction(c, s, a)
    case LockEvent(e) => if e < |rank| then 2 * rank[e] else 0
    case LockWaiter(_) =>
      if c.ops[a].Set? && c.ops[a].event < |rank| then 2 * rank[c.ops[a].event] + 1 else 0
    case _ => 0
  }

  /** Whoever blocks a thread holds the mutex, so it is neither finished nor asleep. */
  lemma BlockerHolds(c: Config, s: State, a: nat, b: nat)
    requires Locks(c, s) && BlockedOn(c, s, a, b)
    ensures !Finished(s.threads[b]) && !IsAsleep(s.threads[b])
    ensures match NextAction(c, s, a)
            case LockEvent(e) => HoldsEvent(s.threads[b]) && EventOf(c.ops[b], s.threads[b]) == e
            case LockWaiter(w) =>
              (b == w && HoldsSelf(s.threads[b])) || (HoldsTarget(s.threads[b]) && Targets(c, s, b, w))
            case _ => false
  {
    match NextAction(c, s, a)
    case LockEvent(e) => assert EventLock(c, s, e);
    case LockWaiter(w) => assert WaiterLock(c, s, w);
  }

  /** A blocked thread is about to lock an event without holding one, or is a setter about to lock
    the waiter at the head of the deque it holds, or is a sleeper about to take back its own waiter. */
  lemma BlockedForms(c: Config, s: State, a: nat)
    requires Shape(c, s) && a < |c.ops| && Blocked(c, s, a)
    ensures match NextAction(c, s, a)
            case LockEvent(e) =>
              && !HoldsEvent(s.threads[a]) && !HoldsTarget(s.threads[a])
              && (HoldsSelf(s.threads[a]) ==>
                    c.ops[a].WaitMany? && s.threads[a].Many? && s.threads[a].i < |c.ops[a].events|
                    && e == c.ops[a].events[s.threads[a].i])
            case LockWaiter(w) =>
              && !HoldsSelf(s.threads[a]) && !HoldsTarget(s.threads[a])
              && (if c.ops[a].Set? then HoldsEvent(s.threads[a]) && Targets(c, s, a, w)
                  else w == a && !HoldsEvent(s.threads[a]))
            case _ => false
  {
    assert GoodThread(c, s, a) && c.ValidOp(c.ops[a]);
  }

  /** Along "is blocked on a thread that is itself blocked", the level rises. */
  lemma LevelRises(c: Config, s: State, rank: seq<nat>, a: nat, b: nat)
    requires Marks(c, s) && Ordered(c, rank)
    requires BlockedOn(c, s, a, b) && Blocked(c, s, b)
    ensures Level(c, s, rank, a) < Level(c, s, rank, b)
  {
    BlockerHolds(c, s, a, b);
    BlockedForms(c, s, a);
    BlockedForms(c, s, b);
    assert c.ValidOp(c.ops[a]) && c.ValidOp(c.ops[b]);
    if NextAction(c, s, a).LockWaiter? {
      LevelRisesAtWaiter(c, s, rank, a, b);
    }
  }

  lemma LevelRisesAtWaiter(c: Config, s: State, rank: seq<nat>, a: nat, b: nat)
    requires Marks(c, s) && Ordered(c, rank)
    requires BlockedOn(c, s, a, b) && Blocked(c, s, b) && NextAction(c, s, a).LockWaiter?
    ensures Level(c, s, rank, a) < Level(c, s, rank, b)
  {
    BlockerHolds(c, s, a, b);
    BlockedForms(c, s, a);
    BlockedForms(c, s, b);
    assert c.ValidOp(c.ops[a]) && c.ValidOp(c.ops[b]);
    if c.ops[a].Set? {
      var e := c.ops[a].event;
      var r := s.events[e].queue[0];
      assert GoodEvent(c, s, e) && QueueMarks(s, e);
      assert WaiterMarks(c, s, b) && GoodWaiter(c, s, b) && GoodThread(c, s, b);
      assert r.index < s.threads[b].i;
      assert rank[c.ops[b].events[r.index]] < rank[c.ops[b].events[s.threads[b].i]];
    }
  }

  // ---------------------------------------------------------------- no cycle, and progress

  /** Each thread of the chain is blocked on the next one. */
  ghost predicate Chain(c: Config, s: State, chain: seq<nat>)
    requires Shape(c, s)
  {
    forall i :: 0 <= i < |chain| - 1 ==> BlockedOn(c, s, chain[i], chain[i + 1])
  }

  /** In every run with a global order, no thread is, directly or through others, blocked on itself. */
  lemma NoDeadlock(c: Config, run: seq<State>, n: nat, rank: seq<nat>, chain: seq<nat>)
    requires IsRun(c, run) && n < |run| && Ordered(c, rank)
    requires |chain| >= 2 && Shape(c, run[n]) && Chain(c, run[n], chain)
    ensures chain[0] != chain[|chain| - 1]
  {
    RunInv(c, run, n);
    if chain[0] == chain[|chain| - 1] {
      forall i | 0 <= i < |chain| ensures chain[i] < |c.ops| {
        if i < |chain| - 1 {
          assert BlockedOn(c, run[n], chain[i], chain[i + 1]);
        } else {
          assert BlockedOn(c, run[n], chain[0], chain[1]);
        }
      }
      assert BlockedOn(c, run[n], chain[0], chain[1]);
      ChainLevels(c, run[n], rank, chain + [chain[1]]);
    }
  }

  lemma {:induction false} ChainLevels(c: Config, s: State, rank: seq<nat>, chain: seq<nat>)
    requires Marks(c, s) && Ordered(c, rank)
    requires |chain| >= 3 && Chain(c, s, chain) && forall i :: 0 <= i < |chain| ==> chain[i] < |c.ops|
    ensures Level(c, s, rank, chain[0]) < Level(c, s, rank, chain[|chain| - 2])
  {
    var m := |chain| - 2;
    assert BlockedOn(c, s, chain[m - 1], chain[m]) && BlockedOn(c, s, chain[m], chain[m + 1]);
    LevelRises(c, s, rank, chain[m - 1], chain[m]);
    if m > 1 { ChainLevels(c, s, rank, chain[..m + 1]); }
  }

  /** The thread can take a step now, without a timeout or a spurious wake-up. */
  ghost predicate Ready(c: Config, s: State, a: nat)
    requires Shape(c, s) && a < |c.ops|
  {
    var t := s.threads[a];
    !Finished(t) && (IsAsleep(t) ==> IsWoken(t)) && LockFree(s, NextAction(c, s, a))
  }

  lemma ReadyCanStep(c: Config, s: State, a: nat) returns (ch: Choice)
    requires Shape(c, s) && a < |c.ops| && Ready(c, s, a)
    ensures CanStep(c, s, a, ch) && !ch.timedOut
  {
    var act := NextAction(c, s, a);
    if act.NotifyOne? && exists v: nat :: SleepsOn(c, s, v, act.e) {
      var v: nat :| SleepsOn(c, s, v, act.e);
      ch := Choice(false, v);
    } else {
      ch := Choice(false, 0);
    }
  }

  function Highest(rank: seq<nat>): nat {
    if rank == [] then 0
    else if rank[0] > Highest(rank[1..]) then rank[0] else Highest(rank[1..])
  }

  lemma {:induction false} HighestBounds(rank: seq<nat>, i: nat)
    requires i < |rank|
    ensures rank[i] <= Highest(rank)
  {
    if i > 0 { HighestBounds(rank[1..], i - 1); }
  }

  lemma LevelBounded(c: Config, s: State, rank: seq<nat>, a: nat)
    requires Shape(c, s) && a < |c.ops|
    ensures Level(c, s, rank, a) <= 2 * Highest(rank) + 1
  {
    match NextAction(c, s, a)
    case LockEvent(e) => if e < |rank| { HighestBounds(rank, e); }
    case LockWaiter(_) =>
      if c.ops[a].Set? && c.ops[a].event < |rank| { HighestBounds(rank, c.ops[a].event); }
    case _ =>
  }

  /** A lock that is not free is held by some thread. */
  lemma SomeBlocker(c: Config, s: State, a: nat) returns (b: nat)
    requires Locks(c, s) && a < |c.ops| && Blocked(c, s, a)
    ensures BlockedOn(c, s, a, b)
  {
    assert GoodThread(c, s, a);
    ActionApplicable(c, s, a);
    match NextAction(c, s, a)
    case LockEvent(e) => assert EventLock(c, s, e); b := s.events[e].owner.value;
    case LockWaiter(w) => assert WaiterLock(c, s, w); b := s.waiters[w].owner.value;
    case _ => assert false;
  }

  /** From any thread that is neither finished nor asleep, following the locks leads to one that can
    step. */
  lemma FollowLocks(c: Config, s: State, rank: seq<nat>, a: nat) returns (b: nat)
    requires Marks(c, s) && Ordered(c, rank)
    requires a < |c.ops| && !Finished(s.threads[a]) && (IsAsleep(s.threads[a]) ==> IsWoken(s.threads[a]))
    ensures b < |c.ops| && Ready(c, s, b)
    decreases 2 * Highest(rank) + 1 - Level(c, s, rank, a)
  {
    if Ready(c, s, a) {
      b := a;
    } else {
      var next := SomeBlocker(c, s, a);
      BlockerHolds(c, s, a, next);
      if Ready(c, s, next) {
        b := next;
      } else {
        LevelRises(c, s, rank, a, next);
        LevelBounded(c, s, rank, next);
        b := FollowLocks(c, s, rank, next);
      }
    }
  }

  /** In every run with a global order, as long as some call is neither finished nor waiting in its
    sleep, some thread can take a step, and one that is neither a time-out nor a spurious wake-up: the
    thread is awake, or a signal has reached it. */
  lemma Progress(c: Config, run: seq<State>, n: nat, rank: seq<nat>, a: nat) returns (b: nat, ch: Choice)
    requires IsRun(c, run) && n < |run| && Ordered(c, rank)
    requires a < |c.ops| && a < |run[n].threads|
    requires !Finished(run[n].threads[a]) && (IsAsleep(run[n].threads[a]) ==> IsWoken(run[n].threads[a]))
    ensures Shape(c, run[n]) && b < |c.ops| && Ready(c, run[n], b)
    ensures CanStep(c, run[n], b, ch) && !ch.timedOut
  {
    RunInv(c, run, n);
    b := FollowLocks(c, run[n], rank, a);
    ch := ReadyCanStep(c, run[n], b);
  }

  // ---------------------------------------------------------------- when nothing moves

  ghost predicate Quiescent(c: Config, s: State)
    requires Shape(c, s)
  {
    forall a :: 0 <= a < |c.ops| ==> !Ready(c, s, a)
  }

  /** When nothing moves, every call is finished or asleep without a signal, and every mutex is free. */
  lemma QuietState(c: Config, s: State, rank: seq<nat>)
    requires Marks(c, s) && Ordered(c, rank) && Quiescent(c, s)
    ensures forall a :: 0 <= a < |c.ops| ==>
              Finished(s.threads[a]) || (IsAsleep(s.threads[a]) && !IsWoken(s.threads[a]))
    ensures forall e :: 0 <= e < |s.events| ==> s.events[e].owner == None
  {
    forall a | 0 <= a < |c.ops|
      ensures Finished(s.threads[a]) || (IsAsleep(s.threads[a]) && !IsWoken(s.threads[a]))
    {
      if !Finished(s.threads[a]) && (IsAsleep(s.threads[a]) ==> IsWoken(s.threads[a])) {
        var b := FollowLocks(c, s, rank, a);
      }
    }
    forall e | 0 <= e < |s.events| ensures s.events[e].owner == None {
      assert EventLock(c, s, e);
    }
  }

  /** In every run with a global order: when nothing moves any more, no call sleeps on a signal.
    A WaitForEvent call that sleeps has an unsignalled event. A call that waits for any event has
    none of its events signalled; one that waits for all has a position left that was never
    signalled, and the event of every such position is unsignalled. */
  lemma NobodySleepsOnASignal(c: Config, run: seq<State>, n: nat, rank: seq<nat>, a: nat)
    requires IsRun(c, run) && n < |run| && Ordered(c, rank) && a < |c.ops|
    requires Shape(c, run[n]) && Quiescent(c, run[n]) && !Finished(run[n].threads[a])
    ensures match c.ops[a]
            case WaitOne(e, _) => e < |c.auto| && !run[n].events[e].state
            case WaitMany(events, all, _) =>
              && |run[n].waiters[a].hits| == |events|
              && (forall i :: 0 <= i < |events| && run[n].waiters[a].hits[i] == 0 ==>
                    events[i] < |c.auto| && !run[n].events[events[i]].state)
              && (if all then exists i :: 0 <= i < |events| && run[n].waiters[a].hits[i] == 0
                  else forall i :: 0 <= i < |events| ==> run[n].waiters[a].hits[i] == 0)
            case _ => false
  {
    RunInv(c, run, n);
    var s := run[n];
    QuietState(c, s, rank);
    assert c.ValidOp(c.ops[a]) && GoodThread(c, s, a);
    match c.ops[a]
    case WaitOne(e, _) => assert HopeOk(c, s, e) && SleepsOn(c, s, a, e);
    case WaitMany(_, _, _) => SleepingMany(c, s, a);
    case _ =>
  }

  /** A sleeping WaitMany call in a state where every mutex is free and nobody is about to signal. */
  lemma SleepingMany(c: Config, s: State, w: nat)
    requires Inv(c, s) && w < |c.ops| && c.ops[w].WaitMany?
    requires forall a :: 0 <= a < |c.ops| ==>
               Finished(s.threads[a]) || (IsAsleep(s.threads[a]) && !IsWoken(s.threads[a]))
    requires forall e :: 0 <= e < |s.events| ==> s.events[e].owner == None
    requires !Finished(s.threads[w])
    ensures |s.waiters[w].hits| == |c.ops[w].events|
    ensures forall i :: 0 <= i < |c.ops[w].events| && s.waiters[w].hits[i] == 0 ==>
              c.ops[w].events[i] < |c.auto| && !s.events[c.ops[w].events[i]].state
    ensures if c.ops[w].all then exists i :: 0 <= i < |c.ops[w].events| && s.waiters[w].hits[i] == 0
            else forall i :: 0 <= i < |c.ops[w].events| ==> s.waiters[w].hits[i] == 0
  {
    var op, wt, t := c.ops[w], s.waiters[w], s.threads[w];
    assert GoodThread(c, s, w) && GoodWaiter(c, s, w) && WaiterMarks(c, s, w) && WaiterCounts(c, s, w);
    assert WaiterMode(c, s, w) && FirerOk(c, s, w) && c.ValidOp(op) && NoneExpired(wt);
    assert !ConditionMet(op.all, wt.status);
    forall i | 0 <= i < |op.events| && wt.hits[i] == 0 ensures !s.events[op.events[i]].state {
      assert wt.marks[i] == Queued;
      assert Quiet(c, s, op.events[i]);
    }
    if op.all && forall i :: 0 <= i < |op.events| ==> wt.hits[i] != 0 {
      assert forall i :: 0 <= i < |wt.marks| ==> Counted(wt.marks[i]);
      CountNone(wt.marks);
    }
  }

  lemma {:induction false} CountNone(marks: seq<Mark>)
    requires forall i :: 0 <= i < |marks| ==> Counted(marks[i])
    ensures Count(marks, {Unvisited, Queued, Expired}) == 0
  {
    if marks != [] { CountNone(marks[..|marks| - 1]); }
  }
}
