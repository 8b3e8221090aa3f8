/** Mutual exclusion: every mutex is held by exactly the thread whose program counter says so. */
module WaitLocks {
  import opened Options
  import opened Sequences
  import opened WaitModel

  // ---------------------------------------------------------------- who holds what

  /** Thread `b` is a setter and `w` is the waiter at the head of its event's deque. */
  predicate Targets(c: Config, s: State, b: nat, w: nat) {
    && b < |c.ops| && c.ops[b].Set?
    && var e := c.ops[b].event;
       e < |s.events| && s.events[e].queue != [] && s.events[e].queue[0].waiter == w
  }

  ghost predicate EventLock(c: Config, s: State, e: nat)
    requires |s.threads| == |c.ops| && e < |s.events|
  {
    s.events[e].owner.Some? ==>
      var b := s.events[e].owner.value;
      b < |c.ops| && HoldsEvent(s.threads[b]) && EventOf(c.ops[b], s.threads[b]) == e
  }

  ghost predicate WaiterLock(c: Config, s: State, w: nat)
    requires |s.threads| == |c.ops| && w < |s.waiters|
  {
    s.waiters[w].owner.Some? ==>
      var b := s.waiters[w].owner.value;
      && b < |c.ops|
      && ((b == w && HoldsSelf(s.threads[b])) || (HoldsTarget(s.threads[b]) && Targets(c, s, b, w)))
  }

  ghost predicate ThreadLocks(c: Config, s: State, a: nat)
    requires |s.threads| == |c.ops| == |s.waiters| && a < |s.threads|
  {
    var op, t := c.ops[a], s.threads[a];
    && (HoldsEvent(t) ==>
          EventOf(op, t) < |s.events| && s.events[EventOf(op, t)].owner == Some(a))
    && (HoldsSelf(t) ==> s.waiters[a].owner == Some(a))
    && (forall w | 0 <= w < |s.waiters| && Targets(c, s, a, w) ::
          HoldsTarget(t) ==> s.waiters[w].owner == Some(a))
  }

  ghost predicate Locks(c: Config, s: State) {
    && Shape(c, s)
    && (forall e :: 0 <= e < |s.events| ==> EventLock(c, s, e))
    && (forall w :: 0 <= w < |s.waiters| ==> WaiterLock(c, s, w))
    && (forall a :: 0 <= a < |s.threads| ==> ThreadLocks(c, s, a))
  }

  // ---------------------------------------------------------------- one step, seen locally

  /** The event whose lock, state or deque an action changes. */
  function EventTouched(act: Action): Option<nat> {
    match act
    case LockEvent(e) => Some(e)
    case UnlockEvent(e) => Some(e)
    case Enqueue(e) => Some(e)
    case DropExpired(e, _) => Some(e)
    case Consume(e) => Some(e)
    case Raise(e) => Some(e)
    case Clear(e) => Some(e)
    case Fire(e) => Some(e)
    case DropHead(e, _) => Some(e)
    case _ => None
  }

  /** How the event mutex changes hands in a step of one thread. */
  ghost predicate EventMove(op: Op, t: Thread, t': Thread, act: Action) {
    && HoldsEvent(t') == (act.LockEvent? || (HoldsEvent(t) && !act.UnlockEvent?))
    && (act.LockEvent? ==> !HoldsEvent(t) && EventOf(op, t') == act.e)
    && (EventTouched(act).Some? && !act.LockEvent? ==>
          HoldsEvent(t) && EventOf(op, t) == EventTouched(act).value)
    && (HoldsEvent(t) && !act.UnlockEvent? ==> EventOf(op, t') == EventOf(op, t))
  }

  /** How waiter mutexes change hands in a step of thread `a`. */
  ghost predicate WaiterMove(a: nat, t: Thread, t': Thread, v: View, act: Action) {
    && (act.LockWaiter? || act.UnlockWaiter? ==>
          (t.Many? && act.w == a) || (t.Setter? && act.w == v.entry.waiter))
    && HoldsSelf(t') == ((t.Many? && act.LockWaiter?) || (HoldsSelf(t) && !act.UnlockWaiter?))
    && HoldsTarget(t') == ((t.Setter? && act.LockWaiter?) || (HoldsTarget(t) && !act.UnlockWaiter?))
    && (act.LockWaiter? ==> !HoldsSelf(t) && !HoldsTarget(t))
    && (act.UnlockWaiter? ==> HoldsSelf(t) || HoldsTarget(t))
    && (act.DropHead? ==> t.Setter? && !HoldsTarget(t))
    && (t.Setter? && (act.LockWaiter? || act.UnlockWaiter?) ==> HasTarget(t))
  }

  /** The deque after an action on its event. */
  function QueueAfter(q: seq<Registration>, r: Registration, act: Action): seq<Registration> {
    match act
    case DropExpired(_, k) => if k < |q| then RemoveAt(q, k) else q
    case DropHead(_, _) => if q == [] then q else q[1..]
    case Enqueue(_) => q + [r]
    case _ => q
  }

  /** All of the above for the next step of thread `a`. */
  ghost predicate LocalMove(c: Config, a: nat, op: Op, t: Thread, v: View, timedOut: bool)
    requires GoodLocals(op, t)
  {
    var t', act := NextThread(c, op, t, v, timedOut), ActionOf(a, op, t, v);
    && EventMove(op, t, t', act)
    && WaiterMove(a, t, t', v, act)
    && GoodLocals(op, t')
  }

  ghost predicate CursorMove(c: Config, a: nat, op: Op, t: Thread, v: View, timedOut: bool)
    requires GoodLocals(op, t)
  {
    var t', act := NextThread(c, op, t, v, timedOut), ActionOf(a, op, t, v);
    forall r :: GoodCursor(t', QueueAfter(v.event.queue, r, act))
  }

  lemma ManyMoves(c: Config, a: nat, op: Op, t: Thread, v: View, timedOut: bool)
    requires op.WaitMany? && GoodLocals(op, t) && !Finished(t)
    ensures LocalMove(c, a, op, t, v, timedOut)
  {
    ManyEventMove(c, a, op, t, v, timedOut);
  }

  lemma ManyEventMove(c: Config, a: nat, op: Op, t: Thread, v: View, timedOut: bool)
    requires op.WaitMany? && GoodLocals(op, t) && !Finished(t)
    ensures EventMove(op, t, NextMany(c, op, t, v, timedOut), ActionMany(a, op, t, v))
  {
  }

  lemma ManyCursor(c: Config, a: nat, op: Op, t: Thread, v: View, timedOut: bool)
    requires op.WaitMany? && GoodLocals(op, t) && !Finished(t)
    requires HoldsEvent(t) ==> GoodCursor(t, v.event.queue)
    ensures CursorMove(c, a, op, t, v, timedOut)
  {
  }

  lemma SetCursor(c: Config, a: nat, op: Op, t: Thread, v: View, timedOut: bool)
    requires op.Set? && GoodLocals(op, t) && !Finished(t)
    requires HoldsEvent(t) ==> GoodCursor(t, v.event.queue)
    ensures CursorMove(c, a, op, t, v, timedOut)
  {
  }

  lemma PurgeCursor(c: Config, a: nat, op: Op, t: Thread, v: View, timedOut: bool)
    requires op.Purge? && GoodLocals(op, t) && !Finished(t)
    requires HoldsEvent(t) ==> GoodCursor(t, v.event.queue)
    ensures CursorMove(c, a, op, t, v, timedOut)
  {
  }

  lemma LocalMoves(c: Config, a: nat, op: Op, t: Thread, v: View, timedOut: bool)
    requires GoodLocals(op, t) && !Finished(t)
    ensures LocalMove(c, a, op, t, v, timedOut)
  {
    if op.WaitMany? { ManyMoves(c, a, op, t, v, timedOut); }
  }

  lemma CursorMoves(c: Config, a: nat, op: Op, t: Thread, v: View, timedOut: bool)
    requires GoodLocals(op, t) && !Finished(t)
    requires HoldsEvent(t) ==> GoodCursor(t, v.event.queue)
    ensures CursorMove(c, a, op, t, v, timedOut)
  {
    match op
    case WaitMany(_, _, _) => ManyCursor(c, a, op, t, v, timedOut);
    case WaitOne(_, _) =>
    case Set(_) => SetCursor(c, a, op, t, v, timedOut);
    case Purge(_) => PurgeCursor(c, a, op, t, v, timedOut);
  }

  // ---------------------------------------------------------------- what an action leaves alone

  function Wake(t: Thread): Thread {
    if t.Many? then t.(woken := true) else if t.One? then t.(notified := true) else t
  }

  lemma ApplyEvents(c: Config, s: State, a: nat, act: Action, pick: nat)
    requires Applicable(c, s, a, act)
    ensures var s' := Apply(c, s, a, act, pick);
      && |s'.events| == |s.events|
      && (forall e :: 0 <= e < |s.events| && EventTouched(act) != Some(e) ==>
            s'.events[e] == s.events[e].(hope := s'.events[e].hope))
      && (forall e :: 0 <= e < |s.events| && EventTouched(act) == Some(e) ==>
            && s'.events[e].queue ==
                 QueueAfter(s.events[e].queue, Registration(a, if s.threads[a].Many? then s.threads[a].i else 0), act)
            && s'.events[e].owner ==
                 (if act.LockEvent? then Some(a) else if act.UnlockEvent? then None else s.events[e].owner))
  {
  }

  lemma ApplyThreads(c: Config, s: State, a: nat, act: Action, pick: nat)
    requires Applicable(c, s, a, act)
    ensures var s' := Apply(c, s, a, act, pick);
      && |s'.threads| == |s.threads|
      && (forall b :: 0 <= b < |s.threads| ==>
            s'.threads[b] == s.threads[b] || (IsAsleep(s.threads[b]) && s'.threads[b] == Wake(s.threads[b])))
  {
  }

  lemma ApplyWaiters(c: Config, s: State, a: nat, act: Action, pick: nat)
    requires Applicable(c, s, a, act)
    ensures var s' := Apply(c, s, a, act, pick);
      && |s'.waiters| == |s.waiters|
      && (forall w :: 0 <= w < |s.waiters| ==>
            && |s'.waiters[w].marks| == |s.waiters[w].marks|
            && |s'.waiters[w].hits| == |s.waiters[w].hits|
            && s'.waiters[w].owner ==
                 (if act == LockWaiter(w) then Some(a) else if act == UnlockWaiter(w) then None
                  else s.waiters[w].owner))
  {
  }

  // ---------------------------------------------------------------- preservation

  /** The pieces of one step, named once for all the proofs. */
  ghost predicate IsStep(c: Config, s: State, a: nat, ch: Choice, act: Action, s': State) {
    && Locks(c, s) && a < |c.ops|
    && GoodThread(c, s, a) && CanStep(c, s, a, ch)
    && act == ActionOf(a, c.ops[a], s.threads[a], ViewOf(c, s, a))
    && LocalMove(c, a, c.ops[a], s.threads[a], ViewOf(c, s, a), ch.timedOut)
    && Applicable(c, s, a, act)
    && s' == SetThread(Apply(c, s, a, act, ch.pick), a,
                       NextThread(c, c.ops[a], s.threads[a], ViewOf(c, s, a), ch.timedOut))
  }

  lemma StepParts(c: Config, s: State, a: nat, ch: Choice) returns (act: Action, s': State)
    requires Locks(c, s) && a < |c.ops| && CanStep(c, s, a, ch)
    ensures IsStep(c, s, a, ch, act, s') && s' == Step(c, s, a, ch)
  {
    assert GoodThread(c, s, a);
    var op, t, v := c.ops[a], s.threads[a], ViewOf(c, s, a);
    act := ActionOf(a, op, t, v);
    ActionApplicable(c, s, a);
    s' := Step(c, s, a, ch);
    LocalMoves(c, a, op, t, v, ch.timedOut);
  }

  /** Another thread that holds an event's mutex finds event and deque untouched. */
  lemma OthersEventUntouched(c: Config, s: State, a: nat, ch: Choice, act: Action, s': State, b: nat)
    requires IsStep(c, s, a, ch, act, s')
    requires b < |c.ops| && b != a && HoldsEvent(s.threads[b])
    ensures EventOf(c.ops[b], s.threads[b]) < |s.events|
    ensures EventTouched(act) != Some(EventOf(c.ops[b], s.threads[b]))
  {
    assert ThreadLocks(c, s, b) && ThreadLocks(c, s, a);
  }

  lemma StepShape(c: Config, s: State, a: nat, ch: Choice, act: Action, s': State)
    requires IsStep(c, s, a, ch, act, s')
    ensures Shape(c, s')
  {
    StepGoodEvents(c, s, a, ch, act, s');
    ApplyWaiters(c, s, a, act, ch.pick);
    forall w | 0 <= w < |s'.waiters| ensures GoodWaiter(c, s', w) {
      assert GoodWaiter(c, s, w);
    }
    StepShapeSelf(c, s, a, ch, act, s');
    forall b | 0 <= b < |s'.threads| ensures GoodThread(c, s', b) {
      if b != a { StepShapeOther(c, s, a, ch, act, s', b); }
    }
  }

  lemma StepGoodEvents(c: Config, s: State, a: nat, ch: Choice, act: Action, s': State)
    requires IsStep(c, s, a, ch, act, s')
    ensures forall e :: 0 <= e < |s'.events| ==> GoodEvent(c, s', e)
  {
    ApplyEvents(c, s, a, act, ch.pick);
    forall e | 0 <= e < |s'.events| ensures GoodEvent(c, s', e) {
      assert GoodEvent(c, s, e);
      if EventTouched(act) == Some(e) && act.Enqueue? { EnqueuedIsGood(c, s, a, e); }
    }
  }

  lemma StepShapeOther(c: Config, s: State, a: nat, ch: Choice, act: Action, s': State, b: nat)
    requires IsStep(c, s, a, ch, act, s')
    requires b < |c.ops| && b != a
    ensures b < |s'.threads| && GoodThread(c, s', b)
  {
    ApplyThreads(c, s, a, act, ch.pick);
    assert GoodThread(c, s, b);
    if HoldsEvent(s'.threads[b]) {
      OthersEventUntouched(c, s, a, ch, act, s', b);
      ApplyEvents(c, s, a, act, ch.pick);
    }
  }

  lemma EnqueuedIsGood(c: Config, s: State, a: nat, e: nat)
    requires Shape(c, s) && a < |c.ops| && GoodThread(c, s, a)
    requires ActionOf(a, c.ops[a], s.threads[a], ViewOf(c, s, a)) == Enqueue(e)
    ensures s.threads[a].Many? && GoodRegistration(c, e, Registration(a, s.threads[a].i))
  {
  }

  lemma StepShapeSelf(c: Config, s: State, a: nat, ch: Choice, act: Action, s': State)
    requires IsStep(c, s, a, ch, act, s')
    ensures |s'.threads| == |c.ops| && GoodThread(c, s', a)
  {
    var op, t, v := c.ops[a], s.threads[a], ViewOf(c, s, a);
    if HoldsEvent(s'.threads[a]) {
      OwnEventKept(c, s, a, ch, act, s');
      CursorMoves(c, a, op, t, v, ch.timedOut);
    }
  }

  /** The event a thread holds after its step, and what the step did to that event's deque. */
  lemma OwnEventKept(c: Config, s: State, a: nat, ch: Choice, act: Action, s': State)
    requires IsStep(c, s, a, ch, act, s')
    requires HoldsEvent(s'.threads[a])
    ensures var e := EventOf(c.ops[a], s'.threads[a]);
      && e < |s'.events|
      && exists r :: s'.events[e].queue == QueueAfter(ViewOf(c, s, a).event.queue, r, act)
  {
    ApplyEvents(c, s, a, act, ch.pick);
    var op, t, t' := c.ops[a], s.threads[a], s'.threads[a];
    var e := EventOf(op, t);
    var r := Registration(a, if t.Many? then t.i else 0);
    assert c.ValidOp(op);
    assert EventOf(op, t') == e && e < |s.events|;
    assert s'.events[e].queue == QueueAfter(s.events[e].queue, r, act);
  }

  lemma StepEventLocks(c: Config, s: State, a: nat, ch: Choice, act: Action, s': State)
    requires IsStep(c, s, a, ch, act, s')
    ensures |s'.threads| == |c.ops|
    ensures forall e :: 0 <= e < |s'.events| ==> EventLock(c, s', e)
  {
    ApplyEvents(c, s, a, act, ch.pick);
    ApplyThreads(c, s, a, act, ch.pick);
    forall e | 0 <= e < |s'.events| ensures EventLock(c, s', e) {
      if EventTouched(act) == Some(e) {
        TouchedEventLock(c, s, a, ch, act, s', e);
      } else if s.events[e].owner.Some? {
        UntouchedEventLock(c, s, a, ch, act, s', e);
      }
    }
  }

  lemma TouchedEventLock(c: Config, s: State, a: nat, ch: Choice, act: Action, s': State, e: nat)
    requires IsStep(c, s, a, ch, act, s') && e < |s.events| && EventTouched(act) == Some(e)
    ensures |s'.threads| == |c.ops| && e < |s'.events| && EventLock(c, s', e)
  {
    ApplyEvents(c, s, a, act, ch.pick);
    assert ThreadLocks(c, s, a);
  }

  lemma UntouchedEventLock(c: Config, s: State, a: nat, ch: Choice, act: Action, s': State, e: nat)
    requires IsStep(c, s, a, ch, act, s') && e < |s.events| && EventTouched(act) != Some(e)
    requires s.events[e].owner.Some?
    ensures |s'.threads| == |c.ops| && e < |s'.events| && EventLock(c, s', e)
  {
    ApplyEvents(c, s, a, act, ch.pick);
    assert EventLock(c, s, e);
    var b := s.events[e].owner.value;
    if b != a {
      OtherLocals(c, s, a, ch, act, s', b);
    }
  }

  /** A waiter mutex a setter holds belongs to the head of a deque that no other thread touches. */
  lemma OthersTargetUntouched(c: Config, s: State, a: nat, ch: Choice, act: Action, s': State, b: nat, w: nat)
    requires IsStep(c, s, a, ch, act, s')
    requires b < |c.ops| && b != a && c.ops[b].Set? && HoldsEvent(s.threads[b])
    ensures Targets(c, s', b, w) <==> Targets(c, s, b, w)
  {
    assert GoodThread(c, s, b);
    OthersEventUntouched(c, s, a, ch, act, s', b);
    ApplyEvents(c, s, a, act, ch.pick);
  }

  /** A setter between locking and unlocking a waiter keeps the same head of the deque. */
  lemma OwnTargetKept(c: Config, s: State, a: nat, ch: Choice, act: Action, s': State, w: nat)
    requires IsStep(c, s, a, ch, act, s')
    requires HasTarget(s.threads[a]) && !act.DropHead?
    ensures Targets(c, s', a, w) <==> Targets(c, s, a, w)
  {
    ApplyEvents(c, s, a, act, ch.pick);
  }

  /** A waiter mutex that is locked or unlocked was free, or held by the thread that steps. */
  lemma WaiterHandover(c: Config, s: State, a: nat, ch: Choice, act: Action, s': State)
    requires IsStep(c, s, a, ch, act, s')
    requires act.LockWaiter? || act.UnlockWaiter?
    ensures act.w < |s.waiters|
    ensures act.LockWaiter? ==> s.waiters[act.w].owner == None
    ensures act.UnlockWaiter? ==> s.waiters[act.w].owner == Some(a)
    ensures s.threads[a].Setter? ==> Targets(c, s, a, act.w)
  {
    assert ThreadLocks(c, s, a);
  }

  lemma OwnThreadLocks(c: Config, s: State, a: nat, ch: Choice, act: Action, s': State)
    requires IsStep(c, s, a, ch, act, s')
    ensures |s'.threads| == |c.ops| == |s'.waiters| && ThreadLocks(c, s', a)
  {
    ApplyEvents(c, s, a, act, ch.pick);
    ApplyWaiters(c, s, a, act, ch.pick);
    assert ThreadLocks(c, s, a);
    if act.LockWaiter? || act.UnlockWaiter? { WaiterHandover(c, s, a, ch, act, s'); }
    forall w | 0 <= w < |s'.waiters| && Targets(c, s', a, w) && HoldsTarget(s'.threads[a])
      ensures s'.waiters[w].owner == Some(a)
    {
      OwnTargetKept(c, s, a, ch, act, s', w);
    }
  }

  /** What another thread holds is the same after the step, whether or not it is woken. */
  lemma OtherLocals(c: Config, s: State, a: nat, ch: Choice, act: Action, s': State, b: nat)
    requires IsStep(c, s, a, ch, act, s') && b < |c.ops| && b != a
    ensures |s'.threads| == |c.ops| == |s'.waiters|
    ensures HoldsEvent(s'.threads[b]) == HoldsEvent(s.threads[b])
    ensures HoldsSelf(s'.threads[b]) == HoldsSelf(s.threads[b])
    ensures HoldsTarget(s'.threads[b]) == HoldsTarget(s.threads[b])
    ensures EventOf(c.ops[b], s'.threads[b]) == EventOf(c.ops[b], s.threads[b])
  {
    ApplyThreads(c, s, a, act, ch.pick);
  }

  lemma OtherHeldEvent(c: Config, s: State, a: nat, ch: Choice, act: Action, s': State, b: nat)
    requires IsStep(c, s, a, ch, act, s') && b < |c.ops| && b != a && HoldsEvent(s.threads[b])
    ensures EventOf(c.ops[b], s.threads[b]) < |s'.events|
    ensures s'.events[EventOf(c.ops[b], s.threads[b])].owner == Some(b)
  {
    assert ThreadLocks(c, s, b);
    OthersEventUntouched(c, s, a, ch, act, s', b);
    ApplyEvents(c, s, a, act, ch.pick);
  }

  lemma OtherTargets(c: Config, s: State, a: nat, ch: Choice, act: Action, s': State, b: nat, w: nat)
    requires IsStep(c, s, a, ch, act, s') && b < |c.ops| && b != a && HoldsTarget(s.threads[b])
    requires w < |s.waiters| && Targets(c, s', b, w)
    ensures w < |s'.waiters| && s'.waiters[w].owner == Some(b)
  {
    assert ThreadLocks(c, s, b);
    OthersTargetUntouched(c, s, a, ch, act, s', b, w);
    OthersWaiterUntouched(c, s, a, ch, act, s', b, w);
  }

  lemma OtherThreadLocks(c: Config, s: State, a: nat, ch: Choice, act: Action, s': State, b: nat)
    requires IsStep(c, s, a, ch, act, s')
    requires b < |c.ops| && b != a
    ensures |s'.threads| == |c.ops| == |s'.waiters| && ThreadLocks(c, s', b)
  {
    OtherLocals(c, s, a, ch, act, s', b);
    if HoldsEvent(s.threads[b]) {
      OtherHeldEvent(c, s, a, ch, act, s', b);
    }
    if HoldsSelf(s.threads[b]) {
      assert ThreadLocks(c, s, b);
      OthersWaiterUntouched(c, s, a, ch, act, s', b, b);
    }
    forall w | 0 <= w < |s'.waiters| && Targets(c, s', b, w) && HoldsTarget(s'.threads[b])
      ensures s'.waiters[w].owner == Some(b)
    {
      OtherTargets(c, s, a, ch, act, s', b, w);
    }
  }

  lemma OthersWaiterUntouched(c: Config, s: State, a: nat, ch: Choice, act: Action, s': State, b: nat, w: nat)
    requires IsStep(c, s, a, ch, act, s')
    requires b != a && w < |s.waiters| && s.waiters[w].owner == Some(b)
    ensures s'.waiters[w].owner == Some(b)
  {
    ApplyWaiters(c, s, a, act, ch.pick);
    if act.LockWaiter? || act.UnlockWaiter? { WaiterHandover(c, s, a, ch, act, s'); }
  }

  lemma StepThreadLocks(c: Config, s: State, a: nat, ch: Choice, act: Action, s': State)
    requires IsStep(c, s, a, ch, act, s')
    ensures |s'.threads| == |c.ops| == |s'.waiters|
    ensures forall b :: 0 <= b < |s'.threads| ==> ThreadLocks(c, s', b)
  {
    OwnThreadLocks(c, s, a, ch, act, s');
    forall b | 0 <= b < |s'.threads| ensures ThreadLocks(c, s', b) {
      if b != a { OtherThreadLocks(c, s, a, ch, act, s', b); }
    }
  }

  /** A mutex that the stepping thread holds afterwards is its own or its target's. */
  lemma OwnWaiterLock(c: Config, s: State, a: nat, ch: Choice, act: Action, s': State, w: nat)
    requires IsStep(c, s, a, ch, act, s')
    requires w < |s'.waiters| && s'.waiters[w].owner == Some(a)
    ensures |s'.threads| == |c.ops| && WaiterLock(c, s', w)
  {
    ApplyThreads(c, s, a, act, ch.pick);
    ApplyWaiters(c, s, a, act, ch.pick);
    assert WaiterLock(c, s, w);
    if act.LockWaiter? || act.UnlockWaiter? { WaiterHandover(c, s, a, ch, act, s'); }
    if s.threads[a].Setter? && HasTarget(s.threads[a]) && !act.DropHead? {
      OwnTargetKept(c, s, a, ch, act, s', w);
    }
  }

  lemma OtherWaiterLock(c: Config, s: State, a: nat, ch: Choice, act: Action, s': State, w: nat)
    requires IsStep(c, s, a, ch, act, s')
    requires w < |s'.waiters| && s'.waiters[w].owner.Some? && s'.waiters[w].owner != Some(a)
    ensures |s'.threads| == |c.ops| && WaiterLock(c, s', w)
  {
    ApplyWaiters(c, s, a, act, ch.pick);
    assert WaiterLock(c, s, w);
    var b := s'.waiters[w].owner.value;
    OtherLocals(c, s, a, ch, act, s', b);
    if HoldsTarget(s.threads[b]) {
      OthersTargetUntouched(c, s, a, ch, act, s', b, w);
    }
  }

  lemma StepWaiterLocks(c: Config, s: State, a: nat, ch: Choice, act: Action, s': State)
    requires IsStep(c, s, a, ch, act, s')
    ensures |s'.threads| == |c.ops|
    ensures forall w :: 0 <= w < |s'.waiters| ==> WaiterLock(c, s', w)
  {
    ApplyThreads(c, s, a, act, ch.pick);
    forall w | 0 <= w < |s'.waiters| ensures WaiterLock(c, s', w) {
      if s'.waiters[w].owner == Some(a) {
        OwnWaiterLock(c, s, a, ch, act, s', w);
      } else if s'.waiters[w].owner.Some? {
        OtherWaiterLock(c, s, a, ch, act, s', w);
      }
    }
  }

  lemma StepLocks(c: Config, s: State, a: nat, ch: Choice)
    requires Locks(c, s) && a < |c.ops| && CanStep(c, s, a, ch)
    ensures Locks(c, Step(c, s, a, ch))
  {
    var act, s' := StepParts(c, s, a, ch);
    StepShape(c, s, a, ch, act, s');
    StepEventLocks(c, s, a, ch, act, s');
    StepWaiterLocks(c, s, a, ch, act, s');
    StepThreadLocks(c, s, a, ch, act, s');
  }

  lemma ResetLocks(c: Config, s: State, e: nat)
    requires Locks(c, s) && e < |s.events|
    ensures Locks(c, Reset(s, e))
  {
    var s' := Reset(s, e);
    forall b | 0 <= b < |s'.threads| ensures GoodThread(c, s', b) { assert GoodThread(c, s, b); }
    forall d | 0 <= d < |s'.events| ensures GoodEvent(c, s', d) { assert GoodEvent(c, s, d); }
    forall w | 0 <= w < |s'.waiters| ensures GoodWaiter(c, s', w) { assert GoodWaiter(c, s, w); }
    forall d | 0 <= d < |s'.events| ensures EventLock(c, s', d) { assert EventLock(c, s, d); }
    forall w | 0 <= w < |s'.waiters| ensures WaiterLock(c, s', w) { assert WaiterLock(c, s, w); }
    forall b | 0 <= b < |s'.threads| ensures ThreadLocks(c, s', b) { assert ThreadLocks(c, s, b); }
  }

  lemma InitLocks(c: Config, s: State)
    requires c.Valid() && Init(c, s)
    ensures Locks(c, s)
  {
    forall b | 0 <= b < |s.threads| ensures GoodThread(c, s, b) && ThreadLocks(c, s, b) {}
  }
}
