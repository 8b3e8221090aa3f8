/** Only registrations whose waiter has stopped waiting are purged. */
module WaitExpiry {
  import opened Options
  import opened WaitModel
  import opened WaitLocks
  import opened WaitQueues
  import opened WaitCounts
  import opened WaitFifo

  /** The thread has seen that the entry it looks at is expired. */
  predicate SawExpired(t: Thread) {
    match t
    case Many(m, _, _, _, _, _, _) => m == MDropExpired
    case One(_, _, _) => false
    case Setter(p, _, _, _) => p == SDropExpired || p == SUnlockExpired
    case Purger(u, _) => u == PDropExpired
  }

  ghost predicate ExpiryOk(c: Config, s: State, b: nat)
    requires b < |c.ops| && b < |s.threads|
  {
    SawExpired(s.threads[b]) ==> NotWaiting(s, ViewOf(c, s, b).entry)
  }

  /** A waiter that still waits has lost no registration to a purge. */
  ghost predicate NoneExpired(w: Waiter) {
    w.stillWaiting ==> forall i :: 0 <= i < |w.marks| ==> w.marks[i] != Expired
  }

  ghost predicate Expiry(c: Config, s: State) {
    && Marks(c, s)
    && (forall b :: 0 <= b < |s.threads| ==> ExpiryOk(c, s, b))
    && (forall w :: 0 <= w < |s.waiters| && c.ops[w].WaitMany? ==> NoneExpired(s.waiters[w]))
  }

  ghost predicate ExpiryMove(t: Thread, t': Thread, v: View, act: Action) {
    && (SawExpired(t') ==> HoldsEvent(t) && (act == Nothing || act.UnlockWaiter?) && CursorOf(t') == CursorOf(t))
    && (SawExpired(t') && !SawExpired(t) ==> !v.waiting && CursorOf(t) < |v.event.queue|)
    && (act.DropExpired? ==> SawExpired(t) && CursorOf(t) == act.k)
    && (act.DropHead? ==> CursorOf(t) == 0 && (act.mark == Expired ==> SawExpired(t)))
  }

  lemma ManyExpiryMove(c: Config, a: nat, op: Op, t: Thread, v: View, timedOut: bool)
    requires op.WaitMany? && GoodLocals(op, t) && !Finished(t)
    ensures ExpiryMove(t, NextMany(c, op, t, v, timedOut), v, ActionMany(a, op, t, v))
  {
  }

  lemma ExpiryMoves(c: Config, a: nat, op: Op, t: Thread, v: View, timedOut: bool)
    requires GoodLocals(op, t) && !Finished(t)
    requires HoldsEvent(t) ==> GoodCursor(t, v.event.queue)
    ensures ExpiryMove(t, NextThread(c, op, t, v, timedOut), v, ActionOf(a, op, t, v))
  {
    if op.WaitMany? { ManyExpiryMove(c, a, op, t, v, timedOut); }
  }

  ghost predicate IsExpiryStep(c: Config, s: State, a: nat, ch: Choice, act: Action, s': State) {
    && IsMarkStep(c, s, a, ch, act, s')
    && ExpiryMove(s.threads[a], s'.threads[a], ViewOf(c, s, a), act)
    && ExpiryOk(c, s, a)
  }

  /** The entry a thread with the event's mutex looks at is the one in the event's deque. */
  lemma SeesEntry(c: Config, s: State, b: nat)
    requires Locks(c, s) && b < |c.ops| && HoldsEvent(s.threads[b])
    ensures EventOf(c.ops[b], s.threads[b]) < |s.events|
    ensures var q, k := s.events[EventOf(c.ops[b], s.threads[b])].queue, CursorOf(s.threads[b]);
      && ViewOf(c, s, b).event == s.events[EventOf(c.ops[b], s.threads[b])]
      && (k < |q| ==> ViewOf(c, s, b).entry == q[k] && (ViewOf(c, s, b).waiting || NotWaiting(s, q[k])))
  {
    assert GoodThread(c, s, b) && GoodEvent(c, s, EventOf(c.ops[b], s.threads[b]));
  }

  lemma SawExpiredInRange(c: Config, s: State, b: nat)
    requires Locks(c, s) && b < |c.ops| && SawExpired(s.threads[b])
    ensures HoldsEvent(s.threads[b]) && EventOf(c.ops[b], s.threads[b]) < |s.events|
    ensures CursorOf(s.threads[b]) < |s.events[EventOf(c.ops[b], s.threads[b])].queue|
  {
    assert GoodThread(c, s, b);
  }

  lemma OwnExpiryOk(c: Config, s: State, a: nat, ch: Choice, act: Action, s': State)
    requires IsExpiryStep(c, s, a, ch, act, s')
    ensures ExpiryOk(c, s', a)
  {
    if SawExpired(s'.threads[a]) {
      SeesEntry(c, s, a);
      StoppedForGood(c, s, a, ch, act, s', ViewOf(c, s, a).entry);
    }
  }

  lemma OtherExpiryOk(c: Config, s: State, a: nat, ch: Choice, act: Action, s': State, b: nat)
    requires IsExpiryStep(c, s, a, ch, act, s') && b < |c.ops| && b != a && ExpiryOk(c, s, b)
    ensures b < |s'.threads| && ExpiryOk(c, s', b)
  {
    ApplyThreads(c, s, a, act, ch.pick);
    if SawExpired(s'.threads[b]) {
      SawExpiredInRange(c, s, b);
      SeesEntry(c, s, b);
      OthersEventUntouched(c, s, a, ch, act, s', b);
      ApplyEvents(c, s, a, act, ch.pick);
      StoppedForGood(c, s, a, ch, act, s', ViewOf(c, s, b).entry);
    }
  }

  /** A position expires only when its waiter no longer waits. */
  lemma ExpiresStopped(c: Config, s: State, a: nat, ch: Choice, act: Action, s': State)
    requires IsExpiryStep(c, s, a, ch, act, s')
    requires Marked(s, a, act).Some? && Marked(s, a, act).value.1 == Expired
    ensures NotWaiting(s', Marked(s, a, act).value.0)
  {
    SawExpiredInRange(c, s, a);
    SeesEntry(c, s, a);
    StoppedForGood(c, s, a, ch, act, s', ViewOf(c, s, a).entry);
  }

  lemma StepNoneExpired(c: Config, s: State, a: nat, ch: Choice, act: Action, s': State, w: nat)
    requires IsExpiryStep(c, s, a, ch, act, s')
    requires w < |c.ops| && c.ops[w].WaitMany? && NoneExpired(s.waiters[w])
    ensures w < |s'.waiters| && NoneExpired(s'.waiters[w])
  {
    ApplyMarksOf(c, s, a, act, ch.pick, w);
    ApplyStop(c, s, a, act, ch.pick, w);
    if Marked(s, a, act).Some? && Marked(s, a, act).value.0.waiter == w && Marked(s, a, act).value.1 == Expired {
      ExpiresStopped(c, s, a, ch, act, s');
    }
  }

  lemma StepExpiry(c: Config, s: State, a: nat, ch: Choice)
    requires Expiry(c, s) && a < |c.ops| && CanStep(c, s, a, ch)
    ensures Expiry(c, Step(c, s, a, ch))
  {
    var act, s' := StepParts(c, s, a, ch);
    QueueMoves(c, s, a, ch, act, s');
    StepMarks(c, s, a, ch);
    assert ExpiryOk(c, s, a) && GoodThread(c, s, a);
    if HoldsEvent(s.threads[a]) { SeesEntry(c, s, a); }
    ExpiryMoves(c, a, c.ops[a], s.threads[a], ViewOf(c, s, a), ch.timedOut);
    forall b | 0 <= b < |s'.threads| ensures ExpiryOk(c, s', b) {
      assert ExpiryOk(c, s, b);
      if b == a { OwnExpiryOk(c, s, a, ch, act, s'); }
      else { OtherExpiryOk(c, s, a, ch, act, s', b); }
    }
    forall w | 0 <= w < |s'.waiters| && c.ops[w].WaitMany? ensures NoneExpired(s'.waiters[w]) {
      StepNoneExpired(c, s, a, ch, act, s', w);
    }
  }

  lemma ResetExpiry(c: Config, s: State, e: nat)
    requires Expiry(c, s) && e < |s.events|
    ensures Expiry(c, Reset(s, e))
  {
    var s' := Reset(s, e);
    ResetMarks(c, s, e);
    forall b | 0 <= b < |s'.threads| ensures ExpiryOk(c, s', b) { assert ExpiryOk(c, s, b); }
  }

  lemma InitExpiry(c: Config, s: State)
    requires c.Valid() && Init(c, s)
    ensures Expiry(c, s)
  {
    InitMarks(c, s);
  }
}
