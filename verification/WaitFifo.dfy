/** An auto-reset SetEvent serves the earliest queued waiter that still waits, and only that one. */
module WaitFifo {
  import opened Options
  import opened WaitModel
  import opened WaitLocks
  import opened WaitQueues
  import opened WaitCounts
  import opened WaitModes

  predicate NotWaiting(s: State, r: Registration) {
    r.waiter < |s.waiters| && !s.waiters[r.waiter].stillWaiting
  }

  /** The setter still walks the deque. */
  predicate Walking(p: SetPc) {
    p == SHead || p == SDropExpired || p == SLockWaiter || p == SRecheck || p == SFire
    || p == SUnlockExpired || p == SUnlockFired || p == SSignal || p == SDropFired
  }

  /** The setter has handed its signal to a waiter. */
  predicate Handed(t: Thread) {
    t.Setter? && (t.p == SUnlockFired || t.p == SSignal || t.p == SDropFired || t.p == SUnlockHanded
                  || (t.p == SDone && t.handedTo.Some?))
  }

  /** The setter has left the event signalled. */
  predicate Stored(t: Thread) {
    t.Setter? && (t.p == SUnlock || t.p == SNotify || (t.p == SDone && t.handedTo.None?))
  }

  /** The deque is what the setter found, less the expired entries it has dropped. */
  ghost predicate SetterPart(t: Thread, q: seq<Registration>) {
    t.Setter? && t.p != SLock ==>
      && t.p != SRaise
      && t.gone <= |t.seen|
      && (Walking(t.p) ==> q == t.seen[t.gone..])
      && (HasTarget(t) ==> q != [])
      && (if Handed(t) then t.gone < |t.seen| && t.handedTo == Some(t.seen[t.gone]) else t.handedTo == None)
      && (Stored(t) ==> t.gone == |t.seen|)
  }

  /** The entries the setter passed over belong to waiters that have stopped waiting. */
  ghost predicate SetterSkips(s: State, t: Thread) {
    t.Setter? && t.p != SLock ==>
      && (forall j :: 0 <= j < t.gone && j < |t.seen| ==> NotWaiting(s, t.seen[j]))
      && (t.p == SDropExpired || t.p == SUnlockExpired ==> t.gone < |t.seen| && NotWaiting(s, t.seen[t.gone]))
  }

  ghost predicate SetterOk(c: Config, s: State, b: nat)
    requires b < |c.ops| && b < |s.threads|
  {
    var op, t := c.ops[b], s.threads[b];
    op.Set? && IsAuto(c, op.event) && op.event < |s.events| ==>
      SetterPart(t, s.events[op.event].queue) && SetterSkips(s, t)
  }

  ghost predicate FreshSetter(t: Thread) {
    t.Setter? && t.p == SLock ==> t.gone == 0 && t.handedTo == None
  }

  ghost predicate Fifo(c: Config, s: State) {
    && Locks(c, s)
    && (forall b :: 0 <= b < |s.threads| ==> SetterOk(c, s, b) && FreshSetter(s.threads[b]))
  }

  /** A waiter that has stopped waiting never waits again. */
  lemma StoppedForGood(c: Config, s: State, a: nat, ch: Choice, act: Action, s': State, r: Registration)
    requires IsStep(c, s, a, ch, act, s') && NotWaiting(s, r)
    ensures NotWaiting(s', r)
  {
    ApplyStop(c, s, a, act, ch.pick, r.waiter);
  }

  lemma ApplyStop(c: Config, s: State, a: nat, act: Action, pick: nat, w: nat)
    requires Applicable(c, s, a, act) && w < |s.waiters|
    ensures Apply(c, s, a, act, pick).waiters[w].stillWaiting ==> s.waiters[w].stillWaiting
  {
  }

  lemma SkipsKept(c: Config, s: State, a: nat, ch: Choice, act: Action, s': State, t: Thread)
    requires IsStep(c, s, a, ch, act, s') && SetterSkips(s, t)
    ensures SetterSkips(s', t)
  {
    if t.Setter? {
      forall j | 0 <= j < |t.seen| && NotWaiting(s, t.seen[j]) ensures NotWaiting(s', t.seen[j]) {
        StoppedForGood(c, s, a, ch, act, s', t.seen[j]);
      }
    }
  }

  lemma OtherSetterOk(c: Config, s: State, a: nat, ch: Choice, act: Action, s': State, b: nat)
    requires IsStep(c, s, a, ch, act, s') && b < |c.ops| && b != a
    requires SetterOk(c, s, b)
    ensures b < |s'.threads| && SetterOk(c, s', b)
  {
    ApplyThreads(c, s, a, act, ch.pick);
    var t := s.threads[b];
    assert GoodThread(c, s, b);
    if c.ops[b].Set? && IsAuto(c, c.ops[b].event) && c.ops[b].event < |s.events| {
      SkipsKept(c, s, a, ch, act, s', t);
      if HoldsEvent(t) {
        OthersEventUntouched(c, s, a, ch, act, s', b);
        ApplyEvents(c, s, a, act, ch.pick);
      }
    }
  }

  lemma OwnSetterPart(op: Op, t: Thread, v: View, r: Registration)
    requires op.Set? && t.Setter? && v.auto
    requires v.event.queue != [] ==> v.entry == v.event.queue[0]
    requires SetterPart(t, v.event.queue) && FreshSetter(t)
    requires HasTarget(t) ==> v.event.queue != []
    ensures SetterPart(NextSet(t, v), QueueAfter(v.event.queue, r, ActionSet(op, t, v)))
    ensures FreshSetter(NextSet(t, v))
  {
  }

  lemma OwnSetterSkips(s: State, t: Thread, v: View)
    requires t.Setter? && SetterPart(t, v.event.queue) && SetterSkips(s, t) && FreshSetter(t)
    requires v.event.queue != [] ==> v.entry == v.event.queue[0] && (v.waiting || NotWaiting(s, v.entry))
    requires HasTarget(t) ==> v.event.queue != []
    ensures SetterSkips(s, NextSet(t, v))
  {
    if Walking(t.p) && v.event.queue != [] {
      assert v.event.queue[0] == t.seen[t.gone];
    }
    assert t.p == SDropExpired ==> NextSet(t, v).gone == t.gone + 1;
  }

  lemma OwnSetterOk(c: Config, s: State, a: nat, ch: Choice, act: Action, s': State)
    requires IsStep(c, s, a, ch, act, s')
    requires SetterOk(c, s, a) && FreshSetter(s.threads[a])
    ensures SetterOk(c, s', a) && FreshSetter(s'.threads[a])
  {
    var op, t, v := c.ops[a], s.threads[a], ViewOf(c, s, a);
    assert c.ValidOp(op);
    if op.Set? && IsAuto(c, op.event) {
      SeesHead(c, s, a);
      OwnSetterPart(op, t, v, Registration(a, 0));
      OwnSetterSkips(s, t, v);
      SkipsKept(c, s, a, ch, act, s', NextSet(t, v));
      QueueOfOwn(c, s, a, ch, act, s');
    }
  }

  /** The deque of the setter's event after its own step. */
  lemma QueueOfOwn(c: Config, s: State, a: nat, ch: Choice, act: Action, s': State)
    requires IsStep(c, s, a, ch, act, s') && c.ops[a].Set?
    ensures c.ops[a].event < |s.events| && c.ops[a].event < |s'.events|
    ensures s'.events[c.ops[a].event].queue ==
              QueueAfter(s.events[c.ops[a].event].queue, Registration(a, 0), act)
  {
    assert c.ValidOp(c.ops[a]);
    ApplyEvents(c, s, a, act, ch.pick);
  }

  /** What a setter sees of its event. */
  lemma SeesHead(c: Config, s: State, a: nat)
    requires Locks(c, s) && a < |c.ops| && c.ops[a].Set?
    ensures c.ops[a].event < |s.events|
    ensures var v := ViewOf(c, s, a);
      && v.auto == IsAuto(c, c.ops[a].event) && v.event == s.events[c.ops[a].event]
      && (v.event.queue != [] ==>
            v.entry == v.event.queue[0] && (v.waiting || NotWaiting(s, v.entry)))
      && (HasTarget(s.threads[a]) ==> v.event.queue != [])
  {
    assert c.ValidOp(c.ops[a]) && GoodThread(c, s, a);
    assert GoodEvent(c, s, c.ops[a].event);
  }

  lemma StepFifo(c: Config, s: State, a: nat, ch: Choice)
    requires Fifo(c, s) && a < |c.ops| && CanStep(c, s, a, ch)
    ensures Fifo(c, Step(c, s, a, ch))
  {
    var act, s' := StepParts(c, s, a, ch);
    StepLocks(c, s, a, ch);
    ApplyThreads(c, s, a, act, ch.pick);
    forall b | 0 <= b < |s'.threads| ensures SetterOk(c, s', b) && FreshSetter(s'.threads[b]) {
      assert SetterOk(c, s, b) && FreshSetter(s.threads[b]);
      if b == a { OwnSetterOk(c, s, a, ch, act, s'); }
      else { OtherSetterOk(c, s, a, ch, act, s', b); }
    }
  }

  lemma ResetFifo(c: Config, s: State, e: nat)
    requires Fifo(c, s) && e < |s.events|
    ensures Fifo(c, Reset(s, e))
  {
    var s' := Reset(s, e);
    ResetLocks(c, s, e);
    forall b | 0 <= b < |s'.threads| ensures SetterOk(c, s', b) && FreshSetter(s'.threads[b]) {
      assert SetterOk(c, s, b) && FreshSetter(s.threads[b]);
    }
  }

  lemma InitFifo(c: Config, s: State)
    requires c.Valid() && Init(c, s)
    ensures Fifo(c, s)
  {
    InitLocks(c, s);
  }
}
