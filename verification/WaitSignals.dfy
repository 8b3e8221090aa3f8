/** What happens to signals: none is lost while someone is queued, and each is accounted for. */
module WaitSignals {
  import opened Options
  import opened WaitModel
  import opened WaitLocks
  import opened WaitQueues

  predicate OwnedBySetter(s: State, e: nat)
    requires e < |s.events|
  {
    s.events[e].owner.Some? && s.events[e].owner.value < |s.threads|
    && s.threads[s.events[e].owner.value].Setter?
  }

  /** The event is owned by a setter that is done with the deque and about to unlock. */
  predicate OwnerUnlocks(s: State, e: nat)
    requires e < |s.events|
  {
    OwnedBySetter(s, e) && s.threads[s.events[e].owner.value].p == SUnlock
  }

  /** A signalled event has an empty deque, except while a manual-reset setter is walking it. */
  ghost predicate Quiet(c: Config, s: State, e: nat)
    requires e < |s.events|
  {
    var ev := s.events[e];
    && (IsAuto(c, e) || !OwnedBySetter(s, e) || OwnerUnlocks(s, e) ==>
          ev.swept == [] && (ev.state ==> ev.queue == []))
    && (OwnerUnlocks(s, e) ==> ev.queue == [])
  }

  /** Every signal of an auto-reset event is consumed, handed over, absorbed or still pending. */
  ghost predicate Conserved(c: Config, s: State, e: nat)
    requires e < |s.events| && e < |c.signalled|
  {
    var ev := s.events[e];
    IsAuto(c, e) && ev.resets == 0 ==>
      (if c.signalled[e] then 1 else 0) + ev.sets
        == ev.taken + ev.handed + ev.absorbed + (if ev.state then 1 else 0)
  }

  /** The steps a thread is about to take fit the kind of its event. */
  ghost predicate KindOk(c: Config, s: State, a: nat)
    requires a < |c.ops| && a < |s.threads|
  {
    var op, t := c.ops[a], s.threads[a];
    var e := EventOf(op, t);
    && (t.Setter? && (t.p == SRecheck || t.p == SUnlockExpired || t.p == SUnlockHanded) ==> IsAuto(c, e))
    && (t.Setter? && t.p == SRaise ==> !IsAuto(c, e))
    && (AboutToConsume(t) ==> IsAuto(c, e) && e < |s.events| && (s.events[e].resets == 0 ==> s.events[e].state))
  }

  predicate AboutToConsume(t: Thread) {
    (t.Many? && t.m == MConsume) || (t.One? && t.o == OConsume)
  }

  ghost predicate SignalRules(c: Config, s: State) {
    && Locks(c, s)
    && (forall e :: 0 <= e < |s.events| ==> Quiet(c, s, e))
    && (forall e :: 0 <= e < |s.events| ==> Conserved(c, s, e))
    && (forall a :: 0 <= a < |s.threads| ==> KindOk(c, s, a))
  }

  // ---------------------------------------------------------------- one step, seen locally

  /** What a thread sees and does around the signal of its event. */
  ghost predicate SignalMove(t: Thread, t': Thread, v: View, act: Action) {
    && (act.Raise? ==> t.Setter? && (v.auto ==> v.event.queue == [] && t'.Setter? && t'.p == SUnlock))
    && (act.Clear? ==> t.Setter? && !v.auto && v.event.queue == [] && t'.Setter? && t'.p == SUnlock)
    && (act.Enqueue? ==> t.Many? && !v.event.state)
    && (act.Consume? <==> AboutToConsume(t))
    && (AboutToConsume(t') ==> v.auto && v.event.state && act == Nothing)
    && (act.UnlockEvent? && t.Setter? ==> t.p == SUnlock || t.p == SUnlockHanded)
    && (t.Setter? && act.Raise? && !v.auto ==> t.p == SRaise && t'.Setter? && t'.p == SHead)
    && (t'.Setter? && t'.p == SUnlock ==> act.Raise? || act.Clear?)
    && (t.Setter? && t.p == SUnlock ==> act.UnlockEvent?)
    && (t.Setter? <==> t'.Setter?)
    && (t'.Setter? && (t'.p == SRecheck || t'.p == SUnlockExpired || t'.p == SUnlockHanded) ==>
          v.auto || (t.Setter? && t.p == SRecheck))
    && (t'.Setter? && t'.p == SRaise ==> !v.auto)
    && (act.DropHead? ==> t.Setter?)
  }

  lemma ManySignalMove(c: Config, a: nat, op: Op, t: Thread, v: View, timedOut: bool)
    requires op.WaitMany? && GoodLocals(op, t) && !Finished(t)
    ensures SignalMove(t, NextMany(c, op, t, v, timedOut), v, ActionMany(a, op, t, v))
  {
  }

  lemma SignalMoves(c: Config, a: nat, op: Op, t: Thread, v: View, timedOut: bool)
    requires GoodLocals(op, t) && !Finished(t)
    requires t.Setter? && t.p == SRaise ==> !v.auto
    ensures SignalMove(t, NextThread(c, op, t, v, timedOut), v, ActionOf(a, op, t, v))
  {
    if op.WaitMany? { ManySignalMove(c, a, op, t, v, timedOut); }
  }

  /** The signal fields of the events after an action. */
  lemma ApplySignals(c: Config, s: State, a: nat, act: Action, pick: nat, e: nat)
    requires Applicable(c, s, a, act) && e < |s.events|
    ensures var ev, ev' := s.events[e], Apply(c, s, a, act, pick).events[e];
      && ev'.resets == ev.resets
      && (if act == Consume(e) then
            !ev'.state && ev'.taken == ev.taken + 1
            && ev'.sets == ev.sets && ev'.handed == ev.handed && ev'.absorbed == ev.absorbed
          else if act == Raise(e) then
            ev'.state && ev'.taken == ev.taken && ev'.handed == ev.handed
            && (IsAuto(c, e) ==> ev'.sets == ev.sets + 1
                                 && ev'.absorbed == ev.absorbed + if ev.state then 1 else 0)
          else if act == Fire(e) then
            ev'.state == ev.state && ev'.taken == ev.taken && ev'.absorbed == ev.absorbed
            && (IsAuto(c, e) ==> ev'.sets == ev.sets + 1 && ev'.handed == ev.handed + 1)
          else
            ev'.state == ev.state && ev'.taken == ev.taken && ev'.sets == ev.sets
            && ev'.handed == ev.handed && ev'.absorbed == ev.absorbed)
      && ev'.swept == (if act == Clear(e) then []
                       else if act.DropHead? && act.e == e && !IsAuto(c, e) && ev.queue != [] then ev.swept + [ev.queue[0]]
                       else ev.swept)
  {
  }

  // ---------------------------------------------------------------- preservation

  ghost predicate IsSignalStep(c: Config, s: State, a: nat, ch: Choice, act: Action, s': State) {
    && SignalRules(c, s)
    && IsStep(c, s, a, ch, act, s')
    && SignalMove(s.threads[a], s'.threads[a], ViewOf(c, s, a), act)
    && KindOk(c, s, a)
  }

  /** A thread that touches an event sees that event. */
  lemma SeesItsEvent(c: Config, s: State, a: nat, ch: Choice, act: Action, s': State, e: nat)
    requires IsSignalStep(c, s, a, ch, act, s')
    requires e < |s.events| && EventTouched(act) == Some(e) && !act.LockEvent?
    ensures ViewOf(c, s, a).event == s.events[e] && ViewOf(c, s, a).auto == IsAuto(c, e)
    ensures s.events[e].owner == Some(a)
  {
    assert ThreadLocks(c, s, a);
  }

  /** Who owns an event the step does not touch, or touches without locking or unlocking it. */
  lemma SetterOwnerKept(c: Config, s: State, a: nat, ch: Choice, act: Action, s': State, e: nat)
    requires IsSignalStep(c, s, a, ch, act, s')
    requires e < |s.events| && act != LockEvent(e) && act != UnlockEvent(e)
    ensures e < |s'.events|
    ensures OwnedBySetter(s', e) == OwnedBySetter(s, e)
    ensures EventTouched(act) != Some(e) ==> OwnerUnlocks(s', e) == OwnerUnlocks(s, e)
    ensures EventTouched(act) == Some(e) ==> 
              (OwnerUnlocks(s', e) <==> ((act.Raise? && IsAuto(c, e)) || act.Clear?))
  {
    ApplyEvents(c, s, a, act, ch.pick);
    ApplyThreads(c, s, a, act, ch.pick);
    assert EventLock(c, s, e) && ThreadLocks(c, s, a);
    if EventTouched(act) == Some(e) { SeesItsEvent(c, s, a, ch, act, s', e); }
  }

  lemma StepQuietKept(c: Config, s: State, a: nat, ch: Choice, act: Action, s': State, e: nat)
    requires IsSignalStep(c, s, a, ch, act, s')
    requires e < |s.events| && act != LockEvent(e) && act != UnlockEvent(e)
    ensures e < |s'.events| && Quiet(c, s', e)
  {
    assert Quiet(c, s, e);
    ApplyEvents(c, s, a, act, ch.pick);
    ApplySignals(c, s, a, act, ch.pick, e);
    SetterOwnerKept(c, s, a, ch, act, s', e);
    if EventTouched(act) == Some(e) { SeesItsEvent(c, s, a, ch, act, s', e); }
  }

  lemma StepQuietLock(c: Config, s: State, a: nat, ch: Choice, act: Action, s': State, e: nat)
    requires IsSignalStep(c, s, a, ch, act, s')
    requires e < |s.events| && (act == LockEvent(e) || act == UnlockEvent(e))
    ensures e < |s'.events| && Quiet(c, s', e)
  {
    assert Quiet(c, s, e);
    ApplyEvents(c, s, a, act, ch.pick);
    ApplySignals(c, s, a, act, ch.pick, e);
    if act.UnlockEvent? { SeesItsEvent(c, s, a, ch, act, s', e); }
  }

  lemma StepConserved(c: Config, s: State, a: nat, ch: Choice, act: Action, s': State, e: nat)
    requires IsSignalStep(c, s, a, ch, act, s')
    requires e < |s.events|
    ensures e < |s'.events| && Conserved(c, s', e)
  {
    assert Conserved(c, s, e);
    ApplySignals(c, s, a, act, ch.pick, e);
  }

  lemma StepKindOk(c: Config, s: State, a: nat, ch: Choice, act: Action, s': State, b: nat)
    requires IsSignalStep(c, s, a, ch, act, s')
    requires b < |c.ops|
    ensures b < |s'.threads| && KindOk(c, s', b)
  {
    ApplyThreads(c, s, a, act, ch.pick);
    assert KindOk(c, s, b) && GoodThread(c, s, b);
    if b == a {
      OwnKindOk(c, s, a, ch, act, s');
    } else if AboutToConsume(s.threads[b]) {
      var e := EventOf(c.ops[b], s.threads[b]);
      OthersEventUntouched(c, s, a, ch, act, s', b);
      ApplySignals(c, s, a, act, ch.pick, e);
    }
  }

  lemma OwnKindOk(c: Config, s: State, a: nat, ch: Choice, act: Action, s': State)
    requires IsSignalStep(c, s, a, ch, act, s')
    ensures KindOk(c, s', a)
  {
    var op, t, t' := c.ops[a], s.threads[a], s'.threads[a];
    if AboutToConsume(t') {
      assert HoldsEvent(t) && ThreadLocks(c, s, a);
    }
  }

  lemma StepSignals(c: Config, s: State, a: nat, ch: Choice)
    requires SignalRules(c, s) && a < |c.ops| && CanStep(c, s, a, ch)
    ensures SignalRules(c, Step(c, s, a, ch))
  {
    var act, s' := StepParts(c, s, a, ch);
    assert KindOk(c, s, a);
    SignalMoves(c, a, c.ops[a], s.threads[a], ViewOf(c, s, a), ch.timedOut);
    StepLocks(c, s, a, ch);
    forall e | 0 <= e < |s'.events| ensures Quiet(c, s', e) && Conserved(c, s', e) {
      StepConserved(c, s, a, ch, act, s', e);
      if act == LockEvent(e) || act == UnlockEvent(e) { StepQuietLock(c, s, a, ch, act, s', e); }
      else { StepQuietKept(c, s, a, ch, act, s', e); }
    }
    forall b | 0 <= b < |s'.threads| ensures KindOk(c, s', b) {
      StepKindOk(c, s, a, ch, act, s', b);
    }
  }

  lemma ResetSignals(c: Config, s: State, e: nat)
    requires SignalRules(c, s) && e < |s.events|
    ensures SignalRules(c, Reset(s, e))
  {
    var s' := Reset(s, e);
    ResetLocks(c, s, e);
    forall d | 0 <= d < |s'.events| ensures Quiet(c, s', d) && Conserved(c, s', d) {
      assert Quiet(c, s, d) && Conserved(c, s, d);
    }
    forall b | 0 <= b < |s'.threads| ensures KindOk(c, s', b) { assert KindOk(c, s, b); }
  }

  lemma InitSignals(c: Config, s: State)
    requires c.Valid() && Init(c, s)
    ensures SignalRules(c, s)
  {
    InitLocks(c, s);
  }
}
