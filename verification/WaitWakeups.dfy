/** No sleeper is forgotten by the condition variables. */
module WaitWakeups {
  import opened WaitModel
  import opened WaitLocks
  import opened WaitQueues
  import opened WaitCounts
  import opened WaitModes

  /** The thread will still act on a pending signal of its event: a setter that has yet to signal the
    condition variable, or a woken WaitForEvent call that has yet to look at the event. */
  predicate Hopes(auto: bool, t: Thread) {
    match t
    case Setter(p, _, _, _) =>
      if auto then p == SUnlock || p == SNotify else p != SLock && p != SRaise && p != SUnlockHanded && p != SDone
    case One(o, outcome, notified) =>
      auto && ((o == OSleep && notified) || (o == ORelock && outcome == Success) || o == OTest || o == OConsume)
    case _ => false
  }

  predicate Hopeful(c: Config, s: State, h: nat, e: nat) {
    && h < |c.ops| && h < |s.threads|
    && (c.ops[h].Set? || c.ops[h].WaitOne?) && c.ops[h].event == e
    && Hopes(IsAuto(c, e), s.threads[h])
  }

  /** While an event is signalled and somebody sleeps on it unsignalled, somebody is about to act. */
  ghost predicate HopeOk(c: Config, s: State, e: nat)
    requires e < |s.events|
  {
    s.events[e].state ==>
      forall v: nat :: SleepsOn(c, s, v, e) ==> Hopeful(c, s, s.events[e].hope, e)
  }

  /** A WaitMany call that sleeps although its condition is met has been signalled, or the setter
    that met the condition has yet to signal it. */
  ghost predicate FirerOk(c: Config, s: State, w: nat)
    requires w < |c.ops| && w < |s.threads| && w < |s.waiters|
  {
    var t, wt := s.threads[w], s.waiters[w];
    c.ops[w].WaitMany? && t.Many? && t.m == MSleep && !t.woken && ConditionMet(c.ops[w].all, wt.status)
    ==> wt.firer < |s.threads| && AboutToRouse(s.threads[wt.firer]) && Targets(c, s, wt.firer, w)
  }

  predicate AboutToRouse(t: Thread) {
    t.Setter? && (t.p == SUnlockFired || t.p == SSignal)
  }

  ghost predicate Wakeups(c: Config, s: State) {
    && Locks(c, s)
    && (forall e :: 0 <= e < |s.events| ==> HopeOk(c, s, e))
    && (forall w :: 0 <= w < |s.waiters| ==> FirerOk(c, s, w))
  }

  // ---------------------------------------------------------------- single waits

  ghost predicate HopeMove(t: Thread, t': Thread, v: View, act: Action, timedOut: bool) {
    && (Hopes(v.auto, t) && v.event.state && !(timedOut && IsWoken(t)) ==>
          Hopes(v.auto, t') || act.NotifyOne? || act.NotifyAll? || act.Consume?)
    && (t'.One? && t'.o == OSleep ==> act.UnlockEvent? && !v.event.state)
    && (act.Raise? ==> Hopes(v.auto, t'))
    && (act.NotifyOne? ==> v.auto)
  }

  lemma HopeMoves(c: Config, a: nat, op: Op, t: Thread, v: View, timedOut: bool)
    requires GoodLocals(op, t) && !Finished(t)
    requires t.Setter? && t.p == SRaise ==> !v.auto
    ensures HopeMove(t, NextThread(c, op, t, v, timedOut), v, ActionOf(a, op, t, v), timedOut)
  {
    if op.WaitMany? { ManyHopeMove(c, a, op, t, v, timedOut); }
  }

  lemma ManyHopeMove(c: Config, a: nat, op: Op, t: Thread, v: View, timedOut: bool)
    requires op.WaitMany? && GoodLocals(op, t) && !Finished(t)
    ensures HopeMove(t, NextMany(c, op, t, v, timedOut), v, ActionMany(a, op, t, v), timedOut)
  {
  }

  lemma ApplyHope(c: Config, s: State, a: nat, act: Action, pick: nat, e: nat)
    requires Applicable(c, s, a, act) && e < |s.events|
    ensures var ev, ev' := s.events[e], Apply(c, s, a, act, pick).events[e];
      && (act != Raise(e) && ev'.state ==> ev.state)
      && (act == Consume(e) ==> !ev'.state)
      && ev'.hope == (if act == Raise(e) then a
                      else if act == NotifyOne(e) && SleepsOn(c, s, pick, e) then pick else ev.hope)
  {
  }

  lemma ApplySleepers(c: Config, s: State, a: nat, act: Action, pick: nat, v: nat, e: nat)
    requires Applicable(c, s, a, act) && v < |c.ops|
    ensures var s1 := Apply(c, s, a, act, pick);
      && (SleepsOn(c, s1, v, e) ==> SleepsOn(c, s, v, e) && act != NotifyAll(e))
      && (act == NotifyOne(e) && SleepsOn(c, s, pick, e) ==>
            IsWoken(s1.threads[pick]) && s1.threads[pick] == Wake(s.threads[pick]))
  {
  }

  ghost predicate IsWakeStep(c: Config, s: State, a: nat, ch: Choice, act: Action, s': State) {
    && Wakeups(c, s)
    && IsStep(c, s, a, ch, act, s')
    && HopeMove(s.threads[a], s'.threads[a], ViewOf(c, s, a), act, ch.timedOut)
  }

  /** Whoever sleeps unsignalled on a signalled event slept there before the step. */
  lemma SleptBefore(c: Config, s: State, a: nat, ch: Choice, act: Action, s': State, v: nat, e: nat)
    requires IsWakeStep(c, s, a, ch, act, s')
    requires e < |s.events| && s'.events[e].state && SleepsOn(c, s', v, e)
    ensures SleepsOn(c, s, v, e) && act != NotifyAll(e) && v != a
  {
    ApplySleepers(c, s, a, act, ch.pick, v, e);
    ApplyHope(c, s, a, act, ch.pick, e);
  }

  lemma StepHopeOk(c: Config, s: State, a: nat, ch: Choice, act: Action, s': State, e: nat)
    requires IsWakeStep(c, s, a, ch, act, s') && e < |s.events|
    ensures e < |s'.events| && HopeOk(c, s', e)
  {
    if s'.events[e].state {
      forall v: nat | SleepsOn(c, s', v, e) ensures Hopeful(c, s', s'.events[e].hope, e) {
        SleptBefore(c, s, a, ch, act, s', v, e);
        if act == Raise(e) || act == NotifyOne(e) {
          NewHope(c, s, a, ch, act, s', e, v);
        } else {
          ApplyHope(c, s, a, act, ch.pick, e);
          assert HopeOk(c, s, e);
          HopefulKept(c, s, a, ch, act, s', e, s.events[e].hope);
        }
      }
    }
  }

  /** Who raises, and who is notified, becomes the one expected to act. */
  lemma NewHope(c: Config, s: State, a: nat, ch: Choice, act: Action, s': State, e: nat, v: nat)
    requires IsWakeStep(c, s, a, ch, act, s') && e < |s.events| && e < |s'.events| && s'.events[e].state
    requires SleepsOn(c, s, v, e) && (act == Raise(e) || act == NotifyOne(e))
    ensures Hopeful(c, s', s'.events[e].hope, e)
  {
    ApplyHope(c, s, a, act, ch.pick, e);
    if act == Raise(e) {
      assert ThreadLocks(c, s, a);
    } else {
      ApplySleepers(c, s, a, act, ch.pick, ch.pick, e);
    }
  }

  lemma HopefulKept(c: Config, s: State, a: nat, ch: Choice, act: Action, s': State, e: nat, h: nat)
    requires IsWakeStep(c, s, a, ch, act, s') && e < |s.events|
    requires s.events[e].state && s'.events[e].state
    requires Hopeful(c, s, h, e) && act != NotifyOne(e) && act != NotifyAll(e)
    ensures Hopeful(c, s', h, e)
  {
    if h == a {
      OwnHope(c, s, a, ch, act, s', e);
    } else {
      OtherHope(c, s, a, ch, act, s', e, h);
    }
  }

  lemma OwnHope(c: Config, s: State, a: nat, ch: Choice, act: Action, s': State, e: nat)
    requires IsWakeStep(c, s, a, ch, act, s') && e < |s.events|
    requires s.events[e].state && s'.events[e].state
    requires Hopeful(c, s, a, e) && act != NotifyOne(e) && act != NotifyAll(e)
    ensures Hopeful(c, s', a, e)
  {
    ApplyHope(c, s, a, act, ch.pick, e);
    assert GoodThread(c, s, a);
  }

  lemma OtherHope(c: Config, s: State, a: nat, ch: Choice, act: Action, s': State, e: nat, h: nat)
    requires IsStep(c, s, a, ch, act, s') && Hopeful(c, s, h, e) && h != a
    ensures Hopeful(c, s', h, e)
  {
    ApplyThreads(c, s, a, act, ch.pick);
    assert GoodThread(c, s, h);
  }

  // ---------------------------------------------------------------- multiple waits

  lemma ApplyFirer(c: Config, s: State, a: nat, act: Action, pick: nat, w: nat)
    requires Applicable(c, s, a, act) && w < |s.waiters|
    ensures Apply(c, s, a, act, pick).waiters[w].firer ==
              if act.Fire? && WaitCounts.Signals(s, a, act, w) then a else s.waiters[w].firer
    ensures act == Rouse(w) && s.threads[w].Many? && s.threads[w].m == MSleep ==>
              Apply(c, s, a, act, pick).threads[w] == Wake(s.threads[w])
  {
  }

  /** A setter that has fired moves on to signalling. */
  lemma RouserKept(c: Config, s: State, a: nat, ch: Choice, act: Action, s': State, f: nat, w: nat)
    requires IsStep(c, s, a, ch, act, s')
    requires f < |c.ops| && AboutToRouse(s.threads[f]) && Targets(c, s, f, w)
    ensures (f == a && act == Rouse(w)) || (AboutToRouse(s'.threads[f]) && Targets(c, s', f, w))
  {
    ApplyThreads(c, s, a, act, ch.pick);
    if f == a { OwnTargetKept(c, s, a, ch, act, s', w); }
    else { OthersTargetUntouched(c, s, a, ch, act, s', f, w); }
  }

  /** A call goes to sleep only while its condition is not met. */
  lemma SleepsUnmet(c: Config, s: State, a: nat, ch: Choice, act: Action, s': State)
    requires IsStep(c, s, a, ch, act, s') && c.ops[a].WaitMany?
    requires s'.threads[a].Many? && s'.threads[a].m == MSleep
    ensures !ConditionMet(c.ops[a].all, s.waiters[a].status) && act == UnlockWaiter(a)
  {
  }

  lemma StepFirerOk(c: Config, s: State, a: nat, ch: Choice, act: Action, s': State, w: nat)
    requires IsStep(c, s, a, ch, act, s') && w < |c.ops| && FirerOk(c, s, w)
    ensures w < |s'.threads| && w < |s'.waiters| && FirerOk(c, s', w)
  {
    ApplyMode(c, s, a, act, ch.pick, w);
    ApplyFirer(c, s, a, act, ch.pick, w);
    ApplyThreads(c, s, a, act, ch.pick);
    var t' := s'.threads[w];
    if c.ops[w].WaitMany? && t'.Many? && t'.m == MSleep && !t'.woken
       && ConditionMet(c.ops[w].all, s'.waiters[w].status)
    {
      if w == a { SleepsUnmet(c, s, a, ch, act, s'); }
      if act.Fire? && WaitCounts.Signals(s, a, act, w) {
        FirerStarts(c, s, a, ch, act, s', w);
      } else {
        RouserKept(c, s, a, ch, act, s', s.waiters[w].firer, w);
      }
    }
  }

  lemma FirerStarts(c: Config, s: State, a: nat, ch: Choice, act: Action, s': State, w: nat)
    requires IsStep(c, s, a, ch, act, s')
    requires act.Fire? && WaitCounts.Signals(s, a, act, w)
    ensures AboutToRouse(s'.threads[a]) && Targets(c, s', a, w)
  {
    OwnTargetKept(c, s, a, ch, act, s', w);
  }

  lemma StepWakeups(c: Config, s: State, a: nat, ch: Choice)
    requires Wakeups(c, s) && a < |c.ops| && CanStep(c, s, a, ch)
    requires s.threads[a].Setter? && s.threads[a].p == SRaise ==> !ViewOf(c, s, a).auto
    ensures Wakeups(c, Step(c, s, a, ch))
  {
    var act, s' := StepParts(c, s, a, ch);
    HopeMoves(c, a, c.ops[a], s.threads[a], ViewOf(c, s, a), ch.timedOut);
    StepLocks(c, s, a, ch);
    forall e | 0 <= e < |s'.events| ensures HopeOk(c, s', e) {
      StepHopeOk(c, s, a, ch, act, s', e);
    }
    forall w | 0 <= w < |s'.waiters| ensures FirerOk(c, s', w) {
      assert FirerOk(c, s, w);
      StepFirerOk(c, s, a, ch, act, s', w);
    }
  }

  lemma ResetWakeups(c: Config, s: State, e: nat)
    requires Wakeups(c, s) && e < |s.events|
    ensures Wakeups(c, Reset(s, e))
  {
    var s' := Reset(s, e);
    ResetLocks(c, s, e);
    forall d | 0 <= d < |s'.events| ensures HopeOk(c, s', d) {
      assert HopeOk(c, s, d);
      assert forall v: nat :: SleepsOn(c, s', v, d) == SleepsOn(c, s, v, d);
    }
    forall w | 0 <= w < |s'.waiters| ensures FirerOk(c, s', w) { assert FirerOk(c, s, w); }
  }

  lemma InitWakeups(c: Config, s: State)
    requires c.Valid() && Init(c, s)
    ensures Wakeups(c, s)
  {
    InitLocks(c, s);
  }
}
