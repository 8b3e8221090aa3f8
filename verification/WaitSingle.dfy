/** What a wait for one event consumes: the contract that the thread pool builds on. */
module WaitSingle {
  import opened Options
  import opened WaitModel
  import opened WaitLocks
  import opened WaitQueues
  import opened WaitModes
  import opened WaitRuns

  /** Between two states, call `a` consumes the signal of its event. */
  predicate Consumes(s: State, s': State, a: nat) {
    && a < |s.threads| && a < |s'.threads| && s.threads[a].One? && s'.threads[a].One?
    && s.threads[a].o == OConsume && s'.threads[a].o == OUnlock
  }

  /** How many signals call `a` has consumed in the first n steps. */
  function Consumed(run: seq<State>, n: nat, a: nat): nat
    requires n < |run|
  {
    if n == 0 then 0 else Consumed(run, n - 1, a) + if Consumes(run[n - 1], run[n], a) then 1 else 0
  }

  predicate Got(auto: bool, t: Thread) {
    t.One? && auto && (t.o == OUnlock || t.o == ODone) && t.outcome == Success
  }

  /** The paths open to each kind of event. */
  predicate OnePath(auto: bool, t: Thread) {
    t.One? ==> (auto ==> t.o != OFast && t.o != OFastAgain) && (!auto ==> t.o != OConsume)
  }

  lemma OwnStep(op: Op, t: Thread, v: View, timedOut: bool)
    requires op.WaitOne? && t.One? && OnePath(v.auto, t)
    ensures var t' := NextOne(op, t, v, timedOut);
      && t'.One? && OnePath(v.auto, t')
      && (t.o != ODone ==> (Got(v.auto, t') <==> Got(v.auto, t) || (t.o == OConsume && t'.o == OUnlock)))
      && (t.o == OConsume ==> !Got(v.auto, t))
  {
  }

  lemma StepOne(c: Config, s: State, s': State, a: nat)
    requires Modes(c, s) && Next(c, s, s') && a < |c.ops| && c.ops[a].WaitOne?
    requires OnePath(IsAuto(c, c.ops[a].event), s.threads[a])
    ensures a < |s'.threads| && s.threads[a].One? && s'.threads[a].One?
    ensures OnePath(IsAuto(c, c.ops[a].event), s'.threads[a])
    ensures var auto := IsAuto(c, c.ops[a].event);
      && (Got(auto, s'.threads[a]) <==> Got(auto, s.threads[a]) || Consumes(s, s', a))
      && (Consumes(s, s', a) ==> !Got(auto, s.threads[a]))
  {
    assert GoodThread(c, s, a);
    if b: nat, ch: Choice :| b < |c.ops| && CanStep(c, s, b, ch) && s' == Step(c, s, b, ch) {
      StepOneBy(c, s, b, ch, a);
    }
  }

  lemma StepOneBy(c: Config, s: State, b: nat, ch: Choice, a: nat)
    requires Modes(c, s) && b < |c.ops| && CanStep(c, s, b, ch) && a < |c.ops| && c.ops[a].WaitOne?
    requires s.threads[a].One? && OnePath(IsAuto(c, c.ops[a].event), s.threads[a])
    ensures var s', auto := Step(c, s, b, ch), IsAuto(c, c.ops[a].event);
      && a < |s'.threads| && s'.threads[a].One? && OnePath(auto, s'.threads[a])
      && (Got(auto, s'.threads[a]) <==> Got(auto, s.threads[a]) || Consumes(s, s', a))
      && (Consumes(s, s', a) ==> !Got(auto, s.threads[a]))
  {
    var act, s' := StepParts(c, s, b, ch);
    QueueMoves(c, s, b, ch, act, s');
    if a == b {
      StepSizes(c, s, b, ch, act, s');
      OwnStep(c.ops[a], s.threads[a], ViewOf(c, s, a), ch.timedOut);
    } else {
      OtherThread(c, s, b, ch, act, s', a);
    }
  }

  lemma {:induction false} ConsumedWhenGot(c: Config, run: seq<State>, n: nat, a: nat)
    requires IsRun(c, run) && n < |run| && a < |c.ops| && c.ops[a].WaitOne?
    ensures a < |run[n].threads| && run[n].threads[a].One?
    ensures OnePath(IsAuto(c, c.ops[a].event), run[n].threads[a])
    ensures Consumed(run, n, a) == if Got(IsAuto(c, c.ops[a].event), run[n].threads[a]) then 1 else 0
  {
    if n > 0 {
      ConsumedWhenGot(c, run, n - 1, a);
      RunStepOne(c, run, n - 1, a);
    } else {
      assert run[0].threads[a] == InitialThread(c, c.ops[a]);
    }
  }

  lemma RunStepOne(c: Config, run: seq<State>, n: nat, a: nat)
    requires IsRun(c, run) && n + 1 < |run| && a < |c.ops| && c.ops[a].WaitOne?
    requires a < |run[n].threads| && OnePath(IsAuto(c, c.ops[a].event), run[n].threads[a])
    ensures a < |run[n + 1].threads| && run[n].threads[a].One? && run[n + 1].threads[a].One?
    ensures OnePath(IsAuto(c, c.ops[a].event), run[n + 1].threads[a])
    ensures var auto := IsAuto(c, c.ops[a].event);
      && (Got(auto, run[n + 1].threads[a]) <==> Got(auto, run[n].threads[a]) || Consumes(run[n], run[n + 1], a))
      && (Consumes(run[n], run[n + 1], a) ==> !Got(auto, run[n].threads[a]))
  {
    RunInv(c, run, n);
    assert NextAt(c, run, n);
    StepOne(c, run[n], run[n + 1], a);
  }

  /** In every run, a finished WaitForEvent call has consumed exactly one signal if its event is auto-reset and
    it succeeded, and none if it timed out or its event is manual-reset. */
  lemma OneConsumesIfItSucceeds(c: Config, run: seq<State>, n: nat, a: nat)
    requires IsRun(c, run) && n < |run| && a < |c.ops| && c.ops[a].WaitOne?
    ensures a < |run[n].threads| && run[n].threads[a].One?
    ensures run[n].threads[a].o == ODone ==>
      Consumed(run, n, a) == if IsAuto(c, c.ops[a].event) && run[n].threads[a].outcome == Success then 1 else 0
  {
    ConsumedWhenGot(c, run, n, a);
  }

  /** Each of those takes the signal: the event is not signalled any more, and counts one more signal taken. */
  lemma ConsumingTakesTheSignal(c: Config, run: seq<State>, n: nat, a: nat)
    requires IsRun(c, run) && n + 1 < |run| && a < |c.ops| && c.ops[a].WaitOne?
    requires Consumes(run[n], run[n + 1], a)
    ensures var e := c.ops[a].event;
      && e < |run[n].events| && e < |run[n + 1].events|
      && run[n + 1].events[e] == run[n].events[e].(state := false, taken := run[n].events[e].taken + 1)
  {
    RunInv(c, run, n);
    assert NextAt(c, run, n);
    NextConsume(c, run[n], run[n + 1], a);
  }

  lemma NextConsume(c: Config, s: State, s': State, a: nat)
    requires Modes(c, s) && Next(c, s, s') && a < |c.ops| && c.ops[a].WaitOne? && Consumes(s, s', a)
    ensures var e := c.ops[a].event;
      && e < |s.events| && e < |s'.events|
      && s'.events[e] == s.events[e].(state := false, taken := s.events[e].taken + 1)
  {
    if b: nat, ch: Choice :| b < |c.ops| && CanStep(c, s, b, ch) && s' == Step(c, s, b, ch) {
      if b == a {
        ConsumeStep(c, s, a, ch);
      } else {
        KeepsPlace(c, s, b, ch, a);
      }
    }
  }

  lemma KeepsPlace(c: Config, s: State, b: nat, ch: Choice, a: nat)
    requires Modes(c, s) && b < |c.ops| && CanStep(c, s, b, ch) && a < |c.ops| && a != b && c.ops[a].WaitOne?
    ensures !Consumes(s, Step(c, s, b, ch), a)
  {
    var act, s' := StepParts(c, s, b, ch);
    QueueMoves(c, s, b, ch, act, s');
    OtherThread(c, s, b, ch, act, s', a);
  }

  lemma ConsumeStep(c: Config, s: State, a: nat, ch: Choice)
    requires Locks(c, s) && a < |c.ops| && c.ops[a].WaitOne? && CanStep(c, s, a, ch)
    requires s.threads[a].One? && s.threads[a].o == OConsume
    ensures var e, s' := c.ops[a].event, Step(c, s, a, ch);
      && e < |s.events| && e < |s'.events|
      && s'.events[e] == s.events[e].(state := false, taken := s.events[e].taken + 1)
  {
    assert c.ValidOp(c.ops[a]) && GoodThread(c, s, a);
  }
}
