/** Every signal of an auto-reset event that was consumed or handed over is with the wait that got it. */
module WaitBalance {
  import opened Options
  import opened WaitModel
  import opened WaitLocks
  import opened WaitQueues
  import opened WaitCounts
  import opened WaitModes
  import opened WaitSignals
  import opened WaitRuns
  import opened WaitSets
  import opened WaitSingle

  /** The WaitForEvent calls that have succeeded on the event. */
  function GotOnes(c: Config, s: State, e: nat): set<nat> {
    set a: nat | a < |c.ops| && a < |s.threads| && c.ops[a].WaitOne? && c.ops[a].event == e && Got(true, s.threads[a])
  }

  /** The positions of WaitForMultipleEvents calls that have got a signal of the event. */
  function GotPositions(c: Config, s: State, e: nat): set<(nat, nat)> {
    set w: nat, i: nat | w < |c.ops| && w < |s.waiters| && c.ops[w].WaitMany? && i in s.waiters[w].taken
                         && i < |c.ops[w].events| && c.ops[w].events[i] == e :: (w, i)
  }

  ghost predicate Balanced(c: Config, s: State, e: nat) {
    e < |s.events| && s.events[e].taken + s.events[e].handed == |GotOnes(c, s, e)| + |GotPositions(c, s, e)|
  }

  // ---------------------------------------------------------------- who gets a signal in a step

  /** The position at which this action gives its waiter a signal. */
  function Gift(c: Config, s: State, a: nat, act: Action): Option<Registration> {
    match act
    case Consume(_) =>
      if a < |c.ops| && a < |s.threads| && c.ops[a].WaitMany? && s.threads[a].Many? then Some(Registration(a, s.threads[a].i))
      else None
    case Fire(e) =>
      if IsAuto(c, e) && e < |s.events| && s.events[e].queue != [] then Some(s.events[e].queue[0]) else None
    case _ => None
  }

  function TakenWith(s: State, w: nat, g: Option<Registration>): seq<nat>
    requires w < |s.waiters|
  {
    if g.Some? && g.value.waiter == w then s.waiters[w].taken + [g.value.index] else s.waiters[w].taken
  }

  lemma ApplyTaken(c: Config, s: State, a: nat, act: Action, pick: nat, w: nat)
    requires Applicable(c, s, a, act) && w < |s.waiters|
    ensures Apply(c, s, a, act, pick).waiters[w].taken == TakenWith(s, w, Gift(c, s, a, act))
  {
  }

  /** A gift is for a position of the event that has not had one. */
  lemma GiftIsNew(c: Config, s: State, a: nat, ch: Choice, act: Action, s': State)
    requires Inv(c, s) && IsMarkStep(c, s, a, ch, act, s') && Gift(c, s, a, act).Some?
    ensures var r := Gift(c, s, a, act).value;
      && r.waiter < |c.ops| && r.waiter < |s.waiters| && c.ops[r.waiter].WaitMany?
      && r.index < |c.ops[r.waiter].events| && c.ops[r.waiter].events[r.index] == act.e
      && r.index !in s.waiters[r.waiter].taken
  {
    if act.Consume? {
      ConsumedIsNew(c, s, a, ch, act, s');
    } else {
      FiredIsNew(c, s, a, ch, act, s');
    }
  }

  lemma ConsumedIsNew(c: Config, s: State, a: nat, ch: Choice, act: Action, s': State)
    requires Inv(c, s) && IsMarkStep(c, s, a, ch, act, s') && act.Consume? && Gift(c, s, a, act).Some?
    ensures var i := s.threads[a].i;
      i < |c.ops[a].events| && c.ops[a].events[i] == act.e && i !in s.waiters[a].taken
  {
    assert GoodThread(c, s, a) && GoodWaiter(c, s, a) && WaiterMarks(c, s, a) && WaiterMode(c, s, a);
  }

  lemma FiredIsNew(c: Config, s: State, a: nat, ch: Choice, act: Action, s': State)
    requires Inv(c, s) && IsMarkStep(c, s, a, ch, act, s') && act.Fire? && Gift(c, s, a, act).Some?
    ensures var r := Gift(c, s, a, act).value;
      && r.waiter < |c.ops| && r.waiter < |s.waiters| && c.ops[r.waiter].WaitMany?
      && r.index < |c.ops[r.waiter].events| && c.ops[r.waiter].events[r.index] == act.e
      && r.index !in s.waiters[r.waiter].taken
  {
    var r := Gift(c, s, a, act).value;
    assert GoodEvent(c, s, act.e);
    FiredWhileOut(c, s, a, ch, act, s', r.waiter);
    FiredCounted(c, s, a, ch, act, s', r.waiter);
    assert WaiterMode(c, s, r.waiter) && GoodWaiter(c, s, r.waiter);
  }

  lemma PositionsStep(c: Config, s: State, a: nat, ch: Choice, act: Action, s': State, e: nat)
    requires Inv(c, s) && IsMarkStep(c, s, a, ch, act, s')
    ensures var g := Gift(c, s, a, act);
      GotPositions(c, s', e) == GotPositions(c, s, e) +
        if g.Some? && act.e == e then {(g.value.waiter, g.value.index)} else {}
    ensures var g := Gift(c, s, a, act);
      g.Some? && act.e == e ==> (g.value.waiter, g.value.index) !in GotPositions(c, s, e)
  {
    StepSizes(c, s, a, ch, act, s');
    forall w: nat | w < |s.waiters| ensures s'.waiters[w].taken == TakenWith(s, w, Gift(c, s, a, act)) {
      ApplyTaken(c, s, a, act, ch.pick, w);
    }
    if Gift(c, s, a, act).Some? {
      GiftIsNew(c, s, a, ch, act, s');
    }
    PositionsAfter(c, s, s', e, Gift(c, s, a, act), if act.Consume? || act.Fire? then act.e else 0);
  }

  lemma PositionsAfter(c: Config, s: State, s': State, e: nat, g: Option<Registration>, of: nat)
    requires |s'.waiters| == |s.waiters|
    requires forall w: nat :: w < |s.waiters| ==> s'.waiters[w].taken == TakenWith(s, w, g)
    requires g.Some? ==>
      var r := g.value;
      && r.waiter < |c.ops| && r.waiter < |s.waiters| && c.ops[r.waiter].WaitMany?
      && r.index < |c.ops[r.waiter].events| && c.ops[r.waiter].events[r.index] == of
      && r.index !in s.waiters[r.waiter].taken
    ensures GotPositions(c, s', e) == GotPositions(c, s, e) +
      if g.Some? && of == e then {(g.value.waiter, g.value.index)} else {}
    ensures g.Some? && of == e ==> (g.value.waiter, g.value.index) !in GotPositions(c, s, e)
  {
  }

  /** A WaitForEvent call consumes a signal exactly when it succeeds. */
  lemma OnesStep(c: Config, s: State, a: nat, ch: Choice, act: Action, s': State, e: nat)
    requires Inv(c, s) && IsMarkStep(c, s, a, ch, act, s') && IsAuto(c, e) && OnePaths(c, s)
    ensures GotOnes(c, s', e) == GotOnes(c, s, e) + if c.ops[a].WaitOne? && act == Consume(e) then {a} else {}
    ensures c.ops[a].WaitOne? && act == Consume(e) ==> a !in GotOnes(c, s, e)
  {
    StepSizes(c, s, a, ch, act, s');
    forall b: nat | b < |c.ops| && b != a ensures Got(true, s'.threads[b]) == Got(true, s.threads[b]) {
      OtherThread(c, s, a, ch, act, s', b);
    }
    if c.ops[a].WaitOne? && c.ops[a].event == e {
      OneGets(c, s, a, ch, act, s', e);
    } else {
      NotOfThis(c, s, a, ch, act, s', e);
    }
    OnesAfter(c, s, s', a, e, c.ops[a].WaitOne? && act == Consume(e));
  }

  lemma OnesAfter(c: Config, s: State, s': State, a: nat, e: nat, got: bool)
    requires |s.threads| == |s'.threads| == |c.ops| && a < |c.ops|
    requires forall b: nat :: b < |c.ops| && b != a ==> Got(true, s'.threads[b]) == Got(true, s.threads[b])
    requires if c.ops[a].WaitOne? && c.ops[a].event == e
             then (Got(true, s'.threads[a]) <==> Got(true, s.threads[a]) || got) && (got ==> !Got(true, s.threads[a]))
             else !got
    ensures GotOnes(c, s', e) == GotOnes(c, s, e) + if got then {a} else {}
    ensures got ==> a !in GotOnes(c, s, e)
  {
  }

  /** The paths of all WaitForEvent calls fit their events. */
  ghost predicate OnePaths(c: Config, s: State) {
    forall a :: 0 <= a < |c.ops| && a < |s.threads| && c.ops[a].WaitOne? ==> OnePath(IsAuto(c, c.ops[a].event), s.threads[a])
  }

  lemma OneGets(c: Config, s: State, a: nat, ch: Choice, act: Action, s': State, e: nat)
    requires IsMarkStep(c, s, a, ch, act, s') && IsAuto(c, e) && OnePaths(c, s)
    requires c.ops[a].WaitOne? && c.ops[a].event == e
    ensures a < |s'.threads| && (act == Consume(e) ==> !Got(true, s.threads[a]))
    ensures Got(true, s'.threads[a]) <==> Got(true, s.threads[a]) || act == Consume(e)
  {
    assert GoodThread(c, s, a);
    OwnStep(c.ops[a], s.threads[a], ViewOf(c, s, a), ch.timedOut);
  }

  lemma NotOfThis(c: Config, s: State, a: nat, ch: Choice, act: Action, s': State, e: nat)
    requires IsMarkStep(c, s, a, ch, act, s') && !(c.ops[a].WaitOne? && c.ops[a].event == e)
    ensures !(c.ops[a].WaitOne? && act == Consume(e))
  {
    assert GoodThread(c, s, a);
  }

  // ---------------------------------------------------------------- whole runs

  lemma StepBalanced(c: Config, s: State, a: nat, ch: Choice, e: nat)
    requires Inv(c, s) && a < |c.ops| && CanStep(c, s, a, ch) && IsAuto(c, e) && OnePaths(c, s) && Balanced(c, s, e)
    ensures Balanced(c, Step(c, s, a, ch), e)
  {
    var act, s' := StepParts(c, s, a, ch);
    QueueMoves(c, s, a, ch, act, s');
    OnesStep(c, s, a, ch, act, s', e);
    PositionsStep(c, s, a, ch, act, s', e);
    CountersOf(c, s, a, ch, act, s', e);
    GiftOrOne(c, s, a, ch, act, s', e);
  }

  lemma CountersOf(c: Config, s: State, a: nat, ch: Choice, act: Action, s': State, e: nat)
    requires IsStep(c, s, a, ch, act, s') && e < |s.events| && IsAuto(c, e)
    ensures |s'.events| == |s.events|
    ensures s'.events[e].taken == s.events[e].taken + if act == Consume(e) then 1 else 0
    ensures s'.events[e].handed == s.events[e].handed + if act == Fire(e) then 1 else 0
  {
    ApplySignals(c, s, a, act, ch.pick, e);
  }

  /** A signal that is consumed or handed over goes to one wait. */
  lemma GiftOrOne(c: Config, s: State, a: nat, ch: Choice, act: Action, s': State, e: nat)
    requires IsStep(c, s, a, ch, act, s') && IsAuto(c, e)
    ensures act == Consume(e) ==> Gift(c, s, a, act).Some? != c.ops[a].WaitOne?
    ensures act == Fire(e) ==> Gift(c, s, a, act).Some? && !c.ops[a].WaitOne?
    ensures Gift(c, s, a, act).Some? ==> (act.Consume? || act.Fire?) && !(act.Consume? && c.ops[a].WaitOne?)
  {
    assert GoodThread(c, s, a);
  }

  lemma NextBalanced(c: Config, s: State, s': State, e: nat)
    requires Inv(c, s) && Next(c, s, s') && IsAuto(c, e) && OnePaths(c, s) && Balanced(c, s, e)
    ensures Balanced(c, s', e)
  {
    if a: nat, ch: Choice :| a < |c.ops| && CanStep(c, s, a, ch) && s' == Step(c, s, a, ch) {
      StepBalanced(c, s, a, ch, e);
    } else {
      assert s'.threads == s.threads && s'.waiters == s.waiters;
      assert GotOnes(c, s', e) == GotOnes(c, s, e) && GotPositions(c, s', e) == GotPositions(c, s, e);
    }
  }

  lemma InitBalanced(c: Config, s: State, e: nat)
    requires c.Valid() && Init(c, s) && IsAuto(c, e)
    ensures Balanced(c, s, e)
  {
    assert GotOnes(c, s, e) == {} && GotPositions(c, s, e) == {};
  }

  lemma RunOnePaths(c: Config, run: seq<State>, n: nat)
    requires IsRun(c, run) && n < |run|
    ensures OnePaths(c, run[n])
  {
    forall a | 0 <= a < |c.ops| && a < |run[n].threads| && c.ops[a].WaitOne?
      ensures OnePath(IsAuto(c, c.ops[a].event), run[n].threads[a])
    {
      ConsumedWhenGot(c, run, n, a);
    }
  }

  lemma RunNextBalanced(c: Config, run: seq<State>, n: nat, e: nat)
    requires IsRun(c, run) && n + 1 < |run| && IsAuto(c, e) && Balanced(c, run[n], e)
    ensures Balanced(c, run[n + 1], e)
  {
    RunInv(c, run, n);
    RunOnePaths(c, run, n);
    assert NextAt(c, run, n);
    NextBalanced(c, run[n], run[n + 1], e);
  }

  lemma {:induction false} RunBalanced(c: Config, run: seq<State>, n: nat, e: nat)
    requires IsRun(c, run) && n < |run| && IsAuto(c, e)
    ensures Balanced(c, run[n], e)
  {
    if n == 0 {
      InitBalanced(c, run[0], e);
    } else {
      RunBalanced(c, run, n - 1, e);
      RunNextBalanced(c, run, n - 1, e);
    }
  }
}
