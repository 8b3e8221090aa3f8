/** What a WaitMany call consumes and reports. */
module WaitModes {
  import opened Options
  import opened WaitModel
  import opened WaitLocks
  import opened WaitQueues
  import opened WaitCounts

  /** The call has stopped waiting and only has to clean up. */
  predicate Stopped(t: Thread) {
    t.Many? && (t.m == MUnlockSelf || t.m == MRelease || t.m == MDone)
  }

  /** Between finding an event signalled and counting the position. */
  predicate Taking(t: Thread) {
    t.Many? && (t.m == MUnlockTaken || t.m == MTaken)
  }

  predicate AllAuto(c: Config, op: Op) {
    op.WaitMany? && forall i :: 0 <= i < |op.events| ==> IsAuto(c, op.events[i])
  }

  /** The position a consumed signal belongs to, -1 if none was consumed. */
  function TakenIndex(taken: seq<nat>): int {
    if taken == [] then -1 else taken[0]
  }

  /** The paths through the registration loop that depend on the kind of the event. */
  ghost predicate PathOk(c: Config, op: Op, t: Thread) {
    op.WaitMany? && t.Many? ==>
      && (t.m == MLockSelf ==> t.i == 0)
      && (t.m == MCheck || t.m == MSleep || t.m == MRelock ==> t.i >= |op.events|)
      && (t.i < |op.events| ==>
            && (t.m == MPeek || t.m == MPeekAgain ==> !IsAuto(c, op.events[t.i]))
            && (t.m == MConsume ==> IsAuto(c, op.events[t.i])))
  }

  /** Signals are consumed for different positions, exactly for the counted positions of auto-reset
    events and for the one being counted. */
  ghost predicate TakenOk(c: Config, op: Op, t: Thread, w: Waiter) {
    op.WaitMany? && t.Many? && |w.marks| == |op.events| ==>
      && (forall j, k :: 0 <= j < k < |w.taken| ==> w.taken[j] != w.taken[k])
      && (forall i: nat :: i in w.taken <==>
            && i < |op.events| && IsAuto(c, op.events[i])
            && (Counted(w.marks[i]) || (i == t.i && Taking(t))))
  }

  /** Waiting for any event: the status names the consumed signal. */
  ghost predicate AnyStatus(c: Config, op: Op, t: Thread, w: Waiter) {
    op.WaitMany? && !op.all && t.Many? ==>
      && -1 <= w.status < |op.events|
      && |w.taken| <= 1
      && (w.stillWaiting && t.m != MFinish ==> w.status == -1)
      && (w.stillWaiting && t.m != MFinish && !Taking(t) ==> w.taken == [])
      && (!Taking(t) && AllAuto(c, op) ==> w.status == TakenIndex(w.taken))
  }

  /** Waiting for any event: when the call has been served. */
  ghost predicate AnyServed(op: Op, t: Thread, w: Waiter) {
    op.WaitMany? && !op.all && t.Many? ==>
      && (!w.stillWaiting && !Stopped(t) ==> LoopOver(t) && w.status != -1)
      && (t.m == MFinish && t.result == Success ==> w.status != -1)
  }

  /** Waiting for any event: what the call reports. */
  ghost predicate AnyIndex(c: Config, op: Op, t: Thread, w: Waiter) {
    op.WaitMany? && !op.all && t.Many? && Stopped(t) ==>
      && (AllAuto(c, op) ==> t.index == w.status)
      && -1 <= t.index < |op.events| && (t.result == Success ==> t.index != -1)
  }

  ghost predicate AnyEnd(c: Config, op: Op, t: Thread, w: Waiter) {
    AnyServed(op, t, w) && AnyIndex(c, op, t, w)
  }

  /** Waiting for any event: no position has been signalled while the status says so. */
  ghost predicate AnyUnfired(op: Op, w: Waiter) {
    op.WaitMany? && !op.all && w.status == -1 ==>
      forall i :: 0 <= i < |w.marks| ==> !Counted(w.marks[i])
  }

  /** Waiting for all events. */
  ghost predicate AllOk(op: Op, t: Thread, w: Waiter) {
    op.WaitMany? && op.all && t.Many? ==>
      && (w.stillWaiting <==> !Stopped(t))
      && ((t.m == MFinish || Stopped(t)) && t.result == Success ==> w.status == 0)
      && (Stopped(t) ==> t.index >= w.status && (t.result == Success ==> t.index == 0))
  }

  ghost predicate Mode(c: Config, op: Op, t: Thread, w: Waiter) {
    && PathOk(c, op, t) && TakenOk(c, op, t, w) && AnyStatus(c, op, t, w) && AnyEnd(c, op, t, w)
    && AnyUnfired(op, w) && AllOk(op, t, w)
    && (Stopped(t) ==> !w.stillWaiting)
  }

  ghost predicate WaiterMode(c: Config, s: State, w: nat)
    requires w < |s.waiters| && w < |c.ops| && w < |s.threads|
  {
    Mode(c, c.ops[w], s.threads[w], s.waiters[w])
  }

  /** An auto-reset setter about to notify a waiter has seen, under its mutex, that it still waits. */
  ghost predicate FiresWaiting(c: Config, s: State, b: nat)
    requires b < |s.threads|
  {
    s.threads[b].Setter? && s.threads[b].p == SFire && b < |c.ops| && c.ops[b].Set? && IsAuto(c, c.ops[b].event)
    ==> forall w :: 0 <= w < |s.waiters| && Targets(c, s, b, w) ==> s.waiters[w].stillWaiting
  }

  ghost predicate Modes(c: Config, s: State) {
    && Counts(c, s)
    && (forall w :: 0 <= w < |s.waiters| ==> WaiterMode(c, s, w))
    && (forall b :: 0 <= b < |s.threads| ==> FiresWaiting(c, s, b))
  }

  // ---------------------------------------------------------------- what a step changes

  /** The fields that the predicates above read change only by these actions. */
  predicate ModeAction(s: State, a: nat, act: Action, w: nat) {
    ((act.Consume? || act.Satisfy? || act.Stop?) && a == w) || (act.Fire? && Signals(s, a, act, w))
  }

  lemma ApplyMode(c: Config, s: State, a: nat, act: Action, pick: nat, w: nat)
    requires Applicable(c, s, a, act) && w < |s.waiters|
    ensures var wt, wt' := s.waiters[w], Apply(c, s, a, act, pick).waiters[w];
      && (!ModeAction(s, a, act, w) ==>
            wt'.status == wt.status && wt'.stillWaiting == wt.stillWaiting && wt'.taken == wt.taken)
      && (act.Fire? && Signals(s, a, act, w) ==>
            var i := Marked(s, a, act).value.0.index;
            && wt'.status == (if c.ops[w].WaitMany? && c.ops[w].all then wt.status - 1 else i)
            && wt'.stillWaiting == (c.ops[w].WaitMany? && c.ops[w].all && wt.stillWaiting)
            && wt'.taken == (if IsAuto(c, act.e) then wt.taken + [i] else wt.taken))
  {
  }

  // ---------------------------------------------------------------- the call's own steps

  /** The waiter after a step of its own call, as far as the predicates above read it. */
  ghost predicate OwnWaiter(c: Config, op: Op, t: Thread, act: Action, w: Waiter, w': Waiter)
    requires op.WaitMany? && t.Many?
  {
    && w'.status == (if act.Satisfy? then (if op.all then w.status - 1 else t.i) else w.status)
    && w'.stillWaiting == (w.stillWaiting && !act.Stop?)
    && w'.taken == (if act.Consume? then w.taken + [t.i] else w.taken)
    && |w'.marks| == |w.marks|
    && (forall i :: 0 <= i < |w.marks| ==>
          Counted(w'.marks[i]) == (Counted(w.marks[i]) || (act.Satisfy? && i == t.i)))
  }

  lemma StepOwnWaiter(c: Config, s: State, a: nat, ch: Choice, act: Action, s': State)
    requires IsMarkStep(c, s, a, ch, act, s') && c.ops[a].WaitMany?
    ensures s.threads[a].Many? && a < |s'.waiters|
    ensures OwnWaiter(c, c.ops[a], s.threads[a], act, s.waiters[a], s'.waiters[a])
    ensures s'.threads[a] == NextMany(c, c.ops[a], s.threads[a], ViewOf(c, s, a), ch.timedOut)
    ensures act == ActionMany(a, c.ops[a], s.threads[a], ViewOf(c, s, a))
  {
    ApplyMarksOf(c, s, a, act, ch.pick, a);
    MarkBefore(c, s, a, ch, act, s');
    assert GoodWaiter(c, s, a);
  }

  lemma OwnPathOk(c: Config, op: Op, t: Thread, v: View, timedOut: bool)
    requires op.WaitMany? && t.Many? && PathOk(c, op, t) && GoodLocals(op, t)
    requires AtPosition(t) ==> v.auto == IsAuto(c, op.events[t.i])
    ensures PathOk(c, op, NextMany(c, op, t, v, timedOut))
  {
  }

  lemma OwnTakenOk(c: Config, a: nat, op: Op, t: Thread, v: View, timedOut: bool, w: Waiter, w': Waiter)
    requires op.WaitMany? && t.Many? && GoodLocals(op, t) && PathOk(c, op, t)
    requires AtPosition(t) ==> v.auto == IsAuto(c, op.events[t.i])
    requires AtPosition(t) ==> t.i < |w.marks| && w.marks[t.i] == Unvisited
    requires |w.marks| == |op.events|
    requires TakenOk(c, op, t, w)
    requires OwnWaiter(c, op, t, ActionMany(a, op, t, v), w, w')
    ensures TakenOk(c, op, NextMany(c, op, t, v, timedOut), w')
  {
    var t' := NextMany(c, op, t, v, timedOut);
    if t.m == MConsume {
      assert !Counted(w.marks[t.i]);
      assert t.i !in w.taken;
    } else if t.m == MTaken {
    } else {
      assert Taking(t') && IsAuto(c, op.events[t'.i]) ==> Taking(t);
    }
  }

  lemma OwnAnyStatus(c: Config, a: nat, op: Op, t: Thread, v: View, timedOut: bool, w: Waiter, w': Waiter)
    requires op.WaitMany? && t.Many? && GoodLocals(op, t)
    requires AtPosition(t) ==> t.i < |w.marks| && w.marks[t.i] == Unvisited
    requires v.own == w && |w.marks| == |op.events|
    requires TakenOk(c, op, t, w) && AnyStatus(c, op, t, w) && AnyEnd(c, op, t, w)
    requires OwnWaiter(c, op, t, ActionMany(a, op, t, v), w, w')
    ensures AnyStatus(c, op, NextMany(c, op, t, v, timedOut), w')
  {
    if t.m == MTaken && AllAuto(c, op) {
      assert t.i in w.taken;
    }
  }

  lemma OwnAnyEnd(c: Config, a: nat, op: Op, t: Thread, v: View, timedOut: bool, w: Waiter, w': Waiter)
    requires op.WaitMany? && t.Many? && GoodLocals(op, t)
    requires v.own == w
    requires AnyStatus(c, op, t, w) && AnyEnd(c, op, t, w)
    requires OwnWaiter(c, op, t, ActionMany(a, op, t, v), w, w')
    ensures AnyEnd(c, op, NextMany(c, op, t, v, timedOut), w')
  {
    OwnAnyServed(c, a, op, t, v, timedOut, w, w');
    OwnAnyIndex(c, a, op, t, v, timedOut, w, w');
  }

  lemma OwnAnyServed(c: Config, a: nat, op: Op, t: Thread, v: View, timedOut: bool, w: Waiter, w': Waiter)
    requires op.WaitMany? && t.Many? && GoodLocals(op, t)
    requires v.own == w
    requires AnyStatus(c, op, t, w) && AnyServed(op, t, w)
    requires OwnWaiter(c, op, t, ActionMany(a, op, t, v), w, w')
    ensures AnyServed(op, NextMany(c, op, t, v, timedOut), w')
  {
  }

  lemma OwnAnyIndex(c: Config, a: nat, op: Op, t: Thread, v: View, timedOut: bool, w: Waiter, w': Waiter)
    requires op.WaitMany? && t.Many? && GoodLocals(op, t)
    requires v.own == w
    requires AnyStatus(c, op, t, w) && AnyServed(op, t, w) && AnyIndex(c, op, t, w)
    requires OwnWaiter(c, op, t, ActionMany(a, op, t, v), w, w')
    ensures AnyIndex(c, op, NextMany(c, op, t, v, timedOut), w')
  {
    OwnStop(c, a, op, t, v, timedOut);
  }

  /** A call that stops reports the status it sees; before that and afterwards nothing changes. */
  lemma OwnStop(c: Config, a: nat, op: Op, t: Thread, v: View, timedOut: bool)
    requires op.WaitMany? && t.Many? && GoodLocals(op, t)
    ensures var t', act := NextMany(c, op, t, v, timedOut), ActionMany(a, op, t, v);
      Stopped(t') ==>
        && t'.result == t.result && !act.Satisfy?
        && (t.m == MFinish || Stopped(t)) && t'.index == (if t.m == MFinish then v.own.status else t.index)
  {
  }

  lemma OwnAllOk(c: Config, a: nat, op: Op, t: Thread, v: View, timedOut: bool, w: Waiter, w': Waiter)
    requires op.WaitMany? && t.Many? && GoodLocals(op, t) && v.own == w
    requires AllOk(op, t, w)
    requires OwnWaiter(c, op, t, ActionMany(a, op, t, v), w, w')
    ensures AllOk(op, NextMany(c, op, t, v, timedOut), w')
  {
  }

  lemma OwnMode(c: Config, a: nat, op: Op, t: Thread, v: View, timedOut: bool, w: Waiter, w': Waiter)
    requires op.WaitMany? && t.Many? && GoodLocals(op, t) && v.own == w && |w.marks| == |op.events|
    requires AtPosition(t) ==> v.auto == IsAuto(c, op.events[t.i]) && w.marks[t.i] == Unvisited
    requires Mode(c, op, t, w)
    requires OwnWaiter(c, op, t, ActionMany(a, op, t, v), w, w')
    ensures Mode(c, op, NextMany(c, op, t, v, timedOut), w')
  {
    OwnPathOk(c, op, t, v, timedOut);
    OwnTakenOk(c, a, op, t, v, timedOut, w, w');
    OwnAnyStatus(c, a, op, t, v, timedOut, w, w');
    OwnAnyEnd(c, a, op, t, v, timedOut, w, w');
    OwnAllOk(c, a, op, t, v, timedOut, w, w');
  }

  lemma StepOwnMode(c: Config, s: State, a: nat, ch: Choice, act: Action, s': State)
    requires IsMarkStep(c, s, a, ch, act, s') && c.ops[a].WaitMany? && WaiterMode(c, s, a)
    ensures a < |s'.waiters| && a < |s'.threads| && WaiterMode(c, s', a)
  {
    StepOwnWaiter(c, s, a, ch, act, s');
    assert WaiterMarks(c, s, a) && GoodWaiter(c, s, a);
    OwnMode(c, a, c.ops[a], s.threads[a], ViewOf(c, s, a), ch.timedOut, s.waiters[a], s'.waiters[a]);
  }

  // ---------------------------------------------------------------- being fired by a setter

  /** When a setter fires a waiter, the waiting call holds no lock and has a queued position. */
  lemma FiredWhileOut(c: Config, s: State, a: nat, ch: Choice, act: Action, s': State, w: nat)
    requires Modes(c, s) && IsMarkStep(c, s, a, ch, act, s')
    requires act.Fire? && Signals(s, a, act, w) && w < |c.ops|
    ensures c.ops[w].WaitMany? && s.threads[w].Many? && w != a && w < |s'.threads| && s'.threads[w] == s.threads[w]
    ensures LoopOver(s.threads[w]) && s.threads[w].m != MFinish && s.threads[w].m != MCheck
    ensures IsAuto(c, act.e) ==> s.waiters[w].stillWaiting
    ensures GoodRegistration(c, act.e, Marked(s, a, act).value.0)
    ensures c.ops[w].all ==> s.waiters[w].status >= 1
  {
    FiringSetter(c, s, a, ch, act, s', w);
    FiredVisited(c, s, a, ch, act, s', w);
    FiredOutside(c, s, a, w, act.e);
    FiredCounter(c, s, a, ch, act, s', w);
  }

  /** Who fires holds the waiter's mutex, and nothing else happens to the waiter's call. */
  lemma FiringSetter(c: Config, s: State, a: nat, ch: Choice, act: Action, s': State, w: nat)
    requires Modes(c, s) && IsMarkStep(c, s, a, ch, act, s')
    requires act.Fire? && Signals(s, a, act, w) && w < |c.ops|
    ensures s.threads[a].Setter? && s.threads[a].p == SFire && Targets(c, s, a, w) && c.ops[a] == Set(act.e)
    ensures GoodRegistration(c, act.e, Marked(s, a, act).value.0)
    ensures w != a && w < |s'.threads| && s'.threads[w] == s.threads[w]
  {
    FireIsSet(c, a, c.ops[a], s.threads[a], ViewOf(c, s, a));
    assert GoodEvent(c, s, act.e) && GoodThread(c, s, w);
    ApplyThreads(c, s, a, act, ch.pick);
  }

  lemma FireIsSet(c: Config, a: nat, op: Op, t: Thread, v: View)
    requires GoodLocals(op, t) && ActionOf(a, op, t, v).Fire?
    ensures t.Setter? && t.p == SFire && op == Set(ActionOf(a, op, t, v).e)
  {
  }

  lemma FiredVisited(c: Config, s: State, a: nat, ch: Choice, act: Action, s': State, w: nat)
    requires IsMarkStep(c, s, a, ch, act, s') && act.Fire? && Signals(s, a, act, w) && w < |c.ops| && c.ops[w].WaitMany?
    ensures s.threads[w].Many? && s.threads[w].i > 0
  {
    MarkBefore(c, s, a, ch, act, s');
    assert GoodThread(c, s, w) && GoodWaiter(c, s, w) && WaiterMarks(c, s, w);
  }

  lemma FiredOutside(c: Config, s: State, a: nat, w: nat, e: nat)
    requires Modes(c, s) && a < |c.ops| && w < |c.ops| && a != w && c.ops[w].WaitMany?
    requires s.threads[w].Many? && s.threads[w].i > 0
    requires s.threads[a].Setter? && s.threads[a].p == SFire && Targets(c, s, a, w) && c.ops[a] == Set(e)
    ensures LoopOver(s.threads[w]) && s.threads[w].m != MFinish && s.threads[w].m != MCheck
    ensures IsAuto(c, e) ==> s.waiters[w].stillWaiting
  {
    assert ThreadLocks(c, s, a) && ThreadLocks(c, s, w);
    assert FiresWaiting(c, s, a) && WaiterMode(c, s, w);
  }

  /** The fired position was queued, so a wait for all is not over. */
  lemma FiredCounter(c: Config, s: State, a: nat, ch: Choice, act: Action, s': State, w: nat)
    requires Modes(c, s) && IsMarkStep(c, s, a, ch, act, s')
    requires act.Fire? && Signals(s, a, act, w) && w < |c.ops| && c.ops[w].WaitMany?
    ensures c.ops[w].all ==> s.waiters[w].status >= 1
  {
    var r := Marked(s, a, act).value.0;
    assert GoodThread(c, s, w) && GoodWaiter(c, s, w) && WaiterCounts(c, s, w);
    MarkBefore(c, s, a, ch, act, s');
    CountPositive(s.waiters[w].marks, r.index, {Unvisited, Queued, Expired});
  }

  lemma StepFiredMode(c: Config, s: State, a: nat, ch: Choice, act: Action, s': State, w: nat)
    requires Modes(c, s) && IsMarkStep(c, s, a, ch, act, s')
    requires act.Fire? && Signals(s, a, act, w) && w < |c.ops|
    ensures w < |s'.waiters| && w < |s'.threads| && WaiterMode(c, s', w)
  {
    FiredWhileOut(c, s, a, ch, act, s', w);
    ApplyMode(c, s, a, act, ch.pick, w);
    assert WaiterMode(c, s, w);
    FiredTaken(c, s, a, ch, act, s', w);
  }

  lemma FiredTaken(c: Config, s: State, a: nat, ch: Choice, act: Action, s': State, w: nat)
    requires Modes(c, s) && IsMarkStep(c, s, a, ch, act, s')
    requires act.Fire? && Signals(s, a, act, w) && w < |c.ops|
    ensures w < |s'.waiters| && w < |s'.threads| && TakenOk(c, c.ops[w], s'.threads[w], s'.waiters[w])
  {
    FiredWhileOut(c, s, a, ch, act, s', w);
    ApplyMode(c, s, a, act, ch.pick, w);
    FiredCounted(c, s, a, ch, act, s', w);
    assert WaiterMode(c, s, w) && GoodWaiter(c, s, w);
    var i := Marked(s, a, act).value.0.index;
    assert i !in s.waiters[w].taken;
  }

  /** Exactly the fired position becomes counted. */
  lemma FiredCounted(c: Config, s: State, a: nat, ch: Choice, act: Action, s': State, w: nat)
    requires IsMarkStep(c, s, a, ch, act, s') && act.Fire? && Signals(s, a, act, w) && w < |c.ops|
    ensures w < |s'.waiters| && |s'.waiters[w].marks| == |s.waiters[w].marks|
    ensures var i := Marked(s, a, act).value.0.index;
      && i < |s.waiters[w].marks| && !Counted(s.waiters[w].marks[i])
      && s'.waiters[w].marks == s.waiters[w].marks[i := Firing]
  {
    ApplyMarksOf(c, s, a, act, ch.pick, w);
    MarkBefore(c, s, a, ch, act, s');
  }

  // ---------------------------------------------------------------- steps of other calls

  lemma KeptMode(c: Config, op: Op, t: Thread, t': Thread, w: Waiter, w': Waiter)
    requires Mode(c, op, t, w) && (t' == t || t' == Wake(t))
    requires w'.status == w.status && w'.stillWaiting == w.stillWaiting && w'.taken == w.taken
    requires |w'.marks| == |w.marks|
    requires forall i :: 0 <= i < |w.marks| ==> Counted(w'.marks[i]) == Counted(w.marks[i])
    ensures Mode(c, op, t', w')
  {
  }

  lemma CountedKept(c: Config, s: State, a: nat, ch: Choice, act: Action, s': State, w: nat)
    requires IsMarkStep(c, s, a, ch, act, s')
    requires w < |c.ops| && c.ops[w].WaitMany? && !Signals(s, a, act, w)
    ensures w < |s'.waiters| && |s'.waiters[w].marks| == |s.waiters[w].marks|
    ensures forall i :: 0 <= i < |s.waiters[w].marks| ==>
              Counted(s'.waiters[w].marks[i]) == Counted(s.waiters[w].marks[i])
  {
    ApplyMarksOf(c, s, a, act, ch.pick, w);
    MarkBefore(c, s, a, ch, act, s');
    assert GoodWaiter(c, s, w);
  }

  lemma StepOtherMode(c: Config, s: State, a: nat, ch: Choice, act: Action, s': State, w: nat)
    requires IsMarkStep(c, s, a, ch, act, s')
    requires w < |c.ops| && WaiterMode(c, s, w)
    requires (w != a || !c.ops[a].WaitMany?) && !(act.Fire? && Signals(s, a, act, w))
    ensures w < |s'.waiters| && w < |s'.threads| && WaiterMode(c, s', w)
  {
    StepSizes(c, s, a, ch, act, s');
    if c.ops[w].WaitMany? {
      OtherThread(c, s, a, ch, act, s', w);
      FieldsKept(c, s, a, ch, act, s', w);
      CountedKept(c, s, a, ch, act, s', w);
      KeptMode(c, c.ops[w], s.threads[w], s'.threads[w], s.waiters[w], s'.waiters[w]);
    } else {
      assert GoodThread(c, s, w);
      NotManyMode(c, s, a, ch, act, s', w);
    }
  }

  lemma StepSizes(c: Config, s: State, a: nat, ch: Choice, act: Action, s': State)
    requires IsMarkStep(c, s, a, ch, act, s')
    ensures |s'.waiters| == |s'.threads| == |c.ops|
  {
  }

  lemma OtherThread(c: Config, s: State, a: nat, ch: Choice, act: Action, s': State, b: nat)
    requires IsMarkStep(c, s, a, ch, act, s') && b < |c.ops| && b != a
    ensures b < |s'.threads| && (s'.threads[b] == s.threads[b] || s'.threads[b] == Wake(s.threads[b]))
  {
    ApplyThreads(c, s, a, act, ch.pick);
  }

  lemma FieldsKept(c: Config, s: State, a: nat, ch: Choice, act: Action, s': State, w: nat)
    requires IsMarkStep(c, s, a, ch, act, s') && w < |c.ops| && !ModeAction(s, a, act, w)
    ensures w < |s'.waiters|
    ensures s'.waiters[w].status == s.waiters[w].status && s'.waiters[w].stillWaiting == s.waiters[w].stillWaiting
    ensures s'.waiters[w].taken == s.waiters[w].taken
  {
    ApplyMode(c, s, a, act, ch.pick, w);
  }

  /** Nothing is claimed of the waiter of another kind of call. */
  lemma NotManyMode(c: Config, s: State, a: nat, ch: Choice, act: Action, s': State, w: nat)
    requires IsMarkStep(c, s, a, ch, act, s') && w < |c.ops| && !c.ops[w].WaitMany?
    ensures w < |s'.waiters| && w < |s'.threads| && WaiterMode(c, s', w)
  {
    StepLocks(c, s, a, ch);
    assert GoodThread(c, s', w);
  }

  /** A setter that just saw, under the mutex, that its target still waits. */
  lemma OwnFiresWaiting(c: Config, s: State, a: nat, ch: Choice, act: Action, s': State, w: nat)
    requires IsMarkStep(c, s, a, ch, act, s')
    requires s'.threads[a].Setter? && s'.threads[a].p == SFire && IsAuto(c, c.ops[a].event) && c.ops[a].Set?
    requires w < |s'.waiters| && Targets(c, s', a, w)
    ensures s'.waiters[w].stillWaiting
  {
    OwnTargetKept(c, s, a, ch, act, s', w);
  }

  lemma OtherFiresWaiting(c: Config, s: State, a: nat, ch: Choice, act: Action, s': State, b: nat, w: nat)
    requires IsMarkStep(c, s, a, ch, act, s') && b < |c.ops| && b != a
    requires HoldsTarget(s.threads[b]) && w < |s.waiters| && Targets(c, s, b, w)
    requires s.waiters[w].stillWaiting
    ensures w < |s'.waiters| && s'.waiters[w].stillWaiting
  {
    assert ThreadLocks(c, s, b);
    if (act.Stop? && a == w) || (act.Fire? && Signals(s, a, act, w)) {
      StoresUnderLock(c, s, a, ch, act, s', w);
    } else {
      StillWaitingKept(c, s, a, ch, act, s', w);
    }
  }

  lemma StillWaitingKept(c: Config, s: State, a: nat, ch: Choice, act: Action, s': State, w: nat)
    requires IsMarkStep(c, s, a, ch, act, s') && w < |s.waiters|
    requires !(act.Stop? && a == w) && !(act.Fire? && Signals(s, a, act, w))
    ensures w < |s'.waiters| && s'.waiters[w].stillWaiting == s.waiters[w].stillWaiting
  {
  }

  /** A waiter stops waiting, or is fired, only under its mutex. */
  lemma StoresUnderLock(c: Config, s: State, a: nat, ch: Choice, act: Action, s': State, w: nat)
    requires IsMarkStep(c, s, a, ch, act, s') && w < |s.waiters|
    requires (act.Stop? && a == w) || (act.Fire? && Signals(s, a, act, w))
    ensures s.waiters[w].owner == Some(a)
  {
    assert ThreadLocks(c, s, a);
  }

  lemma StepFiresWaiting(c: Config, s: State, a: nat, ch: Choice, act: Action, s': State, b: nat)
    requires IsMarkStep(c, s, a, ch, act, s') && b < |c.ops| && FiresWaiting(c, s, b)
    ensures b < |s'.threads| && FiresWaiting(c, s', b)
  {
    ApplyThreads(c, s, a, act, ch.pick);
    if s'.threads[b].Setter? && s'.threads[b].p == SFire && c.ops[b].Set? && IsAuto(c, c.ops[b].event) {
      forall w | 0 <= w < |s'.waiters| && Targets(c, s', b, w) ensures s'.waiters[w].stillWaiting {
        if b == a {
          OwnFiresWaiting(c, s, a, ch, act, s', w);
        } else {
          OthersTargetUntouched(c, s, a, ch, act, s', b, w);
          OtherFiresWaiting(c, s, a, ch, act, s', b, w);
        }
      }
    }
  }

  lemma StepModes(c: Config, s: State, a: nat, ch: Choice)
    requires Modes(c, s) && a < |c.ops| && CanStep(c, s, a, ch)
    ensures Modes(c, Step(c, s, a, ch))
  {
    var act, s' := StepParts(c, s, a, ch);
    QueueMoves(c, s, a, ch, act, s');
    StepCounts(c, s, a, ch);
    forall w | 0 <= w < |s'.waiters| ensures WaiterMode(c, s', w) {
      assert WaiterMode(c, s, w);
      if act.Fire? && Signals(s, a, act, w) { StepFiredMode(c, s, a, ch, act, s', w); }
      else if w == a && c.ops[a].WaitMany? { StepOwnMode(c, s, a, ch, act, s'); }
      else { StepOtherMode(c, s, a, ch, act, s', w); }
    }
    forall b | 0 <= b < |s'.threads| ensures FiresWaiting(c, s', b) {
      assert FiresWaiting(c, s, b);
      StepFiresWaiting(c, s, a, ch, act, s', b);
    }
  }

  lemma ResetModes(c: Config, s: State, e: nat)
    requires Modes(c, s) && e < |s.events|
    ensures Modes(c, Reset(s, e))
  {
    var s' := Reset(s, e);
    ResetCounts(c, s, e);
    forall w | 0 <= w < |s'.waiters| ensures WaiterMode(c, s', w) { assert WaiterMode(c, s, w); }
    forall b | 0 <= b < |s'.threads| ensures FiresWaiting(c, s', b) { assert FiresWaiting(c, s, b); }
  }

  lemma InitModes(c: Config, s: State)
    requires c.Valid() && Init(c, s)
    ensures Modes(c, s)
  {
    InitCounts(c, s);
  }
}
