/** Why a wait is served: the step at which its event was found signalled, or at which a set notified it. */
module WaitCauses {
  import opened Options
  import opened WaitModel
  import opened WaitLocks
  import opened WaitQueues
  import opened WaitCounts
  import opened WaitModes
  import opened WaitRuns
  import opened WaitSets
  import opened WaitBroadcast
  import opened WaitResults

  // ---------------------------------------------------------------- positions of a wait for several events

  /** The call has found the event of its position signalled and not yet counted it. */
  predicate Found(t: Thread) {
    t.Many? && (t.m == MConsume || t.m == MUnlockTaken || t.m == MTaken)
  }

  /** Between these two states, call w finds the event of its position i signalled. */
  predicate FindsAt(c: Config, s: State, s': State, w: nat, i: nat) {
    && w < |c.ops| && c.ops[w].WaitMany? && w < |s.threads| && w < |s'.threads| && s.threads[w].Many?
    && s.threads[w].i == i < |c.ops[w].events| && !Found(s.threads[w]) && Found(s'.threads[w])
    && c.ops[w].events[i] < |s.events| && s.events[c.ops[w].events[i]].state
  }

  lemma FoundMove(c: Config, op: Op, t: Thread, v: View, timedOut: bool)
    requires op.WaitMany? && t.Many?
    ensures var t' := NextMany(c, op, t, v, timedOut);
      Found(t') ==> t'.i == t.i && (Found(t) || ((t.m == MPeekAgain || t.m == MTest) && v.event.state))
  {
  }

  lemma SatisfyMove(a: nat, op: Op, t: Thread, v: View)
    requires op.WaitMany? && t.Many?
    ensures ActionMany(a, op, t, v).Satisfy? ==> t.m == MTaken
  {
  }

  /** The position has been found signalled, and is counted or about to be. */
  predicate Taken(s: State, w: nat, i: nat) {
    MarkOf(s, Registration(w, i)) == Satisfied || (w < |s.threads| && Found(s.threads[w]) && s.threads[w].i == i)
  }

  lemma OwnTaken(c: Config, s: State, w: nat, ch: Choice, act: Action, s': State, i: nat)
    requires IsMarkStep(c, s, w, ch, act, s') && c.ops[w].WaitMany? && Taken(s', w, i)
    ensures Taken(s, w, i) || FindsAt(c, s, s', w, i)
  {
    ApplyMarks(c, s, w, act, ch.pick);
    assert GoodThread(c, s, w) && c.ValidOp(c.ops[w]);
    FoundMove(c, c.ops[w], s.threads[w], ViewOf(c, s, w), ch.timedOut);
    SatisfyMove(w, c.ops[w], s.threads[w], ViewOf(c, s, w));
  }

  lemma OthersTaken(c: Config, s: State, b: nat, ch: Choice, act: Action, s': State, w: nat, i: nat)
    requires IsMarkStep(c, s, b, ch, act, s') && w < |c.ops| && w != b && Taken(s', w, i)
    ensures Taken(s, w, i)
  {
    ApplyMarks(c, s, b, act, ch.pick);
    OtherThread(c, s, b, ch, act, s', w);
  }

  lemma NextTaken(c: Config, s: State, s': State, w: nat, i: nat)
    requires Inv(c, s) && Next(c, s, s') && w < |c.ops| && c.ops[w].WaitMany? && Taken(s', w, i)
    ensures Taken(s, w, i) || FindsAt(c, s, s', w, i)
  {
    if b: nat, ch: Choice :| b < |c.ops| && CanStep(c, s, b, ch) && s' == Step(c, s, b, ch) {
      var act, s'' := StepParts(c, s, b, ch);
      QueueMoves(c, s, b, ch, act, s');
      if b == w {
        OwnTaken(c, s, w, ch, act, s', i);
      } else {
        OthersTaken(c, s, b, ch, act, s', w, i);
      }
    }
  }

  lemma RunTaken(c: Config, run: seq<State>, n: nat, w: nat, i: nat)
    requires IsRun(c, run) && n + 1 < |run| && w < |c.ops| && c.ops[w].WaitMany? && Taken(run[n + 1], w, i)
    ensures Taken(run[n], w, i) || FindsAt(c, run[n], run[n + 1], w, i)
  {
    RunInv(c, run, n);
    assert NextAt(c, run, n);
    NextTaken(c, run[n], run[n + 1], w, i);
  }

  lemma InitialMarks(c: Config, run: seq<State>, w: nat, i: nat)
    requires IsRun(c, run) && w < |c.ops|
    ensures MarkOf(run[0], Registration(w, i)) == Unvisited
  {
  }

  /** A position counted as satisfied was found signalled at a step of the call. */
  lemma {:induction false} FoundSignalled(c: Config, run: seq<State>, n: nat, w: nat, i: nat) returns (m: nat)
    requires IsRun(c, run) && n < |run| && w < |c.ops| && c.ops[w].WaitMany? && Taken(run[n], w, i)
    ensures m < n && FindsAt(c, run[m], run[m + 1], w, i)
  {
    if n == 0 {
      InitialMarks(c, run, w, i);
      InitialThreads(c, run, w);
      assert false;
    } else {
      RunTaken(c, run, n - 1, w, i);
      if Taken(run[n - 1], w, i) {
        m := FoundSignalled(c, run, n - 1, w, i);
      } else {
        m := n - 1;
      }
    }
  }

  // ---------------------------------------------------------------- notified positions

  predicate Notified(s: State, r: Registration) {
    MarkOf(s, r) == Firing || MarkOf(s, r) == Fired
  }

  ghost predicate NotifiedBySome(c: Config, s: State, s': State, r: Registration) {
    exists a :: NotifiesAt(c, s, s', a, r)
  }

  lemma FireIsNotice(c: Config, s: State, a: nat, ch: Choice, act: Action, s': State)
    requires Inv(c, s) && IsMarkStep(c, s, a, ch, act, s') && act.Fire?
    ensures Marked(s, a, act).Some? && NotifiesAt(c, s, s', a, Marked(s, a, act).value.0)
  {
    FireIsSet(c, a, c.ops[a], s.threads[a], ViewOf(c, s, a));
    assert GoodThread(c, s, a);
    FireNotifies(c, s, a, ch, act, s', act.e, s.events[act.e].queue[0]);
  }

  lemma StepNotified(c: Config, s: State, a: nat, ch: Choice, r: Registration)
    requires Inv(c, s) && a < |c.ops| && CanStep(c, s, a, ch) && Notified(Step(c, s, a, ch), r)
    ensures Notified(s, r) || NotifiedBySome(c, s, Step(c, s, a, ch), r)
  {
    var act, s' := StepParts(c, s, a, ch);
    QueueMoves(c, s, a, ch, act, s');
    ApplyMarks(c, s, a, act, ch.pick);
    if act.Fire? {
      FireIsNotice(c, s, a, ch, act, s');
    } else if act.DropHead? {
      RemovedWasLive(c, s, a, ch, act, s');
    }
  }

  lemma NextNotified(c: Config, s: State, s': State, r: Registration)
    requires Inv(c, s) && Next(c, s, s') && Notified(s', r)
    ensures Notified(s, r) || NotifiedBySome(c, s, s', r)
  {
    if a: nat, ch: Choice :| a < |c.ops| && CanStep(c, s, a, ch) && s' == Step(c, s, a, ch) {
      StepNotified(c, s, a, ch, r);
    }
  }

  lemma RunNotified(c: Config, run: seq<State>, n: nat, r: Registration)
    requires IsRun(c, run) && n + 1 < |run| && Notified(run[n + 1], r)
    ensures Notified(run[n], r) || NotifiedBySome(c, run[n], run[n + 1], r)
  {
    RunInv(c, run, n);
    assert NextAt(c, run, n);
    NextNotified(c, run[n], run[n + 1], r);
  }

  /** A position counted as fired was notified at a step of a set of its event. */
  lemma {:induction false} WasNotified(c: Config, run: seq<State>, n: nat, r: Registration) returns (m: nat, a: nat)
    requires IsRun(c, run) && n < |run| && r.waiter < |c.ops| && Notified(run[n], r)
    ensures m < n && NotifiesAt(c, run[m], run[m + 1], a, r)
  {
    m, a := 0, 0;
    if n == 0 {
      InitialMarks(c, run, r.waiter, r.index);
      assert false;
    } else {
      RunNotified(c, run, n - 1, r);
      if Notified(run[n - 1], r) {
        m, a := WasNotified(c, run, n - 1, r);
      } else {
        m := n - 1;
        a :| NotifiesAt(c, run[m], run[m + 1], a, r);
      }
    }
  }

  /** In every run, a position of a WaitMany call that has been hit was found signalled at a step of the call, or
    was notified at a step of a set of its event. */
  lemma EveryHitHasACause(c: Config, run: seq<State>, n: nat, w: nat, i: nat) returns (m: nat, a: nat)
    requires IsRun(c, run) && n < |run| && w < |c.ops| && c.ops[w].WaitMany? && i < |c.ops[w].events|
    requires w < |run[n].waiters| && i < |run[n].waiters[w].hits| && run[n].waiters[w].hits[i] != 0
    ensures m < n
    ensures FindsAt(c, run[m], run[m + 1], w, i) || NotifiesAt(c, run[m], run[m + 1], a, Registration(w, i))
    ensures a < |c.ops| && (a == w || c.ops[a] == Set(c.ops[w].events[i]))
  {
    HitIsCounted(c, run, n, w, i);
    if Taken(run[n], w, i) {
      m := FoundSignalled(c, run, n, w, i);
      a := w;
    } else {
      m, a := WasNotified(c, run, n, Registration(w, i));
      RunInv(c, run, m);
      assert GoodEvent(c, run[m], c.ops[a].event);
    }
  }

  lemma HitIsCounted(c: Config, run: seq<State>, n: nat, w: nat, i: nat)
    requires IsRun(c, run) && n < |run| && w < |c.ops| && c.ops[w].WaitMany? && i < |c.ops[w].events|
    requires w < |run[n].waiters| && i < |run[n].waiters[w].hits| && run[n].waiters[w].hits[i] != 0
    ensures Taken(run[n], w, i) || Notified(run[n], Registration(w, i))
  {
    RunInv(c, run, n);
    var s := run[n];
    assert GoodThread(c, s, w) && GoodWaiter(c, s, w) && WaiterMarks(c, s, w);
  }

  // ---------------------------------------------------------------- a signal found is a success

  /** Waiting for any: once a position is satisfied, the call is on its way out with success. */
  predicate GoesOut(t: Thread) {
    t.Many? && t.result == Success && (t.m == MFinish || Stopped(t))
  }

  lemma OutMove(c: Config, a: nat, op: Op, t: Thread, v: View, timedOut: bool)
    requires op.WaitMany? && !op.all && t.Many?
    ensures GoesOut(t) || ActionMany(a, op, t, v).Satisfy? ==> GoesOut(NextMany(c, op, t, v, timedOut))
  {
  }

  lemma OwnGoesOut(c: Config, s: State, w: nat, ch: Choice, act: Action, s': State, i: nat)
    requires IsMarkStep(c, s, w, ch, act, s') && c.ops[w].WaitMany? && !c.ops[w].all
    requires MarkOf(s, Registration(w, i)) == Satisfied ==> GoesOut(s.threads[w])
    requires MarkOf(s', Registration(w, i)) == Satisfied
    ensures w < |s'.threads| && GoesOut(s'.threads[w])
  {
    ApplyMarks(c, s, w, act, ch.pick);
    assert GoodThread(c, s, w);
    OutMove(c, w, c.ops[w], s.threads[w], ViewOf(c, s, w), ch.timedOut);
  }

  lemma OtherGoesOut(c: Config, s: State, b: nat, ch: Choice, act: Action, s': State, w: nat, i: nat)
    requires IsMarkStep(c, s, b, ch, act, s') && w < |c.ops| && w != b
    requires MarkOf(s, Registration(w, i)) == Satisfied ==> GoesOut(s.threads[w])
    requires MarkOf(s', Registration(w, i)) == Satisfied
    ensures w < |s'.threads| && GoesOut(s'.threads[w])
  {
    ApplyMarks(c, s, b, act, ch.pick);
    OtherThread(c, s, b, ch, act, s', w);
  }

  lemma NextGoesOut(c: Config, s: State, s': State, w: nat, i: nat)
    requires Inv(c, s) && Next(c, s, s') && w < |c.ops| && c.ops[w].WaitMany? && !c.ops[w].all
    requires MarkOf(s, Registration(w, i)) == Satisfied ==> GoesOut(s.threads[w])
    ensures MarkOf(s', Registration(w, i)) == Satisfied ==> w < |s'.threads| && GoesOut(s'.threads[w])
  {
    if MarkOf(s', Registration(w, i)) == Satisfied {
      if b: nat, ch: Choice :| b < |c.ops| && CanStep(c, s, b, ch) && s' == Step(c, s, b, ch) {
        var act, s'' := StepParts(c, s, b, ch);
        QueueMoves(c, s, b, ch, act, s');
        if b == w {
          OwnGoesOut(c, s, w, ch, act, s', i);
        } else {
          OtherGoesOut(c, s, b, ch, act, s', w, i);
        }
      }
    }
  }

  lemma RunGoesOut(c: Config, run: seq<State>, n: nat, w: nat, i: nat)
    requires IsRun(c, run) && n + 1 < |run| && w < |c.ops| && c.ops[w].WaitMany? && !c.ops[w].all
    requires w < |run[n].threads| && (MarkOf(run[n], Registration(w, i)) == Satisfied ==> GoesOut(run[n].threads[w]))
    ensures w < |run[n + 1].threads|
    ensures MarkOf(run[n + 1], Registration(w, i)) == Satisfied ==> GoesOut(run[n + 1].threads[w])
  {
    RunInv(c, run, n);
    RunInv(c, run, n + 1);
    assert NextAt(c, run, n);
    NextGoesOut(c, run[n], run[n + 1], w, i);
  }

  /** In every run, a call that waits for any event and has counted a position as found signalled succeeds. */
  lemma {:induction false} FoundMeansSuccess(c: Config, run: seq<State>, n: nat, w: nat, i: nat)
    requires IsRun(c, run) && n < |run| && w < |c.ops| && c.ops[w].WaitMany? && !c.ops[w].all
    ensures w < |run[n].threads|
    ensures MarkOf(run[n], Registration(w, i)) == Satisfied ==> GoesOut(run[n].threads[w])
  {
    if n == 0 {
      InitialMarks(c, run, w, i);
      InitialThreads(c, run, w);
    } else {
      FoundMeansSuccess(c, run, n - 1, w, i);
      RunGoesOut(c, run, n - 1, w, i);
    }
  }

  // ---------------------------------------------------------------- joining a deque

  /** In every run, a registration joins its deque at the back, and only while the event is unsignalled. */
  lemma JoinsAtTheBack(c: Config, run: seq<State>, n: nat, w: nat, i: nat)
    requires IsRun(c, run) && n + 1 < |run| && w < |c.ops| && c.ops[w].WaitMany? && i < |c.ops[w].events|
    requires MarkOf(run[n], Registration(w, i)) != Queued && MarkOf(run[n + 1], Registration(w, i)) == Queued
    ensures var e := c.ops[w].events[i];
      && e < |run[n].events| && e < |run[n + 1].events| && !run[n].events[e].state
      && run[n + 1].events[e].queue == run[n].events[e].queue + [Registration(w, i)]
  {
    RunInv(c, run, n);
    assert NextAt(c, run, n);
    NextJoins(c, run[n], run[n + 1], w, i);
  }

  lemma NextJoins(c: Config, s: State, s': State, w: nat, i: nat)
    requires Inv(c, s) && Next(c, s, s') && w < |c.ops| && c.ops[w].WaitMany? && i < |c.ops[w].events|
    requires MarkOf(s, Registration(w, i)) != Queued && MarkOf(s', Registration(w, i)) == Queued
    ensures var e := c.ops[w].events[i];
      && e < |s.events| && e < |s'.events| && !s.events[e].state
      && s'.events[e].queue == s.events[e].queue + [Registration(w, i)]
  {
    if a: nat, ch: Choice :| a < |c.ops| && CanStep(c, s, a, ch) && s' == Step(c, s, a, ch) {
      var act, s'' := StepParts(c, s, a, ch);
      QueueMoves(c, s, a, ch, act, s');
      NewlyQueued(c, s, a, ch, act, s', Registration(w, i));
      EnqueueStep(c, s, a, ch, act, s');
    }
  }

  lemma NewlyQueued(c: Config, s: State, a: nat, ch: Choice, act: Action, s': State, r: Registration)
    requires IsMarkStep(c, s, a, ch, act, s') && MarkOf(s, r) != Queued && MarkOf(s', r) == Queued
    ensures act.Enqueue? && s.threads[a].Many? && r == Registration(a, s.threads[a].i)
  {
    ApplyMarks(c, s, a, act, ch.pick);
  }

  lemma EnqueueStep(c: Config, s: State, a: nat, ch: Choice, act: Action, s': State)
    requires IsMarkStep(c, s, a, ch, act, s') && act.Enqueue?
    ensures s.threads[a].Many? && act.e < |s.events| && act.e < |s'.events| && !s.events[act.e].state
    ensures c.ops[a].WaitMany? && s.threads[a].i < |c.ops[a].events| && c.ops[a].events[s.threads[a].i] == act.e
    ensures s'.events[act.e].queue == s.events[act.e].queue + [Registration(a, s.threads[a].i)]
  {
    ApplyEvents(c, s, a, act, ch.pick);
    EnqueueMove(c, a, c.ops[a], s.threads[a], ViewOf(c, s, a));
    assert GoodThread(c, s, a) && c.ValidOp(c.ops[a]);
  }

  lemma EnqueueMove(c: Config, a: nat, op: Op, t: Thread, v: View)
    requires GoodLocals(op, t) && ActionOf(a, op, t, v).Enqueue?
    ensures op.WaitMany? && t.m == MTest && !v.event.state && ActionOf(a, op, t, v).e == EventOf(op, t)
  {
  }
}
