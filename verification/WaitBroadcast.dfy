/** A manual-reset SetEvent signals the event and notifies every waiter it finds queued. */
module WaitBroadcast {
  import opened Options
  import opened WaitModel
  import opened WaitLocks
  import opened WaitQueues
  import opened WaitModes
  import opened WaitSignals
  import opened WaitFifo
  import opened WaitExpiry
  import opened WaitRuns
  import opened WaitSets

  /** The registration has been notified, or dropped because its waiter had stopped waiting. */
  predicate Settled(s: State, r: Registration) {
    MarkOf(s, r) == Fired || MarkOf(s, r) == Expired
  }

  predicate Swept(t: Thread) {
    t.Setter? && (t.p == SUnlock || t.p == SNotify || t.p == SDone)
  }

  /** What a manual-reset set found in the deque is what it has swept, all of it settled, and the rest. */
  ghost predicate SweepOk(c: Config, s: State, b: nat)
    requires b < |c.ops| && b < |s.threads|
  {
    var op, t := c.ops[b], s.threads[b];
    op.Set? && !IsAuto(c, op.event) && op.event < |s.events| && t.Setter? && t.p != SLock ==>
      && (forall r :: r in t.seen ==> GoodRegistration(c, op.event, r))
      && if Swept(t) then forall r :: r in t.seen ==> Settled(s, r)
         else
           var ev := s.events[op.event];
           t.seen == ev.swept + ev.queue && forall r :: r in ev.swept ==> Settled(s, r)
  }

  ghost predicate AllSweepOk(c: Config, s: State)
    requires |s.threads| == |c.ops|
  {
    forall b :: 0 <= b < |c.ops| ==> SweepOk(c, s, b)
  }

  /** What a manual-reset setter does in a step. */
  lemma SweepMove(op: Op, t: Thread, v: View)
    requires op.Set? && t.Setter? && !v.auto && !Finished(t)
    requires t.p != SRecheck && t.p != SUnlockExpired && t.p != SUnlockHanded
    ensures var t', act := NextSet(t, v), ActionSet(op, t, v);
      && t'.Setter? && t'.p != SLock
      && t'.seen == (if t.p == SLock then v.event.queue else t.seen)
      && (t.p == SLock ==> act == LockEvent(op.event) && !Swept(t'))
      && (Swept(t) ==> Swept(t'))
      && (!Swept(t) && Swept(t') ==> act == Clear(op.event) && v.event.queue == [])
      && (act.Clear? ==> Swept(t'))
      && (act.DropHead? ==> act.e == op.event && (act.mark == Fired || act.mark == Expired) && !Swept(t'))
      && !act.Enqueue? && !act.DropExpired?
  {
  }

  /** Settled marks are final. */
  lemma SettledStays(c: Config, s: State, a: nat, ch: Choice, act: Action, s': State, r: Registration)
    requires IsMarkStep(c, s, a, ch, act, s') && Settled(s, r)
    ensures Settled(s', r)
  {
    ApplyMarks(c, s, a, act, ch.pick);
    if act.Enqueue? || act.Satisfy? { VisitedIsNew(c, s, a, ch, act, s'); }
    else if act.DropExpired? || act.Fire? || act.DropHead? { RemovedWasLive(c, s, a, ch, act, s'); }
  }

  lemma OtherSweep(c: Config, s: State, a: nat, ch: Choice, act: Action, s': State, b: nat)
    requires IsMarkStep(c, s, a, ch, act, s') && b < |c.ops| && b != a && SweepOk(c, s, b)
    ensures b < |s'.threads| && SweepOk(c, s', b)
  {
    OtherThread(c, s, a, ch, act, s', b);
    assert GoodThread(c, s, b);
    forall r | Settled(s, r) ensures Settled(s', r) {
      SettledStays(c, s, a, ch, act, s', r);
    }
    if c.ops[b].Set? && HoldsEvent(s.threads[b]) {
      SweepUntouched(c, s, a, ch, act, s', b);
    }
  }

  lemma SweepUntouched(c: Config, s: State, a: nat, ch: Choice, act: Action, s': State, b: nat)
    requires IsMarkStep(c, s, a, ch, act, s') && b < |c.ops| && b != a && c.ops[b].Set? && HoldsEvent(s.threads[b])
    ensures var e := c.ops[b].event;
      && e < |s.events| && e < |s'.events|
      && s'.events[e].queue == s.events[e].queue && s'.events[e].swept == s.events[e].swept
  {
    OthersEventUntouched(c, s, a, ch, act, s', b);
    ApplyEvents(c, s, a, act, ch.pick);
  }

  /** The deque and what was swept of it, after a step of the setter that owns it. */
  lemma OwnDeque(c: Config, s: State, a: nat, ch: Choice, act: Action, s': State, e: nat)
    requires IsStep(c, s, a, ch, act, s') && e < |s.events| && c.ops[a] == Set(e) && !IsAuto(c, e)
    requires !act.Enqueue? && !act.DropExpired? && (act.Clear? || act.DropHead? ==> act.e == e)
    requires act.DropHead? ==> s.events[e].queue != []
    ensures e < |s'.events|
    ensures var ev, ev' := s.events[e], s'.events[e];
      if act.Clear? then ev'.swept == [] && ev'.queue == ev.queue
      else ev'.swept + ev'.queue == ev.swept + ev.queue
           && ev'.swept == (if act.DropHead? then ev.swept + [ev.queue[0]] else ev.swept)
  {
    OwnQueue(c, s, a, ch, act, s', e);
    OwnSwept(c, s, a, ch, act, s', e);
    if act.DropHead? {
      HeadMoves(s.events[e].swept, s.events[e].queue);
    }
  }

  lemma OwnQueue(c: Config, s: State, a: nat, ch: Choice, act: Action, s': State, e: nat)
    requires IsStep(c, s, a, ch, act, s') && e < |s.events| && !act.Enqueue? && !act.DropExpired?
    requires act.DropHead? ==> act.e == e && s.events[e].queue != []
    ensures e < |s'.events|
    ensures s'.events[e].queue == if act.DropHead? then s.events[e].queue[1..] else s.events[e].queue
  {
    ApplyEvents(c, s, a, act, ch.pick);
  }

  lemma OwnSwept(c: Config, s: State, a: nat, ch: Choice, act: Action, s': State, e: nat)
    requires IsStep(c, s, a, ch, act, s') && e < |s.events| && !IsAuto(c, e)
    requires act.Clear? || act.DropHead? ==> act.e == e
    requires act.DropHead? ==> s.events[e].queue != []
    ensures e < |s'.events|
    ensures s'.events[e].swept == if act.Clear? then [] else if act.DropHead? then s.events[e].swept + [s.events[e].queue[0]]
                                  else s.events[e].swept
  {
    ApplySignals(c, s, a, act, ch.pick, e);
  }

  lemma HeadMoves(swept: seq<Registration>, queue: seq<Registration>)
    requires queue != []
    ensures swept + [queue[0]] + queue[1..] == swept + queue
  {
  }

  lemma OwnSweep(c: Config, s: State, a: nat, ch: Choice, act: Action, s': State)
    requires Inv(c, s) && IsMarkStep(c, s, a, ch, act, s') && SweepOk(c, s, a)
    ensures a < |s'.threads| && SweepOk(c, s', a)
  {
    StepSizes(c, s, a, ch, act, s');
    assert GoodThread(c, s, a) && c.ValidOp(c.ops[a]);
    if c.ops[a].Set? && !IsAuto(c, c.ops[a].event) {
      OwnManualSweep(c, s, a, ch, act, s', c.ops[a].event);
    }
  }

  lemma SweepView(c: Config, s: State, a: nat, ch: Choice, act: Action, s': State, e: nat)
    requires Inv(c, s) && IsMarkStep(c, s, a, ch, act, s') && c.ops[a] == Set(e) && !IsAuto(c, e)
    ensures e < |s.events| && a < |s'.threads| && s.threads[a].Setter?
    ensures var t, v := s.threads[a], ViewOf(c, s, a);
      && v.event == s.events[e] && !v.auto && s'.threads[a] == NextSet(t, v) && act == ActionSet(c.ops[a], t, v)
      && t.p != SRecheck && t.p != SUnlockExpired && t.p != SUnlockHanded
      && (act.DropHead? ==> v.event.queue != [])
    ensures act == LockEvent(e) ==> s.events[e].swept == []
    ensures forall r :: r in s.events[e].queue ==> GoodRegistration(c, e, r)
  {
    SeesHead(c, s, a);
    assert KindOk(c, s, a) && GoodThread(c, s, a) && Quiet(c, s, e) && GoodEvent(c, s, e);
  }

  lemma OwnManualSweep(c: Config, s: State, a: nat, ch: Choice, act: Action, s': State, e: nat)
    requires Inv(c, s) && IsMarkStep(c, s, a, ch, act, s') && SweepOk(c, s, a)
    requires c.ops[a] == Set(e) && !IsAuto(c, e)
    ensures a < |s'.threads| && SweepOk(c, s', a)
  {
    SweepView(c, s, a, ch, act, s', e);
    SweepMove(c.ops[a], s.threads[a], ViewOf(c, s, a));
    OwnDeque(c, s, a, ch, act, s', e);
    forall r | Settled(s, r) ensures Settled(s', r) {
      SettledStays(c, s, a, ch, act, s', r);
    }
    if act.DropHead? {
      HeadSettled(c, s, a, ch, act, s');
    }
  }

  lemma HeadSettled(c: Config, s: State, a: nat, ch: Choice, act: Action, s': State)
    requires IsMarkStep(c, s, a, ch, act, s') && act.DropHead? && (act.mark == Fired || act.mark == Expired)
    ensures act.e < |s.events| && s.events[act.e].queue != [] && Settled(s', s.events[act.e].queue[0])
  {
    ApplyMarks(c, s, a, act, ch.pick);
  }

  lemma NextSweep(c: Config, s: State, s': State)
    requires Inv(c, s) && Next(c, s, s') && AllSweepOk(c, s)
    ensures |s'.threads| == |c.ops| && AllSweepOk(c, s')
  {
    if a: nat, ch: Choice :| a < |c.ops| && CanStep(c, s, a, ch) && s' == Step(c, s, a, ch) {
      StepSweep(c, s, a, ch);
    } else {
      var e: nat :| e < |s.events| && s' == Reset(s, e);
      forall b | 0 <= b < |c.ops| ensures SweepOk(c, s', b) {
        assert SweepOk(c, s, b);
        assert forall r :: MarkOf(s', r) == MarkOf(s, r);
      }
    }
  }

  lemma StepSweep(c: Config, s: State, a: nat, ch: Choice)
    requires Inv(c, s) && a < |c.ops| && CanStep(c, s, a, ch) && AllSweepOk(c, s)
    ensures |Step(c, s, a, ch).threads| == |c.ops| && AllSweepOk(c, Step(c, s, a, ch))
  {
    var act, s' := StepParts(c, s, a, ch);
    QueueMoves(c, s, a, ch, act, s');
    StepSizes(c, s, a, ch, act, s');
    forall b | 0 <= b < |c.ops| ensures SweepOk(c, s', b) {
      if b == a {
        OwnSweep(c, s, a, ch, act, s');
      } else {
        OtherSweep(c, s, a, ch, act, s', b);
      }
    }
  }

  lemma {:induction false} RunSweep(c: Config, run: seq<State>, n: nat)
    requires IsRun(c, run) && n < |run|
    ensures |run[n].threads| == |c.ops| && AllSweepOk(c, run[n])
  {
    if n > 0 {
      RunSweep(c, run, n - 1);
      RunNextSweep(c, run, n - 1);
    }
  }

  lemma RunNextSweep(c: Config, run: seq<State>, n: nat)
    requires IsRun(c, run) && n + 1 < |run| && |run[n].threads| == |c.ops| && AllSweepOk(c, run[n])
    ensures |run[n + 1].threads| == |c.ops| && AllSweepOk(c, run[n + 1])
  {
    RunInv(c, run, n);
    assert NextAt(c, run, n);
    NextSweep(c, run[n], run[n + 1]);
  }

  // ---------------------------------------------------------------- the step that settles each registration

  /** Between these two states, set `a` notifies registration r, the head of what is left of the deque: its
    waiter, for the first time at that position, is told that this position fired, and no other waiter changes. */
  ghost predicate NotifiesAt(c: Config, s: State, s': State, a: nat, r: Registration) {
    && IsHead(c, s, a, r) && r.waiter < |s.waiters| == |s'.waiters| && r.waiter < |c.ops| && c.ops[r.waiter].WaitMany?
    && Told(c.ops[r.waiter].all, s.waiters[r.waiter], s'.waiters[r.waiter], r.index)
    && forall v :: 0 <= v < |s.waiters| && v != r.waiter ==> s'.waiters[v] == s.waiters[v]
  }

  /** Between these two states, set `a` drops r, whose waiter has stopped waiting, without notifying it. */
  ghost predicate DropsAt(c: Config, s: State, s': State, a: nat, r: Registration) {
    && IsHead(c, s, a, r) && NotWaiting(s, r) && r.waiter < |s'.waiters|
    && s'.waiters[r.waiter].hits == s.waiters[r.waiter].hits
    && s'.waiters[r.waiter].refCount == s.waiters[r.waiter].refCount - 1
  }

  /** By a step of its own, set `a` settles r in one of these ways. */
  ghost predicate SettlesAt(c: Config, s: State, s': State, a: nat, r: Registration) {
    && a < |s.threads| && a < |s'.threads| && s'.threads[a] != s.threads[a]
    && (NotifiesAt(c, s, s', a, r) || DropsAt(c, s, s', a, r))
  }

  ghost predicate IsHead(c: Config, s: State, a: nat, r: Registration) {
    && a < |c.ops| && c.ops[a].Set? && c.ops[a].event < |s.events|
    && s.events[c.ops[a].event].queue != [] && s.events[c.ops[a].event].queue[0] == r
  }

  /** The registrations the set is through with. */
  function DoneWith(c: Config, s: State, a: nat): seq<Registration>
    requires a < |c.ops| && c.ops[a].Set? && a < |s.threads|
  {
    var t := s.threads[a];
    if !t.Setter? || t.p == SLock then []
    else if Swept(t) then t.seen
    else if c.ops[a].event < |s.events| then s.events[c.ops[a].event].swept else []
  }

  /** The registration it has notified and not yet dropped. */
  predicate InHand(c: Config, s: State, a: nat, r: Registration) {
    && a < |c.ops| && c.ops[a].Set? && a < |s.threads| && IsFiring(s.threads[a]) && c.ops[a].event < |s.events|
    && s.events[c.ops[a].event].queue != [] && s.events[c.ops[a].event].queue[0] == r
  }

  lemma ManualTarget(c: Config, s: State, a: nat, e: nat, r: Registration)
    requires Inv(c, s) && a < |c.ops| && c.ops[a] == Set(e) && s.threads[a].Setter? && s.threads[a].p == SFire
    requires e < |s.events| && s.events[e].queue != [] && s.events[e].queue[0] == r
    ensures r.waiter < |s.waiters| && c.ops[r.waiter].WaitMany? && r.index < |s.waiters[r.waiter].hits|
    ensures s.waiters[r.waiter].hits[r.index] == 0
  {
    assert GoodEvent(c, s, e) && GoodWaiter(c, s, r.waiter) && GoodThread(c, s, r.waiter) && WaiterMarks(c, s, r.waiter);
    assert QueueMarks(s, e) && ThreadLocks(c, s, a);
    assert MarkOf(s, r) == Queued;
  }

  lemma FireNotifies(c: Config, s: State, a: nat, ch: Choice, act: Action, s': State, e: nat, r: Registration)
    requires Inv(c, s) && IsMarkStep(c, s, a, ch, act, s') && c.ops[a] == Set(e) && act == Fire(e)
    requires s.threads[a].Setter? && s.threads[a].p == SFire && e < |s.events|
    requires s.events[e].queue != [] && s.events[e].queue[0] == r
    ensures NotifiesAt(c, s, s', a, r)
  {
    ManualTarget(c, s, a, e, r);
    FireStores(c, s, a, ch, act, s', e, r);
  }

  lemma FireStores(c: Config, s: State, a: nat, ch: Choice, act: Action, s': State, e: nat, r: Registration)
    requires IsStep(c, s, a, ch, act, s') && c.ops[a] == Set(e) && act == Fire(e)
    requires e < |s.events| && s.events[e].queue != [] && s.events[e].queue[0] == r
    requires r.waiter < |s.waiters| && c.ops[r.waiter].WaitMany? && r.index < |s.waiters[r.waiter].hits|
    requires s.waiters[r.waiter].hits[r.index] == 0
    ensures NotifiesAt(c, s, s', a, r)
  {
  }

  lemma DropStores(c: Config, s: State, a: nat, ch: Choice, act: Action, s': State, e: nat, r: Registration)
    requires Inv(c, s) && IsMarkStep(c, s, a, ch, act, s') && c.ops[a] == Set(e) && act == DropHead(e, Expired)
    requires s.threads[a].Setter? && s.threads[a].p == SDropExpired && e < |s.events|
    requires s.events[e].queue != [] && s.events[e].queue[0] == r
    ensures DropsAt(c, s, s', a, r)
  {
    SeesHead(c, s, a);
    assert ExpiryOk(c, s, a) && SawExpired(s.threads[a]);
  }

  /** How a step of the set adds to what it is through with. */
  lemma SettleMove(op: Op, t: Thread, v: View)
    requires op.Set? && t.Setter? && !v.auto && !Finished(t)
    requires t.p != SRecheck && t.p != SUnlockExpired && t.p != SUnlockHanded
    ensures var t', act := NextSet(t, v), ActionSet(op, t, v);
      && (act.DropHead? ==> act == DropHead(op.event, if IsFiring(t) then Fired else Expired) && !IsFiring(t'))
      && (act.DropHead? && !IsFiring(t) ==> t.p == SDropExpired)
      && (act.Fire? ==> act == Fire(op.event) && t.p == SFire)
      && (IsFiring(t') ==> act.Fire? || (IsFiring(t) && !act.DropHead?))
  {
  }

  lemma OwnSettles(c: Config, s: State, a: nat, ch: Choice, act: Action, s': State, r: Registration)
    requires Inv(c, s) && IsMarkStep(c, s, a, ch, act, s') && SweepOk(c, s, a)
    requires c.ops[a].Set? && !IsAuto(c, c.ops[a].event)
    ensures a < |s.threads| && a < |s'.threads|
    ensures r in DoneWith(c, s', a) ==> r in DoneWith(c, s, a) || InHand(c, s, a, r) || SettlesAt(c, s, s', a, r)
    ensures InHand(c, s', a, r) ==> InHand(c, s, a, r) || SettlesAt(c, s, s', a, r)
  {
    var e := c.ops[a].event;
    SweepView(c, s, a, ch, act, s', e);
    SweepMove(c.ops[a], s.threads[a], ViewOf(c, s, a));
    SettleMove(c.ops[a], s.threads[a], ViewOf(c, s, a));
    OwnQueue(c, s, a, ch, act, s', e);
    OwnSwept(c, s, a, ch, act, s', e);
    if act.DropHead? && !IsFiring(s.threads[a]) {
      DropStores(c, s, a, ch, act, s', e, s.events[e].queue[0]);
    } else if act.Fire? {
      FireNotifies(c, s, a, ch, act, s', e, s.events[e].queue[0]);
    }
  }

  lemma OtherSettles(c: Config, s: State, b: nat, ch: Choice, act: Action, s': State, a: nat, r: Registration)
    requires Inv(c, s) && IsMarkStep(c, s, b, ch, act, s') && a < |c.ops| && a != b && c.ops[a].Set?
    ensures a < |s.threads| && a < |s'.threads|
    ensures r in DoneWith(c, s', a) ==> r in DoneWith(c, s, a)
    ensures InHand(c, s', a, r) ==> InHand(c, s, a, r)
  {
    OtherThread(c, s, b, ch, act, s', a);
    assert GoodThread(c, s, a);
    if HoldsEvent(s.threads[a]) {
      SweepUntouched(c, s, b, ch, act, s', a);
    }
    SameSweep(c, s, s', a, r);
  }

  lemma SameSweep(c: Config, s: State, s': State, a: nat, r: Registration)
    requires a < |c.ops| && c.ops[a].Set? && a < |s.threads| && a < |s'.threads| && s'.threads[a] == s.threads[a]
    requires HoldsEvent(s.threads[a]) ==>
      var e := c.ops[a].event;
      && e < |s.events| && e < |s'.events|
      && s'.events[e].queue == s.events[e].queue && s'.events[e].swept == s.events[e].swept
    ensures r in DoneWith(c, s', a) ==> r in DoneWith(c, s, a)
    ensures InHand(c, s', a, r) ==> InHand(c, s, a, r)
  {
  }

  lemma NextSettles(c: Config, s: State, s': State, a: nat, r: Registration)
    requires Inv(c, s) && Next(c, s, s') && a < |c.ops| && c.ops[a].Set? && !IsAuto(c, c.ops[a].event)
    requires a < |s.threads| && SweepOk(c, s, a)
    ensures a < |s'.threads|
    ensures r in DoneWith(c, s', a) || InHand(c, s', a, r) ==>
      r in DoneWith(c, s, a) || InHand(c, s, a, r) || SettlesAt(c, s, s', a, r)
  {
    if b: nat, ch: Choice :| b < |c.ops| && CanStep(c, s, b, ch) && s' == Step(c, s, b, ch) {
      StepSettles(c, s, b, ch, a, r);
    }
  }

  lemma StepSettles(c: Config, s: State, b: nat, ch: Choice, a: nat, r: Registration)
    requires Inv(c, s) && b < |c.ops| && CanStep(c, s, b, ch)
    requires a < |c.ops| && c.ops[a].Set? && !IsAuto(c, c.ops[a].event) && a < |s.threads| && SweepOk(c, s, a)
    ensures var s' := Step(c, s, b, ch);
      && a < |s'.threads|
      && (r in DoneWith(c, s', a) || InHand(c, s', a, r) ==>
            r in DoneWith(c, s, a) || InHand(c, s, a, r) || SettlesAt(c, s, s', a, r))
  {
    var act, s' := StepParts(c, s, b, ch);
    QueueMoves(c, s, b, ch, act, s');
    if b == a {
      OwnSettles(c, s, a, ch, act, s', r);
    } else {
      OtherSettles(c, s, b, ch, act, s', a, r);
    }
  }

  lemma RunSettles(c: Config, run: seq<State>, n: nat, a: nat, r: Registration)
    requires IsRun(c, run) && n + 1 < |run| && a < |c.ops| && c.ops[a].Set? && !IsAuto(c, c.ops[a].event)
    ensures a < |run[n].threads| && a < |run[n + 1].threads|
    ensures r in DoneWith(c, run[n + 1], a) || InHand(c, run[n + 1], a, r) ==>
      r in DoneWith(c, run[n], a) || InHand(c, run[n], a, r) || SettlesAt(c, run[n], run[n + 1], a, r)
  {
    RunInv(c, run, n);
    RunSweep(c, run, n);
    assert SweepOk(c, run[n], a);
    assert NextAt(c, run, n);
    NextSettles(c, run[n], run[n + 1], a, r);
  }

  /** Each registration that a set is through with, or has in hand, was settled at one of its steps. */
  lemma {:induction false} SettledAtStep(c: Config, run: seq<State>, n: nat, a: nat, r: Registration) returns (m: nat)
    requires IsRun(c, run) && n < |run| && a < |c.ops| && c.ops[a].Set? && !IsAuto(c, c.ops[a].event)
    requires a < |run[n].threads| && (r in DoneWith(c, run[n], a) || InHand(c, run[n], a, r))
    ensures m < n && SettlesAt(c, run[m], run[m + 1], a, r)
  {
    if n == 0 {
      InitialThreads(c, run, a);
      assert false;
    } else {
      RunSettles(c, run, n - 1, a, r);
      if r in DoneWith(c, run[n - 1], a) || InHand(c, run[n - 1], a, r) {
        m := SettledAtStep(c, run, n - 1, a, r);
      } else {
        m := n - 1;
      }
    }
  }

  /** In every run, for every registration in the deque that a finished SetEvent on a manual-reset event locked,
    there is a step of the set at which it notified the registration, or at which it dropped it because its
    waiter had stopped waiting by then. In the end the one is marked as fired, with one hit, the other as
    expired. */
  lemma ManualSetServesAll(c: Config, run: seq<State>, n: nat, a: nat, r: Registration) returns (m: nat)
    requires IsRun(c, run) && n < |run| && a < |c.ops| && c.ops[a].Set? && !IsAuto(c, c.ops[a].event)
    requires a < |run[n].threads| && run[n].threads[a].Setter? && run[n].threads[a].p == SDone
    requires r in run[n].threads[a].seen
    ensures m < n && SettlesAt(c, run[m], run[m + 1], a, r)
    ensures r.waiter < |run[n].waiters| && r.index < |run[n].waiters[r.waiter].hits|
    ensures MarkOf(run[n], r) == Fired || MarkOf(run[n], r) == Expired
    ensures MarkOf(run[n], r) == Fired ==> run[n].waiters[r.waiter].hits[r.index] == 1
    ensures MarkOf(run[n], r) == Expired ==> run[n].waiters[r.waiter].hits[r.index] == 0 && NotWaiting(run[n], r)
  {
    m := SettledAtStep(c, run, n, a, r);
    SettledInTheEnd(c, run, n, a, r);
  }

  lemma SettledInTheEnd(c: Config, run: seq<State>, n: nat, a: nat, r: Registration)
    requires IsRun(c, run) && n < |run| && a < |c.ops| && c.ops[a].Set? && !IsAuto(c, c.ops[a].event)
    requires a < |run[n].threads| && run[n].threads[a].Setter? && run[n].threads[a].p == SDone
    requires r in run[n].threads[a].seen
    ensures r.waiter < |run[n].waiters| && r.index < |run[n].waiters[r.waiter].hits|
    ensures MarkOf(run[n], r) == Fired || MarkOf(run[n], r) == Expired
    ensures MarkOf(run[n], r) == Fired ==> run[n].waiters[r.waiter].hits[r.index] == 1
    ensures MarkOf(run[n], r) == Expired ==> run[n].waiters[r.waiter].hits[r.index] == 0 && NotWaiting(run[n], r)
  {
    RunSweep(c, run, n);
    RunInv(c, run, n);
    var s := run[n];
    assert c.ValidOp(c.ops[a]) && SweepOk(c, s, a) && Settled(s, r) && GoodRegistration(c, c.ops[a].event, r);
    assert GoodThread(c, s, r.waiter) && GoodWaiter(c, s, r.waiter) && WaiterMarks(c, s, r.waiter);
    assert NoneExpired(s.waiters[r.waiter]);
  }

  /** The call has signalled its manual-reset event. */
  predicate Raised(t: Thread) {
    t.Setter? && t.p != SLock && t.p != SRaise
  }

  lemma RaiseStep(c: Config, s: State, a: nat, ch: Choice)
    requires Inv(c, s) && a < |c.ops| && c.ops[a].Set? && !IsAuto(c, c.ops[a].event) && CanStep(c, s, a, ch)
    requires !Raised(s.threads[a]) && a < |Step(c, s, a, ch).threads| && Raised(Step(c, s, a, ch).threads[a])
    ensures var e, s' := c.ops[a].event, Step(c, s, a, ch); e < |s'.events| && s'.events[e].state
  {
    var act, s' := StepParts(c, s, a, ch);
    SeesHead(c, s, a);
    assert c.ValidOp(c.ops[a]) && GoodThread(c, s, a);
  }

  lemma RaiseLatches(c: Config, run: seq<State>, n: nat, a: nat)
    requires IsRun(c, run) && n + 1 < |run| && a < |c.ops| && c.ops[a].Set? && !IsAuto(c, c.ops[a].event)
    ensures a < |run[n].threads| && a < |run[n + 1].threads|
    ensures !Raised(run[n].threads[a]) && Raised(run[n + 1].threads[a]) ==> RaisesAt(c, run[n], run[n + 1], a)
  {
    RunInv(c, run, n);
    RunInv(c, run, n + 1);
    var s, s' := run[n], run[n + 1];
    assert NextAt(c, run, n);
    if b: nat, ch: Choice :| b < |c.ops| && CanStep(c, s, b, ch) && s' == Step(c, s, b, ch) {
      if b == a {
        if !Raised(s.threads[a]) && Raised(s'.threads[a]) {
          RaiseStep(c, s, a, ch);
        }
      } else {
        KeepsThread(c, s, b, ch, a);
      }
    }
  }

  /** Between these two states, set `a` leaves its event signalled. */
  ghost predicate RaisesAt(c: Config, s: State, s': State, a: nat) {
    && a < |c.ops| && c.ops[a].Set? && a < |s.threads| && a < |s'.threads|
    && !Raised(s.threads[a]) && Raised(s'.threads[a])
    && c.ops[a].event < |s'.events| && s'.events[c.ops[a].event].state
  }

  /** In every run, a finished SetEvent on a manual-reset event left it signalled at one of its steps. */
  lemma {:induction false} ManualSetLatches(c: Config, run: seq<State>, n: nat, a: nat) returns (m: nat)
    requires IsRun(c, run) && n < |run| && a < |c.ops| && c.ops[a].Set? && !IsAuto(c, c.ops[a].event)
    requires a < |run[n].threads| && Raised(run[n].threads[a])
    ensures m < n && RaisesAt(c, run[m], run[m + 1], a)
  {
    if n == 0 {
      InitialThreads(c, run, a);
      assert false;
    } else {
      RaiseLatches(c, run, n - 1, a);
      if Raised(run[n - 1].threads[a]) {
        m := ManualSetLatches(c, run, n - 1, a);
      } else {
        m := n - 1;
      }
    }
  }
}
