/** What one SetEvent call does, at the step at which it takes effect. */
module WaitSets {
  import opened Options
  import opened WaitModel
  import opened WaitLocks
  import opened WaitQueues
  import opened WaitModes
  import opened WaitSignals
  import opened WaitFifo
  import opened WaitRuns

  /** The call is past the step at which an auto-reset set takes effect; a finished call always is. */
  predicate TookEffect(t: Thread) {
    t.Setter? && (t.p == SUnlockFired || t.p == SSignal || t.p == SDropFired || t.p == SUnlockHanded
                  || t.p == SUnlock || t.p == SNotify || t.p == SDone)
  }

  /** The deque was empty, and the event is left signalled. */
  ghost predicate Latches(s: State, s': State, e: nat) {
    && e < |s.events| && e < |s'.events|
    && s.events[e].queue == [] && s'.events[e].state && s'.waiters == s.waiters
  }

  /** The head of the deque, which still waits and was never signalled at that position, is told that this
    position fired; no other waiter changes, and the event stays unsignalled. */
  ghost predicate Hands(c: Config, s: State, s': State, e: nat, r: Registration) {
    && e < |s.events| && e < |s'.events| && r.waiter < |s.waiters| == |s'.waiters| && r.waiter < |c.ops|
    && s.events[e].queue != [] && s.events[e].queue[0] == r && !s'.events[e].state
    && c.ops[r.waiter].WaitMany? && s.waiters[r.waiter].stillWaiting
    && Told(c.ops[r.waiter].all, s.waiters[r.waiter], s'.waiters[r.waiter], r.index)
    && forall w :: 0 <= w < |s.waiters| && w != r.waiter ==> s'.waiters[w] == s.waiters[w]
  }

  /** A waiter is told, for the first time, that this position fired. */
  predicate Told(all: bool, w: Waiter, w': Waiter, index: nat) {
    && index < |w.hits| && w.hits[index] == 0 && w'.hits == w.hits[index := 1]
    && w'.status == (if all then w.status - 1 else index)
    && w'.stillWaiting == (all && w.stillWaiting)
  }

  /** The registrations of the deque that the set found and passed over, all those before the one it served,
    belong to waiters that have stopped waiting; if it served none, those are all. */
  ghost predicate Skipped(s: State, t: Thread)
    requires t.Setter?
  {
    && t.gone <= |t.seen|
    && (forall j :: 0 <= j < t.gone ==> NotWaiting(s, t.seen[j]))
    && match t.handedTo
       case Some(r) => t.gone < |t.seen| && t.seen[t.gone] == r
       case None => t.gone == |t.seen|
  }

  // ---------------------------------------------------------------- one step, seen locally

  /** A setter of an auto-reset event takes effect by raising or by firing, once. */
  lemma EffectMove(op: Op, t: Thread, v: View)
    requires op.Set? && t.Setter? && v.auto && t.p != SRaise
    ensures var t', act := NextSet(t, v), ActionSet(op, t, v);
      && (TookEffect(t') <==> TookEffect(t) || act.Raise? || act.Fire?)
      && (act.Raise? ==> !TookEffect(t) && act.e == op.event && v.event.queue == [] && t'.handedTo == t.handedTo)
      && (act.Fire? ==> !TookEffect(t) && act.e == op.event && t.p == SFire && t'.handedTo == Some(v.entry))
      && (!act.Fire? ==> t'.handedTo == t.handedTo)
      && (TookEffect(t') ==> t'.seen == t.seen && t'.gone == t.gone)
  {
  }

  lemma ManyNoEffect(a: nat, op: Op, t: Thread, v: View)
    requires op.WaitMany? && t.Many?
    ensures !ActionMany(a, op, t, v).Raise? && !ActionMany(a, op, t, v).Fire?
  {
  }

  /** Calls other than sets never raise or fire. */
  lemma OtherNoEffect(c: Config, a: nat, op: Op, t: Thread, v: View)
    requires GoodLocals(op, t) && !op.Set?
    ensures !ActionOf(a, op, t, v).Raise? && !ActionOf(a, op, t, v).Fire?
  {
    if op.WaitMany? {
      ManyNoEffect(a, op, t, v);
    }
  }

  // ---------------------------------------------------------------- one step

  /** Thread `a` is an auto-reset set about to step. */
  ghost predicate IsSetStep(c: Config, s: State, a: nat, ch: Choice, act: Action, s': State) {
    && Inv(c, s)
    && IsMarkStep(c, s, a, ch, act, s')
    && c.ops[a].Set? && IsAuto(c, c.ops[a].event)
  }

  /** The step in the terms of EffectMove. */
  lemma SetStepParts(c: Config, s: State, a: nat, ch: Choice, act: Action, s': State)
    requires IsSetStep(c, s, a, ch, act, s')
    ensures var op, t, v := c.ops[a], s.threads[a], ViewOf(c, s, a);
      && t.Setter? && t.p != SRaise && v.auto && op.event < |s.events| && v.event == s.events[op.event]
      && a < |s'.threads| && s'.threads[a] == NextSet(t, v) && act == ActionSet(op, t, v)
      && SetterOk(c, s, a)
      && (v.event.queue != [] ==> v.entry == v.event.queue[0])
  {
    SeesHead(c, s, a);
    assert KindOk(c, s, a) && GoodThread(c, s, a);
  }

  lemma LatchStep(c: Config, s: State, a: nat, ch: Choice, act: Action, s': State)
    requires IsSetStep(c, s, a, ch, act, s') && act.Raise?
    ensures Latches(s, s', c.ops[a].event)
  {
    SetStepParts(c, s, a, ch, act, s');
    EffectMove(c.ops[a], s.threads[a], ViewOf(c, s, a));
  }

  lemma HandStep(c: Config, s: State, a: nat, ch: Choice, act: Action, s': State)
    requires IsSetStep(c, s, a, ch, act, s') && act.Fire?
    ensures var v := ViewOf(c, s, a); Hands(c, s, s', c.ops[a].event, v.entry)
  {
    var e, r := c.ops[a].event, ViewOf(c, s, a).entry;
    SetStepParts(c, s, a, ch, act, s');
    EffectMove(c.ops[a], s.threads[a], ViewOf(c, s, a));
    FiredTarget(c, s, a, e, r);
    FiredStores(c, s, a, ch, act, s', e, r);
  }

  /** The target of a setter about to fire. */
  lemma FiredTarget(c: Config, s: State, a: nat, e: nat, r: Registration)
    requires Inv(c, s) && a < |c.ops| && c.ops[a] == Set(e) && IsAuto(c, e)
    requires s.threads[a].Setter? && s.threads[a].p == SFire
    requires e < |s.events| && s.events[e].queue != [] && s.events[e].queue[0] == r
    ensures r.waiter < |s.waiters| && c.ops[r.waiter].WaitMany? && r.index < |s.waiters[r.waiter].hits|
    ensures s.waiters[r.waiter].stillWaiting && s.waiters[r.waiter].hits[r.index] == 0
    ensures !s.events[e].state
  {
    assert GoodEvent(c, s, e) && FiresWaiting(c, s, a) && Targets(c, s, a, r.waiter);
    assert GoodWaiter(c, s, r.waiter) && GoodThread(c, s, r.waiter) && WaiterMarks(c, s, r.waiter);
    assert QueueMarks(s, e) && ThreadLocks(c, s, a) && Quiet(c, s, e);
    assert MarkOf(s, r) == Queued;
  }

  lemma FiredStores(c: Config, s: State, a: nat, ch: Choice, act: Action, s': State, e: nat, r: Registration)
    requires IsStep(c, s, a, ch, act, s') && act == Fire(e)
    requires e < |s.events| && s.events[e].queue != [] && s.events[e].queue[0] == r
    requires r.waiter < |s.waiters| && c.ops[r.waiter].WaitMany? && r.index < |s.waiters[r.waiter].hits|
    requires s.waiters[r.waiter].stillWaiting && s.waiters[r.waiter].hits[r.index] == 0 && !s.events[e].state
    ensures Hands(c, s, s', e, r)
  {
  }

  /** The step at which a set takes effect latches the signal or hands it over. */
  lemma EffectStep(c: Config, s: State, a: nat, ch: Choice, act: Action, s': State)
    requires IsSetStep(c, s, a, ch, act, s')
    ensures s.threads[a].Setter? && a < |s'.threads| && s'.threads[a].Setter?
    ensures TookEffect(s.threads[a]) ==> TookEffect(s'.threads[a]) && s'.threads[a] == s.threads[a].(p := s'.threads[a].p)
    ensures !TookEffect(s.threads[a]) && TookEffect(s'.threads[a]) ==>
      Skipped(s, s'.threads[a]) &&
      match s'.threads[a].handedTo
      case Some(r) => Hands(c, s, s', c.ops[a].event, r)
      case None => Latches(s, s', c.ops[a].event)
  {
    SetStepParts(c, s, a, ch, act, s');
    EffectMove(c.ops[a], s.threads[a], ViewOf(c, s, a));
    if act.Raise? {
      LatchStep(c, s, a, ch, act, s');
    } else if act.Fire? {
      HandStep(c, s, a, ch, act, s');
    }
  }

  // ---------------------------------------------------------------- whole runs

  /** Between these two states, set `a` takes effect. */
  predicate TakesEffect(s: State, s': State, a: nat) {
    a < |s.threads| && a < |s'.threads| && !TookEffect(s.threads[a]) && TookEffect(s'.threads[a])
  }

  /** It does, and this is what it does. */
  ghost predicate EffectAt(c: Config, s: State, s': State, a: nat) {
    && a < |c.ops| && c.ops[a].Set? && TakesEffect(s, s', a) && Skipped(s, s'.threads[a])
    && match s'.threads[a].handedTo
       case Some(r) => Hands(c, s, s', c.ops[a].event, r)
       case None => Latches(s, s', c.ops[a].event)
  }

  lemma NextEffect(c: Config, s: State, s': State, a: nat)
    requires Inv(c, s) && Next(c, s, s') && a < |c.ops| && c.ops[a].Set? && IsAuto(c, c.ops[a].event)
    ensures a < |s.threads| && s.threads[a].Setter? && a < |s'.threads| && s'.threads[a].Setter?
    ensures TookEffect(s.threads[a]) ==> TookEffect(s'.threads[a]) && s'.threads[a] == s.threads[a].(p := s'.threads[a].p)
    ensures !TookEffect(s.threads[a]) && TookEffect(s'.threads[a]) ==> EffectAt(c, s, s', a)
  {
    assert GoodThread(c, s, a);
    if b: nat, ch: Choice :| b < |c.ops| && CanStep(c, s, b, ch) && s' == Step(c, s, b, ch) {
      var act, s'' := StepParts(c, s, b, ch);
      QueueMoves(c, s, b, ch, act, s');
      if b == a {
        EffectStep(c, s, a, ch, act, s');
      } else {
        OtherThread(c, s, b, ch, act, s', a);
      }
    }
  }

  lemma RunEffect(c: Config, run: seq<State>, n: nat, a: nat)
    requires IsRun(c, run) && n + 1 < |run| && a < |c.ops| && c.ops[a].Set? && IsAuto(c, c.ops[a].event)
    ensures a < |run[n].threads| && a < |run[n + 1].threads|
    ensures TookEffect(run[n].threads[a]) ==> TookEffect(run[n + 1].threads[a])
    ensures TookEffect(run[n].threads[a]) ==>
      run[n].threads[a].Setter? && run[n + 1].threads[a].Setter? &&
      run[n + 1].threads[a] == run[n].threads[a].(p := run[n + 1].threads[a].p)
    ensures !TookEffect(run[n].threads[a]) && TookEffect(run[n + 1].threads[a]) ==>
      EffectAt(c, run[n], run[n + 1], a)
  {
    RunInv(c, run, n);
    assert NextAt(c, run, n);
    NextEffect(c, run[n], run[n + 1], a);
  }

  lemma InitialThreads(c: Config, run: seq<State>, a: nat)
    requires IsRun(c, run) && a < |c.ops|
    ensures a < |run[0].threads| && run[0].threads[a] == InitialThread(c, c.ops[a])
  {
  }

  /** A set that is past its effect took effect at one step, before which it had none and after which what it
    did stays on record. */
  lemma {:induction false} EffectHappened(c: Config, run: seq<State>, n: nat, a: nat) returns (m: nat)
    requires IsRun(c, run) && n < |run| && a < |c.ops| && c.ops[a].Set? && IsAuto(c, c.ops[a].event)
    requires a < |run[n].threads| && TookEffect(run[n].threads[a])
    ensures m < n && EffectAt(c, run[m], run[m + 1], a)
    ensures run[m + 1].threads[a] == run[n].threads[a].(p := run[m + 1].threads[a].p)
  {
    if n == 0 {
      InitialThreads(c, run, a);
      assert false;
    } else {
      RunEffect(c, run, n - 1, a);
      if TookEffect(run[n - 1].threads[a]) {
        m := EffectHappened(c, run, n - 1, a);
      } else {
        m := n - 1;
      }
    }
  }

  /** The step at which a set takes effect is the only one. */
  lemma {:induction false} EffectStays(c: Config, run: seq<State>, m: nat, n: nat, a: nat)
    requires IsRun(c, run) && m <= n < |run| && a < |c.ops| && c.ops[a].Set? && IsAuto(c, c.ops[a].event)
    requires a < |run[m].threads| && TookEffect(run[m].threads[a])
    ensures a < |run[n].threads| && TookEffect(run[n].threads[a])
    decreases n - m
  {
    if m < n {
      RunEffect(c, run, m, a);
      EffectStays(c, run, m + 1, n, a);
    }
  }

  // ---------------------------------------------------------------- what a set found

  predicate Began(t: Thread) {
    t.Setter? && t.p != SLock
  }

  /** Between these two states, set `a` locks its event and finds this deque. */
  ghost predicate FindsAt(c: Config, s: State, s': State, a: nat, seen: seq<Registration>) {
    && a < |c.ops| && c.ops[a].Set? && a < |s.threads| && a < |s'.threads|
    && !Began(s.threads[a]) && Began(s'.threads[a])
    && c.ops[a].event < |s.events| && c.ops[a].event < |s'.events|
    && s.events[c.ops[a].event].owner == None && s'.events[c.ops[a].event].owner == Some(a)
    && s.events[c.ops[a].event].queue == seen
  }

  lemma FindStep(c: Config, s: State, a: nat, ch: Choice)
    requires Inv(c, s) && a < |c.ops| && c.ops[a].Set? && CanStep(c, s, a, ch)
    ensures a < |Step(c, s, a, ch).threads| && s.threads[a].Setter? && Step(c, s, a, ch).threads[a].Setter?
    ensures var s' := Step(c, s, a, ch);
      if Began(s.threads[a]) then Began(s'.threads[a]) && s'.threads[a].seen == s.threads[a].seen
      else FindsAt(c, s, s', a, s'.threads[a].seen)
  {
    SeesHead(c, s, a);
    assert GoodThread(c, s, a);
  }

  lemma NextFind(c: Config, s: State, s': State, a: nat)
    requires Inv(c, s) && Next(c, s, s') && a < |c.ops| && c.ops[a].Set?
    ensures a < |s.threads| && s.threads[a].Setter? && a < |s'.threads| && s'.threads[a].Setter?
    ensures Began(s.threads[a]) ==> s'.threads[a].seen == s.threads[a].seen
    ensures !Began(s.threads[a]) && Began(s'.threads[a]) ==> FindsAt(c, s, s', a, s'.threads[a].seen)
  {
    assert GoodThread(c, s, a);
    if b: nat, ch: Choice :| b < |c.ops| && CanStep(c, s, b, ch) && s' == Step(c, s, b, ch) {
      if b == a {
        FindStep(c, s, a, ch);
      } else {
        KeepsThread(c, s, b, ch, a);
      }
    }
  }

  lemma KeepsThread(c: Config, s: State, b: nat, ch: Choice, a: nat)
    requires Inv(c, s) && b < |c.ops| && CanStep(c, s, b, ch) && a < |c.ops| && a != b
    ensures var s' := Step(c, s, b, ch);
      a < |s'.threads| && (s'.threads[a] == s.threads[a] || s'.threads[a] == Wake(s.threads[a]))
  {
    var act, s' := StepParts(c, s, b, ch);
    QueueMoves(c, s, b, ch, act, s');
    OtherThread(c, s, b, ch, act, s', a);
  }

  lemma RunFind(c: Config, run: seq<State>, n: nat, a: nat)
    requires IsRun(c, run) && n + 1 < |run| && a < |c.ops| && c.ops[a].Set?
    ensures a < |run[n].threads| && run[n].threads[a].Setter? && a < |run[n + 1].threads| && run[n + 1].threads[a].Setter?
    ensures Began(run[n].threads[a]) ==> run[n + 1].threads[a].seen == run[n].threads[a].seen
    ensures !Began(run[n].threads[a]) && Began(run[n + 1].threads[a]) ==>
      FindsAt(c, run[n], run[n + 1], a, run[n + 1].threads[a].seen)
  {
    RunInv(c, run, n);
    assert NextAt(c, run, n);
    NextFind(c, run[n], run[n + 1], a);
  }

  /** What a set remembers as the deque it found is what the deque was when it locked its event. */
  lemma {:induction false} SeenIsTheDeque(c: Config, run: seq<State>, n: nat, a: nat) returns (m: nat)
    requires IsRun(c, run) && n < |run| && a < |c.ops| && c.ops[a].Set?
    requires a < |run[n].threads| && Began(run[n].threads[a])
    ensures m < n && FindsAt(c, run[m], run[m + 1], a, run[n].threads[a].seen)
  {
    if n == 0 {
      InitialThreads(c, run, a);
      assert false;
    } else {
      RunFind(c, run, n - 1, a);
      if Began(run[n - 1].threads[a]) {
        m := SeenIsTheDeque(c, run, n - 1, a);
      } else {
        m := n - 1;
      }
    }
  }

  // ---------------------------------------------------------------- how many sets took effect

  /** The sets of event e that are past their effect: all finished ones, and some under way. */
  function EffectiveSets(c: Config, s: State, e: nat): set<nat> {
    set a: nat | a < |c.ops| && a < |s.threads| && c.ops[a] == Set(e) && TookEffect(s.threads[a])
  }

  /** Those that handed their signal to a waiter. */
  function HandingSets(c: Config, s: State, e: nat): set<nat> {
    set a | a in EffectiveSets(c, s, e) && a < |s.threads| && s.threads[a].Setter? && s.threads[a].handedTo.Some?
  }

  ghost predicate Tallied(c: Config, s: State, e: nat) {
    e < |s.events| && s.events[e].sets == |EffectiveSets(c, s, e)| && s.events[e].handed == |HandingSets(c, s, e)|
  }

  /** The counters of an event rise exactly when one of its sets takes effect. */
  lemma CountersStep(c: Config, s: State, a: nat, ch: Choice, act: Action, s': State, e: nat)
    requires Inv(c, s) && IsMarkStep(c, s, a, ch, act, s') && e < |s.events| && IsAuto(c, e)
    ensures a < |s'.threads| && |s'.events| == |s.events|
    ensures s'.events[e].sets == s.events[e].sets +
      if c.ops[a] == Set(e) && !TookEffect(s.threads[a]) && TookEffect(s'.threads[a]) then 1 else 0
    ensures s'.events[e].handed == s.events[e].handed +
      if c.ops[a] == Set(e) && !TookEffect(s.threads[a]) && TookEffect(s'.threads[a])
         && s'.threads[a].handedTo.Some? then 1 else 0
  {
    StepSizes(c, s, a, ch, act, s');
    CountersApply(c, s, a, ch, act, s', e);
    if c.ops[a].Set? {
      SetCounters(c, s, a, ch, act, s', e);
    } else {
      assert GoodThread(c, s, a);
      OtherNoEffect(c, a, c.ops[a], s.threads[a], ViewOf(c, s, a));
    }
  }

  lemma CountersApply(c: Config, s: State, a: nat, ch: Choice, act: Action, s': State, e: nat)
    requires IsStep(c, s, a, ch, act, s') && e < |s.events| && IsAuto(c, e)
    ensures |s'.events| == |s.events|
    ensures s'.events[e].sets == s.events[e].sets + if act == Raise(e) || act == Fire(e) then 1 else 0
    ensures s'.events[e].handed == s.events[e].handed + if act == Fire(e) then 1 else 0
  {
    ApplySignals(c, s, a, act, ch.pick, e);
  }

  /** For a set: which of its steps raise or fire. */
  lemma SetCounters(c: Config, s: State, a: nat, ch: Choice, act: Action, s': State, e: nat)
    requires Inv(c, s) && IsMarkStep(c, s, a, ch, act, s') && c.ops[a].Set? && IsAuto(c, e)
    ensures a < |s'.threads|
    ensures act == Raise(e) || act == Fire(e) <==>
      c.ops[a] == Set(e) && !TookEffect(s.threads[a]) && TookEffect(s'.threads[a])
    ensures c.ops[a] == Set(e) && act == Fire(e) ==> s'.threads[a].handedTo.Some?
    ensures c.ops[a] == Set(e) && act == Raise(e) ==> s'.threads[a].handedTo.None?
  {
    assert GoodThread(c, s, a);
    if c.ops[a] == Set(e) {
      SetStepParts(c, s, a, ch, act, s');
      EffectMove(c.ops[a], s.threads[a], ViewOf(c, s, a));
    } else {
      StepSizes(c, s, a, ch, act, s');
    }
  }

  lemma StepTallied(c: Config, s: State, a: nat, ch: Choice, e: nat)
    requires Inv(c, s) && a < |c.ops| && CanStep(c, s, a, ch) && IsAuto(c, e) && Tallied(c, s, e)
    ensures Tallied(c, Step(c, s, a, ch), e)
  {
    var act, s' := StepParts(c, s, a, ch);
    QueueMoves(c, s, a, ch, act, s');
    CountersStep(c, s, a, ch, act, s', e);
    StepSetThreads(c, s, a, ch, act, s', e);
    SetsStep(c, s, s', a, e);
    HandingStep(c, s, s', a, e);
  }

  /** The threads after a step, as far as the sets of an event are concerned. */
  ghost predicate SetThreads(c: Config, s: State, s': State, a: nat, e: nat) {
    && |s.threads| == |s'.threads| == |c.ops| && a < |c.ops|
    && (forall b :: 0 <= b < |c.ops| && b != a ==>
          s'.threads[b] == s.threads[b] || s'.threads[b] == Wake(s.threads[b]))
    && (c.ops[a] == Set(e) && TookEffect(s.threads[a]) ==>
          TookEffect(s'.threads[a]) && s'.threads[a].handedTo == s.threads[a].handedTo)
  }

  lemma StepSetThreads(c: Config, s: State, a: nat, ch: Choice, act: Action, s': State, e: nat)
    requires Inv(c, s) && IsMarkStep(c, s, a, ch, act, s') && IsAuto(c, e)
    ensures SetThreads(c, s, s', a, e)
  {
    StepSizes(c, s, a, ch, act, s');
    forall b: nat | b < |c.ops| && b != a ensures s'.threads[b] == s.threads[b] || s'.threads[b] == Wake(s.threads[b]) {
      OtherThread(c, s, a, ch, act, s', b);
    }
    if c.ops[a] == Set(e) {
      EffectStep(c, s, a, ch, act, s');
    }
  }

  predicate EffectNow(c: Config, s: State, s': State, a: nat, e: nat)
    requires |s.threads| == |s'.threads| == |c.ops| && a < |c.ops|
  {
    c.ops[a] == Set(e) && !TookEffect(s.threads[a]) && TookEffect(s'.threads[a])
  }

  lemma SetsStep(c: Config, s: State, s': State, a: nat, e: nat)
    requires SetThreads(c, s, s', a, e)
    ensures EffectiveSets(c, s', e) == EffectiveSets(c, s, e) + if EffectNow(c, s, s', a, e) then {a} else {}
    ensures EffectNow(c, s, s', a, e) ==> a !in EffectiveSets(c, s, e)
  {
  }

  lemma HandingStep(c: Config, s: State, s': State, a: nat, e: nat)
    requires SetThreads(c, s, s', a, e)
    ensures HandingSets(c, s', e) == HandingSets(c, s, e) +
      if EffectNow(c, s, s', a, e) && s'.threads[a].handedTo.Some? then {a} else {}
    ensures EffectNow(c, s, s', a, e) ==> a !in HandingSets(c, s, e)
  {
  }

  lemma {:induction false} RunTallied(c: Config, run: seq<State>, n: nat, e: nat)
    requires IsRun(c, run) && n < |run| && IsAuto(c, e)
    ensures Tallied(c, run[n], e)
  {
    if n > 0 {
      RunTallied(c, run, n - 1, e);
      RunNextTallied(c, run, n - 1, e);
    } else {
      InitTallied(c, run[0], e);
    }
  }

  lemma InitTallied(c: Config, s: State, e: nat)
    requires c.Valid() && Init(c, s) && IsAuto(c, e)
    ensures Tallied(c, s, e)
  {
    assert EffectiveSets(c, s, e) == {};
  }

  lemma RunNextTallied(c: Config, run: seq<State>, n: nat, e: nat)
    requires IsRun(c, run) && n + 1 < |run| && IsAuto(c, e) && Tallied(c, run[n], e)
    ensures Tallied(c, run[n + 1], e)
  {
    RunInv(c, run, n);
    assert NextAt(c, run, n);
    NextTallied(c, run[n], run[n + 1], e);
  }

  lemma NextTallied(c: Config, s: State, s': State, e: nat)
    requires Inv(c, s) && Next(c, s, s') && IsAuto(c, e) && Tallied(c, s, e)
    ensures Tallied(c, s', e)
  {
    if a: nat, ch: Choice :| a < |c.ops| && CanStep(c, s, a, ch) && s' == Step(c, s, a, ch) {
      StepTallied(c, s, a, ch, e);
    } else {
      assert s'.threads == s.threads;
      assert EffectiveSets(c, s', e) == EffectiveSets(c, s, e) && HandingSets(c, s', e) == HandingSets(c, s, e);
    }
  }
}
