/**
 Deadlock, exactly: calls to WaitForMultipleEvents can deadlock with setters if and only if their lists,
 taken together, have no global order.
*/
module WaitDeadlock {
  import opened Options
  import opened WaitModel
  import opened WaitLocks
  import opened WaitQueues
  import opened WaitRuns
  import opened WaitOrder
  import opened WaitWalk

  /** These threads wait for mutexes that others of them hold. */
  ghost predicate Deadlocked(c: Config, s: State, stuck: set<nat>)
    requires Shape(c, s)
  {
    stuck != {} && forall a {:trigger BlockedWithin(c, s, a, stuck)} :: a in stuck ==> BlockedWithin(c, s, a, stuck)
  }

  ghost predicate BlockedWithin(c: Config, s: State, a: nat, stuck: set<nat>)
    requires Shape(c, s)
  {
    exists b :: b in stuck && BlockedOn(c, s, a, b)
  }

  /** A blocked thread stays blocked on the same one until that one steps. */
  lemma StillBlocked(c: Config, s: State, x: nat, ch: Choice, act: Action, s': State, a: nat, b: nat)
    requires IsStep(c, s, x, ch, act, s') && BlockedOn(c, s, a, b) && x != a && x != b && Shape(c, s')
    ensures BlockedOn(c, s', a, b)
  {
    BlockedKeepsLocals(c, s, x, ch, act, s', a);
    if NextAction(c, s, a).LockEvent? {
      StillAtEvent(c, s, x, ch, act, s', a, b);
    } else {
      StillAtWaiter(c, s, x, ch, act, s', a, b);
    }
  }

  lemma StillAtEvent(c: Config, s: State, x: nat, ch: Choice, act: Action, s': State, a: nat, b: nat)
    requires IsStep(c, s, x, ch, act, s') && BlockedOn(c, s, a, b) && x != b && Shape(c, s')
    requires s'.threads[a] == s.threads[a] && NextAction(c, s, a).LockEvent?
    ensures BlockedOn(c, s', a, b)
  {
    BlockerHolds(c, s, a, b);
    OtherHeldEvent(c, s, x, ch, act, s', b);
    SameLocals(c, s, s', a);
  }

  lemma StillAtWaiter(c: Config, s: State, x: nat, ch: Choice, act: Action, s': State, a: nat, b: nat)
    requires IsStep(c, s, x, ch, act, s') && BlockedOn(c, s, a, b) && x != a && x != b && Shape(c, s')
    requires s'.threads[a] == s.threads[a] && NextAction(c, s, a).LockWaiter?
    ensures BlockedOn(c, s', a, b)
  {
    OthersWaiterUntouched(c, s, x, ch, act, s', b, NextAction(c, s, a).w);
    SameTarget(c, s, x, ch, act, s', a);
  }

  lemma SameTarget(c: Config, s: State, x: nat, ch: Choice, act: Action, s': State, a: nat)
    requires IsStep(c, s, x, ch, act, s') && a < |c.ops| && Blocked(c, s, a) && x != a && Shape(c, s')
    requires s'.threads[a] == s.threads[a] && NextAction(c, s, a).LockWaiter?
    ensures NextAction(c, s', a) == NextAction(c, s, a)
  {
    BlockedForms(c, s, a);
    assert GoodThread(c, s, a);
    if c.ops[a].Set? {
      SameHead(c, s, x, ch, act, s', a);
    } else {
      SameLocals(c, s, s', a);
    }
  }

  lemma BlockedKeepsLocals(c: Config, s: State, x: nat, ch: Choice, act: Action, s': State, a: nat)
    requires IsStep(c, s, x, ch, act, s') && a < |c.ops| && x != a && Blocked(c, s, a)
    ensures a < |s'.threads| && s'.threads[a] == s.threads[a] && |s'.waiters| == |s.waiters| && |s'.events| == |s.events|
  {
    ApplyThreads(c, s, x, act, ch.pick);
    AwakeWhenBlocked(c, s, a);
  }

  lemma AwakeWhenBlocked(c: Config, s: State, a: nat)
    requires Shape(c, s) && a < |c.ops| && Blocked(c, s, a)
    ensures !IsAsleep(s.threads[a])
  {
    assert GoodThread(c, s, a);
  }

  /** A setter that holds its event keeps the head of the deque. */
  lemma SameHead(c: Config, s: State, x: nat, ch: Choice, act: Action, s': State, a: nat)
    requires IsStep(c, s, x, ch, act, s') && Shape(c, s') && a < |c.ops| && x != a && s'.threads[a] == s.threads[a]
    requires s.threads[a].Setter? && HoldsEvent(s.threads[a]) && NextAction(c, s, a).LockWaiter?
    ensures NextAction(c, s', a) == NextAction(c, s, a)
  {
    SetterTarget(c, s, a);
    HeldQueue(c, s, x, ch, act, s', a);
    SetterTarget(c, s', a);
  }

  lemma HeldQueue(c: Config, s: State, x: nat, ch: Choice, act: Action, s': State, a: nat)
    requires IsStep(c, s, x, ch, act, s') && a < |c.ops| && x != a && HoldsEvent(s.threads[a])
    ensures var e := EventOf(c.ops[a], s.threads[a]);
      e < |s.events| && e < |s'.events| && s'.events[e].queue == s.events[e].queue
  {
    OthersEventUntouched(c, s, x, ch, act, s', a);
    ApplyEvents(c, s, x, act, ch.pick);
  }

  /** A setter locks, in exactly one place, the waiter at the head of the deque. */
  lemma SetterTarget(c: Config, s: State, a: nat)
    requires Shape(c, s) && a < |c.ops| && s.threads[a].Setter?
    ensures c.ops[a].Set? && EventOf(c.ops[a], s.threads[a]) == c.ops[a].event < |s.events|
    ensures NextAction(c, s, a).LockWaiter? <==> s.threads[a].p == SLockWaiter
    ensures s.threads[a].p == SLockWaiter ==>
      var q := s.events[c.ops[a].event].queue;
      q != [] && NextAction(c, s, a) == LockWaiter(q[0].waiter)
  {
    assert c.ValidOp(c.ops[a]) && GoodThread(c, s, a);
  }

  /** A thread about to lock an event or its own waiter looks only at its locals. */
  lemma SameLocals(c: Config, s: State, s': State, a: nat)
    requires Shape(c, s) && Shape(c, s') && a < |c.ops| && s'.threads[a] == s.threads[a]
    requires NextAction(c, s, a).LockEvent? || (NextAction(c, s, a).LockWaiter? && !s.threads[a].Setter?)
    ensures NextAction(c, s', a) == NextAction(c, s, a)
  {
    assert GoodThread(c, s, a);
  }

  lemma StuckCannotStep(c: Config, s: State, stuck: set<nat>, a: nat, ch: Choice)
    requires Shape(c, s) && Deadlocked(c, s, stuck) && a in stuck
    ensures a < |c.ops| && !CanStep(c, s, a, ch)
  {
    assert BlockedWithin(c, s, a, stuck);
  }

  /** A deadlock is for ever: whatever step is taken, the same threads stay deadlocked. */
  lemma DeadlockLasts(c: Config, s: State, s': State, stuck: set<nat>)
    requires Locks(c, s) && Deadlocked(c, s, stuck) && Next(c, s, s')
    ensures Shape(c, s') && Deadlocked(c, s', stuck)
  {
    if x: nat, ch: Choice :| x < |c.ops| && CanStep(c, s, x, ch) && s' == Step(c, s, x, ch) {
      StepLocks(c, s, x, ch);
      var act, s'' := StepParts(c, s, x, ch);
      if x in stuck {
        StuckCannotStep(c, s, stuck, x, ch);
      }
      forall a | a in stuck ensures BlockedWithin(c, s', a, stuck) {
        assert BlockedWithin(c, s, a, stuck);
        var b :| b in stuck && BlockedOn(c, s, a, b);
        StillBlocked(c, s, x, ch, act, s', a, b);
      }
    } else {
      var e: nat :| e < |s.events| && s' == Reset(s, e);
      ResetLocks(c, s, e);
      forall a | a in stuck ensures BlockedWithin(c, s', a, stuck) {
        assert BlockedWithin(c, s, a, stuck);
        var b :| b in stuck && BlockedOn(c, s, a, b);
        ResetStillBlocked(c, s, e, a, b);
      }
    }
  }

  lemma ResetStillBlocked(c: Config, s: State, e: nat, a: nat, b: nat)
    requires Shape(c, s) && e < |s.events| && Shape(c, Reset(s, e)) && BlockedOn(c, s, a, b)
    ensures BlockedOn(c, Reset(s, e), a, b)
  {
    assert GoodThread(c, s, a);
  }

  // ---------------------------------------------------------------- setters join calls that have walked

  /** Which set is to signal which event, each of them listed by a call of the plan before its position, and
    the event at every position among them. */
  ghost predicate IsTrap(c: Config, parks: map<nat, nat>, sets: map<nat, nat>) {
    && IsPlan(c, parks) && sets != map[]
    && (forall w :: w in parks ==> c.ops[w].events[parks[w]] in sets)
    && (forall e :: e in sets ==> sets[e] < |c.ops| && c.ops[sets[e]] == Set(e))
    && (forall e {:trigger ListedBefore(c, parks, e)} :: e in sets ==> ListedBefore(c, parks, e))
  }

  ghost predicate ListedBefore(c: Config, parks: map<nat, nat>, e: nat)
    requires IsPlan(c, parks)
  {
    exists w, i :: w in parks && 0 <= i < parks[w] && c.ops[w].events[i] == e
  }

  /** The call holds its own mutex and is about to lock the event at position p. */
  ghost predicate Parked(c: Config, s: State, w: nat, p: nat) {
    && w < |c.ops| && w < |s.threads| && w < |s.waiters| && c.ops[w].WaitMany? && p < |c.ops[w].events|
    && s.threads[w].Many? && s.threads[w].m == MLockEvent && s.threads[w].i == p
    && s.waiters[w].owner == Some(w) && s.waiters[w].stillWaiting
  }

  /** The first registration on the event is that of a parked call. */
  predicate HeadParked(s: State, e: nat, parks: map<nat, nat>) {
    e < |s.events| && s.events[e].queue != [] && s.events[e].queue[0].waiter in parks
  }

  /** The set has not begun, and its event is free. */
  ghost predicate Idle(c: Config, s: State, b: nat, e: nat) {
    b < |c.ops| && b < |s.threads| && s.threads[b] == InitialThread(c, Set(e)) && e < |s.events| && s.events[e].owner == None
  }

  /** The set holds its event and is about to lock the waiter at the head of the deque. */
  ghost predicate Trapped(c: Config, s: State, b: nat, e: nat) {
    && b < |c.ops| && b < |s.threads| && e < |s.events| && s.events[e].owner == Some(b)
    && s.threads[b].Setter? && s.threads[b].p == SLockWaiter
  }

  /** The sets of these events have gone as far as they get. */
  ghost predicate Jam(c: Config, s: State, parks: map<nat, nat>, sets: map<nat, nat>, done: set<nat>) {
    && Locks(c, s)
    && (forall w {:trigger Parked(c, s, w, parks[w])} :: w in parks ==> Parked(c, s, w, parks[w]))
    && (forall e {:trigger JamSet(c, s, parks, sets, done, e)} :: e in sets ==> JamSet(c, s, parks, sets, done, e))
  }

  ghost predicate JamSet(c: Config, s: State, parks: map<nat, nat>, sets: map<nat, nat>, done: set<nat>, e: nat) {
    && e in sets && HeadParked(s, e, parks)
    && if e in done then Trapped(c, s, sets[e], e) else Idle(c, s, sets[e], e)
  }

  lemma CalmIsJam(c: Config, s: State, parks: map<nat, nat>, sets: map<nat, nat>)
    requires IsTrap(c, parks, sets) && Calm(c, s, parks)
    ensures Jam(c, s, parks, sets, {})
  {
    forall w | w in parks ensures Parked(c, s, w, parks[w]) {
      assert At(c, s, w, parks[w]);
    }
    forall e | e in sets ensures JamSet(c, s, parks, sets, {}, e) {
      assert ListedBefore(c, parks, e);
      var w, i :| w in parks && 0 <= i < parks[w] && c.ops[w].events[i] == e;
      assert At(c, s, w, parks[w]) && Listed(s, e) && CalmEvent(s, e, parks) && Untouched(c, s, sets[e]);
    }
  }

  /** What a set leaves on its way: the event locked, and signalled if it is manual-reset. */
  function Approached(c: Config, s: State, b: nat, e: nat): State
    requires b < |s.threads| && e < |s.events| && e < |c.auto|
  {
    var ev := if c.auto[e] then s.events[e] else RaiseEvent(s.events[e], false, b);
    SetEvent(SetThread(s, b, Setter(SLockWaiter, s.events[e].queue, 0, None)), e, ev.(owner := Some(b)))
  }

  lemma Approach(c: Config, run: seq<State>, s: State, b: nat, e: nat) returns (run': seq<State>, s': State)
    requires RunTo(c, run, s) && b < |c.ops| && c.ops[b] == Set(e) && Idle(c, s, b, e)
    requires s.events[e].queue != [] && s.events[e].queue[0].waiter < |s.waiters|
    requires s.waiters[s.events[e].queue[0].waiter].stillWaiting
    ensures e < |c.auto| && RunTo(c, run', s') && s' == Approached(c, s, b, e)
  {
    assert c.ValidOp(c.ops[b]);
    run', s' := Begin(c, run, s, b, e);
    run', s' := Extend(c, run', s', b);
    assert s'.threads == Approached(c, s, b, e).threads && s'.events == Approached(c, s, b, e).events;
  }

  /** A set locks its event and, if it is manual-reset, signals it. */
  lemma Begin(c: Config, run: seq<State>, s: State, b: nat, e: nat) returns (run': seq<State>, s': State)
    requires RunTo(c, run, s) && b < |c.ops| && c.ops[b] == Set(e) && Idle(c, s, b, e) && e < |c.auto|
    ensures RunTo(c, run', s')
    ensures var ev := if c.auto[e] then s.events[e] else RaiseEvent(s.events[e], false, b);
      s' == SetEvent(SetThread(s, b, Setter(SHead, s.events[e].queue, 0, None)), e, ev.(owner := Some(b)))
  {
    run', s' := Extend(c, run, s, b);
    if !c.auto[e] {
      assert s' == SetEvent(SetThread(s, b, Setter(SRaise, s.events[e].queue, 0, None)),
                            e, s.events[e].(owner := Some(b)));
      run', s' := Extend(c, run', s', b);
      assert s'.threads == s.threads[b := Setter(SHead, s.events[e].queue, 0, None)];
    }
  }

  lemma ApproachedJam(c: Config, s: State, parks: map<nat, nat>, sets: map<nat, nat>, done: set<nat>, e: nat, s': State)
    requires IsTrap(c, parks, sets) && Jam(c, s, parks, sets, done) && e in sets && e !in done
    requires e < |s.events| && e < |c.auto| && sets[e] < |s.threads| && s' == Approached(c, s, sets[e], e) && Locks(c, s')
    ensures Jam(c, s', parks, sets, done + {e})
  {
    forall w | w in parks ensures Parked(c, s', w, parks[w]) {
      assert Parked(c, s, w, parks[w]);
    }
    forall d | d in sets ensures JamSet(c, s', parks, sets, done + {e}, d) {
      assert JamSet(c, s, parks, sets, done, d);
      ApproachedSet(c, s, parks, sets, done, e, s', d);
    }
  }

  lemma ApproachedSet(c: Config, s: State, parks: map<nat, nat>, sets: map<nat, nat>, done: set<nat>, e: nat, s': State, d: nat)
    requires d in sets && e in sets && JamSet(c, s, parks, sets, done, d)
    requires sets[d] < |c.ops| && c.ops[sets[d]] == Set(d) && sets[e] < |c.ops| && c.ops[sets[e]] == Set(e)
    requires e < |s.events| && e < |c.auto| && sets[e] < |s.threads| && s' == Approached(c, s, sets[e], e)
    ensures JamSet(c, s', parks, sets, done + {e}, d)
  {
  }

  /** One more set goes as far as it gets. */
  lemma JamOne(c: Config, run: seq<State>, s: State, parks: map<nat, nat>, sets: map<nat, nat>, done: set<nat>, e: nat)
    returns (run': seq<State>, s': State)
    requires IsTrap(c, parks, sets) && RunTo(c, run, s) && Jam(c, s, parks, sets, done) && e in sets && e !in done
    ensures RunTo(c, run', s') && Jam(c, s', parks, sets, done + {e})
  {
    assert JamSet(c, s, parks, sets, done, e);
    var w := s.events[e].queue[0].waiter;
    assert Parked(c, s, w, parks[w]);
    run', s' := Approach(c, run, s, sets[e], e);
    ApproachedJam(c, s, parks, sets, done, e, s');
  }

  lemma {:induction false} JamAll(c: Config, parks: map<nat, nat>, sets: map<nat, nat>, done: set<nat>)
    returns (run: seq<State>, s: State)
    requires c.Valid() && IsTrap(c, parks, sets) && done <= sets.Keys
    ensures RunTo(c, run, s) && Jam(c, s, parks, sets, done)
    decreases |done|
  {
    if done == {} {
      run, s := Walk(c, parks);
      CalmIsJam(c, s, parks, sets);
    } else {
      var e :| e in done;
      run, s := JamAll(c, parks, sets, done - {e});
      run, s := JamOne(c, run, s, parks, sets, done - {e}, e);
      assert done - {e} + {e} == done;
    }
  }

  /** A trap closes: some run ends with all its calls and sets deadlocked, each call on the set of the event at
    its position, and each set on the call at the head of its deque. */
  lemma TrapDeadlocks(c: Config, parks: map<nat, nat>, sets: map<nat, nat>) returns (run: seq<State>)
    requires c.Valid() && IsTrap(c, parks, sets)
    ensures IsRun(c, run) && Shape(c, run[|run| - 1])
    ensures Deadlocked(c, run[|run| - 1], parks.Keys + sets.Values)
    ensures forall w :: w in parks ==> BlockedOn(c, run[|run| - 1], w, sets[c.ops[w].events[parks[w]]])
    ensures forall e {:trigger SetStuck(c, run[|run| - 1], parks, sets, e)} :: e in sets ==>
              SetStuck(c, run[|run| - 1], parks, sets, e)
  {
    var s;
    run, s := JamAll(c, parks, sets, sets.Keys);
    JamDeadlocked(c, s, parks, sets);
  }

  lemma JamDeadlocked(c: Config, s: State, parks: map<nat, nat>, sets: map<nat, nat>)
    requires IsTrap(c, parks, sets) && Jam(c, s, parks, sets, sets.Keys)
    ensures Deadlocked(c, s, parks.Keys + sets.Values)
    ensures forall w :: w in parks ==> BlockedOn(c, s, w, sets[c.ops[w].events[parks[w]]])
    ensures forall e {:trigger SetStuck(c, s, parks, sets, e)} :: e in sets ==> SetStuck(c, s, parks, sets, e)
  {
    forall w | w in parks ensures BlockedOn(c, s, w, sets[c.ops[w].events[parks[w]]]) {
      CallBlocked(c, s, parks, sets, w);
    }
    forall e | e in sets ensures SetStuck(c, s, parks, sets, e) {
      SetBlocked(c, s, parks, sets, e);
    }
    StuckTogether(c, s, parks, sets);
  }

  lemma StuckTogether(c: Config, s: State, parks: map<nat, nat>, sets: map<nat, nat>)
    requires IsTrap(c, parks, sets) && Shape(c, s)
    requires forall w :: w in parks ==> BlockedOn(c, s, w, sets[c.ops[w].events[parks[w]]])
    requires forall e {:trigger SetStuck(c, s, parks, sets, e)} :: e in sets ==> SetStuck(c, s, parks, sets, e)
    ensures Deadlocked(c, s, parks.Keys + sets.Values)
  {
    var stuck := parks.Keys + sets.Values;
    forall a | a in stuck ensures BlockedWithin(c, s, a, stuck) {
      if a in parks {
        assert sets[c.ops[a].events[parks[a]]] in sets.Values;
      } else {
        var e :| e in sets && sets[e] == a;
        assert SetStuck(c, s, parks, sets, e);
      }
    }
    TrapNotEmpty(c, parks, sets);
  }

  /** The set is blocked on a call that has walked. */
  ghost predicate SetStuck(c: Config, s: State, parks: map<nat, nat>, sets: map<nat, nat>, e: nat)
    requires Shape(c, s)
  {
    e in sets && exists w :: w in parks && BlockedOn(c, s, sets[e], w)
  }

  lemma TrapNotEmpty(c: Config, parks: map<nat, nat>, sets: map<nat, nat>)
    requires IsTrap(c, parks, sets)
    ensures parks.Keys + sets.Values != {}
  {
    var e :| e in sets;
    assert sets[e] in sets.Values;
  }

  lemma CallBlocked(c: Config, s: State, parks: map<nat, nat>, sets: map<nat, nat>, w: nat)
    requires IsTrap(c, parks, sets) && Jam(c, s, parks, sets, sets.Keys) && w in parks
    ensures BlockedOn(c, s, w, sets[c.ops[w].events[parks[w]]])
  {
    var e := c.ops[w].events[parks[w]];
    assert Parked(c, s, w, parks[w]) && JamSet(c, s, parks, sets, sets.Keys, e) && GoodThread(c, s, w);
  }

  lemma SetBlocked(c: Config, s: State, parks: map<nat, nat>, sets: map<nat, nat>, e: nat)
    requires IsTrap(c, parks, sets) && Jam(c, s, parks, sets, sets.Keys) && e in sets
    ensures SetStuck(c, s, parks, sets, e)
  {
    assert JamSet(c, s, parks, sets, sets.Keys, e) && GoodThread(c, s, sets[e]);
    var w := s.events[e].queue[0].waiter;
    assert Parked(c, s, w, parks[w]);
    assert BlockedOn(c, s, sets[e], w);
  }

  // ---------------------------------------------------------------- two ways to have no order

  /** Any call that lists an event twice can deadlock with any set of that event. */
  lemma SameEventTwiceDeadlocks(c: Config, w: nat, i: nat, j: nat, b: nat) returns (run: seq<State>)
    requires c.Valid() && w < |c.ops| && c.ops[w].WaitMany? && i < j < |c.ops[w].events|
    requires c.ops[w].events[i] == c.ops[w].events[j] && b < |c.ops| && c.ops[b] == Set(c.ops[w].events[i])
    ensures IsRun(c, run) && Shape(c, run[|run| - 1])
    ensures BlockedOn(c, run[|run| - 1], w, b) && BlockedOn(c, run[|run| - 1], b, w)
  {
    var e := c.ops[w].events[i];
    var parks, sets := map[w := j], map[e := b];
    assert w in parks && parks[w] == j && e in sets;
    assert ListedBefore(c, parks, e);
    run := TrapDeadlocks(c, parks, sets);
    assert w in parks && SetStuck(c, run[|run| - 1], parks, sets, e);
  }

  /** Any two calls that list a pair of events in opposite orders can deadlock with any sets of the two. */
  lemma OppositeOrdersDeadlock(c: Config, v: nat, i: nat, j: nat, w: nat, k: nat, l: nat, b: nat, b': nat)
    returns (run: seq<State>)
    requires c.Valid() && v < |c.ops| && c.ops[v].WaitMany? && i < j < |c.ops[v].events|
    requires w < |c.ops| && c.ops[w].WaitMany? && k < l < |c.ops[w].events| && v != w
    requires c.ops[v].events[i] == c.ops[w].events[l] && c.ops[v].events[j] == c.ops[w].events[k]
    requires b < |c.ops| && c.ops[b] == Set(c.ops[v].events[i]) && b' < |c.ops| && c.ops[b'] == Set(c.ops[v].events[j])
    requires c.ops[v].events[i] != c.ops[v].events[j]
    ensures IsRun(c, run) && Shape(c, run[|run| - 1]) && Deadlocked(c, run[|run| - 1], {v, w, b, b'})
  {
    var d, e := c.ops[v].events[i], c.ops[v].events[j];
    var parks, sets := map[v := j, w := l], map[d := b, e := b'];
    OppositeTrap(c, v, i, j, w, k, l, b, b', parks, sets);
    run := TrapDeadlocks(c, parks, sets);
    TwoAndTwo(v, j, w, l, d, b, e, b');
  }

  lemma TwoAndTwo(v: nat, j: nat, w: nat, l: nat, d: nat, b: nat, e: nat, b': nat)
    requires d != e && v != w
    ensures map[v := j, w := l].Keys + map[d := b, e := b'].Values == {v, w, b, b'}
  {
    var sets := map[d := b, e := b'];
    assert d in sets && sets[d] == b && e in sets && sets[e] == b';
  }

  lemma OppositeTrap(c: Config, v: nat, i: nat, j: nat, w: nat, k: nat, l: nat, b: nat, b': nat,
                     parks: map<nat, nat>, sets: map<nat, nat>)
    requires v < |c.ops| && c.ops[v].WaitMany? && i < j < |c.ops[v].events|
    requires w < |c.ops| && c.ops[w].WaitMany? && k < l < |c.ops[w].events| && v != w
    requires c.ops[v].events[i] == c.ops[w].events[l] && c.ops[v].events[j] == c.ops[w].events[k]
    requires b < |c.ops| && c.ops[b] == Set(c.ops[v].events[i]) && b' < |c.ops| && c.ops[b'] == Set(c.ops[v].events[j])
    requires c.ops[v].events[i] != c.ops[v].events[j]
    requires parks == map[v := j, w := l] && sets == map[c.ops[v].events[i] := b, c.ops[v].events[j] := b']
    ensures IsTrap(c, parks, sets)
  {
    assert v in parks && parks[v] == j && w in parks && parks[w] == l;
    assert c.ops[v].events[i] in sets && c.ops[v].events[j] in sets;
    assert ListedBefore(c, parks, c.ops[v].events[i]) && ListedBefore(c, parks, c.ops[w].events[k]);
  }

  // ---------------------------------------------------------------- no order, no peace

  /** Some call lists d before e. */
  ghost predicate Precedes(c: Config, d: nat, e: nat) {
    exists a, i, j :: 0 <= a < |c.ops| && c.ops[a].WaitMany? && 0 <= i < j < |c.ops[a].events|
                      && c.ops[a].events[i] == d && c.ops[a].events[j] == e
  }

  /** Each of these events is listed before another of them. */
  ghost predicate Cyclic(c: Config, es: set<nat>) {
    es != {} && forall d {:trigger PrecedesIn(c, d, es)} :: d in es ==> PrecedesIn(c, d, es)
  }

  ghost predicate PrecedesIn(c: Config, d: nat, es: set<nat>) {
    exists e :: e in es && Precedes(c, d, e)
  }

  /** The events in increasing rank along every list. */
  ghost predicate Ranks(c: Config, rank: map<nat, nat>) {
    && (forall d :: d in rank ==> rank[d] < |rank|)
    && (forall d, e :: d in rank && e in rank && Precedes(c, d, e) ==> rank[d] < rank[e])
  }

  /** A set of events has an order or contains a cyclic set. */
  lemma {:induction false} OrderOrCycle(c: Config, es: set<nat>) returns (rank: map<nat, nat>, cycle: set<nat>)
    ensures (rank.Keys == es && Ranks(c, rank)) || (cycle <= es && Cyclic(c, cycle))
    decreases |es|
  {
    rank, cycle := map[], es;
    if es != {} && !Cyclic(c, es) {
      var d :| d in es && !PrecedesIn(c, d, es);
      rank, cycle := OrderOrCycle(c, es - {d});
      if !(cycle <= es - {d} && Cyclic(c, cycle)) {
        rank := AddLast(c, es, d, rank);
      }
    }
  }

  lemma AddLast(c: Config, es: set<nat>, d: nat, rank: map<nat, nat>) returns (rank': map<nat, nat>)
    requires d in es && rank.Keys == es - {d} && Ranks(c, rank) && forall e :: e in es ==> !Precedes(c, d, e)
    ensures rank'.Keys == es && Ranks(c, rank')
  {
    rank' := rank[d := |rank|];
    assert rank'.Keys == rank.Keys + {d} == es;
    assert |rank'| == |rank| + 1;
  }

  /** The last position of a list at which one of these events is, -1 if there is none. */
  function LastIn(events: seq<nat>, es: set<nat>): (p: int)
    ensures -1 <= p < |events| && (p >= 0 ==> events[p] in es)
    ensures forall j :: p < j < |events| ==> events[j] !in es
  {
    if events == [] then -1
    else if events[|events| - 1] in es then |events| - 1
    else LastIn(events[..|events| - 1], es)
  }

  /** The calls that list some of these events, each with its last position among them. */
  ghost function ParksOf(c: Config, es: set<nat>): map<nat, nat> {
    map w: nat | w < |c.ops| && c.ops[w].WaitMany? && LastIn(c.ops[w].events, es) >= 0
      :: LastIn(c.ops[w].events, es)
  }

  lemma CycleIsTrap(c: Config, es: set<nat>, sets: map<nat, nat>)
    requires Cyclic(c, es) && sets.Keys == es
    requires forall e :: e in sets ==> sets[e] < |c.ops| && c.ops[sets[e]] == Set(e)
    ensures IsTrap(c, ParksOf(c, es), sets)
  {
    ParksArePlan(c, es);
    forall d | d in es ensures ListedBefore(c, ParksOf(c, es), d) {
      AllListed(c, es, d);
    }
    var d :| d in es;
    assert d in sets;
  }

  lemma AllListed(c: Config, es: set<nat>, d: nat)
    requires Cyclic(c, es) && d in es
    ensures IsPlan(c, ParksOf(c, es))
    ensures ListedBefore(c, ParksOf(c, es), d)
  {
    assert PrecedesIn(c, d, es);
    var e :| e in es && Precedes(c, d, e);
    ParkedPast(c, es, d, e);
  }

  lemma ParksArePlan(c: Config, es: set<nat>)
    ensures IsPlan(c, ParksOf(c, es))
    ensures forall w :: w in ParksOf(c, es) ==> c.ops[w].events[ParksOf(c, es)[w]] in es
  {
  }

  /** A call that lists d before e, both among these events, walks past d. */
  lemma ParkedPast(c: Config, es: set<nat>, d: nat, e: nat)
    requires d in es && e in es && Precedes(c, d, e)
    ensures IsPlan(c, ParksOf(c, es))
    ensures ListedBefore(c, ParksOf(c, es), d)
  {
    var a, i, j :| 0 <= a < |c.ops| && c.ops[a].WaitMany? && 0 <= i < j < |c.ops[a].events|
                   && c.ops[a].events[i] == d && c.ops[a].events[j] == e;
    assert j <= LastIn(c.ops[a].events, es);
    assert a in ParksOf(c, es) && i < ParksOf(c, es)[a];
  }

  /** The same waits and other calls, and in addition a set of each of these events in turn. */
  function WithSets(c: Config, events: seq<nat>): Config {
    c.(ops := c.ops + seq(|events|, i requires 0 <= i < |events| => Set(events[i])))
  }

  lemma SameLists(c: Config, events: seq<nat>)
    requires c.Valid() && forall i :: 0 <= i < |events| ==> events[i] < |c.auto|
    ensures WithSets(c, events).Valid()
    ensures forall rank :: Ordered(c, rank) <==> Ordered(WithSets(c, events), rank)
  {
    var c' := WithSets(c, events);
    forall a | 0 <= a < |c'.ops| ensures c'.ValidOp(c'.ops[a]) {
      if a < |c.ops| { assert c.ValidOp(c.ops[a]); }
    }
    forall rank | Ordered(c, rank) ensures Ordered(c', rank) {
      assert forall a :: 0 <= a < |c'.ops| && c'.ops[a].WaitMany? ==> a < |c.ops| && c'.ops[a] == c.ops[a];
    }
    forall rank | Ordered(c', rank) ensures Ordered(c, rank) {
      assert forall a :: 0 <= a < |c.ops| ==> c'.ops[a] == c.ops[a];
    }
  }

  /** Some run of these calls ends in a deadlock. */
  ghost predicate CanDeadlock(c: Config) {
    exists run: seq<State>, stuck: set<nat> :: EndsDeadlocked(c, run, stuck)
  }

  ghost predicate EndsDeadlocked(c: Config, run: seq<State>, stuck: set<nat>) {
    IsRun(c, run) && Shape(c, run[|run| - 1]) && Deadlocked(c, run[|run| - 1], stuck)
  }

  /** With a global order there is no deadlock. */
  lemma OrderedCannotDeadlock(c: Config, rank: seq<nat>)
    requires Ordered(c, rank)
    ensures !CanDeadlock(c)
  {
    forall run: seq<State>, stuck: set<nat> ensures !EndsDeadlocked(c, run, stuck) {
      if EndsDeadlocked(c, run, stuck) {
        RunInv(c, run, |run| - 1);
        var a :| a in stuck;
        assert BlockedWithin(c, run[|run| - 1], a, stuck);
        Climb(c, run[|run| - 1], rank, stuck, a);
      }
    }
  }

  /** Following the locks, the level rises without end. */
  lemma {:induction false} Climb(c: Config, s: State, rank: seq<nat>, stuck: set<nat>, a: nat)
    requires Marks(c, s) && Ordered(c, rank) && Deadlocked(c, s, stuck) && a in stuck && a < |c.ops|
    ensures false
    decreases 2 * Highest(rank) + 1 - Level(c, s, rank, a)
  {
    assert BlockedWithin(c, s, a, stuck);
    var b :| b in stuck && BlockedOn(c, s, a, b);
    assert BlockedWithin(c, s, b, stuck);
    var b' :| b' in stuck && BlockedOn(c, s, b, b');
    LevelRises(c, s, rank, a, b);
    LevelBounded(c, s, rank, b);
    Climb(c, s, rank, stuck, b);
  }

  /** Without one, some sets make a deadlock possible. */
  lemma UnorderedCanDeadlock(c: Config) returns (events: seq<nat>)
    requires c.Valid() && forall rank :: !Ordered(c, rank)
    ensures forall i :: 0 <= i < |events| ==> events[i] < |c.auto|
    ensures CanDeadlock(WithSets(c, events))
  {
    events := seq(|c.auto|, e => e);
    var all := set e | e in events;
    var rank, cycle := OrderOrCycle(c, all);
    if !(cycle <= all && Cyclic(c, cycle)) {
      var ranks := seq(|c.auto|, e requires 0 <= e < |c.auto| => if e in rank then rank[e] else 0);
      forall e | 0 <= e < |ranks| ensures e in rank {
        assert events[e] == e;
      }
      RanksOrder(c, rank, ranks);
      assert false;
    }
    CycleDeadlocks(c, cycle, events);
  }

  lemma RanksOrder(c: Config, rank: map<nat, nat>, ranks: seq<nat>)
    requires Ranks(c, rank) && |ranks| == |c.auto|
    requires forall e :: 0 <= e < |ranks| ==> e in rank && ranks[e] == rank[e]
    ensures Ordered(c, ranks)
  {
    forall a, i, j | 0 <= a < |c.ops| && c.ops[a].WaitMany? && 0 <= i < j < |c.ops[a].events|
                     && c.ops[a].events[i] < |ranks| && c.ops[a].events[j] < |ranks|
      ensures ranks[c.ops[a].events[i]] < ranks[c.ops[a].events[j]]
    {
      assert Precedes(c, c.ops[a].events[i], c.ops[a].events[j]);
    }
  }

  lemma StillPrecedes(c: Config, events: seq<nat>, d: nat, e: nat)
    requires Precedes(c, d, e)
    ensures Precedes(WithSets(c, events), d, e)
  {
    var a, i, j :| 0 <= a < |c.ops| && c.ops[a].WaitMany? && 0 <= i < j < |c.ops[a].events|
                   && c.ops[a].events[i] == d && c.ops[a].events[j] == e;
    assert WithSets(c, events).ops[a] == c.ops[a];
  }

  lemma StillCyclic(c: Config, events: seq<nat>, es: set<nat>)
    requires Cyclic(c, es)
    ensures Cyclic(WithSets(c, events), es)
  {
    forall d | d in es ensures PrecedesIn(WithSets(c, events), d, es) {
      assert PrecedesIn(c, d, es);
      var e :| e in es && Precedes(c, d, e);
      StillPrecedes(c, events, d, e);
    }
  }

  lemma CycleDeadlocks(c: Config, cycle: set<nat>, events: seq<nat>)
    requires c.Valid() && Cyclic(c, cycle) && forall e :: e in cycle ==> e < |c.auto|
    requires |events| == |c.auto| && forall i :: 0 <= i < |events| ==> events[i] == i
    ensures CanDeadlock(WithSets(c, events))
  {
    SameLists(c, events);
    StillCyclic(c, events, cycle);
    var sets := map e | e in cycle :: |c.ops| + e;
    assert sets.Keys == cycle;
    CycleTrapDeadlocks(WithSets(c, events), cycle, sets);
  }

  lemma CycleTrapDeadlocks(c: Config, cycle: set<nat>, sets: map<nat, nat>)
    requires c.Valid() && Cyclic(c, cycle) && sets.Keys == cycle
    requires forall e :: e in sets ==> sets[e] < |c.ops| && c.ops[sets[e]] == Set(e)
    ensures CanDeadlock(c)
  {
    CycleIsTrap(c, cycle, sets);
    var run := TrapDeadlocks(c, ParksOf(c, cycle), sets);
    assert EndsDeadlocked(c, run, ParksOf(c, cycle).Keys + sets.Values);
  }

  /** For any calls: no sets added to them make a deadlock possible, if and only if one order of the events
    agrees with every list and no list has an event twice. */
  lemma DeadlockFreeIffOrdered(c: Config)
    requires c.Valid()
    ensures (forall events: seq<nat> :: (forall i :: 0 <= i < |events| ==> events[i] < |c.auto|) ==>
                !CanDeadlock(WithSets(c, events)))
            <==> exists rank :: Ordered(c, rank)
  {
    if rank :| Ordered(c, rank) {
      forall events: seq<nat> | forall i :: 0 <= i < |events| ==> events[i] < |c.auto|
        ensures !CanDeadlock(WithSets(c, events))
      {
        SameLists(c, events);
        OrderedCannotDeadlock(WithSets(c, events), rank);
      }
    } else {
      var events := UnorderedCanDeadlock(c);
    }
  }
}
