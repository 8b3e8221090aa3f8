/**
 Runs in which calls to WaitForMultipleEvents register, one after the other, up to chosen positions of their
 lists, while no event is signalled and no setter has begun.
*/
module WaitWalk {
  import opened Options
  import opened WaitModel
  import opened WaitLocks

  const PLAIN := Choice(false, 0)

  /** A run, its last state, and the invariant that lets it go on. */
  ghost predicate RunTo(c: Config, run: seq<State>, s: State) {
    IsRun(c, run) && run[|run| - 1] == s && Locks(c, s)
  }

  lemma Append(c: Config, run: seq<State>, s: State, s': State) returns (run': seq<State>)
    requires RunTo(c, run, s) && Next(c, s, s') && Locks(c, s')
    ensures RunTo(c, run', s')
  {
    run' := run + [s'];
    LongerRun(c, run, s');
  }

  lemma LongerRun(c: Config, run: seq<State>, s': State)
    requires IsRun(c, run) && Next(c, run[|run| - 1], s')
    ensures IsRun(c, run + [s'])
  {
    var run' := run + [s'];
    forall n: nat | n + 1 < |run'| ensures NextAt(c, run', n) {
      if n + 1 < |run| {
        assert NextAt(c, run, n);
        SameNext(c, run[n], run[n + 1], run', n);
      } else {
        SameNext(c, run[|run| - 1], s', run', n);
      }
    }
  }

  lemma SameNext(c: Config, s: State, s': State, run: seq<State>, n: nat)
    requires n + 1 < |run| && run[n] == s && run[n + 1] == s' && Next(c, s, s')
    ensures NextAt(c, run, n)
  {
  }

  lemma Extend(c: Config, run: seq<State>, s: State, a: nat) returns (run': seq<State>, s': State)
    requires RunTo(c, run, s) && a < |c.ops| && CanStep(c, s, a, PLAIN)
    ensures RunTo(c, run', s') && s' == Step(c, s, a, PLAIN)
  {
    s' := Step(c, s, a, PLAIN);
    StepLocks(c, s, a, PLAIN);
    assert Next(c, s, s');
    run' := Append(c, run, s, s');
  }

  // ---------------------------------------------------------------- calls at rest between two positions

  /** Call `w` holds its own mutex and is about to lock the event at position p; the earlier ones have a
    registration. */
  ghost predicate At(c: Config, s: State, w: nat, p: nat) {
    && w < |c.ops| && w < |s.threads| && w < |s.waiters| && c.ops[w].WaitMany? && p < |c.ops[w].events|
    && s.threads[w].Many? && s.threads[w].m == MLockEvent && s.threads[w].i == p
    && s.waiters[w].owner == Some(w) && s.waiters[w].stillWaiting
    && forall i :: 0 <= i < p ==> Listed(s, c.ops[w].events[i])
  }

  predicate Listed(s: State, e: nat) {
    e < |s.events| && s.events[e].queue != []
  }

  /** The event is free and unsignalled, and only these calls are registered on it. */
  ghost predicate CalmEvent(s: State, e: nat, at: map<nat, nat>)
    requires e < |s.events|
  {
    && s.events[e].owner == None && !s.events[e].state
    && forall k :: 0 <= k < |s.events[e].queue| ==> s.events[e].queue[k].waiter in at
  }

  /** The call has not begun. */
  ghost predicate Untouched(c: Config, s: State, a: nat)
    requires a < |c.ops|
  {
    && a < |s.threads| && a < |s.waiters| && s.threads[a] == InitialThread(c, c.ops[a])
    && s.waiters[a].owner == None && s.waiters[a].stillWaiting
  }

  /** Each of these calls is at its position; no other call has begun. */
  ghost predicate Calm(c: Config, s: State, at: map<nat, nat>) {
    && Locks(c, s)
    && (forall e :: 0 <= e < |s.events| ==> CalmEvent(s, e, at))
    && (forall w :: w in at ==> At(c, s, w, at[w]))
    && (forall a :: 0 <= a < |c.ops| && a !in at ==> Untouched(c, s, a))
  }

  // ---------------------------------------------------------------- from one position to the next

  /** The call has locked the event at its position. */
  function Locked(s: State, w: nat, e: nat, m: ManyPc, k: nat): State
    requires w < |s.threads| && s.threads[w].Many? && e < |s.events|
  {
    SetEvent(SetThread(s, w, s.threads[w].(m := m, k := k)), e, s.events[e].(owner := Some(w)))
  }

  lemma LockEventAt(c: Config, run: seq<State>, s: State, at: map<nat, nat>, w: nat, e: nat)
    returns (run': seq<State>, s': State)
    requires RunTo(c, run, s) && Calm(c, s, at) && w in at && e == c.ops[w].events[at[w]]
    ensures e < |s.events| && RunTo(c, run', s') && s' == Locked(s, w, e, MScan, 0)
  {
    assert c.ValidOp(c.ops[w]) && CalmEvent(s, e, at) && At(c, s, w, at[w]);
    run', s' := Extend(c, run, s, w);
  }

  /** The purge finds every registration still waiting. */
  lemma {:induction false} Scan(c: Config, run: seq<State>, s: State, at: map<nat, nat>, w: nat, e: nat, k: nat, s1: State)
    returns (run': seq<State>, s': State)
    requires Calm(c, s, at) && w in at && e == c.ops[w].events[at[w]]
    requires e < |s.events| && k <= |s.events[e].queue|
    requires s1 == Locked(s, w, e, MScan, k) && RunTo(c, run, s1)
    ensures RunTo(c, run', s') && s' == Locked(s, w, e, MTest, |s.events[e].queue|)
    decreases |s.events[e].queue| - k
  {
    if k < |s.events[e].queue| {
      var s2;
      run', s2 := ScanOne(c, run, s, at, w, e, k, s1);
      run', s' := Scan(c, run', s, at, w, e, k + 1, s2);
    } else {
      assert At(c, s, w, at[w]);
      run', s' := Extend(c, run, s1, w);
      assert s' == Locked(s, w, e, MTest, k);
    }
  }

  lemma ScanOne(c: Config, run: seq<State>, s: State, at: map<nat, nat>, w: nat, e: nat, k: nat, s1: State)
    returns (run': seq<State>, s': State)
    requires Calm(c, s, at) && w in at && e == c.ops[w].events[at[w]]
    requires e < |s.events| && k < |s.events[e].queue|
    requires s1 == Locked(s, w, e, MScan, k) && RunTo(c, run, s1)
    ensures RunTo(c, run', s') && s' == Locked(s, w, e, MScan, k + 1)
  {
    assert At(c, s, w, at[w]) && CalmEvent(s, e, at);
    var v := s.events[e].queue[k].waiter;
    assert v in at && At(c, s, v, at[v]);
    assert ViewOf(c, s1, w).waiting;
    run', s' := Extend(c, run, s1, w);
    assert s' == Locked(s, w, e, MScan, k + 1);
  }

  /** The call has joined the deque and holds the event still. */
  function Joined(s: State, w: nat, e: nat): State
    requires w < |s.threads| && s.threads[w].Many? && e < |s.events|
    requires w < |s.waiters| && s.threads[w].i < |s.waiters[w].marks|
  {
    var t := s.threads[w];
    SetMark(SetEvent(SetThread(s, w, t.(m := MUnlockQueued, i := t.i + 1)),
                     e, s.events[e].(queue := s.events[e].queue + [Registration(w, t.i)])), w, t.i, Queued)
  }

  lemma Join(c: Config, run: seq<State>, s: State, w: nat, e: nat) returns (run': seq<State>, s': State)
    requires RunTo(c, run, s) && w < |c.ops| && c.ops[w].WaitMany? && s.threads[w].Many?
    requires s.threads[w].m == MTest && s.threads[w].i < |c.ops[w].events|
    requires e == c.ops[w].events[s.threads[w].i] && e < |s.events| && s.threads[w].i < |s.waiters[w].marks|
    requires !s.events[e].state
    ensures RunTo(c, run', s') && s' == Joined(s, w, e)
  {
    assert GoodThread(c, s, w) && ActionOf(w, c.ops[w], s.threads[w], ViewOf(c, s, w)) == Enqueue(e);
    run', s' := Extend(c, run, s, w);
  }

  /** Unlock the event and go to the next position. */
  lemma Leave(c: Config, run: seq<State>, s: State, w: nat, e: nat) returns (run': seq<State>, s': State)
    requires RunTo(c, run, s) && w < |c.ops| && c.ops[w].WaitMany? && s.threads[w].Many?
    requires s.threads[w].m == MUnlockQueued && 0 < s.threads[w].i < |c.ops[w].events|
    requires e == c.ops[w].events[s.threads[w].i - 1] && e < |s.events|
    ensures RunTo(c, run', s')
    ensures s' == SetEvent(SetThread(s, w, NextPosition(c, c.ops[w], s.threads[w], ViewOf(c, s, w).own.status)),
                           e, s.events[e].(owner := None))
  {
    run', s' := Extend(c, run, s, w);
  }

  /** At a manual-reset event that is not signalled, the call goes for the mutex. */
  lemma Peek(c: Config, run: seq<State>, s: State, w: nat) returns (run': seq<State>, s': State)
    requires RunTo(c, run, s) && w < |c.ops| && c.ops[w].WaitMany? && s.threads[w].Many?
    requires s.threads[w].m in {MPeek, MLockEvent} && s.threads[w].i < |c.ops[w].events|
    requires c.ops[w].events[s.threads[w].i] < |s.events| && !s.events[c.ops[w].events[s.threads[w].i]].state
    ensures RunTo(c, run', s') && s' == SetThread(s, w, s.threads[w].(m := MLockEvent))
  {
    if s.threads[w].m == MPeek {
      run', s' := Extend(c, run, s, w);
    } else {
      run', s' := run, s;
      assert SetThread(s, w, s.threads[w].(m := MLockEvent)).threads == s.threads;
    }
  }

  /** The state after a call has registered at its position and gone on to the next. */
  function Advanced(s: State, w: nat, e: nat): State
    requires w < |s.threads| && s.threads[w].Many? && e < |s.events|
    requires w < |s.waiters| && s.threads[w].i < |s.waiters[w].marks|
  {
    var t, q := s.threads[w], s.events[e].queue;
    SetMark(SetEvent(SetThread(s, w, t.(i := t.i + 1, k := |q|)), e, s.events[e].(queue := q + [Registration(w, t.i)])),
            w, t.i, Queued)
  }

  lemma Advance(c: Config, run: seq<State>, s: State, at: map<nat, nat>, w: nat)
    returns (run': seq<State>, s': State)
    requires RunTo(c, run, s) && Calm(c, s, at) && w in at && at[w] + 1 < |c.ops[w].events|
    ensures RunTo(c, run', s') && Calm(c, s', at[w := at[w] + 1])
  {
    var e := c.ops[w].events[at[w]];
    assert At(c, s, w, at[w]) && GoodWaiter(c, s, w) && c.ValidOp(c.ops[w]);
    var s1, s2;
    run', s1 := LockEventAt(c, run, s, at, w, e);
    run', s2 := Scan(c, run', s, at, w, e, 0, s1);
    run', s' := AdvanceTail(c, run', s, at, w, e, s2);
    AdvancedCalm(c, s, at, w, e, s');
  }

  /** From the test of the event's state on. */
  lemma AdvanceTail(c: Config, run: seq<State>, s: State, at: map<nat, nat>, w: nat, e: nat, s2: State)
    returns (run': seq<State>, s': State)
    requires Calm(c, s, at) && w in at && at[w] + 1 < |c.ops[w].events| && e == c.ops[w].events[at[w]]
    requires e < |s.events| && at[w] < |s.waiters[w].marks|
    requires RunTo(c, run, s2) && s2 == Locked(s, w, e, MTest, |s.events[e].queue|)
    ensures RunTo(c, run', s') && s' == Advanced(s, w, e)
  {
    assert At(c, s, w, at[w]) && c.ValidOp(c.ops[w]) && CalmEvent(s, c.ops[w].events[at[w] + 1], at);
    var s4, m;
    run', s4, m := Register(c, run, s, at, w, e, s2);
    run', s' := Peek(c, run', s4, w);
    assert s'.threads == Advanced(s, w, e).threads;
  }

  /** The call joins the deque and leaves for the next position. */
  lemma Register(c: Config, run: seq<State>, s: State, at: map<nat, nat>, w: nat, e: nat, s2: State)
    returns (run': seq<State>, s': State, m: ManyPc)
    requires Calm(c, s, at) && w in at && at[w] + 1 < |c.ops[w].events| && e == c.ops[w].events[at[w]]
    requires e < |s.events| && at[w] < |s.waiters[w].marks|
    requires RunTo(c, run, s2) && s2 == Locked(s, w, e, MTest, |s.events[e].queue|)
    ensures RunTo(c, run', s') && m in {MPeek, MLockEvent}
    ensures w < |s.threads| && s.threads[w].Many? && s.threads[w].i < |s.waiters[w].marks|
    ensures w < |Advanced(s, w, e).threads| && Advanced(s, w, e).threads[w].Many?
    ensures s' == SetThread(Advanced(s, w, e), w, Advanced(s, w, e).threads[w].(m := m))
  {
    assert At(c, s, w, at[w]) && CalmEvent(s, e, at);
    var s3;
    run', s3 := Join(c, run, s2, w, e);
    run', s' := Leave(c, run', s3, w, e);
    m := s'.threads[w].m;
    var t := s.threads[w];
    assert s'.threads == s.threads[w := t.(m := m, i := t.i + 1, k := |s.events[e].queue|)];
    assert s'.events == Advanced(s, w, e).events;
  }

  lemma AdvancedCalm(c: Config, s: State, at: map<nat, nat>, w: nat, e: nat, s': State)
    requires Calm(c, s, at) && w in at && at[w] + 1 < |c.ops[w].events| && e == c.ops[w].events[at[w]]
    requires e < |s.events| && at[w] < |s.waiters[w].marks|
    requires s' == Advanced(s, w, e) && Locks(c, s')
    ensures Calm(c, s', at[w := at[w] + 1])
  {
    var at' := at[w := at[w] + 1];
    assert At(c, s, w, at[w]);
    forall d | 0 <= d < |s'.events| ensures CalmEvent(s', d, at') {
      assert CalmEvent(s, d, at);
    }
    forall d | Listed(s, d) ensures Listed(s', d) {
    }
    forall v | v in at' ensures At(c, s', v, at'[v]) {
      assert At(c, s, v, at[v]);
    }
    forall a | 0 <= a < |c.ops| && a !in at' ensures Untouched(c, s', a) {
      assert Untouched(c, s, a);
    }
  }

  // ---------------------------------------------------------------- a call begins, and goes to its position

  lemma Enter(c: Config, run: seq<State>, s: State, at: map<nat, nat>, w: nat) returns (run': seq<State>, s': State)
    requires RunTo(c, run, s) && Calm(c, s, at) && w !in at
    requires w < |c.ops| && c.ops[w].WaitMany? && |c.ops[w].events| > 0
    ensures RunTo(c, run', s') && Calm(c, s', at[w := 0])
  {
    assert Untouched(c, s, w) && c.ValidOp(c.ops[w]);
    var s1;
    run', s1 := Extend(c, run, s, w);
    assert CalmEvent(s, c.ops[w].events[0], at);
    run', s' := Peek(c, run', s1, w);
    var entered := SetWaiter(SetThread(s, w, s.threads[w].(m := MLockEvent)), w, s.waiters[w].(owner := Some(w)));
    assert s'.threads == entered.threads && s'.waiters == entered.waiters;
    EnteredCalm(c, s, at, w, s');
  }

  lemma EnteredCalm(c: Config, s: State, at: map<nat, nat>, w: nat, s': State)
    requires Calm(c, s, at) && w !in at && w < |c.ops| && c.ops[w].WaitMany? && |c.ops[w].events| > 0
    requires Locks(c, s')
    requires s.threads[w] == InitialThread(c, c.ops[w])
    requires s' == SetWaiter(SetThread(s, w, s.threads[w].(m := MLockEvent)), w, s.waiters[w].(owner := Some(w)))
    ensures Calm(c, s', at[w := 0])
  {
    var at' := at[w := 0];
    assert Untouched(c, s, w);
    forall d | 0 <= d < |s'.events| ensures CalmEvent(s', d, at') {
      assert CalmEvent(s, d, at);
    }
    forall v | v in at' ensures At(c, s', v, at'[v]) {
      if v != w { assert At(c, s, v, at[v]); }
    }
    forall a | 0 <= a < |c.ops| && a !in at' ensures Untouched(c, s', a) {
      assert Untouched(c, s, a);
    }
  }

  lemma {:induction false} WalkOne(c: Config, run: seq<State>, s: State, at: map<nat, nat>, w: nat, p: nat)
    returns (run': seq<State>, s': State)
    requires RunTo(c, run, s) && Calm(c, s, at) && w !in at
    requires w < |c.ops| && c.ops[w].WaitMany? && p < |c.ops[w].events|
    ensures RunTo(c, run', s') && Calm(c, s', at[w := p])
    decreases p
  {
    if p == 0 {
      run', s' := Enter(c, run, s, at, w);
    } else {
      run', s' := WalkOne(c, run, s, at, w, p - 1);
      var at1 := at[w := p - 1];
      run', s' := Advance(c, run', s', at1, w);
      assert at1[w := p] == at[w := p];
    }
  }

  /** Which calls are to walk, and to which position. */
  ghost predicate IsPlan(c: Config, parks: map<nat, nat>) {
    forall w :: w in parks ==> w < |c.ops| && c.ops[w].WaitMany? && parks[w] < |c.ops[w].events|
  }

  // ---------------------------------------------------------------- the beginning

  function InitialState(c: Config): State
    requires c.Valid()
  {
    State(seq(|c.auto|, e requires 0 <= e < |c.signalled| => InitialEvent(c.signalled[e])),
          seq(|c.ops|, a requires 0 <= a < |c.ops| => InitialWaiter(c.ops[a])),
          seq(|c.ops|, a requires 0 <= a < |c.ops| => InitialThread(c, c.ops[a])))
  }

  /** Nothing has begun, and the first k events are not signalled. */
  ghost predicate Quiet(c: Config, s: State, k: nat) {
    && Locks(c, s)
    && (forall e :: 0 <= e < |s.events| ==> s.events[e].owner == None && s.events[e].queue == [])
    && (forall e :: 0 <= e < |s.events| && e < k ==> !s.events[e].state)
    && (forall a :: 0 <= a < |c.ops| ==> Untouched(c, s, a))
  }

  /** ResetEvent clears the events that start out signalled. */
  lemma {:induction false} QuietStart(c: Config, k: nat) returns (run: seq<State>, s: State)
    requires c.Valid() && k <= |c.auto|
    ensures RunTo(c, run, s) && Quiet(c, s, k)
  {
    if k == 0 {
      s := InitialState(c);
      run := [s];
      InitLocks(c, s);
    } else {
      run, s := QuietStart(c, k - 1);
      if s.events[k - 1].state {
        var s' := Reset(s, k - 1);
        ResetLocks(c, s, k - 1);
        assert Next(c, s, s');
        run := Append(c, run, s, s');
        forall a | 0 <= a < |c.ops| ensures Untouched(c, s', a) { assert Untouched(c, s, a); }
        s := s';
      }
    }
  }

  lemma WalkNone(c: Config) returns (run: seq<State>, s: State)
    requires c.Valid()
    ensures RunTo(c, run, s) && Calm(c, s, map[])
  {
    run, s := QuietStart(c, |c.auto|);
    assert forall e :: 0 <= e < |s.events| ==> CalmEvent(s, e, map[]);
  }

  lemma SplitPlan(c: Config, parks: map<nat, nat>) returns (w: nat, rest: map<nat, nat>)
    requires IsPlan(c, parks) && parks != map[]
    ensures w in parks && w !in rest && rest[w := parks[w]] == parks
    ensures IsPlan(c, rest) && |rest| < |parks|
  {
    w :| w in parks;
    rest := parks - {w};
    assert parks.Keys == rest.Keys + {w};
  }

  /** Some run takes all the calls of a plan to their positions. */
  lemma {:induction false} Walk(c: Config, parks: map<nat, nat>) returns (run: seq<State>, s: State)
    requires c.Valid() && IsPlan(c, parks)
    ensures RunTo(c, run, s) && Calm(c, s, parks)
    decreases |parks|
  {
    if parks == map[] {
      run, s := WalkNone(c);
    } else {
      var w, rest := SplitPlan(c, parks);
      run, s := Walk(c, rest);
      run, s := WalkOne(c, run, s, rest, w, parks[w]);
    }
  }
}
