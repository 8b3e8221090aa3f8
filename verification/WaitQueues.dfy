/** The deques and the per-position history of the waiters tell the same story. */
module WaitQueues {
  import opened Options
  import opened Sequences
  import opened WaitModel
  import opened WaitLocks

  function MarkOf(s: State, r: Registration): Mark {
    if r.waiter < |s.waiters| && r.index < |s.waiters[r.waiter].marks|
    then s.waiters[r.waiter].marks[r.index] else Unvisited
  }

  predicate Live(m: Mark) { m == Queued || m == Firing }

  predicate Counted(m: Mark) { m == Satisfied || m == Firing || m == Fired }

  /** The event is owned by a setter that has just notified the head of the deque. */
  predicate FiringOwner(s: State, e: nat)
    requires e < |s.events|
  {
    s.events[e].owner.Some? && s.events[e].owner.value < |s.threads|
    && IsFiring(s.threads[s.events[e].owner.value])
  }

  /** Entries are pairwise different; all are Queued, except the head while a setter fires it. */
  ghost predicate QueueMarks(s: State, e: nat)
    requires e < |s.events|
  {
    var q := s.events[e].queue;
    && (forall j, k :: 0 <= j < k < |q| ==> q[j] != q[k])
    && (forall j :: 0 <= j < |q| ==>
          MarkOf(s, q[j]) == if j == 0 && FiringOwner(s, e) then Firing else Queued)
  }

  /** Live positions are in their event's deque, and the loop index separates visited positions. */
  ghost predicate WaiterMarks(c: Config, s: State, w: nat)
    requires w < |s.waiters| && w < |c.ops| && w < |s.threads|
  {
    c.ops[w].WaitMany? && s.threads[w].Many? && GoodWaiter(c, s, w) ==>
      var marks := s.waiters[w].marks;
      && (forall i :: 0 <= i < |marks| && Live(marks[i]) ==>
            c.ops[w].events[i] < |s.events|
            && Registration(w, i) in s.events[c.ops[w].events[i]].queue)
      && (forall i :: 0 <= i < |marks| ==> (marks[i] == Unvisited <==> s.threads[w].i <= i))
      && (forall i :: 0 <= i < |marks| ==>
            s.waiters[w].hits[i] == if Counted(marks[i]) then 1 else 0)
  }

  ghost predicate Marks(c: Config, s: State) {
    && Locks(c, s)
    && (forall e :: 0 <= e < |s.events| ==> QueueMarks(s, e))
    && (forall w :: 0 <= w < |s.waiters| ==> WaiterMarks(c, s, w))
  }

  // ---------------------------------------------------------------- one step, seen locally

  /** The loop index moves exactly when a position is dealt with. */
  ghost predicate IndexMove(op: Op, t: Thread, t': Thread, act: Action) {
    && (t.Many? ==> t'.Many? && t'.i == t.i + if act.Enqueue? || act.Satisfy? then 1 else 0)
    && (act.Enqueue? || act.Satisfy? ==> t.Many? && op.WaitMany? && t.i < |op.events|)
    && (act.Enqueue? ==> act.e == op.events[t.i])
  }

  ghost predicate FireMove(t: Thread, t': Thread, act: Action) {
    && IsFiring(t') == (act.Fire? || (IsFiring(t) && !act.DropHead?))
    && (act.Fire? ==> t.Setter? && !IsFiring(t) && HoldsTarget(t))
    && (act.DropHead? ==> t.Setter? && act.mark == if IsFiring(t) then Fired else Expired)
    && (act.LockEvent? || act.UnlockEvent? || act.DropExpired? || act.Enqueue? ==> !IsFiring(t) && !IsFiring(t'))
  }

  ghost predicate QueueMove(c: Config, s: State, a: nat, ch: Choice, act: Action)
    requires a < |c.ops| && a < |s.threads| && GoodLocals(c.ops[a], s.threads[a])
  {
    var op, t := c.ops[a], s.threads[a];
    var t' := NextThread(c, op, t, ViewOf(c, s, a), ch.timedOut);
    IndexMove(op, t, t', act) && FireMove(t, t', act)
  }

  lemma ManyIndexMove(c: Config, a: nat, op: Op, t: Thread, v: View, timedOut: bool)
    requires op.WaitMany? && GoodLocals(op, t) && !Finished(t)
    ensures IndexMove(op, t, NextMany(c, op, t, v, timedOut), ActionMany(a, op, t, v))
    ensures FireMove(t, NextMany(c, op, t, v, timedOut), ActionMany(a, op, t, v))
  {
  }

  lemma QueueMoves(c: Config, s: State, a: nat, ch: Choice, act: Action, s': State)
    requires IsStep(c, s, a, ch, act, s')
    ensures QueueMove(c, s, a, ch, act)
  {
    var op, t, v := c.ops[a], s.threads[a], ViewOf(c, s, a);
    LocalQueueMove(c, a, op, t, v, ch.timedOut);
  }

  lemma LocalQueueMove(c: Config, a: nat, op: Op, t: Thread, v: View, timedOut: bool)
    requires GoodLocals(op, t) && !Finished(t)
    ensures IndexMove(op, t, NextThread(c, op, t, v, timedOut), ActionOf(a, op, t, v))
    ensures FireMove(t, NextThread(c, op, t, v, timedOut), ActionOf(a, op, t, v))
  {
    if op.WaitMany? { ManyIndexMove(c, a, op, t, v, timedOut); }
  }

  // ---------------------------------------------------------------- the mark a step changes

  /** The position whose mark an action changes, and its new mark. */
  function Marked(s: State, a: nat, act: Action): Option<(Registration, Mark)> {
    match act
    case Enqueue(_) => if a < |s.threads| && s.threads[a].Many? then Some((Registration(a, s.threads[a].i), Queued)) else None
    case Satisfy => if a < |s.threads| && s.threads[a].Many? then Some((Registration(a, s.threads[a].i), Satisfied)) else None
    case DropExpired(e, k) =>
      if e < |s.events| && k < |s.events[e].queue| then Some((s.events[e].queue[k], Expired)) else None
    case Fire(e) => if e < |s.events| && s.events[e].queue != [] then Some((s.events[e].queue[0], Firing)) else None
    case DropHead(e, m) => if e < |s.events| && s.events[e].queue != [] then Some((s.events[e].queue[0], m)) else None
    case _ => None
  }

  lemma ApplyMarks(c: Config, s: State, a: nat, act: Action, pick: nat)
    requires Applicable(c, s, a, act)
    ensures var s' := Apply(c, s, a, act, pick);
      forall r :: MarkOf(s', r) ==
        if Marked(s, a, act).Some? && Marked(s, a, act).value.0 == r then Marked(s, a, act).value.1
        else MarkOf(s, r)
  {
  }

  lemma ApplyHits(c: Config, s: State, a: nat, act: Action, pick: nat)
    requires Applicable(c, s, a, act)
    ensures var s' := Apply(c, s, a, act, pick);
      forall w, i :: 0 <= w < |s.waiters| && 0 <= i < |s.waiters[w].hits| && i < |s'.waiters[w].hits| ==>
        s'.waiters[w].hits[i] == s.waiters[w].hits[i]
          + if (act.Satisfy? || act.Fire?) && Marked(s, a, act).Some?
               && Marked(s, a, act).value.0 == Registration(w, i) then 1 else 0
  {
  }

  // ---------------------------------------------------------------- preservation

  ghost predicate IsMarkStep(c: Config, s: State, a: nat, ch: Choice, act: Action, s': State) {
    && Marks(c, s)
    && IsStep(c, s, a, ch, act, s')
    && QueueMove(c, s, a, ch, act)
  }

  /** The position being registered or satisfied was not visited before. */
  lemma VisitedIsNew(c: Config, s: State, a: nat, ch: Choice, act: Action, s': State)
    requires IsMarkStep(c, s, a, ch, act, s')
    requires act.Enqueue? || act.Satisfy?
    ensures Marked(s, a, act).Some? && MarkOf(s, Marked(s, a, act).value.0) == Unvisited
  {
    assert WaiterMarks(c, s, a) && GoodWaiter(c, s, a);
  }

  /** A step changes no mark of an entry in a deque it does not touch. */
  lemma MarkedElsewhere(c: Config, s: State, a: nat, ch: Choice, act: Action, s': State, e: nat, j: nat)
    requires IsMarkStep(c, s, a, ch, act, s')
    requires e < |s.events| && j < |s.events[e].queue|
    requires EventTouched(act) != Some(e)
    ensures MarkOf(s', s.events[e].queue[j]) == MarkOf(s, s.events[e].queue[j])
  {
    ApplyMarks(c, s, a, act, ch.pick);
    assert QueueMarks(s, e) && GoodEvent(c, s, e);
    if act.Enqueue? || act.Satisfy? { VisitedIsNew(c, s, a, ch, act, s'); }
    else if act.DropExpired? || act.Fire? || act.DropHead? { assert GoodEvent(c, s, act.e); }
  }

  /** Whether an event's owner is firing changes only by firing, by dropping, or with the owner. */
  lemma FiringOwnerKept(c: Config, s: State, a: nat, ch: Choice, act: Action, s': State, e: nat)
    requires IsMarkStep(c, s, a, ch, act, s')
    requires e < |s.events|
    ensures |s'.events| == |s.events|
    ensures FiringOwner(s', e) ==
      if EventTouched(act) == Some(e) && act.Fire? then true
      else if EventTouched(act) == Some(e) && act.DropHead? then false
      else FiringOwner(s, e)
  {
    if EventTouched(act) == Some(e) {
      TouchedFiringOwner(c, s, a, ch, act, s', e);
    } else {
      UntouchedFiringOwner(c, s, a, ch, act, s', e);
    }
  }

  lemma TouchedFiringOwner(c: Config, s: State, a: nat, ch: Choice, act: Action, s': State, e: nat)
    requires IsMarkStep(c, s, a, ch, act, s')
    requires e < |s.events| && EventTouched(act) == Some(e)
    ensures |s'.events| == |s.events|
    ensures FiringOwner(s', e) == if act.Fire? then true else if act.DropHead? then false else FiringOwner(s, e)
  {
    ApplyEvents(c, s, a, act, ch.pick);
    assert ThreadLocks(c, s, a);
  }

  lemma UntouchedFiringOwner(c: Config, s: State, a: nat, ch: Choice, act: Action, s': State, e: nat)
    requires IsMarkStep(c, s, a, ch, act, s')
    requires e < |s.events| && EventTouched(act) != Some(e)
    ensures |s'.events| == |s.events| && FiringOwner(s', e) == FiringOwner(s, e)
  {
    ApplyEvents(c, s, a, act, ch.pick);
    ApplyThreads(c, s, a, act, ch.pick);
    assert EventLock(c, s, e) && ThreadLocks(c, s, a);
  }

  lemma UntouchedQueueMarks(c: Config, s: State, a: nat, ch: Choice, act: Action, s': State, e: nat)
    requires IsMarkStep(c, s, a, ch, act, s')
    requires e < |s.events| && EventTouched(act) != Some(e)
    ensures |s'.events| == |s.events| && QueueMarks(s', e)
  {
    ApplyEvents(c, s, a, act, ch.pick);
    FiringOwnerKept(c, s, a, ch, act, s', e);
    assert QueueMarks(s, e);
    forall j | 0 <= j < |s.events[e].queue|
      ensures MarkOf(s', s.events[e].queue[j]) == MarkOf(s, s.events[e].queue[j])
    {
      MarkedElsewhere(c, s, a, ch, act, s', e, j);
    }
  }

  lemma EnqueueQueueMarks(c: Config, s: State, a: nat, ch: Choice, act: Action, s': State, e: nat)
    requires IsMarkStep(c, s, a, ch, act, s')
    requires e < |s.events| && EventTouched(act) == Some(e)
    requires act.Enqueue?
    ensures |s'.events| == |s.events| && QueueMarks(s', e)
  {
    ApplyEvents(c, s, a, act, ch.pick);
    ApplyMarks(c, s, a, act, ch.pick);
    FiringOwnerKept(c, s, a, ch, act, s', e);
    assert QueueMarks(s, e) && ThreadLocks(c, s, a);
    VisitedIsNew(c, s, a, ch, act, s');
  }

  lemma RemovalQueueMarks(c: Config, s: State, a: nat, ch: Choice, act: Action, s': State, e: nat)
    requires IsMarkStep(c, s, a, ch, act, s')
    requires e < |s.events| && EventTouched(act) == Some(e)
    requires act.DropExpired? || act.DropHead?
    ensures |s'.events| == |s.events| && QueueMarks(s', e)
  {
    if act.DropHead? {
      HeadRemovalMarks(c, s, a, ch, act, s', e);
    } else {
      ExpiredRemovalMarks(c, s, a, ch, act, s', e);
    }
  }

  /** A thread that purges holds the event, so no setter is firing its head. */
  lemma PurgingOwner(c: Config, s: State, a: nat, ch: Choice, act: Action, s': State, e: nat)
    requires IsMarkStep(c, s, a, ch, act, s')
    requires e < |s.events| && act.DropExpired? && act.e == e
    ensures !FiringOwner(s, e)
  {
    assert ThreadLocks(c, s, a);
  }

  lemma ExpiredRemovalMarks(c: Config, s: State, a: nat, ch: Choice, act: Action, s': State, e: nat)
    requires IsMarkStep(c, s, a, ch, act, s')
    requires e < |s.events| && act.DropExpired? && act.e == e
    ensures |s'.events| == |s.events| && QueueMarks(s', e)
  {
    ApplyEvents(c, s, a, act, ch.pick);
    ApplyMarks(c, s, a, act, ch.pick);
    PurgingOwner(c, s, a, ch, act, s', e);
    FiringOwnerKept(c, s, a, ch, act, s', e);
    MarksWithout(s, s', e, act.k);
  }

  lemma MarksWithout(s: State, s': State, e: nat, k: nat)
    requires e < |s.events| && e < |s'.events| && k < |s.events[e].queue|
    requires QueueMarks(s, e) && !FiringOwner(s, e) && !FiringOwner(s', e)
    requires s'.events[e].queue == RemoveAt(s.events[e].queue, k)
    requires forall r :: r != s.events[e].queue[k] ==> MarkOf(s', r) == MarkOf(s, r)
    ensures QueueMarks(s', e)
  {
  }

  lemma HeadRemovalMarks(c: Config, s: State, a: nat, ch: Choice, act: Action, s': State, e: nat)
    requires IsMarkStep(c, s, a, ch, act, s')
    requires e < |s.events| && EventTouched(act) == Some(e) && act.DropHead?
    ensures |s'.events| == |s.events| && QueueMarks(s', e)
  {
    ApplyEvents(c, s, a, act, ch.pick);
    ApplyMarks(c, s, a, act, ch.pick);
    FiringOwnerKept(c, s, a, ch, act, s', e);
    assert QueueMarks(s, e);
  }

  lemma SameQueueMarks(c: Config, s: State, a: nat, ch: Choice, act: Action, s': State, e: nat)
    requires IsMarkStep(c, s, a, ch, act, s')
    requires e < |s.events| && EventTouched(act) == Some(e)
    requires !act.Enqueue? && !act.DropExpired? && !act.DropHead?
    ensures |s'.events| == |s.events| && QueueMarks(s', e)
  {
    ApplyEvents(c, s, a, act, ch.pick);
    ApplyMarks(c, s, a, act, ch.pick);
    FiringOwnerKept(c, s, a, ch, act, s', e);
    assert QueueMarks(s, e);
  }

  lemma StepQueueMarks(c: Config, s: State, a: nat, ch: Choice, act: Action, s': State)
    requires IsMarkStep(c, s, a, ch, act, s')
    ensures forall e :: 0 <= e < |s'.events| ==> QueueMarks(s', e)
  {
    forall e | 0 <= e < |s'.events| ensures QueueMarks(s', e) {
      if EventTouched(act) != Some(e) { UntouchedQueueMarks(c, s, a, ch, act, s', e); }
      else if act.Enqueue? { EnqueueQueueMarks(c, s, a, ch, act, s', e); }
      else if act.DropExpired? || act.DropHead? { RemovalQueueMarks(c, s, a, ch, act, s', e); }
      else { SameQueueMarks(c, s, a, ch, act, s', e); }
    }
  }

  /** A deque loses only the entry an action removes. */
  lemma MembersKept(q: seq<Registration>, r: Registration, act: Action, x: Registration)
    requires x in q
    requires act.DropExpired? ==> act.k < |q| && x != q[act.k]
    requires act.DropHead? ==> x != q[0]
    ensures x in QueueAfter(q, r, act)
  {
    var j :| 0 <= j < |q| && q[j] == x;
    var q' := QueueAfter(q, r, act);
    match act
    case DropExpired(_, k) => assert q'[if j < k then j else j - 1] == x;
    case DropHead(_, _) => assert q'[j - 1] == x;
    case _ => assert q'[j] == x;
  }

  /** Live positions stay in their deques. */
  lemma LiveKept(c: Config, s: State, a: nat, ch: Choice, act: Action, s': State, x: Registration, e: nat)
    requires IsMarkStep(c, s, a, ch, act, s')
    requires e < |s.events| && x in s.events[e].queue
    requires Live(MarkOf(s', x))
    ensures |s'.events| == |s.events| && x in s'.events[e].queue
  {
    ApplyEvents(c, s, a, act, ch.pick);
    ApplyMarks(c, s, a, act, ch.pick);
    if EventTouched(act) == Some(e) {
      MembersKept(s.events[e].queue, Registration(a, if s.threads[a].Many? then s.threads[a].i else 0), act, x);
    }
  }

  /** An entry that is removed or fired was live. */
  lemma RemovedWasLive(c: Config, s: State, a: nat, ch: Choice, act: Action, s': State)
    requires IsMarkStep(c, s, a, ch, act, s')
    requires act.DropExpired? || act.Fire? || act.DropHead?
    ensures Marked(s, a, act).Some? && Marked(s, a, act).value.1 != Unvisited
    ensures MarkOf(s, Marked(s, a, act).value.0) ==
      if act.DropHead? && act.mark == Fired then Firing else Queued
  {
    assert QueueMarks(s, act.e) && ThreadLocks(c, s, a) && EventLock(c, s, act.e);
  }

  /** A position becomes live by being pushed on its event's deque. */
  lemma NewlyLive(c: Config, s: State, a: nat, ch: Choice, act: Action, s': State, x: Registration)
    requires IsMarkStep(c, s, a, ch, act, s')
    requires Live(MarkOf(s', x)) && !Live(MarkOf(s, x))
    ensures act.Enqueue? && s.threads[a].Many? && x == Registration(a, s.threads[a].i)
  {
    if act.DropExpired? || act.Fire? || act.DropHead? { RemovedWasLive(c, s, a, ch, act, s'); }
    ApplyMarks(c, s, a, act, ch.pick);
  }

  ghost predicate LiveInQueue(c: Config, s: State, w: nat, i: nat)
    requires w < |c.ops| && c.ops[w].WaitMany? && i < |c.ops[w].events|
  {
    Live(MarkOf(s, Registration(w, i))) ==>
      c.ops[w].events[i] < |s.events| && Registration(w, i) in s.events[c.ops[w].events[i]].queue
  }

  lemma StepLiveInQueue(c: Config, s: State, a: nat, ch: Choice, act: Action, s': State, w: nat, i: nat)
    requires IsMarkStep(c, s, a, ch, act, s')
    requires w < |c.ops| && c.ops[w].WaitMany? && i < |c.ops[w].events|
    requires LiveInQueue(c, s, w, i)
    ensures LiveInQueue(c, s', w, i)
  {
    var x := Registration(w, i);
    if Live(MarkOf(s', x)) {
      if Live(MarkOf(s, x)) {
        LiveKept(c, s, a, ch, act, s', x, c.ops[w].events[i]);
      } else {
        NewlyLive(c, s, a, ch, act, s', x);
        ApplyEvents(c, s, a, act, ch.pick);
        var q' := s'.events[act.e].queue;
        assert q'[|q'| - 1] == x;
      }
    }
  }

  lemma StepIndex(c: Config, s: State, a: nat, ch: Choice, act: Action, s': State, w: nat, i: nat)
    requires IsMarkStep(c, s, a, ch, act, s')
    requires w < |c.ops| && c.ops[w].WaitMany? && i < |c.ops[w].events|
    requires s.threads[w].Many? && GoodWaiter(c, s, w) && WaiterMarks(c, s, w)
    ensures w < |s'.threads| && s'.threads[w].Many?
    ensures MarkOf(s', Registration(w, i)) == Unvisited <==> s'.threads[w].i <= i
  {
    MarkChange(c, s, a, ch, act, s', Registration(w, i));
    OwnIndex(c, s, a, ch, act, s', w);
  }

  /** How the mark of one position can change in a step. */
  lemma MarkChange(c: Config, s: State, a: nat, ch: Choice, act: Action, s': State, r: Registration)
    requires IsMarkStep(c, s, a, ch, act, s')
    ensures var m, m' := MarkOf(s, r), MarkOf(s', r);
      if Marked(s, a, act).Some? && Marked(s, a, act).value.0 == r then
        && (m == Unvisited <==> act.Enqueue? || act.Satisfy?) && m' != Unvisited
        && (m == Unvisited ==> s.threads[a].Many? && r == Registration(a, s.threads[a].i))
        && (Counted(m') <==> Counted(m) || act.Satisfy? || act.Fire?)
        && (Counted(m) ==> !act.Satisfy? && !act.Fire?)
      else m' == m
  {
    ApplyMarks(c, s, a, act, ch.pick);
    if act.Enqueue? || act.Satisfy? { VisitedIsNew(c, s, a, ch, act, s'); }
    else if act.DropExpired? || act.Fire? || act.DropHead? {
      RemovedWasLive(c, s, a, ch, act, s');
      assert ThreadLocks(c, s, a);
    }
  }

  lemma OwnIndex(c: Config, s: State, a: nat, ch: Choice, act: Action, s': State, w: nat)
    requires IsMarkStep(c, s, a, ch, act, s') && w < |c.ops| && s.threads[w].Many?
    ensures w < |s'.threads| && s'.threads[w].Many?
    ensures s'.threads[w].i == s.threads[w].i + if w == a && (act.Enqueue? || act.Satisfy?) then 1 else 0
    ensures act.Enqueue? || act.Satisfy? ==> s.threads[a].Many? && Marked(s, a, act).Some?
  {
    ApplyThreads(c, s, a, act, ch.pick);
  }

  lemma StepHits(c: Config, s: State, a: nat, ch: Choice, act: Action, s': State, w: nat, i: nat)
    requires IsMarkStep(c, s, a, ch, act, s')
    requires w < |c.ops| && c.ops[w].WaitMany? && i < |c.ops[w].events|
    requires s.threads[w].Many? && GoodWaiter(c, s, w) && WaiterMarks(c, s, w)
    ensures w < |s'.waiters| && i < |s'.waiters[w].hits|
    ensures s'.waiters[w].hits[i] == if Counted(MarkOf(s', Registration(w, i))) then 1 else 0
  {
    ApplyWaiters(c, s, a, act, ch.pick);
    ApplyHits(c, s, a, act, ch.pick);
    MarkChange(c, s, a, ch, act, s', Registration(w, i));
  }

  lemma StepWaiterMarks(c: Config, s: State, a: nat, ch: Choice, act: Action, s': State, w: nat)
    requires IsMarkStep(c, s, a, ch, act, s')
    requires w < |c.ops|
    ensures w < |s'.waiters| && w < |s'.threads| && WaiterMarks(c, s', w)
  {
    ApplyWaiters(c, s, a, act, ch.pick);
    assert WaiterMarks(c, s, w) && GoodWaiter(c, s, w) && c.ValidOp(c.ops[w]) && GoodThread(c, s, w);
    if c.ops[w].WaitMany? {
      forall i | 0 <= i < |c.ops[w].events|
        ensures LiveInQueue(c, s', w, i)
        ensures s'.threads[w].Many? && (s'.waiters[w].marks[i] == Unvisited <==> s'.threads[w].i <= i)
        ensures s'.waiters[w].hits[i] == if Counted(s'.waiters[w].marks[i]) then 1 else 0
      {
        assert LiveInQueue(c, s, w, i);
        StepLiveInQueue(c, s, a, ch, act, s', w, i);
        StepIndex(c, s, a, ch, act, s', w, i);
        StepHits(c, s, a, ch, act, s', w, i);
        assert MarkOf(s', Registration(w, i)) == s'.waiters[w].marks[i];
      }
    }
  }

  lemma StepMarks(c: Config, s: State, a: nat, ch: Choice)
    requires Marks(c, s) && a < |c.ops| && CanStep(c, s, a, ch)
    ensures Marks(c, Step(c, s, a, ch))
  {
    var act, s' := StepParts(c, s, a, ch);
    QueueMoves(c, s, a, ch, act, s');
    StepLocks(c, s, a, ch);
    StepQueueMarks(c, s, a, ch, act, s');
    forall w | 0 <= w < |s'.waiters| ensures WaiterMarks(c, s', w) {
      StepWaiterMarks(c, s, a, ch, act, s', w);
    }
  }

  lemma ResetMarks(c: Config, s: State, e: nat)
    requires Marks(c, s) && e < |s.events|
    ensures Marks(c, Reset(s, e))
  {
    var s' := Reset(s, e);
    ResetLocks(c, s, e);
    forall d | 0 <= d < |s'.events| ensures QueueMarks(s', d) {
      assert QueueMarks(s, d);
      assert forall r :: MarkOf(s', r) == MarkOf(s, r);
    }
    forall w | 0 <= w < |s'.waiters| ensures WaiterMarks(c, s', w) {
      assert WaiterMarks(c, s, w);
    }
  }

  lemma InitMarks(c: Config, s: State)
    requires c.Valid() && Init(c, s)
    ensures Marks(c, s)
  {
    InitLocks(c, s);
  }
}
