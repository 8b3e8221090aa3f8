/** What the thread pool guarantees in every run, and where it can leave a task behind. */
module PoolTheorems {
  import opened Options
  import opened Sequences
  import opened PoolModel

  // ---------------------------------------------------------------- who is coming

  /** The worker will call Pop before it can block. */
  predicate WillPop(worker: Worker) {
    match worker.pc
    case WTest => !worker.exit
    case WMark => true
    case WPop => true
    case WIdle => worker.event
    case WEnter => worker.event
    case WWait => worker.event
    case WHandle => true
    case WEnd => false
    case WGone => false
  }

  /** The worker has decided to retire and its event is set: somebody woke it in vain. */
  predicate WokenInVain(worker: Worker) {
    worker.exit && worker.event
  }

  /** Somebody other than a worker will see to the queue: a caller of AddTask that has yet to signal,
    the pool's own signal, or the dispatcher on its way to waking a worker. */
  predicate WakeUnderWay(s: Pool) {
    s.adding > 0 || s.event || s.dispatcher != DWait
  }

  // ---------------------------------------------------------------- the invariant

  ghost predicate WorkerOk(worker: Worker) {
    && 0 <= worker.repeats <= MAX_REPEAT_COUNT
    && (worker.exit <==> worker.repeats == 0)
    && (worker.exit ==> worker.pc in {WTest, WEnd, WGone})
    && (worker.pc in {WEnd, WGone} ==> worker.exit)
    && (worker.pc == WGone <==> worker.status == TS_EXIT)
    && (worker.pc in {WPop, WIdle, WHandle} ==> worker.status == TS_RUNNING)
    && (worker.pc in {WEnter, WWait} ==> worker.status == TS_WAIT)
    && (worker.pc == WHandle <==> worker.task.Some?)
  }

  ghost predicate ListOk(s: Pool) {
    && (forall i :: 0 <= i < |s.list| ==> s.list[i] < |s.workers|)
    && (forall i, j :: 0 <= i < j < |s.list| ==> s.list[i] != s.list[j])
    && match s.dispatcher
       case DWait => true
       case DScan(cursor, found) =>
         cursor <= |s.list| && (found.Some? ==> found.value in s.list[..cursor])
       case DWake(chosen) => chosen in s.list
  }

  /** The tasks taken so far, followed by the queue, are the tasks pushed, in order. */
  ghost predicate InOrder(s: Pool) {
    |s.takers| <= |s.pushed| && s.queue == s.pushed[|s.takers|..]
  }

  /** Worker `w` has passed to the handler, once each, exactly the tasks it took, except the one it
    still holds. */
  ghost predicate HandledOk(s: Pool, w: nat)
    requires w < |s.workers|
  {
    var worker := s.workers[w];
    && (forall i, j :: 0 <= i < j < |worker.handled| ==> worker.handled[i] != worker.handled[j])
    && (forall n: nat :: n in worker.handled <==>
          n < |s.takers| && s.takers[n] == w && worker.task != Some(n))
    && (worker.task.Some? ==> worker.task.value < |s.takers| && s.takers[worker.task.value] == w)
  }

  ghost predicate Attended(s: Pool) {
    s.queue != [] && !WakeUnderWay(s) ==>
      && s.last.Some? && s.last.value in s.list && s.last.value < |s.workers|
      && (WillPop(s.workers[s.last.value]) || WokenInVain(s.workers[s.last.value]))
  }

  ghost predicate Inv(s: Pool) {
    && ListOk(s)
    && InOrder(s)
    && (forall n :: 0 <= n < |s.takers| ==> s.takers[n] < |s.workers|)
    && (forall w :: 0 <= w < |s.workers| ==> WorkerOk(s.workers[w]) && HandledOk(s, w))
    && (s.dispatcher == DWait && s.last.Some? ==> s.last.value in s.list)
    && Attended(s)
  }

  // ---------------------------------------------------------------- preservation

  lemma PushInv(s: Pool, task: Task)
    requires Inv(s)
    ensures Inv(Step(s, Push(task)))
  {
    var s' := Step(s, Push(task));
    forall w | 0 <= w < |s'.workers| ensures HandledOk(s', w) { assert HandledOk(s, w); }
  }

  lemma SignalInv(s: Pool)
    requires Inv(s) && Enabled(s, Signal)
    ensures Inv(Step(s, Signal))
  {
    var s' := Step(s, Signal);
    forall w | 0 <= w < |s'.workers| ensures HandledOk(s', w) { assert HandledOk(s, w); }
  }

  lemma DispatchInv(s: Pool, timeout: bool)
    requires Inv(s) && Enabled(s, Dispatch(timeout))
    ensures Inv(Step(s, Dispatch(timeout)))
  {
    var s' := Step(s, Dispatch(timeout));
    DispatchList(s, timeout);
    forall w | 0 <= w < |s'.workers| ensures WorkerOk(s'.workers[w]) && HandledOk(s', w) {
      DispatchWorker(s, timeout, w);
    }
    DispatchAttended(s, timeout);
  }

  lemma DispatchWorker(s: Pool, timeout: bool, w: nat)
    requires Inv(s) && Enabled(s, Dispatch(timeout)) && w < |Step(s, Dispatch(timeout)).workers|
    ensures WorkerOk(Step(s, Dispatch(timeout)).workers[w]) && HandledOk(Step(s, Dispatch(timeout)), w)
  {
    if w < |s.workers| { assert WorkerOk(s.workers[w]) && HandledOk(s, w); }
  }

  lemma DispatchAttended(s: Pool, timeout: bool)
    requires Inv(s) && Enabled(s, Dispatch(timeout))
    ensures Attended(Step(s, Dispatch(timeout)))
  {
    if s.dispatcher.DWake? { assert WorkerOk(s.workers[s.dispatcher.chosen]); }
  }

  lemma DispatchList(s: Pool, timeout: bool)
    requires Inv(s) && Enabled(s, Dispatch(timeout))
    ensures ListOk(Step(s, Dispatch(timeout)))
  {
    var s' := Step(s, Dispatch(timeout));
    match s.dispatcher
    case DScan(cursor, found) =>
      if cursor < |s.list| {
        ScanList(s, timeout);
      } else if found.None? {
        assert s'.list[|s.list|] == |s.workers|;
      }
    case _ =>
  }

  lemma ScanList(s: Pool, timeout: bool)
    requires Inv(s) && Enabled(s, Dispatch(timeout))
    requires s.dispatcher.DScan? && s.dispatcher.cursor < |s.list|
    ensures ListOk(Step(s, Dispatch(timeout)))
  {
    var s', cursor := Step(s, Dispatch(timeout)), s.dispatcher.cursor;
    if s'.list == s.list { assert s.list[..cursor + 1] == s.list[..cursor] + [s.list[cursor]]; }
    else {
      RemoveKeepsDistinct(s.list, cursor);
      assert s'.list[..cursor] == s.list[..cursor];
    }
  }

  lemma RemoveKeepsDistinct(list: seq<nat>, k: nat)
    requires k < |list| && forall i, j :: 0 <= i < j < |list| ==> list[i] != list[j]
    ensures var r := RemoveAt(list, k);
      && (forall i, j :: 0 <= i < j < |r| ==> r[i] != r[j])
      && (forall w :: w in r <==> w in list && w != list[k])
  {
    var r := RemoveAt(list, k);
    forall i | 0 <= i < |r| ensures r[i] == list[if i < k then i else i + 1] {
    }
    forall w | w in list && w != list[k] ensures w in r {
      var j :| 0 <= j < |list| && list[j] == w;
      assert r[if j < k then j else j - 1] == w;
    }
  }

  lemma WorkInv(s: Pool, w: nat, timeout: bool)
    requires Inv(s) && Enabled(s, Work(w, timeout))
    ensures Inv(Step(s, Work(w, timeout)))
  {
    var s' := Step(s, Work(w, timeout));
    WorkHandled(s, w, timeout);
    WorkAttended(s, w, timeout);
    forall v | 0 <= v < |s'.workers| ensures WorkerOk(s'.workers[v]) && HandledOk(s', v) {
      WorkOthers(s, w, timeout, v);
    }
  }

  lemma WorkAttended(s: Pool, w: nat, timeout: bool)
    requires Inv(s) && Enabled(s, Work(w, timeout))
    ensures Attended(Step(s, Work(w, timeout)))
  {
    assert WorkerOk(s.workers[w]);
  }

  lemma WorkOthers(s: Pool, w: nat, timeout: bool, v: nat)
    requires Inv(s) && Enabled(s, Work(w, timeout)) && v < |s.workers|
    ensures var s' := Step(s, Work(w, timeout));
      WorkerOk(s'.workers[v]) && (v != w ==> HandledOk(s', v))
  {
    assert WorkerOk(s.workers[v]) && HandledOk(s, v);
  }

  lemma WorkHandled(s: Pool, w: nat, timeout: bool)
    requires Inv(s) && Enabled(s, Work(w, timeout))
    ensures HandledOk(Step(s, Work(w, timeout)), w)
  {
    var s' := Step(s, Work(w, timeout));
    var worker, worker' := s.workers[w], s'.workers[w];
    assert WorkerOk(worker) && HandledOk(s, w);
    if worker.pc == WHandle {
      var n := worker.task.value;
      assert worker'.handled == worker.handled + [n];
      assert n !in worker.handled;
    } else if worker.pc == WPop {
      assert worker'.handled == worker.handled;
    }
  }

  lemma StepInv(s: Pool, act: Action)
    requires Inv(s) && Enabled(s, act)
    ensures Inv(Step(s, act))
  {
    match act
    case Push(task) => PushInv(s, task);
    case Signal => SignalInv(s);
    case Dispatch(timeout) => DispatchInv(s, timeout);
    case Work(w, timeout) => WorkInv(s, w, timeout);
  }

  lemma {:induction false} RunInv(run: seq<Pool>, n: nat)
    requires IsRun(run) && n < |run|
    ensures Inv(run[n])
  {
    if n > 0 {
      RunInv(run, n - 1);
      assert NextAt(run, n - 1);
      var act :| Enabled(run[n - 1], act) && run[n] == Step(run[n - 1], act);
      StepInv(run[n - 1], act);
    }
  }

  // ---------------------------------------------------------------- the theorems

  /** In every run, the tasks taken followed by the tasks queued are the tasks pushed, in order; and
    task `k`, once taken, is with the one worker that took it: that worker either still holds it or
    has passed it to its handler exactly once, and no other worker ever does. */
  lemma TasksConserved(run: seq<Pool>, n: nat)
    requires IsRun(run) && n < |run|
    ensures var s := run[n];
      && |s.takers| <= |s.pushed| && s.pushed[..|s.takers|] + s.queue == s.pushed
      && forall k, w :: 0 <= k < |s.pushed| && 0 <= w < |s.workers| ==>
           && (k in s.workers[w].handled || s.workers[w].task == Some(k)
               <==> k < |s.takers| && s.takers[k] == w)
           && !(k in s.workers[w].handled && s.workers[w].task == Some(k))
           && multiset(s.workers[w].handled)[k] <= 1
  {
    RunInv(run, n);
    var s := run[n];
    forall k, w | 0 <= k < |s.pushed| && 0 <= w < |s.workers|
      ensures (k in s.workers[w].handled || s.workers[w].task == Some(k) <==> k < |s.takers| && s.takers[k] == w)
      ensures !(k in s.workers[w].handled && s.workers[w].task == Some(k))
      ensures multiset(s.workers[w].handled)[k] <= 1
    {
      assert HandledOk(s, w);
      AtMostOnce(s.workers[w].handled, k);
    }
  }

  lemma {:induction false} AtMostOnce(numbers: seq<nat>, k: nat)
    requires forall i, j :: 0 <= i < j < |numbers| ==> numbers[i] != numbers[j]
    ensures multiset(numbers)[k] <= 1
  {
    if numbers != [] {
      var last := |numbers| - 1;
      AtMostOnce(numbers[..last], k);
      assert numbers == numbers[..last] + [numbers[last]];
    }
  }

  /** A task is waiting and nobody is coming for it. */
  ghost predicate Stranded(s: Pool) {
    && s.queue != [] && !WakeUnderWay(s)
    && forall w :: w in s.list && w < |s.workers| ==> !WillPop(s.workers[w])
  }

  /** A listed worker other than `w` will pop. */
  ghost predicate OthersComing(s: Pool, w: nat) {
    exists v :: v in s.list && v != w && v < |s.workers| && WillPop(s.workers[v])
  }

  /** In every run, when a task is waiting and no wake is under way, the worker woken last is listed; and nobody
    is coming exactly if that worker has retired on its wake and no other listed worker will pop. */
  lemma StrandedIff(run: seq<Pool>, n: nat)
    requires IsRun(run) && n < |run| && run[n].queue != [] && !WakeUnderWay(run[n])
    ensures run[n].last.Some? && run[n].last.value in run[n].list && run[n].last.value < |run[n].workers|
    ensures var last := run[n].last.value;
      Stranded(run[n]) <==> WokenInVain(run[n].workers[last]) && !OthersComing(run[n], last)
  {
    RunInv(run, n);
    assert WorkerOk(run[n].workers[run[n].last.value]);
  }

  /** The dispatcher is about to wake a worker that has already retired. */
  ghost predicate WakesRetiree(s: Pool, act: Action) {
    && act.Dispatch? && s.dispatcher.DWake? && s.dispatcher.chosen < |s.workers|
    && s.queue != [] && s.adding == 0 && !s.event
    && s.workers[s.dispatcher.chosen].exit && !OthersComing(s, s.dispatcher.chosen)
  }

  /** The last wait of a worker runs out although its wake is there. */
  ghost predicate RetiresOnWake(s: Pool, act: Action) {
    && act.Work? && act.timeout && act.w in s.list && act.w < |s.workers|
    && s.queue != [] && !WakeUnderWay(s)
    && s.workers[act.w].pc == WWait && s.workers[act.w].event && s.workers[act.w].repeats == 1
    && !OthersComing(s, act.w)
  }

  /** In every run, exactly two kinds of step leave a task with nobody coming. */
  lemma StrandingSteps(run: seq<Pool>, n: nat, act: Action)
    requires IsRun(run) && n < |run| && Enabled(run[n], act) && !Stranded(run[n])
    ensures Stranded(Step(run[n], act)) <==> WakesRetiree(run[n], act) || RetiresOnWake(run[n], act)
  {
    RunInv(run, n);
    var s := run[n];
    match act
    case Push(_) =>
    case Signal =>
    case Dispatch(timeout) => DispatchStrands(s, timeout);
    case Work(w, timeout) => WorkStrands(s, w, timeout);
  }

  lemma DispatchStrands(s: Pool, timeout: bool)
    requires Inv(s) && Enabled(s, Dispatch(timeout)) && !Stranded(s)
    ensures Stranded(Step(s, Dispatch(timeout))) <==> WakesRetiree(s, Dispatch(timeout))
  {
    var s' := Step(s, Dispatch(timeout));
    if s.dispatcher.DWake? {
      var chosen := s.dispatcher.chosen;
      assert WorkerOk(s.workers[chosen]);
      assert WillPop(s'.workers[chosen]) <==> !s.workers[chosen].exit;
      assert forall v :: 0 <= v < |s.workers| && v != chosen ==> s'.workers[v] == s.workers[v];
      if Stranded(s') {
        assert !WillPop(s'.workers[chosen]);
      }
    }
  }

  /** When a worker's step stops it from being on its way to the queue. */
  lemma WorkGivesUp(s: Pool, w: nat, timeout: bool)
    requires Inv(s) && Enabled(s, Work(w, timeout))
    ensures var worker, s' := s.workers[w], Step(s, Work(w, timeout));
      WillPop(worker) && s'.queue != [] && !WillPop(s'.workers[w]) <==>
        s.queue != [] && worker.pc == WWait && worker.event && timeout && worker.repeats == 1
  {
    assert WorkerOk(s.workers[w]);
  }

  lemma WorkStrands(s: Pool, w: nat, timeout: bool)
    requires Inv(s) && Enabled(s, Work(w, timeout)) && !Stranded(s)
    ensures Stranded(Step(s, Work(w, timeout))) <==> RetiresOnWake(s, Work(w, timeout))
  {
    var s' := Step(s, Work(w, timeout));
    WorkGivesUp(s, w, timeout);
    assert forall v :: 0 <= v < |s.workers| && v != w ==> s'.workers[v] == s.workers[v];
  }

  /** In every run, a task is left with nobody coming only if the last wake went to a worker, still listed, that
    has retired without taking it: it had decided to before, or its last wait ran out with the wake there. */
  lemma StrandedOnlyByWakingARetiree(run: seq<Pool>, n: nat)
    requires IsRun(run) && n < |run| && Stranded(run[n])
    ensures run[n].last.Some? && run[n].last.value in run[n].list
    ensures run[n].last.value < |run[n].workers| && WokenInVain(run[n].workers[run[n].last.value])
  {
    RunInv(run, n);
  }
}
