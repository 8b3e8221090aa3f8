/** A run of the pool that leaves a task behind for good. */
module PoolStranding {
  import opened Options
  import opened PoolModel
  import opened PoolTheorems

  ghost predicate RunTo(run: seq<Pool>, s: Pool) {
    IsRun(run) && run[|run| - 1] == s
  }

  lemma Extend(run: seq<Pool>, s: Pool, act: Action) returns (run': seq<Pool>, s': Pool)
    requires RunTo(run, s) && Enabled(s, act)
    ensures RunTo(run', s') && s' == Step(s, act) && run' == run + [s']
  {
    s' := Step(s, act);
    run' := run + [s'];
    forall n: nat | n + 1 < |run'| ensures NextAt(run', n) {
      if n + 1 < |run| { assert NextAt(run, n); } else { assert Next(s, s'); }
    }
  }

  /** The pool with one worker, which is still in the list, and a dispatcher at rest. */
  function OneWorker(queue: seq<Task>, worker: Worker, pushed: seq<Task>, takers: seq<nat>): Pool {
    Pool(queue, 0, false, DWait, [worker], [0], pushed, takers, Some(0))
  }

  /** A worker in its wait that has handled task 0. */
  function Resting(repeats: int): Worker {
    Worker(WWait, false, TS_WAIT, false, repeats, None, [0])
  }

  /** The first task makes the dispatcher create a worker and wake it. */
  lemma FirstTask(first: Task) returns (run: seq<Pool>, s: Pool)
    ensures RunTo(run, s) && s == OneWorker([first], NewWorker().(event := true), [first], [])
  {
    run, s := [EMPTY_POOL], EMPTY_POOL;
    run, s := Extend(run, s, Push(first));
    run, s := Extend(run, s, Signal);
    run, s := Extend(run, s, Dispatch(false));
    run, s := Extend(run, s, Dispatch(false));
    run, s := Extend(run, s, Dispatch(false));
  }

  /** The worker handles the task and goes round once more to use up its wake. */
  lemma HandleFirst(first: Task) returns (run: seq<Pool>, s: Pool)
    ensures RunTo(run, s)
    ensures s == OneWorker([], Resting(MAX_REPEAT_COUNT).(pc := WTest, status := TS_RUNNING, event := true),
                           [first], [0])
  {
    run, s := FirstTask(first);
    run, s := Extend(run, s, Work(0, false));
    run, s := Extend(run, s, Work(0, false));
    run, s := Extend(run, s, Work(0, false));
    assert s == OneWorker([], Worker(WHandle, false, TS_RUNNING, true, MAX_REPEAT_COUNT, Some(0), []), [first], [0]);
    run, s := Extend(run, s, Work(0, false));
  }

  /** From the top of the loop into WaitForEvent, with nothing to do. */
  lemma LoopRound(run: seq<Pool>, s: Pool, worker: Worker, pushed: seq<Task>, takers: seq<nat>)
    returns (run': seq<Pool>, s': Pool)
    requires RunTo(run, s) && s == OneWorker([], worker, pushed, takers)
    requires worker.pc == WTest && !worker.exit
    ensures RunTo(run', s') && s' == OneWorker([], worker.(pc := WEnter, status := TS_WAIT), pushed, takers)
  {
    run', s' := Extend(run, s, Work(0, false));
    run', s' := Extend(run', s', Work(0, false));
    assert s' == OneWorker([], worker.(pc := WPop, status := TS_RUNNING), pushed, takers);
    run', s' := Extend(run', s', Work(0, false));
    run', s' := Extend(run', s', Work(0, false));
  }

  /** Idle timeouts bring the worker down to its last repeat. */
  lemma {:induction false} IdleDown(run: seq<Pool>, s: Pool, repeats: int, pushed: seq<Task>, takers: seq<nat>)
    returns (run': seq<Pool>, s': Pool)
    requires RunTo(run, s) && repeats >= 1 && s == OneWorker([], Resting(repeats), pushed, takers)
    ensures RunTo(run', s') && s' == OneWorker([], Resting(1), pushed, takers)
    decreases repeats
  {
    if repeats == 1 {
      run', s' := run, s;
    } else {
      run', s' := Extend(run, s, Work(0, true));
      run', s' := LoopRound(run', s', Resting(repeats - 1).(pc := WTest), pushed, takers);
      run', s' := Extend(run', s', Work(0, false));
      run', s' := IdleDown(run', s', repeats - 1, pushed, takers);
    }
  }

  /** The second task makes the dispatcher choose the worker, whose last wait is running. */
  lemma SecondTask(run: seq<Pool>, s: Pool, first: Task, second: Task) returns (run': seq<Pool>, s': Pool)
    requires RunTo(run, s) && s == OneWorker([], Resting(1), [first], [0])
    ensures RunTo(run', s')
    ensures s' == OneWorker([second], Resting(1), [first, second], [0]).(dispatcher := DWake(0))
  {
    run', s' := Extend(run, s, Push(second));
    run', s' := Extend(run', s', Signal);
    run', s' := Extend(run', s', Dispatch(false));
    run', s' := Extend(run', s', Dispatch(false));
    run', s' := Extend(run', s', Dispatch(false));
  }

  /** The worker retires with its wake set and the second task in the queue. */
  function Retired(first: Task, second: Task): Pool {
    OneWorker([second], Resting(0).(pc := WTest, exit := true, event := true), [first, second], [0])
  }

  /** The worker decides to retire just before the dispatcher wakes it. */
  lemma WakeRetiree(run: seq<Pool>, s: Pool, first: Task, second: Task) returns (run': seq<Pool>, s': Pool)
    requires RunTo(run, s) && s == OneWorker([], Resting(1), [first], [0])
    ensures RunTo(run', s') && s' == Retired(first, second)
  {
    run', s' := SecondTask(run, s, first, second);
    run', s' := Extend(run', s', Work(0, true));
    run', s' := Extend(run', s', Dispatch(false));
  }

  /** The dispatcher wakes the worker in time, but its wait runs out all the same. */
  lemma RetireOnWake(run: seq<Pool>, s: Pool, first: Task, second: Task) returns (run': seq<Pool>, s': Pool)
    requires RunTo(run, s) && s == OneWorker([], Resting(1), [first], [0])
    ensures RunTo(run', s') && s' == Retired(first, second)
    ensures |run'| >= 2 && RetiresOnWake(run'[|run'| - 2], Work(0, true))
  {
    run', s' := SecondTask(run, s, first, second);
    run', s' := Extend(run', s', Dispatch(false));
    assert s' == OneWorker([second], Resting(1).(event := true), [first, second], [0]);
    assert RetiresOnWake(s', Work(0, true));
    var before := s';
    run', s' := Extend(run', s', Work(0, true));
    assert run'[|run'| - 2] == before;
  }

  /** Every worker is gone, and nothing is under way. */
  ghost predicate Dead(s: Pool) {
    !WakeUnderWay(s) && forall w :: 0 <= w < |s.workers| ==> s.workers[w].pc == WGone
  }

  /** The first task is handled, and the worker idles down to its last wait. */
  lemma LastWait(first: Task) returns (run: seq<Pool>, s: Pool)
    ensures RunTo(run, s) && s == OneWorker([], Resting(1), [first], [0])
  {
    run, s := HandleFirst(first);
    run, s := LoopRound(run, s, s.workers[0], [first], [0]);
    run, s := Extend(run, s, Work(0, false));
    run, s := LoopRound(run, s, s.workers[0], [first], [0]);
    run, s := Extend(run, s, Work(0, false));
    assert s == OneWorker([], Resting(MAX_REPEAT_COUNT), [first], [0]);
    run, s := IdleDown(run, s, MAX_REPEAT_COUNT, [first], [0]);
  }

  lemma Leave(run: seq<Pool>, s: Pool, first: Task, second: Task) returns (run': seq<Pool>)
    requires RunTo(run, s) && s == Retired(first, second)
    ensures IsRun(run') && |run'| == |run| + 2 && run'[..|run|] == run
    ensures run'[|run'| - 1].queue == [second] && Stranded(run'[|run'| - 1]) && Dead(run'[|run'| - 1])
  {
    var s';
    run', s' := Extend(run, s, Work(0, false));
    run', s' := Extend(run', s', Work(0, false));
  }

  /** There is a run at whose end a task is queued, every worker is gone and no wake is under way: the worker
    had decided to retire when it was woken. */
  lemma TaskStranded(first: Task, second: Task) returns (run: seq<Pool>)
    ensures IsRun(run)
    ensures run[|run| - 1].queue == [second] && Stranded(run[|run| - 1]) && Dead(run[|run| - 1])
  {
    var s;
    run, s := LastWait(first);
    run, s := WakeRetiree(run, s, first, second);
    run := Leave(run, s, first, second);
  }

  /** There is another one, in which the worker was woken before it decided: its last wait ran out with the
    wake there. */
  lemma TaskStrandedByTimeout(first: Task, second: Task) returns (run: seq<Pool>, n: nat)
    ensures IsRun(run) && n < |run| && RetiresOnWake(run[n], Work(0, true))
    ensures run[|run| - 1].queue == [second] && Stranded(run[|run| - 1]) && Dead(run[|run| - 1])
  {
    var s;
    run, s := LastWait(first);
    run, s := RetireOnWake(run, s, first, second);
    n := |run| - 2;
    var before := run[n];
    run := Leave(run, s, first, second);
    assert run[n] == before;
  }

  /** Such a task stays where it is until the next AddTask: no other step changes anything. */
  lemma DeadUntilNextTask(s: Pool, act: Action)
    requires Dead(s) && Enabled(s, act) && !act.Push?
    ensures Step(s, act) == s
  {
  }
}
