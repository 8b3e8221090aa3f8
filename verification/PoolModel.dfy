/**
 The thread pool as a transition system: callers of AddTask, one dispatcher, and any number of workers.

 The pool's events are auto-reset events used only by SetEvent and WaitForEvent, so they are modelled
 by what the event library guarantees for those: a set latches, a wait that succeeds consumes the
 signal, a wait that finds the event signalled succeeds at once, and one that does not may time out later,
 even if a signal has come meanwhile, which it then leaves. The dispatcher goes straight back into a wait
 that timed out, so its time-outs change nothing.
*/
module PoolModel {
  import opened Options
  import opened Sequences

  /** The pool is used with message buffers. */
  type Task = string

  const MAX_REPEAT_COUNT := 12

  // ---------------------------------------------------------------- the task list

  datatype Popped = Popped(task: Option<Task>, rest: seq<Task>)

  function PopFront(items: seq<Task>): Popped {
    if items == [] then Popped(None, []) else Popped(Some(items[0]), items[1..])
  }

  /** The mutex-protected list: each call is one atomic step of the pool. */
  class TaskList {
    var items: seq<Task>

    constructor ()
      ensures items == []
    {
      items := [];
    }

    method Push(task: Task)
      modifies this
      ensures items == old(items) + [task]
    {
      items := items + [task];
    }

    method Pop() returns (task: Option<Task>)
      modifies this
      ensures Popped(task, items) == PopFront(old(items))
      ensures old(items) == [] ==> task == None && items == []
      ensures old(items) != [] ==> task.Some? && old(items) == [task.value] + items
    {
      if |items| == 0 {
        return None;
      }
      task := Some(items[0]);
      items := items[1..];
    }
  }

  // ---------------------------------------------------------------- states

  datatype Status = TS_WAIT | TS_RUNNING | TS_EXIT

  /** Where a worker is in its loop. */
  datatype WorkerPc =
    | WTest      // while (!m_bExit)
    | WMark      // m_status = TS_RUNNING
    | WPop
    | WIdle      // m_status = TS_WAIT
    | WEnter     // WaitForEvent tests the event before it waits
    | WWait
    | WHandle
    | WEnd       // m_status = TS_EXIT
    | WGone

  datatype Worker = Worker(
    pc: WorkerPc,
    exit: bool,
    status: Status,
    event: bool,
    repeats: int,
    task: Option<nat>,   // the number of the task in hand
    // history
    handled: seq<nat>)   // the numbers of the tasks passed to the handler

  function NewWorker(): Worker {
    Worker(WTest, false, TS_WAIT, false, MAX_REPEAT_COUNT, None, [])
  }

  /** Where the dispatcher is: in its wait, reading the status of the worker at `cursor`, or about to
    wake the worker it has chosen. */
  datatype Dispatcher =
    | DWait
    | DScan(cursor: nat, found: Option<nat>)
    | DWake(chosen: nat)

  datatype Pool = Pool(
    queue: seq<Task>,
    adding: nat,         // AddTask calls between the push and the signal
    event: bool,
    dispatcher: Dispatcher,
    workers: seq<Worker>, // every worker ever made
    list: seq<nat>,       // m_threadPool
    // history
    pushed: seq<Task>,
    takers: seq<nat>,     // which worker took the task of each number
    last: Option<nat>)    // the worker woken last

  const EMPTY_POOL := Pool([], 0, false, DWait, [], [], [], [], None)

  // ---------------------------------------------------------------- steps

  datatype Action =
    | Push(task: Task)
    | Signal
    | Dispatch(timeout: bool)
    | Work(w: nat, timeout: bool)

  predicate Enabled(s: Pool, act: Action) {
    match act
    case Push(_) => true
    case Signal => s.adding > 0
    case Dispatch(timeout) =>
      (match s.dispatcher
       case DWait => timeout || s.event
       case DScan(cursor, _) => !timeout && cursor <= |s.list| && (cursor < |s.list| ==> s.list[cursor] < |s.workers|)
       case DWake(chosen) => !timeout && chosen < |s.workers|)
    case Work(w, timeout) =>
      && w < |s.workers| && s.workers[w].pc != WGone
      && (if s.workers[w].pc == WWait then timeout || s.workers[w].event else !timeout)
  }

  /** One step of a worker's loop. The task list is touched only by WPop. */
  function WorkerStep(worker: Worker, number: nat, empty: bool, timeout: bool): Worker {
    match worker.pc
    case WTest => worker.(pc := if worker.exit then WEnd else WMark)
    case WMark => worker.(pc := WPop, status := TS_RUNNING)
    case WPop => if empty then worker.(pc := WIdle) else worker.(pc := WHandle, task := Some(number))
    case WIdle => worker.(pc := WEnter, status := TS_WAIT)
    case WEnter => if worker.event then worker.(pc := WTest, event := false) else worker.(pc := WWait)
    case WWait =>
      if timeout then
        worker.(pc := WTest, repeats := worker.repeats - 1, exit := worker.exit || worker.repeats == 1)
      else worker.(pc := WTest, event := false)
    case WHandle =>
      if worker.task.Some? then
        worker.(pc := WTest, task := None, repeats := MAX_REPEAT_COUNT,
                handled := worker.handled + [worker.task.value])
      else worker.(pc := WTest)
    case WEnd => worker.(pc := WGone, status := TS_EXIT)
    case WGone => worker
  }

  /** The code may read a worker's status twice, first for TS_WAIT and then for TS_EXIT. One read stands for
    both: since TS_EXIT is final, any two results are those of a single read at one of the two moments. */
  function DispatcherStep(s: Pool, timeout: bool): Pool
    requires Enabled(s, Dispatch(timeout))
  {
    match s.dispatcher
    case DWait => if timeout then s else s.(event := false, dispatcher := DScan(0, None))
    case DScan(cursor, found) =>
      if cursor < |s.list| then
        (match s.workers[s.list[cursor]].status
         case TS_WAIT => s.(dispatcher := DScan(cursor + 1, Some(s.list[cursor])))
         case TS_RUNNING => s.(dispatcher := DScan(cursor + 1, found))
         case TS_EXIT => s.(list := RemoveAt(s.list, cursor)))
      else if found.Some? then s.(dispatcher := DWake(found.value))
      else s.(workers := s.workers + [NewWorker()], list := s.list + [|s.workers|],
              dispatcher := DWake(|s.workers|))
    case DWake(chosen) =>
      s.(workers := s.workers[chosen := s.workers[chosen].(event := true)], last := Some(chosen),
         dispatcher := DWait)
  }

  function Step(s: Pool, act: Action): Pool
    requires Enabled(s, act)
  {
    match act
    case Push(task) => s.(queue := s.queue + [task], pushed := s.pushed + [task], adding := s.adding + 1)
    case Signal => s.(adding := s.adding - 1, event := true)
    case Dispatch(timeout) => DispatcherStep(s, timeout)
    case Work(w, timeout) =>
      var worker := s.workers[w];
      var s1 := s.(workers := s.workers[w := WorkerStep(worker, |s.takers|, s.queue == [], timeout)]);
      if worker.pc == WPop && s.queue != [] then
        s1.(queue := PopFront(s.queue).rest, takers := s.takers + [w])
      else s1
  }

  ghost predicate Next(s: Pool, s': Pool) {
    exists act :: Enabled(s, act) && s' == Step(s, act)
  }

  ghost predicate NextAt(run: seq<Pool>, n: nat)
    requires n + 1 < |run|
  {
    Next(run[n], run[n + 1])
  }

  ghost predicate IsRun(run: seq<Pool>) {
    && run != [] && run[0] == EMPTY_POOL
    && forall n: nat {:trigger NextAt(run, n)} :: n + 1 < |run| ==> NextAt(run, n)
  }
}
