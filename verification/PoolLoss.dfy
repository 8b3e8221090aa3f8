/** When a queued task is lost for good, short of another AddTask. */
module PoolLoss {
  import opened Options
  import opened PoolModel
  import opened PoolTheorems

  /** The worker has retired, or is at its last wait without a wake. */
  predicate GivesUp(worker: Worker) {
    worker.exit || (worker.pc in {WIdle, WEnter, WWait} && !worker.event && worker.repeats == 1)
  }

  /** A task is waiting, no wake is under way, and every worker gives up. */
  ghost predicate Lost(s: Pool) {
    && s.queue != [] && !WakeUnderWay(s)
    && forall w :: 0 <= w < |s.workers| ==> GivesUp(s.workers[w])
  }

  /** Short of another AddTask, that stays so, and the queue with it. */
  lemma LostStays(s: Pool, act: Action)
    requires Inv(s) && Lost(s) && Enabled(s, act) && !act.Push?
    ensures Lost(Step(s, act)) && Step(s, act).queue == s.queue
  {
    if act.Work? {
      assert WorkerOk(s.workers[act.w]) && GivesUp(s.workers[act.w]);
    }
  }

  /** These steps, none of them a push, lead from one state to another. */
  ghost predicate Leads(s: Pool, acts: seq<Action>, s': Pool)
    decreases |acts|
  {
    if acts == [] then s == s'
    else Enabled(s, acts[0]) && !acts[0].Push? && Leads(Step(s, acts[0]), acts[1..], s')
  }

  /** Without another AddTask, a task can still be taken. */
  ghost predicate CanTake(s: Pool) {
    exists acts, s' :: Leads(s, acts, s') && |s'.queue| < |s.queue|
  }

  lemma {:induction false} LostThroughout(s: Pool, acts: seq<Action>, s': Pool)
    requires Inv(s) && Lost(s) && Leads(s, acts, s')
    ensures s'.queue == s.queue
    decreases |acts|
  {
    if acts != [] {
      LostStays(s, acts[0]);
      StepInv(s, acts[0]);
      LostThroughout(Step(s, acts[0]), acts[1..], s');
    }
  }

  /** How many steps a worker is from its next pop. */
  function Distance(pc: WorkerPc): nat {
    match pc
    case WPop => 0
    case WMark => 1
    case WTest => 2
    case WHandle => 3
    case WWait => 3
    case WEnter => 4
    case WIdle => 5
    case WEnd => 0
    case WGone => 0
  }

  /** The next step of a worker that does not give up takes a task or brings it closer to one. */
  lemma Approaches(s: Pool, w: nat) returns (act: Action)
    requires Inv(s) && s.queue != [] && !WakeUnderWay(s) && w < |s.workers| && !GivesUp(s.workers[w])
    ensures act.Work? && Enabled(s, act)
    ensures var s' := Step(s, act);
      || |s'.queue| < |s.queue|
      || (s'.queue == s.queue && !WakeUnderWay(s') && |s'.workers| == |s.workers| && !GivesUp(s'.workers[w])
          && Distance(s'.workers[w].pc) < Distance(s.workers[w].pc))
  {
    assert WorkerOk(s.workers[w]);
    act := Work(w, s.workers[w].pc == WWait && !s.workers[w].event);
  }

  /** A worker that does not give up takes a task by its own steps. */
  lemma {:induction false} Takes(s: Pool, w: nat) returns (acts: seq<Action>, s': Pool)
    requires Inv(s) && s.queue != [] && !WakeUnderWay(s) && w < |s.workers| && !GivesUp(s.workers[w])
    ensures Leads(s, acts, s') && |s'.queue| < |s.queue|
    decreases Distance(s.workers[w].pc)
  {
    var act := Approaches(s, w);
    var next := Step(s, act);
    if |next.queue| < |s.queue| {
      acts, s' := [act], next;
      assert acts[1..] == [];
    } else {
      StepInv(s, act);
      var rest;
      rest, s' := Takes(next, w);
      LeadsFrom(s, act, rest, s');
      acts := [act] + rest;
    }
  }

  lemma LeadsFrom(s: Pool, act: Action, acts: seq<Action>, s': Pool)
    requires Enabled(s, act) && !act.Push? && Leads(Step(s, act), acts, s')
    ensures Leads(s, [act] + acts, s')
  {
    assert ([act] + acts)[1..] == acts;
  }

  /** In every run, with a task waiting and no wake under way: no task can be taken without another AddTask, if
    and only if every worker has retired or is at its last wait without a wake. The task is then stranded. */
  lemma LostIff(run: seq<Pool>, n: nat)
    requires IsRun(run) && n < |run| && run[n].queue != [] && !WakeUnderWay(run[n])
    ensures Lost(run[n]) <==> !CanTake(run[n])
    ensures Lost(run[n]) ==> Stranded(run[n])
  {
    RunInv(run, n);
    var s := run[n];
    if Lost(s) {
      forall acts, s' | Leads(s, acts, s') ensures s'.queue == s.queue {
        LostThroughout(s, acts, s');
      }
      forall w | 0 <= w < |s.workers| ensures !WillPop(s.workers[w]) {
        assert WorkerOk(s.workers[w]) && GivesUp(s.workers[w]);
      }
    } else {
      var w :| 0 <= w < |s.workers| && !GivesUp(s.workers[w]);
      var acts, s' := Takes(s, w);
    }
  }
}
