/** When a worker retires. */
module PoolRetire {
  import opened Options
  import opened PoolModel
  import opened PoolTheorems

  /** The worker's wait runs out: it leaves the wait without taking a signal. */
  predicate TimesOut(x: Worker, x': Worker) {
    x.pc == WWait && x'.pc == WTest && x'.event == x.event
  }

  /** The worker is through with a task. */
  predicate Handles(x: Worker, x': Worker) {
    x.pc == WHandle && x'.pc == WTest
  }

  /** How many waits of the worker have run out since it last handled a task, or since it was made. */
  function Idle(run: seq<Pool>, n: nat, w: nat): nat
    requires n < |run|
  {
    if n == 0 || w >= |run[n - 1].workers| || w >= |run[n].workers| then 0
    else if Handles(run[n - 1].workers[w], run[n].workers[w]) then 0
    else Idle(run, n - 1, w) + if TimesOut(run[n - 1].workers[w], run[n].workers[w]) then 1 else 0
  }

  lemma RepeatsStep(s: Pool, act: Action, w: nat)
    requires Inv(s) && Enabled(s, act) && w < |s.workers|
    ensures w < |Step(s, act).workers|
    ensures var x, x' := s.workers[w], Step(s, act).workers[w];
      x'.repeats == if Handles(x, x') then 12 else x.repeats - if TimesOut(x, x') then 1 else 0
  {
    assert WorkerOk(s.workers[w]);
  }

  lemma NewRepeats(s: Pool, act: Action, w: nat)
    requires Inv(s) && Enabled(s, act) && |s.workers| <= w < |Step(s, act).workers|
    ensures Step(s, act).workers[w].repeats == 12
  {
  }

  lemma RunRepeats(run: seq<Pool>, n: nat, w: nat)
    requires IsRun(run) && n + 1 < |run| && w < |run[n + 1].workers|
    ensures w >= |run[n].workers| ==> run[n + 1].workers[w].repeats == 12
    ensures w < |run[n].workers| ==>
      var x, x' := run[n].workers[w], run[n + 1].workers[w];
      x'.repeats == if Handles(x, x') then 12 else x.repeats - if TimesOut(x, x') then 1 else 0
  {
    RunInv(run, n);
    assert NextAt(run, n);
    var act :| Enabled(run[n], act) && run[n + 1] == Step(run[n], act);
    if w < |run[n].workers| {
      RepeatsStep(run[n], act, w);
    } else {
      NewRepeats(run[n], act, w);
    }
  }

  lemma {:induction false} RepeatsCount(run: seq<Pool>, n: nat, w: nat)
    requires IsRun(run) && n < |run| && w < |run[n].workers|
    ensures run[n].workers[w].repeats == 12 - Idle(run, n, w)
  {
    if n > 0 {
      RunRepeats(run, n - 1, w);
      if w < |run[n - 1].workers| {
        RepeatsCount(run, n - 1, w);
      }
    }
  }

  /** In every run, a worker has decided to retire exactly if twelve waits of its own have run out since it last
    handled a task or was made. */
  lemma RetiresAfterTwelve(run: seq<Pool>, n: nat, w: nat)
    requires IsRun(run) && n < |run| && w < |run[n].workers|
    ensures Idle(run, n, w) <= 12
    ensures run[n].workers[w].exit <==> Idle(run, n, w) == 12
  {
    RunInv(run, n);
    RepeatsCount(run, n, w);
    assert WorkerOk(run[n].workers[w]);
  }

  /** In every run, a worker goes to sleep in its wait only if its event is not set; if it is set when the wait
    begins, the wait succeeds at once and the worker goes on to its next pop. */
  lemma WaitsOnlyUnsignalled(run: seq<Pool>, n: nat, w: nat)
    requires IsRun(run) && n + 1 < |run| && w < |run[n].workers| && w < |run[n + 1].workers|
    requires run[n].workers[w].pc == WEnter && run[n + 1].workers[w].pc != WEnter
    ensures var x, x' := run[n].workers[w], run[n + 1].workers[w];
      if x.event then WillPop(x') && !x'.event && x'.repeats == x.repeats else x'.pc == WWait
  {
    RunInv(run, n);
    assert NextAt(run, n);
    assert WorkerOk(run[n].workers[w]);
  }
}
