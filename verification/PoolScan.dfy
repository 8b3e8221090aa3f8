/** What one scan of the dispatcher does: whom it wakes, when it makes a worker, and whom it erases. */
module PoolScan {
  import opened Options
  import opened Sequences
  import opened PoolModel
  import opened PoolTheorems

  /** Between these two states, the dispatcher reads the status of worker v. */
  predicate Reads(s: Pool, s': Pool, v: nat) {
    && s.dispatcher.DScan? && s.dispatcher.cursor < |s.list| && s.list[s.dispatcher.cursor] == v && v < |s.workers|
    && (s'.dispatcher != s.dispatcher || s'.list != s.list)
  }

  predicate ReadsStatus(s: Pool, s': Pool, v: nat, status: Status) {
    Reads(s, s', v) && s.workers[v].status == status
  }

  // ---------------------------------------------------------------- one step

  lemma ReadStep(s: Pool, act: Action)
    requires Inv(s) && Enabled(s, act) && s.dispatcher.DScan? && s.dispatcher.cursor < |s.list|
    ensures var s', v := Step(s, act), s.list[s.dispatcher.cursor];
      if act.Dispatch? then
        && Reads(s, s', v) && s'.workers == s.workers && s'.dispatcher.DScan?
        && match s.workers[v].status
           case TS_WAIT => s'.dispatcher == DScan(s.dispatcher.cursor + 1, Some(v)) && s'.list == s.list
           case TS_RUNNING => s'.dispatcher == s.dispatcher.(cursor := s.dispatcher.cursor + 1) && s'.list == s.list
           case TS_EXIT => s'.dispatcher == s.dispatcher && s'.list == RemoveAt(s.list, s.dispatcher.cursor)
      else s'.dispatcher == s.dispatcher && s'.list == s.list && |s'.workers| == |s.workers|
  {
    if act.Dispatch? && s.workers[s.list[s.dispatcher.cursor]].status == TS_EXIT {
      assert |Step(s, act).list| == |s.list| - 1;
    }
  }

  /** A worker leaves the pool's list exactly when the dispatcher reads that it has exited; nobody else moves. */
  lemma ErasedIffExited(run: seq<Pool>, n: nat, v: nat)
    requires IsRun(run) && n + 1 < |run|
    ensures ReadsStatus(run[n], run[n + 1], v, TS_EXIT) <==> v in run[n].list && v !in run[n + 1].list
    ensures v in run[n + 1].list && v !in run[n].list ==>
      v == |run[n].workers| && |run[n + 1].workers| == |run[n].workers| + 1
  {
    RunInv(run, n);
    assert NextAt(run, n);
    var act :| Enabled(run[n], act) && run[n + 1] == Step(run[n], act);
    ErasingStep(run[n], act, v);
  }

  lemma ErasingStep(s: Pool, act: Action, v: nat)
    requires Inv(s) && Enabled(s, act)
    ensures ReadsStatus(s, Step(s, act), v, TS_EXIT) <==> v in s.list && v !in Step(s, act).list
    ensures v in Step(s, act).list && v !in s.list ==>
      v == |s.workers| && |Step(s, act).workers| == |s.workers| + 1
  {
    if s.dispatcher.DScan? && s.dispatcher.cursor < |s.list| {
      ReadStep(s, act);
      RemoveKeepsDistinct(s.list, s.dispatcher.cursor);
    }
  }

  // ---------------------------------------------------------------- one scan

  /** From the state after m to n, the dispatcher is in one scan. */
  ghost predicate ScanFrom(run: seq<Pool>, m: nat, n: nat) {
    && m < n < |run| && run[m].dispatcher == DWait
    && forall k :: m < k <= n ==> run[k].dispatcher.DScan?
  }

  /** At step k, the dispatcher reads worker v. */
  predicate ReadAt(run: seq<Pool>, k: nat, v: nat) {
    k + 1 < |run| && Reads(run[k], run[k + 1], v)
  }

  /** At step k, it reads worker v and finds it waiting. */
  predicate WaitingAt(run: seq<Pool>, k: nat, v: nat) {
    k + 1 < |run| && ReadsStatus(run[k], run[k + 1], v, TS_WAIT)
  }

  /** Between m and n, the last worker found waiting is w, at step k. */
  ghost predicate LastWaiting(run: seq<Pool>, m: nat, n: nat, k: nat, w: nat) {
    m < k < n && WaitingAt(run, k, w) && forall k', v :: k < k' < n ==> !WaitingAt(run, k', v)
  }

  ghost predicate WasRead(run: seq<Pool>, m: nat, n: nat, v: nat) {
    exists k :: m < k < n && ReadAt(run, k, v)
  }

  ghost predicate ScanSays(run: seq<Pool>, m: nat, n: nat) {
    && ScanFrom(run, m, n) && run[n].dispatcher.cursor <= |run[n].list|
    && match run[n].dispatcher.found
       case Some(w) => exists k :: LastWaiting(run, m, n, k, w)
       case None => forall k, v :: m < k < n ==> !WaitingAt(run, k, v)
  }

  ghost predicate ReadSoFar(run: seq<Pool>, m: nat, n: nat)
    requires n < |run| && run[n].dispatcher.DScan?
  {
    forall i :: 0 <= i < run[n].dispatcher.cursor && i < |run[n].list| ==> WasRead(run, m, n, run[n].list[i])
  }

  lemma ScanStarts(run: seq<Pool>, n: nat)
    requires IsRun(run) && n + 1 < |run| && run[n + 1].dispatcher.DScan? && !run[n].dispatcher.DScan?
    ensures ScanSays(run, n, n + 1) && ReadSoFar(run, n, n + 1)
  {
    assert NextAt(run, n);
  }

  lemma ScanGoesOn(run: seq<Pool>, m: nat, n: nat)
    requires IsRun(run) && n + 1 < |run| && run[n + 1].dispatcher.DScan? && ScanSays(run, m, n)
    ensures ScanSays(run, m, n + 1)
  {
    RunFound(run, n);
    var v := if run[n].dispatcher.cursor < |run[n].list| then run[n].list[run[n].dispatcher.cursor] else 0;
    if WaitingAt(run, n, v) {
      assert LastWaiting(run, m, n + 1, n, v);
    } else {
      forall u ensures !WaitingAt(run, n, u) {
      }
      if run[n].dispatcher.found.Some? {
        var w := run[n].dispatcher.found.value;
        var k :| LastWaiting(run, m, n, k, w);
        assert LastWaiting(run, m, n + 1, k, w);
      }
    }
  }

  lemma RunFound(run: seq<Pool>, n: nat)
    requires IsRun(run) && n + 1 < |run| && run[n].dispatcher.DScan? && run[n + 1].dispatcher.DScan?
    ensures run[n + 1].dispatcher.cursor <= |run[n + 1].list|
    ensures run[n + 1].dispatcher.found ==
      if run[n].dispatcher.cursor < |run[n].list| && WaitingAt(run, n, run[n].list[run[n].dispatcher.cursor])
      then Some(run[n].list[run[n].dispatcher.cursor]) else run[n].dispatcher.found
  {
    RunInv(run, n);
    assert NextAt(run, n);
    var act :| Enabled(run[n], act) && run[n + 1] == Step(run[n], act);
    FoundAfter(run[n], act);
  }

  /** What the dispatcher has found after a step of a scan that goes on. */
  lemma FoundAfter(s: Pool, act: Action)
    requires Inv(s) && Enabled(s, act) && s.dispatcher.DScan? && Step(s, act).dispatcher.DScan?
    ensures var s' := Step(s, act);
      && s'.dispatcher.cursor <= |s'.list|
      && s'.dispatcher.found ==
           if s.dispatcher.cursor < |s.list| && ReadsStatus(s, s', s.list[s.dispatcher.cursor], TS_WAIT)
           then Some(s.list[s.dispatcher.cursor]) else s.dispatcher.found
  {
    if s.dispatcher.cursor < |s.list| {
      ReadStep(s, act);
    }
  }

  lemma ReadGoesOn(run: seq<Pool>, m: nat, n: nat)
    requires IsRun(run) && n + 1 < |run| && run[n + 1].dispatcher.DScan? && ScanFrom(run, m, n) && ReadSoFar(run, m, n)
    ensures ReadSoFar(run, m, n + 1)
  {
    RunInv(run, n);
    assert NextAt(run, n);
    var act :| Enabled(run[n], act) && run[n + 1] == Step(run[n], act);
    var s, s' := run[n], run[n + 1];
    forall i | 0 <= i < s'.dispatcher.cursor && i < |s'.list| ensures WasRead(run, m, n + 1, s'.list[i]) {
      CursorMoves(s, act, i);
      if i < s.dispatcher.cursor {
        var k :| m < k < n && ReadAt(run, k, s.list[i]);
      } else {
        assert ReadAt(run, n, s'.list[i]);
      }
    }
  }

  /** What lies behind the cursor was there before, or has just been read. */
  lemma CursorMoves(s: Pool, act: Action, i: nat)
    requires Inv(s) && Enabled(s, act) && s.dispatcher.DScan? && Step(s, act).dispatcher.DScan?
    requires i < Step(s, act).dispatcher.cursor && i < |Step(s, act).list|
    ensures i < |s.list| && Step(s, act).list[i] == s.list[i]
    ensures i >= s.dispatcher.cursor ==> Reads(s, Step(s, act), s.list[i])
  {
    if s.dispatcher.cursor < |s.list| {
      ReadStep(s, act);
    }
  }

  lemma {:induction false} ScanHistory(run: seq<Pool>, n: nat) returns (m: nat)
    requires IsRun(run) && n < |run| && run[n].dispatcher.DScan?
    ensures ScanSays(run, m, n) && ReadSoFar(run, m, n)
  {
    if n == 0 {
      assert false;
    } else if run[n - 1].dispatcher.DScan? {
      m := ScanHistory(run, n - 1);
      ScanGoesOn(run, m, n - 1);
      ReadGoesOn(run, m, n - 1);
    } else {
      m := n - 1;
      ScanStarts(run, n - 1);
    }
  }

  // ---------------------------------------------------------------- whom a scan wakes

  /** Between m and n, the dispatcher finds some worker waiting. */
  ghost predicate SomeWaiting(run: seq<Pool>, m: nat, n: nat) {
    exists k, v :: m < k < n && WaitingAt(run, k, v)
  }

  /** Worker w is the last found waiting between m and n, and had no task in hand then. */
  ghost predicate LastIdle(run: seq<Pool>, m: nat, n: nat, w: nat) {
    exists k :: LastWaiting(run, m, n, k, w) && IdleAt(run, k, w)
  }

  predicate IdleAt(run: seq<Pool>, k: nat, w: nat) {
    k < |run| && w < |run[k].workers| && run[k].workers[w].task == None
  }

  /** When a scan ends with the choice of a worker, it has read every worker in the list. If it found any
    waiting, it chooses the last one it found so, which had no task in hand then; if it found none, it chooses a
    worker that it makes in this step. */
  lemma ScanChooses(run: seq<Pool>, n: nat, w: nat) returns (m: nat)
    requires IsRun(run) && n + 1 < |run| && run[n].dispatcher.DScan? && run[n + 1].dispatcher == DWake(w)
    ensures ScanFrom(run, m, n)
    ensures forall v :: v in run[n].list ==> WasRead(run, m, n, v)
    ensures SomeWaiting(run, m, n) ==>
      LastIdle(run, m, n, w) && run[n + 1].workers == run[n].workers && run[n + 1].list == run[n].list
    ensures !SomeWaiting(run, m, n) ==>
      && w == |run[n].workers| && run[n + 1].workers == run[n].workers + [NewWorker()]
      && run[n + 1].list == run[n].list + [w]
  {
    m := ScanHistory(run, n);
    RunChoice(run, n, w);
    if run[n].dispatcher.found.Some? {
      var k :| LastWaiting(run, m, n, k, w);
      WaitingIsIdle(run, k, w);
      assert WaitingAt(run, k, w);
    }
  }

  lemma WaitingIsIdle(run: seq<Pool>, k: nat, w: nat)
    requires IsRun(run) && WaitingAt(run, k, w)
    ensures IdleAt(run, k, w)
  {
    RunInv(run, k);
    assert WorkerOk(run[k].workers[w]);
  }

  lemma RunChoice(run: seq<Pool>, n: nat, w: nat)
    requires IsRun(run) && n + 1 < |run| && run[n].dispatcher.DScan? && run[n + 1].dispatcher == DWake(w)
    ensures run[n].dispatcher.cursor >= |run[n].list|
    ensures match run[n].dispatcher.found
            case Some(v) => w == v && run[n + 1].workers == run[n].workers && run[n + 1].list == run[n].list
            case None =>
              && w == |run[n].workers| && run[n + 1].workers == run[n].workers + [NewWorker()]
              && run[n + 1].list == run[n].list + [w]
  {
    RunInv(run, n);
    assert NextAt(run, n);
    var act :| Enabled(run[n], act) && run[n + 1] == Step(run[n], act);
    ChoiceStep(run[n], act);
  }

  lemma ChoiceStep(s: Pool, act: Action)
    requires Inv(s) && Enabled(s, act) && s.dispatcher.DScan? && Step(s, act).dispatcher.DWake?
    ensures s.dispatcher.cursor >= |s.list|
    ensures var s', w := Step(s, act), Step(s, act).dispatcher.chosen;
      match s.dispatcher.found
      case Some(v) => w == v && s'.workers == s.workers && s'.list == s.list
      case None => w == |s.workers| && s'.workers == s.workers + [NewWorker()] && s'.list == s.list + [w]
  {
    if s.dispatcher.cursor < |s.list| {
      ReadStep(s, act);
    }
  }
}
