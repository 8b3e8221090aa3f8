/** The invariants of the event library hold in every state of every run. */
module WaitRuns {
  import opened WaitModel
  import opened WaitLocks
  import opened WaitQueues
  import opened WaitCounts
  import opened WaitModes
  import opened WaitSignals
  import opened WaitWakeups
  import opened WaitFifo
  import opened WaitExpiry

  ghost predicate Inv(c: Config, s: State) {
    Modes(c, s) && SignalRules(c, s) && Wakeups(c, s) && Fifo(c, s) && Expiry(c, s)
  }

  lemma StepInv(c: Config, s: State, a: nat, ch: Choice)
    requires Inv(c, s) && a < |c.ops| && CanStep(c, s, a, ch)
    ensures Inv(c, Step(c, s, a, ch))
  {
    StepModes(c, s, a, ch);
    StepSignals(c, s, a, ch);
    RaisesManual(c, s, a);
    StepWakeups(c, s, a, ch);
    StepFifo(c, s, a, ch);
    StepExpiry(c, s, a, ch);
  }

  lemma RaisesManual(c: Config, s: State, a: nat)
    requires SignalRules(c, s) && a < |c.ops|
    ensures s.threads[a].Setter? && s.threads[a].p == SRaise ==> !ViewOf(c, s, a).auto
  {
    assert KindOk(c, s, a);
  }

  lemma ResetInv(c: Config, s: State, e: nat)
    requires Inv(c, s) && e < |s.events|
    ensures Inv(c, Reset(s, e))
  {
    ResetModes(c, s, e);
    ResetSignals(c, s, e);
    ResetWakeups(c, s, e);
    ResetFifo(c, s, e);
    ResetExpiry(c, s, e);
  }

  lemma InitInv(c: Config, s: State)
    requires c.Valid() && Init(c, s)
    ensures Inv(c, s)
  {
    InitModes(c, s);
    InitSignals(c, s);
    InitWakeups(c, s);
    InitFifo(c, s);
    InitExpiry(c, s);
  }

  lemma NextInv(c: Config, s: State, s': State)
    requires Inv(c, s) && Next(c, s, s')
    ensures Inv(c, s')
  {
    if a: nat, ch: Choice :| a < |c.ops| && CanStep(c, s, a, ch) && s' == Step(c, s, a, ch) {
      StepInv(c, s, a, ch);
    } else {
      var e: nat :| e < |s.events| && s' == Reset(s, e);
      ResetInv(c, s, e);
    }
  }

  lemma {:induction false} RunInv(c: Config, run: seq<State>, n: nat)
    requires IsRun(c, run) && n < |run|
    ensures Inv(c, run[n])
  {
    if n == 0 {
      InitInv(c, run[0]);
    } else {
      RunInv(c, run, n - 1);
      assert NextAt(c, run, n - 1);
      NextInv(c, run[n - 1], run[n]);
    }
  }
}
