/**
 The count of open handles of an inode: opened and closed concurrently, and a release request sent to the
 client when the last handle of a regular file closes.

 An open increments the count and opens the lower file under the inode's mutex. A close decrements the count
 without the mutex unless it is 1; then it takes the mutex, decrements, and tests for 0.
*/
module Handles {

  const EINVAL: int := 22

  /** atomic_add_unless(count, -1, 1) succeeds. */
  predicate DropsUnlocked(count: int) {
    count != 1
  }

  // ---------------------------------------------------------------- one call, undisturbed

  function CountAfterOpen(count: int, ok: bool): int {
    if ok || count < 0 then count + 1 else 0
  }

  class InodeInfo {
    var lowerFileCount: int

    constructor ()
      ensures lowerFileCount == 0
    {
      lowerFileCount := 0;
    }

    /** `error` is what dentry_open returns, 0 on success; the client's own opens are not counted. */
    method GetLowerFile(byClient: bool, error: int) returns (rc: int)
      requires error <= 0
      modifies this
      ensures byClient ==> rc == error && lowerFileCount == old(lowerFileCount)
      ensures !byClient ==>
        && rc == (if old(lowerFileCount) < 0 then -EINVAL else error)
        && lowerFileCount == CountAfterOpen(old(lowerFileCount), error == 0)
    {
      rc := error;
      if !byClient {
        lowerFileCount := lowerFileCount + 1;
        if lowerFileCount < 1 {
          rc := -EINVAL;
        } else if error != 0 {
          lowerFileCount := 0;
        }
      }
    }

    /** Returns whether the release request is sent. */
    method PutLowerFile(byClient: bool, regular: bool) returns (requested: bool)
      modifies this
      ensures lowerFileCount == old(lowerFileCount) - if byClient then 0 else 1
      ensures requested <==> !byClient && regular && lowerFileCount == 0
    {
      requested := false;
      if !byClient {
        if DropsUnlocked(lowerFileCount) {
          lowerFileCount := lowerFileCount - 1;
        } else {
          lowerFileCount := lowerFileCount - 1;
          if lowerFileCount == 0 {
            requested := regular;
          }
        }
      }
    }
  }

  // ---------------------------------------------------------------- opens and closes that overlap

  /** One regular file, used by callers other than the client. */
  datatype State = State(
    count: int,
    opening: bool,     // an open holds the mutex, its lower file not yet open
    handles: nat,      // open handles
    closing: nat,      // handles being closed that found the count at 1 and want the mutex
    // history
    crowded: bool,     // the open in progress began while other handles were open
    unreleased: nat)   // handles opened since the last release request

  datatype Event =
    | Begin          // an open takes the mutex and increments
    | Finish(ok: bool)
    | Drop           // a close decrements without the mutex
    | Want           // a close finds the count at 1
    | Last           // such a close gets the mutex, decrements and tests

  const START := State(0, false, 0, 0, false, 0)

  predicate CanStep(s: State, e: Event) {
    match e
    case Begin => !s.opening
    case Finish(_) => s.opening
    case Drop => s.handles > 0 && DropsUnlocked(s.count)
    case Want => s.handles > 0 && !DropsUnlocked(s.count)
    case Last => s.closing > 0 && !s.opening
  }

  function Step(s: State, e: Event): State
    requires CanStep(s, e)
  {
    match e
    case Begin =>
      if s.count + 1 < 1 then s.(count := s.count + 1)
      else s.(count := s.count + 1, opening := true, crowded := s.handles + s.closing > 0)
    case Finish(ok) =>
      if ok then s.(opening := false, handles := s.handles + 1, unreleased := s.unreleased + 1)
      else s.(opening := false, count := 0)
    case Drop => s.(count := s.count - 1, handles := s.handles - 1)
    case Want => s.(handles := s.handles - 1, closing := s.closing + 1)
    case Last =>
      s.(count := s.count - 1, closing := s.closing - 1, unreleased := if s.count == 1 then 0 else s.unreleased)
  }

  /** A close that sends the release request. */
  predicate Requests(s: State, e: Event) {
    e == Last && s.count == 1
  }

  /** Undisturbed, the steps of a call do to the count what the call does. */
  lemma CallsAreSteps(s: State, ok: bool)
    requires !s.opening
    ensures
      var s' := Step(s, Begin);
      var s'' := if s'.opening then Step(s', Finish(ok)) else s';
      s''.count == CountAfterOpen(s.count, ok)
    ensures s.handles > 0 && DropsUnlocked(s.count) ==> Step(s, Drop).count == s.count - 1
    ensures s.handles > 0 && !DropsUnlocked(s.count) ==>
      Requests(Step(s, Want), Last) && Step(Step(s, Want), Last).count == 0
  {
  }

  ghost predicate IsRun(run: seq<State>, events: seq<Event>) {
    |run| == |events| + 1 && run[0] == START &&
    forall i :: 0 <= i < |events| ==> CanStep(run[i], events[i]) && run[i + 1] == Step(run[i], events[i])
  }

  /** The count is the number of handles open, being closed or being opened. */
  predicate Exact(s: State) {
    s.count == s.handles + s.closing + if s.opening then 1 else 0
  }

  /** Once nobody has or opens the file, every handle has been followed by a release request. */
  predicate Released(s: State) {
    !s.opening && s.handles == 0 && s.closing == 0 ==> s.unreleased == 0
  }

  /** A lower open fails although other handles were open when it began. */
  predicate CrowdedFailure(s: State, e: Event) {
    e == Finish(false) && s.opening && s.crowded
  }

  ghost predicate Inv(s: State) {
    && Exact(s) && Released(s)
    && (s.opening && !s.crowded ==> s.handles == 0 && s.closing == 0 && s.unreleased == 0)
    && (s.opening && s.crowded ==> s.unreleased > 0)
    && (s.handles + s.closing > 0 ==> s.unreleased > 0)
  }

  lemma StepInv(s: State, e: Event)
    requires Inv(s) && CanStep(s, e)
    ensures Inv(Step(s, e)) <==> !CrowdedFailure(s, e)
    ensures CrowdedFailure(s, e) ==> !(Exact(Step(s, e)) && Released(Step(s, e)))
  {
  }

  /** Throughout a run the count is exact and no release request is owed, if and only if no lower open failed
    that began while other handles were open. */
  lemma {:induction false} CountExactIff(run: seq<State>, events: seq<Event>)
    requires IsRun(run, events)
    ensures (forall n :: 0 <= n < |run| ==> Exact(run[n]) && Released(run[n])) <==>
            (forall n :: 0 <= n < |events| ==> !CrowdedFailure(run[n], events[n]))
  {
    if forall n :: 0 <= n < |events| ==> !CrowdedFailure(run[n], events[n]) {
      forall n | 0 <= n < |run| ensures Exact(run[n]) && Released(run[n]) {
        InvUpTo(run, events, n);
      }
    } else {
      var n :| 0 <= n < |events| && CrowdedFailure(run[n], events[n]);
      var m := FirstFailure(run, events, n);
      InvUpTo(run, events, m);
      StepInv(run[m], events[m]);
      assert !(Exact(run[m + 1]) && Released(run[m + 1]));
    }
  }

  lemma {:induction false} InvUpTo(run: seq<State>, events: seq<Event>, n: nat)
    requires IsRun(run, events) && n < |run|
    requires forall i :: 0 <= i < n ==> !CrowdedFailure(run[i], events[i])
    ensures Inv(run[n])
  {
    if n > 0 {
      InvUpTo(run, events, n - 1);
      StepInv(run[n - 1], events[n - 1]);
    }
  }

  lemma {:induction false} FirstFailure(run: seq<State>, events: seq<Event>, n: nat) returns (m: nat)
    requires IsRun(run, events) && n < |events| && CrowdedFailure(run[n], events[n])
    ensures m <= n && CrowdedFailure(run[m], events[m])
    ensures forall i :: 0 <= i < m ==> !CrowdedFailure(run[i], events[i])
  {
    if i :| 0 <= i < n && CrowdedFailure(run[i], events[i]) {
      m := FirstFailure(run, events, i);
    } else {
      m := n;
    }
  }

  /** In such a run a release request is sent by a close exactly when it leaves no handle open, closing or
    opening. */
  lemma RequestOnLastClose(run: seq<State>, events: seq<Event>, n: nat)
    requires IsRun(run, events) && n < |events| && events[n] in {Drop, Want, Last}
    requires forall i :: 0 <= i < n ==> !CrowdedFailure(run[i], events[i])
    ensures Requests(run[n], events[n]) <==>
      run[n + 1].handles == 0 && run[n + 1].closing == 0 && !run[n + 1].opening
  {
    InvUpTo(run, events, n);
  }

  /** A failed open that overlaps the last close leaves the client without its release request, for good. */
  lemma ReleaseLost() returns (run: seq<State>, events: seq<Event>)
    ensures IsRun(run, events) && run[|run| - 1] == START.(unreleased := 1, crowded := true)
  {
    events := [Begin, Finish(true), Begin, Drop, Finish(false)];
    var s1 := State(1, true, 0, 0, false, 0);
    var s2 := State(1, false, 1, 0, false, 1);
    var s3 := State(2, true, 1, 0, true, 1);
    var s4 := State(1, true, 0, 0, true, 1);
    run := [START, s1, s2, s3, s4, START.(unreleased := 1, crowded := true)];
  }

  /** After a failed open, the handle that stays open takes the count below 0 when it closes, and the next
    open is refused. */
  lemma NextOpenRefused() returns (run: seq<State>, events: seq<Event>)
    ensures IsRun(run, events) && |events| > 0 && events[|events| - 1] == Begin
    ensures !run[|run| - 1].opening && run[|run| - 1].handles == 0
  {
    events := [Begin, Finish(true), Begin, Finish(false), Drop, Begin];
    var s1 := State(1, true, 0, 0, false, 0);
    var s2 := State(1, false, 1, 0, false, 1);
    var s3 := State(2, true, 1, 0, true, 1);
    var s4 := State(0, false, 1, 0, true, 1);
    var s5 := State(-1, false, 0, 0, true, 1);
    run := [START, s1, s2, s3, s4, s5, s5.(count := 0)];
  }
}
