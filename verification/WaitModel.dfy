/**
 The POSIX event library as a transition system.

 Every call into the library is a thread of its own: a caller that makes several calls in turn is
 one of the interleavings of those threads, since no lock is held between two calls. A step of a
 thread is one lock, unlock, atomic load or store, condition wait or wake-up, together with the
 code up to the next one that only touches locals or data protected by a mutex the thread holds.

 The records also carry history variables (marked as such) that no step reads.
*/
module WaitModel {
  import opened Options
  import opened Sequences

  datatype Timeout = Zero | Finite | Infinite

  datatype Result = Success | TimedOut

  /** One call into the library. Purge is the part of DestroyEvent that touches waiters. */
  datatype Op =
    | WaitMany(events: seq<nat>, all: bool, timeout: Timeout)
    | WaitOne(event: nat, timeout: Timeout)
    | Set(event: nat)
    | Purge(event: nat)

  /** What never changes: the kind and initial state of every event, and the calls. */
  datatype Config = Config(auto: seq<bool>, signalled: seq<bool>, ops: seq<Op>) {
    predicate Valid() {
      && |auto| == |signalled|
      && forall a :: 0 <= a < |ops| ==> ValidOp(ops[a])
    }

    predicate ValidOp(op: Op) {
      match op
      case WaitMany(events, _, _) => forall i :: 0 <= i < |events| ==> events[i] < |auto|
      case WaitOne(e, _) => e < |auto|
      case Set(e) => e < |auto|
      case Purge(e) => e < |auto|
    }
  }

  predicate IsAuto(c: Config, e: nat) {
    e < |c.auto| && c.auto[e]
  }

  /** An entry of an event's deque: which waiter, and the position in its list of events. */
  datatype Registration = Registration(waiter: nat, index: nat)

  /** History of one position of a WaitMany call.
    Satisfied: found signalled while registering. Queued: its entry waits in a deque.
    Firing: a setter has notified it but still holds its reference. Fired: reference dropped.
    Expired: reference dropped without a notification. */
  datatype Mark = Unvisited | Satisfied | Queued | Firing | Fired | Expired

  /** An event. The deque of the code is `swept + queue`: `swept` is empty except inside the loop of
    a manual-reset SetEvent, which walks the deque and clears it only at the end. */
  datatype Event = Event(
    owner: Option<nat>,
    state: bool,
    swept: seq<Registration>,
    queue: seq<Registration>,
    // history
    sets: nat,      // SetEvent calls on an auto-reset event that took effect
    taken: nat,     // signals consumed by a wait
    handed: nat,    // signals handed to a queued waiter
    absorbed: nat,  // sets that found the event signalled
    resets: nat,    // ResetEvent calls
    hope: nat)      // the thread expected to act on the pending signal

  /** The heap object shared by a WaitMany call and the deques it is queued on. `status` is the
    union of the code: EventsLeft when waiting for all, FiredEvent otherwise. */
  datatype Waiter = Waiter(
    owner: Option<nat>,
    refCount: int,
    status: int,
    stillWaiting: bool,
    // history
    deletes: nat,      // how often the object was destroyed
    marks: seq<Mark>,
    hits: seq<nat>,    // per position: times it was satisfied or fired
    taken: seq<nat>,   // positions at which an auto-reset signal was consumed, in order
    firer: nat)        // the last setter that fired it

  /** Program counters, one enumeration for each kind of call. */
  datatype ManyPc =
    | MLockSelf | MPeek | MPeekAgain | MLockEvent | MScan | MDropExpired | MTest | MConsume
    | MUnlockTaken | MTaken | MUnlockQueued | MCheck | MSleep | MRelock | MFinish | MUnlockSelf
    | MRelease | MDone

  datatype OnePc =
    | OPeek | OFast | OFastAgain | OLock | OTest | OConsume | OUnlock | OSleep | ORelock | ODone

  datatype SetPc =
    | SLock | SRaise | SHead | SDropExpired | SLockWaiter | SRecheck | SFire | SUnlockExpired
    | SUnlockFired | SSignal | SDropFired | SUnlockHanded | SUnlock | SNotify | SDone

  datatype PurgePc = PLock | PScan | PDropExpired | PUnlock | PDone

  /** The locals of a call. */
  datatype Thread =
    | Many(
        m: ManyPc,
        i: nat,          // positions dealt with so far
        k: nat,          // cursor of the expired-wait purge
        skipped: nat,
        result: Result,
        index: int,      // the reported wait index
        woken: bool)     // asleep, and already signalled
    | One(o: OnePc, outcome: Result, notified: bool)
    | Setter(
        p: SetPc,
        // history
        seen: seq<Registration>,     // the deque when the event was locked
        gone: nat,                   // how many of those were dropped as expired
        handedTo: Option<Registration>)
    | Purger(u: PurgePc, cursor: nat)

  datatype State = State(events: seq<Event>, waiters: seq<Waiter>, threads: seq<Thread>)

  /** What the environment decides in a step: whether a wait times out, and which sleeper a signal
    on an event's condition variable wakes. */
  datatype Choice = Choice(timedOut: bool, pick: nat)

  // ---------------------------------------------------------------- what a program counter means

  predicate Finished(t: Thread) {
    match t
    case Many(m, _, _, _, _, _, _) => m == MDone
    case One(o, _, _) => o == ODone
    case Setter(p, _, _, _) => p == SDone
    case Purger(u, _) => u == PDone
  }

  /** The thread holds the mutex of its current event. */
  predicate HoldsEvent(t: Thread) {
    match t
    case Many(m, _, _, _, _, _, _) =>
      m == MScan || m == MDropExpired || m == MTest || m == MConsume || m == MUnlockTaken || m == MUnlockQueued
    case One(o, _, _) => o == OTest || o == OConsume || o == OUnlock
    case Setter(p, _, _, _) => p != SLock && p != SNotify && p != SDone
    case Purger(u, _) => u != PLock && u != PDone
  }

  /** The thread is a WaitMany call that holds the mutex of its own waiter. */
  predicate HoldsSelf(t: Thread) {
    t.Many? && t.m != MLockSelf && t.m != MSleep && t.m != MRelock && t.m != MRelease && t.m != MDone
  }

  /** The thread is a setter that holds the mutex of the waiter at the head of the deque. */
  predicate HoldsTarget(t: Thread) {
    t.Setter? && (t.p == SRecheck || t.p == SFire || t.p == SUnlockExpired || t.p == SUnlockFired)
  }

  /** The thread is a setter working on the waiter at the head of the deque. */
  predicate HasTarget(t: Thread) {
    t.Setter? && (HoldsTarget(t) || t.p == SDropExpired || t.p == SLockWaiter || t.p == SSignal || t.p == SDropFired)
  }

  /** The setter has notified the head of the deque and not yet dropped its reference. */
  predicate IsFiring(t: Thread) {
    t.Setter? && (t.p == SUnlockFired || t.p == SSignal || t.p == SDropFired)
  }

  /** Inside the registration loop of a WaitMany call, working on position `i`. */
  predicate AtPosition(t: Thread) {
    t.Many? && (t.m == MPeek || t.m == MPeekAgain || t.m == MLockEvent || t.m == MScan || t.m == MDropExpired
                || t.m == MTest || t.m == MConsume || t.m == MUnlockTaken || t.m == MTaken)
  }

  // ---------------------------------------------------------------- initial states

  function InitialEvent(signalled: bool): Event {
    Event(None, signalled, [], [], 0, 0, 0, 0, 0, 0)
  }

  function InitialWaiter(op: Op): Waiter {
    var n := if op.WaitMany? then |op.events| else 0;
    Waiter(None, 1 + n, if op.WaitMany? && op.all then n else -1, true, 0,
           seq(n, i => Unvisited), seq(n, i => 0), [], 0)
  }

  function InitialThread(c: Config, op: Op): Thread {
    match op
    case WaitMany(_, _, _) => Many(MLockSelf, 0, 0, 0, Success, -1, false)
    case WaitOne(e, timeout) =>
      One(if timeout == Zero then OPeek else if IsAuto(c, e) then OLock else OFast, Success, false)
    case Set(_) => Setter(SLock, [], 0, None)
    case Purge(_) => Purger(PLock, 0)
  }

  ghost predicate Init(c: Config, s: State)
    requires c.Valid()
  {
    && |s.events| == |c.auto|
    && |s.waiters| == |s.threads| == |c.ops|
    && (forall e :: 0 <= e < |s.events| ==> s.events[e] == InitialEvent(c.signalled[e]))
    && (forall a :: 0 <= a < |c.ops| ==> s.waiters[a] == InitialWaiter(c.ops[a]))
    && (forall a :: 0 <= a < |c.ops| ==> s.threads[a] == InitialThread(c, c.ops[a]))
  }

  // ---------------------------------------------------------------- shape and lock ownership

  /** The event a thread is working on (0 for a WaitMany call outside its registration loop). */
  function EventOf(op: Op, t: Thread): nat {
    match op
    case WaitMany(events, _, _) =>
      if t.Many? then
        if t.m == MUnlockQueued then (if 0 < t.i <= |events| then events[t.i - 1] else 0)
        else if t.i < |events| then events[t.i] else 0
      else 0
    case WaitOne(e, _) => e
    case Set(e) => e
    case Purge(e) => e
  }

  ghost predicate GoodRegistration(c: Config, e: nat, r: Registration) {
    && r.waiter < |c.ops|
    && c.ops[r.waiter].WaitMany?
    && r.index < |c.ops[r.waiter].events|
    && c.ops[r.waiter].events[r.index] == e
  }

  ghost predicate GoodEvent(c: Config, s: State, e: nat)
    requires e < |s.events|
  {
    forall j :: 0 <= j < |s.events[e].queue| ==> GoodRegistration(c, e, s.events[e].queue[j])
  }

  ghost predicate GoodWaiter(c: Config, s: State, w: nat)
    requires w < |s.waiters| && w < |c.ops|
  {
    c.ops[w].WaitMany? ==>
      |s.waiters[w].marks| == |s.waiters[w].hits| == |c.ops[w].events|
  }

  /** The locals fit the call. */
  ghost predicate GoodLocals(op: Op, t: Thread) {
    match op
    case WaitMany(events, _, _) =>
      && t.Many?
      && t.i <= |events|
      && (AtPosition(t) ==> t.i < |events|)
      && (t.m == MUnlockQueued ==> 0 < t.i)
    case WaitOne(_, _) => t.One?
    case Set(_) => t.Setter?
    case Purge(_) => t.Purger?
  }

  /** The cursor of a purge is in range, and the setter's current entry exists. */
  ghost predicate GoodCursor(t: Thread, q: seq<Registration>) {
    match t
    case Many(m, _, k, _, _, _, _) =>
      (m == MScan ==> k <= |q|) && (m == MDropExpired ==> k < |q|)
    case One(_, _, _) => true
    case Setter(_, _, _, _) => HasTarget(t) ==> q != []
    case Purger(u, k) => (u == PScan ==> k <= |q|) && (u == PDropExpired ==> k < |q|)
  }

  ghost predicate GoodThread(c: Config, s: State, a: nat)
    requires a < |s.threads| && a < |c.ops|
  {
    var op, t := c.ops[a], s.threads[a];
    && GoodLocals(op, t)
    && (HoldsEvent(t) ==>
          EventOf(op, t) < |s.events| && GoodCursor(t, s.events[EventOf(op, t)].queue))
  }

  /** Lengths, ranges and locals in range: what the steps need to be defined. */
  ghost predicate Shape(c: Config, s: State) {
    && c.Valid()
    && |s.events| == |c.auto|
    && |s.waiters| == |s.threads| == |c.ops|
    && (forall e :: 0 <= e < |s.events| ==> GoodEvent(c, s, e))
    && (forall w :: 0 <= w < |s.waiters| ==> GoodWaiter(c, s, w))
    && (forall a :: 0 <= a < |s.threads| ==> GoodThread(c, s, a))
  }

  /** The registration names a position of an existing waiter. */
  ghost predicate HasMark(c: Config, s: State, r: Registration) {
    && r.waiter < |s.waiters| && r.waiter < |c.ops| && c.ops[r.waiter].WaitMany?
    && r.index < |s.waiters[r.waiter].marks| && r.index < |s.waiters[r.waiter].hits|
  }

  /** What a thread can see of the shared objects: the kind and contents of the event it works on,
    the entry of the deque it looks at with that entry's StillWaiting flag, and its own waiter. */
  datatype View = View(auto: bool, event: Event, entry: Registration, waiting: bool, own: Waiter)

  /** The position of the deque entry a thread looks at. */
  function CursorOf(t: Thread): nat {
    if t.Many? then t.k else if t.Purger? then t.cursor else 0
  }

  function ViewOf(c: Config, s: State, a: nat): View {
    var e := if a < |c.ops| && a < |s.threads| then EventOf(c.ops[a], s.threads[a]) else 0;
    var event := if e < |s.events| then s.events[e] else InitialEvent(false);
    var k := if a < |s.threads| then CursorOf(s.threads[a]) else 0;
    var entry := if k < |event.queue| then event.queue[k] else Registration(0, 0);
    View(IsAuto(c, e), event, entry,
         entry.waiter < |s.waiters| && s.waiters[entry.waiter].stillWaiting,
         if a < |s.waiters| then s.waiters[a] else InitialWaiter(Set(0)))
  }

  // ---------------------------------------------------------------- steps

  /** What a step does to the shared objects. */
  datatype Action =
    | Nothing                           // loads and local work
    | LockEvent(e: nat)
    | UnlockEvent(e: nat)
    | LockWaiter(w: nat)
    | UnlockWaiter(w: nat)
    | Enqueue(e: nat)                   // push_back of position i
    | DropExpired(e: nat, k: nat)       // purge: fetch_sub for the entry at k, entry removed
    | Consume(e: nat)                   // State.store(false) by a successful wait
    | Satisfy                           // position i counted as signalled
    | Stop                              // StillWaiting.store(false) by the waiting thread
    | Release(n: nat)                   // final fetch_sub(n)
    | Raise(e: nat)                     // State.store(true)
    | Clear(e: nat)                     // RegisteredWaits.clear()
    | Fire(e: nat)                      // notify the head of the deque
    | DropHead(e: nat, mark: Mark)      // setter: fetch_sub for the head, go to the next entry
    | Rouse(w: nat)                     // pthread_cond_signal on a waiter
    | NotifyOne(e: nat)                 // pthread_cond_signal on an event
    | NotifyAll(e: nat)                 // pthread_cond_broadcast on an event

  /** Top of the registration loop, and what follows the loop. */
  function NextPosition(c: Config, op: Op, t: Thread, status: int): Thread
    requires op.WaitMany? && t.Many?
  {
    if t.i < |op.events| then t.(m := if IsAuto(c, op.events[t.i]) then MLockEvent else MPeek)
    else if op.all && status == 0 then t.(m := MFinish, result := Success)
    else if op.timeout == Zero then t.(m := MFinish, result := TimedOut)
    else t.(m := MCheck)
  }

  /** The test that ends the wait loop. */
  predicate ConditionMet(all: bool, status: int) {
    if all then status == 0 else status != -1
  }

  /** The locals of a WaitForMultipleEvents call after its next step. */
  function NextMany(c: Config, op: Op, t: Thread, v: View, timedOut: bool): Thread
    requires op.WaitMany? && t.Many?
  {
    match t.m
    case MLockSelf => NextPosition(c, op, t, v.own.status)
    case MPeek => t.(m := if v.event.state then MPeekAgain else MLockEvent)
    case MPeekAgain => t.(m := if v.event.state then MTaken else MLockEvent)
    case MLockEvent => t.(m := MScan, k := 0)
    case MScan =>
      if t.k >= |v.event.queue| then t.(m := MTest)
      else if v.waiting then t.(k := t.k + 1) else t.(m := MDropExpired)
    case MDropExpired => t.(m := MScan)
    case MTest =>
      if !v.event.state then t.(m := MUnlockQueued, i := t.i + 1)
      else t.(m := if v.auto then MConsume else MUnlockTaken)
    case MConsume => t.(m := MUnlockTaken)
    case MUnlockTaken => t.(m := MTaken)
    case MTaken =>
      if op.all then
        NextPosition(c, op, t.(i := t.i + 1, skipped := t.skipped + 1), v.own.status - 1)
      else
        t.(i := t.i + 1, skipped := t.skipped + if t.i < |op.events| then |op.events| - t.i else 0,
           m := MFinish, result := Success)
    case MUnlockQueued => NextPosition(c, op, t, v.own.status)
    case MCheck =>
      if ConditionMet(op.all, v.own.status) then t.(m := MFinish, result := Success)
      else t.(m := MSleep, woken := false)
    case MSleep => t.(m := MRelock, result := if timedOut then TimedOut else Success)
    case MRelock => t.(m := if t.result == Success then MCheck else MFinish)
    case MFinish => t.(m := MUnlockSelf, index := v.own.status)
    case MUnlockSelf => t.(m := MRelease)
    case MRelease => t.(m := MDone)
    case MDone => t
  }

  function ActionMany(a: nat, op: Op, t: Thread, v: View): Action
    requires op.WaitMany? && t.Many?
  {
    var e := EventOf(op, t);
    match t.m
    case MLockSelf => LockWaiter(a)
    case MRelock => LockWaiter(a)
    case MLockEvent => LockEvent(e)
    case MDropExpired => DropExpired(e, t.k)
    case MTest => if v.event.state then Nothing else Enqueue(e)
    case MConsume => Consume(e)
    case MUnlockTaken => UnlockEvent(e)
    case MUnlockQueued => UnlockEvent(e)
    case MTaken => Satisfy
    case MCheck => if ConditionMet(op.all, v.own.status) then Nothing else UnlockWaiter(a)
    case MFinish => Stop
    case MUnlockSelf => UnlockWaiter(a)
    case MRelease => Release(1 + t.skipped)
    case _ => Nothing
  }

  /** The locals of a WaitForEvent call after its next step. */
  function NextOne(op: Op, t: Thread, v: View, timedOut: bool): Thread
    requires op.WaitOne? && t.One?
  {
    match t.o
    case OPeek =>
      if !v.event.state then t.(o := ODone, outcome := TimedOut)
      else t.(o := if v.auto then OLock else OFast)
    case OFast => t.(o := if v.event.state then OFastAgain else OLock)
    case OFastAgain => if v.event.state then t.(o := ODone, outcome := Success) else t.(o := OLock)
    case OLock => t.(o := OTest)
    case OTest =>
      if v.event.state then
        (if v.auto then t.(o := OConsume) else t.(o := OUnlock, outcome := Success))
      else if op.timeout == Zero then t.(o := OUnlock, outcome := TimedOut)
      else t.(o := OSleep, notified := false)
    case OConsume => t.(o := OUnlock, outcome := Success)
    case OSleep => t.(o := ORelock, outcome := if timedOut then TimedOut else Success)
    case ORelock => t.(o := if t.outcome == Success then OTest else OUnlock)
    case OUnlock => t.(o := ODone)
    case ODone => t
  }

  function ActionOne(op: Op, t: Thread, v: View): Action
    requires op.WaitOne? && t.One?
  {
    match t.o
    case OLock => LockEvent(op.event)
    case ORelock => LockEvent(op.event)
    case OTest => if v.event.state || op.timeout == Zero then Nothing else UnlockEvent(op.event)
    case OConsume => Consume(op.event)
    case OUnlock => UnlockEvent(op.event)
    case _ => Nothing
  }

  /** The locals of a SetEvent call after its next step. */
  function NextSet(t: Thread, v: View): Thread
    requires t.Setter?
  {
    match t.p
    case SLock => t.(p := if v.auto then SHead else SRaise, seen := v.event.queue)
    case SRaise => t.(p := SHead)
    case SHead =>
      if v.event.queue == [] then t.(p := SUnlock)
      else t.(p := if v.waiting then SLockWaiter else SDropExpired)
    case SDropExpired => t.(p := SHead, gone := t.gone + 1)
    case SLockWaiter => t.(p := if v.auto then SRecheck else SFire)
    case SRecheck => t.(p := if v.waiting then SFire else SUnlockExpired)
    case SUnlockExpired => t.(p := SDropExpired)
    case SFire => t.(p := SUnlockFired, handedTo := Some(v.entry))
    case SUnlockFired => t.(p := SSignal)
    case SSignal => t.(p := SDropFired)
    case SDropFired => t.(p := if v.auto then SUnlockHanded else SHead)
    case SUnlockHanded => t.(p := SDone)
    case SUnlock => t.(p := SNotify)
    case SNotify => t.(p := SDone)
    case SDone => t
  }

  function ActionSet(op: Op, t: Thread, v: View): Action
    requires op.Set? && t.Setter?
  {
    var e := op.event;
    match t.p
    case SLock => LockEvent(e)
    case SRaise => Raise(e)
    case SHead =>
      if v.event.queue != [] then Nothing else if v.auto then Raise(e) else Clear(e)
    case SDropExpired => DropHead(e, Expired)
    case SLockWaiter => LockWaiter(v.entry.waiter)
    case SUnlockExpired => UnlockWaiter(v.entry.waiter)
    case SUnlockFired => UnlockWaiter(v.entry.waiter)
    case SFire => Fire(e)
    case SSignal => Rouse(v.entry.waiter)
    case SDropFired => DropHead(e, Fired)
    case SUnlockHanded => UnlockEvent(e)
    case SUnlock => UnlockEvent(e)
    case SNotify => if v.auto then NotifyOne(e) else NotifyAll(e)
    case _ => Nothing
  }

  /** The locals of a DestroyEvent call after its next step. */
  function NextPurge(t: Thread, v: View): Thread
    requires t.Purger?
  {
    match t.u
    case PLock => t.(u := PScan, cursor := 0)
    case PScan =>
      if t.cursor >= |v.event.queue| then t.(u := PUnlock)
      else if v.waiting then t.(cursor := t.cursor + 1) else t.(u := PDropExpired)
    case PDropExpired => t.(u := PScan)
    case PUnlock => t.(u := PDone)
    case PDone => t
  }

  function ActionPurge(op: Op, t: Thread): Action
    requires op.Purge? && t.Purger?
  {
    match t.u
    case PLock => LockEvent(op.event)
    case PDropExpired => DropExpired(op.event, t.cursor)
    case PUnlock => UnlockEvent(op.event)
    case _ => Nothing
  }

  function NextThread(c: Config, op: Op, t: Thread, v: View, timedOut: bool): Thread
    requires GoodLocals(op, t)
  {
    match op
    case WaitMany(_, _, _) => NextMany(c, op, t, v, timedOut)
    case WaitOne(_, _) => NextOne(op, t, v, timedOut)
    case Set(_) => NextSet(t, v)
    case Purge(_) => NextPurge(t, v)
  }

  function ActionOf(a: nat, op: Op, t: Thread, v: View): Action
    requires GoodLocals(op, t)
  {
    match op
    case WaitMany(_, _, _) => ActionMany(a, op, t, v)
    case WaitOne(_, _) => ActionOne(op, t, v)
    case Set(_) => ActionSet(op, t, v)
    case Purge(_) => ActionPurge(op, t)
  }

  // ---------------------------------------------------------------- actions on shared objects

  function SetThread(s: State, a: nat, t: Thread): State
    requires a < |s.threads|
  {
    s.(threads := s.threads[a := t])
  }

  function SetEvent(s: State, e: nat, ev: Event): State
    requires e < |s.events|
  {
    s.(events := s.events[e := ev])
  }

  function SetWaiter(s: State, w: nat, wt: Waiter): State
    requires w < |s.waiters|
  {
    s.(waiters := s.waiters[w := wt])
  }

  function SetMark(s: State, w: nat, i: nat, m: Mark): State
    requires w < |s.waiters| && i < |s.waiters[w].marks|
  {
    SetWaiter(s, w, s.waiters[w].(marks := s.waiters[w].marks[i := m]))
  }

  /** SetEvent makes the event signalled. */
  function RaiseEvent(ev: Event, auto: bool, setter: nat): Event {
    if auto then
      ev.(state := true, hope := setter, sets := ev.sets + 1,
          absorbed := ev.absorbed + if ev.state then 1 else 0)
    else ev.(state := true, hope := setter)
  }

  /** fetch_sub on the reference count, with the destruction that follows when it was the last. */
  function DropReferences(w: Waiter, n: nat): Waiter {
    w.(refCount := w.refCount - n, deletes := w.deletes + if w.refCount == n then 1 else 0)
  }

  /** Drop the reference of one registration. */
  function DropRegistration(w: Waiter, index: nat, mark: Mark): Waiter
    requires index < |w.marks|
  {
    DropReferences(w, 1).(marks := w.marks[index := mark])
  }

  /** Notify a waiter that position `index` fired. */
  function FireWaiter(w: Waiter, all: bool, auto: bool, index: nat, setter: nat): Waiter
    requires index < |w.marks| && index < |w.hits|
  {
    w.(status := if all then w.status - 1 else index,
       stillWaiting := all && w.stillWaiting,
       marks := w.marks[index := Firing],
       hits := w.hits[index := w.hits[index] + 1],
       taken := if auto then w.taken + [index] else w.taken,
       firer := setter)
  }

  /** Position `i` was found signalled while registering. */
  function SatisfyWaiter(w: Waiter, all: bool, i: nat): Waiter
    requires i < |w.marks| && i < |w.hits|
  {
    w.(status := if all then w.status - 1 else i,
       marks := w.marks[i := Satisfied], hits := w.hits[i := w.hits[i] + 1])
  }

  /** Thread `a` is a WaitMany call at a position of its list. */
  ghost predicate HasPosition(c: Config, s: State, a: nat)
    requires a < |s.threads|
  {
    s.threads[a].Many? && HasMark(c, s, Registration(a, s.threads[a].i))
  }

  /** What an action needs to make sense. */
  ghost predicate Applicable(c: Config, s: State, a: nat, act: Action) {
    && |s.events| == |c.auto|
    && a < |c.ops| == |s.waiters| == |s.threads|
    && match act
       case LockEvent(e) => e < |s.events|
       case UnlockEvent(e) => e < |s.events|
       case LockWaiter(w) => w < |s.waiters|
       case UnlockWaiter(w) => w < |s.waiters|
       case Enqueue(e) => e < |s.events| && HasPosition(c, s, a)
       case DropExpired(e, k) =>
         e < |s.events| && k < |s.events[e].queue| && HasMark(c, s, s.events[e].queue[k])
       case Consume(e) => e < |s.events| && (c.ops[a].WaitMany? ==> HasPosition(c, s, a))
       case Satisfy => HasPosition(c, s, a)
       case Raise(e) => e < |s.events|
       case Clear(e) => e < |s.events|
       case Fire(e) =>
         e < |s.events| && s.events[e].queue != [] && HasMark(c, s, s.events[e].queue[0])
       case DropHead(e, _) =>
         e < |s.events| && s.events[e].queue != [] && HasMark(c, s, s.events[e].queue[0])
       case Rouse(w) => w < |s.threads|
       case NotifyOne(e) => e < |s.events|
       case NotifyAll(e) => e < |s.events|
       case _ => true
  }

  /** The shared objects, and the sleepers, after an action of thread `a`. */
  function Apply(c: Config, s: State, a: nat, act: Action, pick: nat): (s': State)
    requires Applicable(c, s, a, act)
    ensures |s'.events| == |s.events| && |s'.waiters| == |s.waiters| && |s'.threads| == |s.threads|
  {
    match act
    case Nothing => s
    case LockEvent(e) => SetEvent(s, e, s.events[e].(owner := Some(a)))
    case UnlockEvent(e) => SetEvent(s, e, s.events[e].(owner := None))
    case LockWaiter(w) => SetWaiter(s, w, s.waiters[w].(owner := Some(a)))
    case UnlockWaiter(w) => SetWaiter(s, w, s.waiters[w].(owner := None))
    case Enqueue(e) =>
      var ev := s.events[e];
      SetMark(SetEvent(s, e, ev.(queue := ev.queue + [Registration(a, s.threads[a].i)])),
              a, s.threads[a].i, Queued)
    case DropExpired(e, k) =>
      var ev := s.events[e];
      SetWaiter(SetEvent(s, e, ev.(queue := RemoveAt(ev.queue, k))), ev.queue[k].waiter,
                DropRegistration(s.waiters[ev.queue[k].waiter], ev.queue[k].index, Expired))
    case Consume(e) =>
      var ev := s.events[e];
      var s1 := SetEvent(s, e, ev.(state := false, taken := ev.taken + 1));
      if c.ops[a].WaitMany? then
        SetWaiter(s1, a, s.waiters[a].(taken := s.waiters[a].taken + [s.threads[a].i]))
      else s1
    case Satisfy => SetWaiter(s, a, SatisfyWaiter(s.waiters[a], c.ops[a].all, s.threads[a].i))
    case Stop => SetWaiter(s, a, s.waiters[a].(stillWaiting := false))
    case Release(n) => SetWaiter(s, a, DropReferences(s.waiters[a], n))
    case Raise(e) => SetEvent(s, e, RaiseEvent(s.events[e], c.auto[e], a))
    case Clear(e) => SetEvent(s, e, s.events[e].(swept := []))
    case Fire(e) =>
      var ev := s.events[e];
      var r := ev.queue[0];
      SetWaiter(
        SetEvent(s, e, if c.auto[e] then ev.(sets := ev.sets + 1, handed := ev.handed + 1) else ev),
        r.waiter, FireWaiter(s.waiters[r.waiter], c.ops[r.waiter].all, c.auto[e], r.index, a))
    case DropHead(e, mark) =>
      var ev := s.events[e];
      var r := ev.queue[0];
      SetWaiter(
        SetEvent(s, e, ev.(queue := ev.queue[1..],
                           swept := if c.auto[e] then ev.swept else ev.swept + [r])),
        r.waiter, DropRegistration(s.waiters[r.waiter], r.index, mark))
    case Rouse(w) =>
      if s.threads[w].Many? && s.threads[w].m == MSleep then SetThread(s, w, s.threads[w].(woken := true)) else s
    case NotifyOne(e) =>
      if SleepsOn(c, s, pick, e) then
        SetEvent(SetThread(s, pick, s.threads[pick].(notified := true)), e, s.events[e].(hope := pick))
      else s
    case NotifyAll(e) =>
      s.(threads := seq(|s.threads|, v requires 0 <= v < |s.threads| =>
        if SleepsOn(c, s, v, e) then s.threads[v].(notified := true) else s.threads[v]))
  }

  /** Asleep in WaitForEvent on `e` and not yet signalled. */
  predicate SleepsOn(c: Config, s: State, v: nat, e: nat) {
    && v < |c.ops| && v < |s.threads| && c.ops[v].WaitOne? && c.ops[v].event == e
    && s.threads[v].One? && s.threads[v].o == OSleep && !s.threads[v].notified
  }

  /** Every action a thread takes makes sense. */
  lemma ActionApplicable(c: Config, s: State, a: nat)
    requires Shape(c, s) && a < |c.ops| && GoodThread(c, s, a)
    ensures Applicable(c, s, a, ActionOf(a, c.ops[a], s.threads[a], ViewOf(c, s, a)))
  {
    var op, t := c.ops[a], s.threads[a];
    var e := EventOf(op, t);
    if e < |s.events| && CursorOf(t) < |s.events[e].queue| { EntryHasMark(c, s, e, CursorOf(t)); }
    if op.WaitMany? {
      ManyApplicable(c, s, a);
    } else {
      assert c.ValidOp(op);
    }
  }

  lemma ManyApplicable(c: Config, s: State, a: nat)
    requires Shape(c, s) && a < |c.ops| && GoodThread(c, s, a) && c.ops[a].WaitMany?
    requires var e, k := EventOf(c.ops[a], s.threads[a]), CursorOf(s.threads[a]);
      e < |s.events| && k < |s.events[e].queue| ==> HasMark(c, s, s.events[e].queue[k])
    ensures Applicable(c, s, a, ActionMany(a, c.ops[a], s.threads[a], ViewOf(c, s, a)))
  {
    assert GoodWaiter(c, s, a) && c.ValidOp(c.ops[a]);
  }

  lemma EntryHasMark(c: Config, s: State, e: nat, k: nat)
    requires Shape(c, s) && e < |s.events| && k < |s.events[e].queue|
    ensures HasMark(c, s, s.events[e].queue[k])
  {
    assert GoodEvent(c, s, e);
    assert GoodWaiter(c, s, s.events[e].queue[k].waiter);
  }

  /** A step of thread `a`: its action takes effect and its locals move on. */
  function Step(c: Config, s: State, a: nat, ch: Choice): State
    requires Shape(c, s) && a < |c.ops|
  {
    assert GoodThread(c, s, a);
    ActionApplicable(c, s, a);
    var op, t, v := c.ops[a], s.threads[a], ViewOf(c, s, a);
    SetThread(Apply(c, s, a, ActionOf(a, op, t, v), ch.pick), a, NextThread(c, op, t, v, ch.timedOut))
  }

  // ---------------------------------------------------------------- who may step

  /** The mutex an action locks, if it locks one, is free. */
  predicate LockFree(s: State, act: Action) {
    match act
    case LockEvent(e) => e < |s.events| && s.events[e].owner == None
    case LockWaiter(w) => w < |s.waiters| && s.waiters[w].owner == None
    case _ => true
  }

  predicate IsAsleep(t: Thread) {
    (t.Many? && t.m == MSleep) || (t.One? && t.o == OSleep)
  }

  /** Asleep, but a signal has reached it. */
  predicate IsWoken(t: Thread) {
    (t.Many? && t.m == MSleep && t.woken) || (t.One? && t.o == OSleep && t.notified)
  }

  /** Thread `a` may take its next step, with the environment deciding `ch`. A sleeper may wake
    spuriously; it may time out if its wait is finite and no signal has reached it. */
  ghost predicate CanStep(c: Config, s: State, a: nat, ch: Choice)
    requires Shape(c, s) && a < |c.ops|
  {
    assert GoodThread(c, s, a);
    var op, t := c.ops[a], s.threads[a];
    var act := ActionOf(a, op, t, ViewOf(c, s, a));
    && !Finished(t)
    && LockFree(s, act)
    && (ch.timedOut ==> IsAsleep(t) && !IsWoken(t) && (op.WaitMany? || op.WaitOne?) && op.timeout == Finite)
    && (act.NotifyOne? ==> SleepsOn(c, s, ch.pick, act.e) || forall v :: !SleepsOn(c, s, v, act.e))
  }

  /** ResetEvent: a store without any lock. */
  function Reset(s: State, e: nat): State
    requires e < |s.events|
  {
    SetEvent(s, e, s.events[e].(state := false, resets := s.events[e].resets + 1))
  }

  ghost predicate Next(c: Config, s: State, s': State) {
    Shape(c, s) &&
    ( (exists a: nat, ch: Choice :: a < |c.ops| && CanStep(c, s, a, ch) && s' == Step(c, s, a, ch))
      || (exists e: nat :: e < |s.events| && s' == Reset(s, e)))
  }

  ghost predicate NextAt(c: Config, run: seq<State>, n: nat)
    requires n + 1 < |run|
  {
    Next(c, run[n], run[n + 1])
  }

  /** A finite run from an initial state. */
  ghost predicate IsRun(c: Config, run: seq<State>) {
    && c.Valid()
    && run != []
    && Init(c, run[0])
    && forall n: nat {:trigger NextAt(c, run, n)} :: n + 1 < |run| ==> NextAt(c, run, n)
  }
}
