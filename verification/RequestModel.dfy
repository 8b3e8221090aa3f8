/**
 Requests from the kernel module to the user client: unique ids, the shared queue of pending contexts,
 delivery of answers by the netlink receiver, and the wait with its timeout.

 Requesters and receivers run concurrently. The queue and each context have a mutex; the requester
 tests `state` and reads the response fields of its own context without taking it, so every store a
 receiver makes to those fields is a step of its own.
*/
module RequestModel {
  import opened Options
  import opened Bytes

  // ---------------------------------------------------------------- message ids

  /** The increment of the 64-bit id counter, which skips 0. */
  function NextId(id: nat): nat {
    var next := (id + 1) % TWO_64;
    if next == 0 then 1 else next
  }

  /** The id that the n-th call (counting from 0) gets: the counter starts at 1. */
  function IssuedId(n: nat): nat {
    NextId(if n == 0 then 1 else IssuedId(n - 1))
  }

  /** The mutex-guarded counter of the module. */
  class GlobalParam {
    var uniqueId: nat
    ghost var calls: nat

    ghost predicate Valid()
      reads this
    {
      uniqueId == if calls == 0 then 1 else IssuedId(calls - 1)
    }

    constructor ()
      ensures Valid() && calls == 0
    {
      uniqueId := 1;
      calls := 0;
    }

    method GetNextMsgId() returns (id: nat)
      requires Valid()
      modifies this
      ensures Valid() && calls == old(calls) + 1
      ensures id == IssuedId(old(calls)) && 0 < id < TWO_64
    {
      uniqueId := (uniqueId + 1) % TWO_64;
      if uniqueId == 0 {
        uniqueId := 1;
      }
      id := uniqueId;
      calls := calls + 1;
    }
  }

  /** The ids go through 1 to 2^64-1 round and round, from 2 on. */
  lemma {:induction false} IdsCycle(n: nat)
    ensures IssuedId(n) == (n + 1) % (TWO_64 - 1) + 1
  {
    if n > 0 {
      IdsCycle(n - 1);
      NextResidue(n, TWO_64 - 1);
    }
  }

  lemma NextResidue(n: nat, m: nat)
    requires m > 0
    ensures (n + 1) % m == if n % m + 1 == m then 0 else n % m + 1
  {
    var q := n / m;
    assert n == q * m + n % m;
    if n % m + 1 == m {
      assert n + 1 == (q + 1) * m + 0;
      ModUnique(n + 1, m, q + 1, 0);
    } else {
      ModUnique(n + 1, m, q, n % m + 1);
    }
  }

  /** Two calls get the same id exactly when the number of calls between them is a multiple of 2^64-1. */
  lemma IdsRepeat(n: nat, k: nat)
    requires n <= k
    ensures IssuedId(n) == IssuedId(k) <==> (k - n) % (TWO_64 - 1) == 0
  {
    IdsCycle(n);
    IdsCycle(k);
    SameResidue(n + 1, k + 1, TWO_64 - 1);
  }

  lemma SameResidue(a: nat, b: nat, m: nat)
    requires m > 0 && a <= b
    ensures a % m == b % m <==> (b - a) % m == 0
  {
    var q, r, d := a / m, b / m, b % m - a % m;
    assert a == q * m + a % m && b == r * m + b % m;
    assert b - a == (r - q) * m + d;
    if d >= 0 {
      ModUnique(b - a, m, r - q, d);
    } else {
      assert b - a == (r - q - 1) * m + (m + d);
      ModUnique(b - a, m, r - q - 1, m + d);
    }
  }

  lemma ModUnique(x: int, m: int, q: int, r: int)
    requires m > 0 && 0 <= r < m && x == q * m + r
    ensures x % m == r
  {
    var p := x / m;
    assert x == p * m + x % m;
    if q > p {
      TimesAtLeast(q, p + 1, m);
    } else if q < p {
      TimesAtLeast(p, q + 1, m);
    }
  }

  lemma TimesAtLeast(a: int, b: int, m: int)
    requires m > 0 && a >= b
    ensures a * m >= b * m
  {
  }

  /** Any window of 2^64-1 consecutive ids has no repetition. */
  lemma IdsDistinctInWindow(n: nat, k: nat)
    requires n < k < n + TWO_64 - 1
    ensures IssuedId(n) != IssuedId(k)
  {
    IdsRepeat(n, k);
  }

  // ---------------------------------------------------------------- state

  /** An answer as it arrives: the id it bears and its bytes. */
  datatype Message = Message(id: nat, body: seq<byte>)

  /** Where a requester stands in `teadfs_request_send`. */
  datatype Ask =
    | Issued        // holds an id, about to allocate its context
    | Refused       // allocation failed, has returned -ENOMEM
    | Allocated     // about to link the context
    | Linked        // about to send
    | Waiting       // in wait_event_timeout
    | Expired       // timed out, about to take the context's mutex
    | Ready         // about to read the size
    | SizeRead      // about to read the reply pointer
    | ReplyRead     // about to unlink the context
    | Returned      // context unlinked and freed

  /** A requester and its context. `reply` names the buffer the context points to: the buffer that the
    receiver of that index allocated. */
  datatype Requester = Requester(
    id: nat, at: Ask, timedOut: bool,
    answered: bool, size: nat, reply: Option<nat>, owner: Option<nat>,
    gotSize: nat, gotReply: Option<nat>)

  /** Where a receiver stands in `teadfs_netlink_receive`. It holds the queue's mutex from Found to Unlocked,
    and its target's from Entered to Copied. */
  datatype Delivery =
    | Arrived | Found | Entered | Flagged | Allocated' | Sized | Copied | Unlocked | Gone

  /** A receiver and the buffer it allocates, whose bytes stay zero until the copy. */
  datatype Receiver = Receiver(
    msg: Message, at: Delivery, target: Option<nat>, failed: bool, contents: seq<byte>)

  datatype State = State(
    counter: nat, requesters: seq<Requester>, queue: seq<nat>, holder: Option<nat>, receivers: seq<Receiver>)

  datatype Event =
    | Issue                          // a caller takes an id
    | Arrive(msg: Message)           // a message reaches the netlink receiver
    | Advance(k: nat, choice: bool)  // requester k moves
    | Deliver(r: nat, choice: bool)  // receiver r moves

  const START := State(1, [], [], None, [])

  function Zeros(n: nat): (z: seq<byte>)
    ensures |z| == n
  {
    seq(n, _ => 0)
  }

  function Fresh(id: nat): Requester {
    Requester(id, Issued, false, false, 0, None, None, 0, None)
  }

  // ---------------------------------------------------------------- requester steps

  /** What a requester does to itself; `choice` is whether the allocation works, or whether it sees the
    answer (the other outcome of the wait is the timeout). */
  function AskStep(x: Requester, choice: bool): Requester {
    match x.at
    case Issued => x.(at := if choice then Allocated else Refused)
    case Allocated => x.(at := Linked)
    case Linked => x.(at := Waiting)
    case Waiting => if choice then x.(at := Ready) else x.(at := Expired, timedOut := true)
    case Expired => x.(at := Ready, answered := true, size := 0, reply := None)
    case Ready => x.(at := SizeRead, gotSize := x.size)
    case SizeRead => x.(at := ReplyRead, gotReply := x.reply)
    case ReplyRead => x.(at := Returned)
    case _ => x
  }

  /** The wait ends with an answer only if it sees the state done, and by timeout only if it does not; linking
    and unlinking need the queue's mutex, storing the timeout needs the context's. */
  predicate AskEnabled(s: State, x: Requester, choice: bool) {
    match x.at
    case Refused => false
    case Returned => false
    case Waiting => choice == x.answered
    case Allocated => s.holder == None
    case ReplyRead => s.holder == None
    case Expired => x.owner == None
    case _ => true
  }

  function Without(q: seq<nat>, k: nat): seq<nat> {
    if q == [] then [] else if q[0] == k then q[1..] else [q[0]] + Without(q[1..], k)
  }

  function AskQueue(q: seq<nat>, x: Requester, k: nat): seq<nat> {
    match x.at
    case Allocated => q + [k]
    case ReplyRead => Without(q, k)
    case _ => q
  }

  // ---------------------------------------------------------------- receiver steps

  /** The first queued context that bears the id. */
  function FirstWithId(s: State, q: seq<nat>, id: nat): Option<nat> {
    if q == [] then None
    else if q[0] < |s.requesters| && s.requesters[q[0]].id == id then Some(q[0])
    else FirstWithId(s, q[1..], id)
  }

  /** What a receiver does to itself; `choice` is whether its allocation works. */
  function DeliverStep(s: State, x: Receiver, choice: bool): Receiver {
    match x.at
    case Arrived =>
      var t := FirstWithId(s, s.queue, x.msg.id);
      if t.Some? then x.(at := Found, target := t) else x.(at := Gone)
    case Found => x.(at := Entered)
    case Entered => x.(at := Flagged)
    case Flagged =>
      if choice then x.(at := Allocated', contents := Zeros(|x.msg.body|)) else x.(at := Copied, failed := true)
    case Allocated' => x.(at := Sized)
    case Sized => x.(at := Copied, contents := x.msg.body)
    case Copied => x.(at := Unlocked)
    case Unlocked => x.(at := Gone)
    case Gone => x
  }

  /** The store, if any, that receiver r makes to its target's context. */
  function DeliverTo(c: Requester, x: Receiver, r: nat, choice: bool): Requester {
    match x.at
    case Found => c.(owner := Some(r))
    case Entered => c.(answered := true)
    case Flagged => c.(reply := if choice then Some(r) else None)
    case Allocated' => c.(size := |x.msg.body|)
    case Copied => c.(owner := None)
    case _ => c
  }

  predicate DeliverEnabled(s: State, x: Receiver) {
    match x.at
    case Arrived => s.holder == None
    case Found => x.target.Some? && x.target.value < |s.requesters| && s.requesters[x.target.value].owner == None
    case Gone => false
    case _ => true
  }

  function DeliverHolder(h: Option<nat>, after: Receiver, r: nat): Option<nat> {
    match after.at
    case Found => Some(r)
    case Gone => None
    case _ => h
  }

  // ---------------------------------------------------------------- runs

  predicate CanStep(s: State, e: Event) {
    match e
    case Advance(k, choice) => k < |s.requesters| && AskEnabled(s, s.requesters[k], choice)
    case Deliver(r, _) => r < |s.receivers| && DeliverEnabled(s, s.receivers[r])
    case _ => true
  }

  function Step(s: State, e: Event): State
    requires CanStep(s, e)
  {
    match e
    case Issue =>
      var id := NextId(s.counter);
      s.(counter := id, requesters := s.requesters + [Fresh(id)])
    case Arrive(msg) =>
      s.(receivers := s.receivers + [Receiver(msg, Arrived, None, false, [])])
    case Advance(k, choice) =>
      var x := s.requesters[k];
      s.(requesters := s.requesters[k := AskStep(x, choice)], queue := AskQueue(s.queue, x, k))
    case Deliver(r, choice) =>
      var x := s.receivers[r];
      var x' := DeliverStep(s, x, choice);
      s.(receivers := s.receivers[r := x'],
         holder := DeliverHolder(s.holder, x', r),
         requesters :=
           if x.target.Some? && x.target.value < |s.requesters|
           then s.requesters[x.target.value := DeliverTo(s.requesters[x.target.value], x, r, choice)]
           else s.requesters)
  }

  ghost predicate Next(s: State, e: Event, s': State) {
    CanStep(s, e) && s' == Step(s, e)
  }

  ghost predicate NextAt(run: seq<State>, events: seq<Event>, i: nat)
    requires i < |events| && i + 1 < |run|
  {
    Next(run[i], events[i], run[i + 1])
  }

  ghost predicate IsRun(run: seq<State>, events: seq<Event>) {
    |run| == |events| + 1 && run[0] == START &&
    forall i: nat {:trigger NextAt(run, events, i)} :: i < |events| ==> NextAt(run, events, i)
  }
}
