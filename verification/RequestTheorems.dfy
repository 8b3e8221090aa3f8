/**
 What requesters can rely on, whatever messages arrive, early, late or more than once.
*/
module RequestTheorems {
  import opened Options
  import opened Bytes
  import opened RequestModel
  import opened RequestInvariants

  /** A context is queued exactly between its own linking and its own unlinking, and two queued contexts bear
    the same id exactly when a multiple of 2^64-1 ids were issued from one to the other. */
  lemma QueuedContexts(run: seq<State>, events: seq<Event>, n: nat, k: nat, j: nat)
    requires IsRun(run, events) && n < |run| && k <= j < |run[n].requesters|
    ensures k in run[n].queue <==> InQueue(run[n].requesters[k].at)
    ensures run[n].requesters[k].id == run[n].requesters[j].id <==> (j - k) % (TWO_64 - 1) == 0
  {
    RunInv(run, events, n);
    IdsRepeat(k, j);
  }

  /** A receiver works only on a context that is still queued, so not freed, and bears its message's id;
    while it holds the queue's mutex it is never blocked. */
  lemma ReceiverTouchesQueued(run: seq<State>, events: seq<Event>, n: nat, r: nat)
    requires IsRun(run, events) && n < |run| && r < |run[n].receivers| && Holding(run[n].receivers[r].at)
    ensures run[n].receivers[r].target.Some?
    ensures var t := run[n].receivers[r].target.value;
      t < |run[n].requesters| && t in run[n].queue && InQueue(run[n].requesters[t].at) &&
      run[n].requesters[t].id == run[n].receivers[r].msg.id
    ensures DeliverEnabled(run[n], run[n].receivers[r])
  {
    RunInv(run, events, n);
    var s := run[n];
    assert Targeted(s, s.receivers[r]);
    var t := s.receivers[r].target.value;
    if s.receivers[r].at == Found && s.requesters[t].owner.Some? {
      OwnerHolds(s, t);
    }
  }

  /** An answer reaches a context if any queued one bears its id: the receiver that has just arrived goes away
    exactly if there is none, and otherwise works on a queued one that bears it, the first such in the queue. */
  lemma AnswerReachesItsContext(run: seq<State>, events: seq<Event>, n: nat, r: nat, choice: bool)
    requires IsRun(run, events) && n + 1 < |run| && events[n] == Deliver(r, choice)
    requires r < |run[n].receivers| && run[n].receivers[r].at == Arrived
    ensures r < |run[n + 1].receivers| && run[n + 1].receivers[r].msg == run[n].receivers[r].msg
    ensures run[n + 1].receivers[r].at == Gone <==>
      forall k :: k in run[n].queue && k < |run[n].requesters| ==> run[n].requesters[k].id != run[n].receivers[r].msg.id
    ensures run[n + 1].receivers[r].at != Gone ==>
      && run[n + 1].receivers[r].at == Found && run[n + 1].receivers[r].target.Some?
      && var t := run[n + 1].receivers[r].target.value;
         IsFirst(run[n], t, run[n].receivers[r].msg.id)
    ensures run[n + 1].requesters == run[n].requesters && run[n + 1].queue == run[n].queue
  {
    var s := run[n];
    RunInv(run, events, n);
    assert NextAt(run, events, n) && Targeted(s, s.receivers[r]);
    FirstIsQueued(s, s.queue, s.receivers[r].msg.id);
    FirstIsFirst(s, s.queue, s.receivers[r].msg.id);
  }

  /** The context is queued and bears the id, and no context before it in the queue does. */
  ghost predicate IsFirst(s: State, t: nat, id: nat) {
    exists i :: 0 <= i < |s.queue| && FirstAt(s, s.queue, i, t, id)
  }

  predicate FirstAt(s: State, q: seq<nat>, i: nat, t: nat, id: nat)
    requires i < |q|
  {
    && q[i] == t && t < |s.requesters| && s.requesters[t].id == id
    && forall j :: 0 <= j < i ==> q[j] >= |s.requesters| || s.requesters[q[j]].id != id
  }

  lemma {:induction false} FirstIsFirst(s: State, q: seq<nat>, id: nat)
    ensures FirstWithId(s, q, id).Some? ==>
      exists i :: 0 <= i < |q| && FirstAt(s, q, i, FirstWithId(s, q, id).value, id)
  {
    if q != [] {
      if q[0] < |s.requesters| && s.requesters[q[0]].id == id {
        assert FirstAt(s, q, 0, q[0], id);
      } else {
        FirstIsFirst(s, q[1..], id);
        var t := FirstWithId(s, q[1..], id);
        if t.Some? {
          var i :| 0 <= i < |q[1..]| && FirstAt(s, q[1..], i, t.value, id);
          forall j | 0 <= j < i + 1 ensures q[j] >= |s.requesters| || s.requesters[q[j]].id != id {
            assert j > 0 ==> q[j] == q[1..][j - 1];
          }
          assert FirstAt(s, q, i + 1, t.value, id);
        }
      }
    }
  }

  /** Contexts are linked at the back of the queue, unlinked from where they are, and otherwise keep their order. */
  lemma QueueKeepsOrder(run: seq<State>, events: seq<Event>, n: nat)
    requires IsRun(run, events) && n + 1 < |run|
    ensures var q, q', e := run[n].queue, run[n + 1].queue, events[n];
      if e.Advance? && e.k < |run[n].requesters| && run[n].requesters[e.k].at == Allocated then q' == q + [e.k]
      else if e.Advance? && e.k < |run[n].requesters| && run[n].requesters[e.k].at == ReplyRead then UnlinkedFrom(q, e.k, q')
      else q' == q
  {
    RunInv(run, events, n);
    assert NextAt(run, events, n);
    var e := events[n];
    if e.Advance? && run[n].requesters[e.k].at == ReplyRead {
      assert InQueue(run[n].requesters[e.k].at) <==> e.k in run[n].queue;
      Unlinks(run[n].queue, e.k);
    }
  }

  ghost predicate UnlinkedFrom(q: seq<nat>, k: nat, q': seq<nat>) {
    exists i :: 0 <= i < |q| && q[i] == k && q' == q[..i] + q[i + 1..]
  }

  lemma Unlinks(q: seq<nat>, k: nat)
    requires k in q
    ensures UnlinkedFrom(q, k, Without(q, k))
  {
    var i := UnlinkedAt(q, k);
  }

  lemma {:induction false} UnlinkedAt(q: seq<nat>, k: nat) returns (i: nat)
    requires k in q
    ensures i < |q| && q[i] == k && Without(q, k) == q[..i] + q[i + 1..]
  {
    if q[0] == k {
      i := 0;
    } else {
      var j := UnlinkedAt(q[1..], k);
      i := j + 1;
      assert q[1..][..j] == q[1..i] && q[1..][j + 1..] == q[i + 1..];
      assert [q[0]] + q[1..i] == q[..i];
    }
  }

  // ---------------------------------------------------------------- time-outs

  /** Requester k stores its timeout. */
  predicate StoresTimeout(s: State, e: Event, k: nat) {
    e.Advance? && e.k == k && k < |s.requesters| && s.requesters[k].at == Expired
  }

  /** Of what was delivered before a timeout was stored, nothing is left: a reply in the context, or returned,
    was allocated after that, and a size was stored after that. */
  lemma {:induction false} OnlyLateAnswers(run: seq<State>, events: seq<Event>, m: nat, n: nat, k: nat)
    requires IsRun(run, events) && m < n < |run| && StoresTimeout(run[m], events[m], k)
    ensures k < |run[n].requesters| && Late(run[m], run[n], k, run[n].requesters[k])
    ensures PastGrows(run[m], run[n])
    decreases n
  {
    if n == m + 1 {
      TimeoutClears(run, events, m, k);
    } else {
      OnlyLateAnswers(run, events, m, n - 1, k);
      RunInv(run, events, n - 1);
      assert NextAt(run, events, n - 1);
      PastStep(run[n - 1], events[n - 1], run[n]);
      LateStep(run[m], run[n - 1], events[n - 1], run[n], k);
    }
  }

  /** The requester has stored its timeout, and has to do with nothing from before. */
  ghost predicate Late(before: State, s: State, k: nat, x: Requester) {
    && x.at in {Ready, SizeRead, ReplyRead, Returned}
    && LateReply(before, x.reply) && LateReply(before, x.gotReply)
    && LateSize(before, s, k, x.size) && LateSize(before, s, k, x.gotSize)
  }

  ghost predicate LateReply(before: State, reply: Option<nat>) {
    reply.Some? ==> reply.value >= |before.receivers| || !Past(before.receivers[reply.value].at)
  }

  /** Some receiver that had not stored a size by then has stored this one. */
  ghost predicate LateSize(before: State, s: State, k: nat, size: nat) {
    size != 0 ==> exists r :: LateSizedBy(before, s, k, r, size)
  }

  ghost predicate LateSizedBy(before: State, s: State, k: nat, r: nat, size: nat) {
    SizedBy(s, k, r, size) && (r >= |before.receivers| || !Sent(before.receivers[r].at))
  }

  predicate Sent(at: Delivery) {
    at in {Sized, Copied, Unlocked, Gone}
  }

  /** Receivers only move forward. */
  ghost predicate PastGrows(s: State, s': State) {
    && |s.receivers| <= |s'.receivers|
    && forall r :: 0 <= r < |s.receivers| ==>
         (Past(s.receivers[r].at) ==> Past(s'.receivers[r].at)) && (Sent(s.receivers[r].at) ==> Sent(s'.receivers[r].at))
  }

  lemma PastStep(s: State, e: Event, s': State)
    requires Next(s, e, s')
    ensures PastGrows(s, s')
  {
  }

  lemma TimeoutClears(run: seq<State>, events: seq<Event>, m: nat, k: nat)
    requires IsRun(run, events) && m + 1 < |run| && StoresTimeout(run[m], events[m], k)
    ensures k < |run[m + 1].requesters| && Late(run[m], run[m + 1], k, run[m + 1].requesters[k])
    ensures PastGrows(run[m], run[m + 1])
  {
    NothingRead(run, events, m, k);
    assert NextAt(run, events, m);
    StepContext(run[m], events[m], run[m + 1], k);
    PastStep(run[m], events[m], run[m + 1]);
  }

  /** Before it reads them, the requester has got no size and no reply. */
  lemma {:induction false} NothingRead(run: seq<State>, events: seq<Event>, n: nat, k: nat)
    requires IsRun(run, events) && n < |run| && k < |run[n].requesters|
    ensures run[n].requesters[k].at !in {SizeRead, ReplyRead, Returned} ==> run[n].requesters[k].gotSize == 0
    ensures run[n].requesters[k].at !in {ReplyRead, Returned} ==> run[n].requesters[k].gotReply == None
  {
    if n > 0 {
      assert NextAt(run, events, n - 1);
      if k < |run[n - 1].requesters| {
        NothingRead(run, events, n - 1, k);
        StepContext(run[n - 1], events[n - 1], run[n], k);
      }
    }
  }

  lemma LateStep(before: State, s: State, e: Event, s': State, k: nat)
    requires Copies(s) && Next(s, e, s') && PastGrows(before, s) && k < |s.requesters|
    requires Late(before, s, k, s.requesters[k])
    ensures k < |s'.requesters| && Late(before, s', k, s'.requesters[k])
    ensures PastGrows(before, s')
  {
    var x := s.requesters[k];
    PastStep(s, e, s');
    StepContext(s, e, s', k);
    LateSizeStays(before, s, e, s', k, x.size);
    LateSizeStays(before, s, e, s', k, x.gotSize);
    if e.Advance? && e.k == k {
      LateAdvance(before, s', k, x, e.choice);
    } else if e.Deliver? && s.receivers[e.r].target == Some(k) {
      LateDelivery(before, s, e.r, e.choice, s', k);
    }
  }

  lemma LateSizeStays(before: State, s: State, e: Event, s': State, k: nat, size: nat)
    requires Copies(s) && Next(s, e, s') && LateSize(before, s, k, size)
    ensures LateSize(before, s', k, size)
  {
    SuppliesPersist(s, e, s');
    if size != 0 {
      var r: nat :| LateSizedBy(before, s, k, r, size);
      assert LateSizedBy(before, s', k, r, size);
    }
  }

  lemma LateAdvance(before: State, s: State, k: nat, x: Requester, choice: bool)
    requires Late(before, s, k, x)
    ensures Late(before, s, k, AskStep(x, choice))
  {
  }

  lemma LateDelivery(before: State, s: State, r: nat, choice: bool, s': State, k: nat)
    requires Copies(s) && Next(s, Deliver(r, choice), s') && PastGrows(before, s) && k < |s.requesters|
    requires s.receivers[r].target == Some(k) && Late(before, s', k, s.requesters[k])
    ensures Late(before, s', k, DeliverTo(s.requesters[k], s.receivers[r], r, choice))
  {
    var x, c := s.receivers[r], s.requesters[k];
    if x.at == Allocated' {
      NewSize(before, s, r, choice, s', k);
      LateWithSize(before, s', k, c, r, |x.msg.body|);
    } else if x.at == Flagged {
      LateWithReply(before, s', k, c, if choice then Some(r) else None);
    } else {
      LateOtherwise(before, s', k, c, x, r, choice);
    }
  }

  lemma LateWithSize(before: State, s: State, k: nat, c: Requester, r: nat, size: nat)
    requires Late(before, s, k, c) && LateSizedBy(before, s, k, r, size)
    ensures Late(before, s, k, c.(size := size))
  {
  }

  lemma LateWithReply(before: State, s: State, k: nat, c: Requester, reply: Option<nat>)
    requires Late(before, s, k, c) && LateReply(before, reply)
    ensures Late(before, s, k, c.(reply := reply))
  {
  }

  lemma LateOtherwise(before: State, s: State, k: nat, c: Requester, x: Receiver, r: nat, choice: bool)
    requires Late(before, s, k, c) && x.at != Allocated' && x.at != Flagged
    ensures Late(before, s, k, DeliverTo(c, x, r, choice))
  {
  }

  lemma NewSize(before: State, s: State, r: nat, choice: bool, s': State, k: nat)
    requires Copies(s) && Next(s, Deliver(r, choice), s') && PastGrows(before, s)
    requires s.receivers[r].target == Some(k) && s.receivers[r].at == Allocated'
    ensures LateSizedBy(before, s', k, r, |s.receivers[r].msg.body|)
  {
    assert CopyState(s.receivers[r]);
  }

  // ---------------------------------------------------------------- failed allocations

  /** A requester is refused exactly if its allocation fails. */
  lemma RefusedIffNoMemory(run: seq<State>, events: seq<Event>, n: nat, k: nat, choice: bool)
    requires IsRun(run, events) && n + 1 < |run| && events[n] == Advance(k, choice)
    requires k < |run[n].requesters| && run[n].requesters[k].at == Issued
    ensures k < |run[n + 1].requesters|
    ensures run[n + 1].requesters[k].at == if choice then Allocated else Refused
  {
    assert NextAt(run, events, n);
  }

  /** A receiver leaves its context without a reply exactly if its allocation fails. */
  lemma NoReplyIffNoMemory(run: seq<State>, events: seq<Event>, n: nat, r: nat, choice: bool)
    requires IsRun(run, events) && n + 1 < |run| && events[n] == Deliver(r, choice)
    requires r < |run[n].receivers| && run[n].receivers[r].at == Flagged
    ensures r < |run[n + 1].receivers| && run[n + 1].receivers[r].failed == !choice
    ensures run[n].receivers[r].target.Some? && run[n].receivers[r].target.value < |run[n + 1].requesters|
    ensures run[n + 1].requesters[run[n].receivers[r].target.value].reply == if choice then Some(r) else None
  {
    RunInv(run, events, n);
    assert NextAt(run, events, n);
    assert CopyState(run[n].receivers[r]) && Targeted(run[n], run[n].receivers[r]);
  }

  /** A refused requester never enters the queue, and stays refused. */
  lemma {:induction false} RefusedForGood(run: seq<State>, events: seq<Event>, m: nat, n: nat, k: nat)
    requires IsRun(run, events) && m <= n < |run| && k < |run[m].requesters| && run[m].requesters[k].at == Refused
    ensures k < |run[n].requesters| && run[n].requesters[k].at == Refused && k !in run[n].queue
    decreases n
  {
    RunInv(run, events, n);
    if m < n {
      RefusedForGood(run, events, m, n - 1, k);
      assert NextAt(run, events, n - 1);
      RunInv(run, events, n - 1);
      StepContext(run[n - 1], events[n - 1], run[n], k);
    }
  }

  // ---------------------------------------------------------------- progress

  /** A requester that cannot move has returned, was refused, or waits for a receiver that can move. */
  lemma RequestsNeverStuck(run: seq<State>, events: seq<Event>, n: nat, k: nat)
    requires IsRun(run, events) && n < |run| && k < |run[n].requesters|
    ensures
      || (exists choice :: AskEnabled(run[n], run[n].requesters[k], choice))
      || run[n].requesters[k].at in {Refused, Returned}
      || (run[n].holder.Some? && run[n].holder.value < |run[n].receivers| &&
          DeliverEnabled(run[n], run[n].receivers[run[n].holder.value]))
  {
    RunInv(run, events, n);
    var s, x := run[n], run[n].requesters[k];
    if s.holder.Some? {
      ReceiverTouchesQueued(run, events, n, s.holder.value);
    } else if x.at == Expired && x.owner.Some? {
      OwnerHolds(s, k);
    } else if x.at !in {Refused, Returned} {
      assert AskEnabled(s, x, x.answered);
    }
  }

  /** A requester returns no reply, or the whole of a message that bears its id, copied to the end; the size it
    returns is 0 or that of such a message. */
  lemma ReplyMatching(run: seq<State>, events: seq<Event>, n: nat, k: nat)
    requires IsRun(run, events) && n < |run| && k < |run[n].requesters|
    requires run[n].requesters[k].at == Returned
    ensures var x := run[n].requesters[k];
      x.gotReply.Some? ==>
        x.gotReply.value < |run[n].receivers| &&
        run[n].receivers[x.gotReply.value].msg.id == x.id &&
        run[n].receivers[x.gotReply.value].contents == run[n].receivers[x.gotReply.value].msg.body
    ensures var x := run[n].requesters[k];
      x.gotSize != 0 ==>
        exists r ::
          0 <= r < |run[n].receivers| &&
          run[n].receivers[r].msg.id == x.id && |run[n].receivers[r].msg.body| == x.gotSize
  {
    RunInv(run, events, n);
    var s, x := run[n], run[n].requesters[k];
    assert Replied(s, k, x);
    if x.gotReply.Some? {
      var r := x.gotReply.value;
      assert Targeted(s, s.receivers[r]) && CopyState(s.receivers[r]);
    }
    if x.gotSize != 0 {
      var r: nat :| SizedBy(s, k, r, x.gotSize);
      assert Targeted(s, s.receivers[r]);
    }
  }

  predicate Near(j: nat, k: nat) {
    -(TWO_64 - 1) < j - k < TWO_64 - 1
  }

  /** When no two messages bear the same id, a requester that returns a size returns exactly the bytes of one
    message, of that size; and if that message was built for request j, fewer than 2^64-1 ids away, then j is
    the requester itself. */
  lemma ReplyIsWhole(run: seq<State>, events: seq<Event>, n: nat, k: nat)
    requires IsRun(run, events) && n < |run| && k < |run[n].requesters|
    requires run[n].requesters[k].at == Returned && run[n].requesters[k].gotSize != 0
    requires AnsweredOnce(run[n])
    ensures var x := run[n].requesters[k];
      && x.gotReply.Some? && x.gotReply.value < |run[n].receivers|
      && var y := run[n].receivers[x.gotReply.value];
         && y.contents == y.msg.body && |y.contents| == x.gotSize
         && (forall j: nat :: j < |run[n].requesters| && y.msg.id == run[n].requesters[j].id && Near(j, k) ==> j == k)
  {
    RunInv(run, events, n);
    ReplyMatching(run, events, n, k);
    var s, x := run[n], run[n].requesters[k];
    assert Paired(x) && Replied(s, k, x);
    var r: nat :| SizedBy(s, k, r, x.gotSize);
    SameReceiver(s, k, r, x.gotReply.value);
    forall j: nat | j < |s.requesters| && IssuedId(j) == IssuedId(k) && Near(j, k)
      ensures j == k
    {
      if j < k {
        IdsDistinctInWindow(j, k);
      } else if k < j {
        IdsDistinctInWindow(k, j);
      }
    }
  }

  /** A requester that did not time out reads size 0 only if some receiver has marked its context done and is
    still to store the size, or could not allocate, or had an empty message; and always then, when no two
    messages bear the same id. */
  lemma WhyAnAnswerIsMissed(run: seq<State>, events: seq<Event>, n: nat, k: nat, choice: bool)
    requires IsRun(run, events) && n + 1 < |run| && events[n] == Advance(k, choice)
    requires k < |run[n].requesters| && run[n].requesters[k].at == Ready && !run[n].requesters[k].timedOut
    ensures k < |run[n + 1].requesters|
    ensures run[n + 1].requesters[k].gotSize == 0 ==> exists r :: Withheld(run[n], k, r)
    ensures AnsweredOnce(run[n]) && (exists r :: Withheld(run[n], k, r)) ==> run[n + 1].requesters[k].gotSize == 0
  {
    RunInv(run, events, n);
    var s, x := run[n], run[n].requesters[k];
    assert NextAt(run, events, n);
    ReadyIsAnswered(run, events, n, k);
    assert Answered(s, k, x) && Replied(s, k, x);
    if AnsweredOnce(s) && x.size != 0 {
      var r: nat :| SizedBy(s, k, r, x.size);
      forall r': nat | Withheld(s, k, r') ensures r' == r {
        SameReceiver(s, k, r, r');
      }
    }
  }

  lemma {:induction false} ReadyIsAnswered(run: seq<State>, events: seq<Event>, n: nat, k: nat)
    requires IsRun(run, events) && n < |run| && k < |run[n].requesters|
    requires run[n].requesters[k].at == Ready
    ensures run[n].requesters[k].answered
  {
    if n > 0 {
      assert NextAt(run, events, n - 1);
      if k < |run[n - 1].requesters| && run[n - 1].requesters[k].at == Ready {
        ReadyIsAnswered(run, events, n - 1, k);
      }
    }
  }

  // ---------------------------------------------------------------- an answer that is missed

  function Asker(at: Ask, answered: bool, size: nat, reply: Option<nat>, owner: Option<nat>): Requester {
    Requester(2, at, false, answered, size, reply, owner, 0, None)
  }

  function Carrier(body: seq<byte>, at: Delivery, contents: seq<byte>): Receiver {
    Receiver(Message(2, body), at, Some(0), false, contents)
  }

  function One(x: Requester, y: Receiver): State {
    State(2, [x], [0], Some(0), [y])
  }

  ghost predicate RunTo(run: seq<State>, events: seq<Event>, s: State) {
    IsRun(run, events) && run[|run| - 1] == s
  }

  lemma Extend(run: seq<State>, events: seq<Event>, s: State, e: Event, s': State)
    returns (run': seq<State>, events': seq<Event>)
    requires RunTo(run, events, s) && Next(s, e, s')
    ensures RunTo(run', events', s')
  {
    run', events' := run + [s'], events + [e];
    forall i: nat | i < |events'| ensures NextAt(run', events', i) {
      if i < |events| {
        assert NextAt(run, events, i);
      }
    }
  }

  /** The only request has been sent, and its answer arrives. */
  lemma RequestAnswered(body: seq<byte>) returns (run: seq<State>, events: seq<Event>, s: State)
    ensures RunTo(run, events, s)
    ensures s == State(2, [Asker(Waiting, false, 0, None, None)], [0], None,
                       [Receiver(Message(2, body), Arrived, None, false, [])])
  {
    s := START.(counter := 2, requesters := [Fresh(2)]);
    run, events := Extend([START], [], START, Issue, s);
    var s2 := s.(requesters := [Fresh(2).(at := Allocated)]);
    run, events := Extend(run, events, s, Advance(0, true), s2);
    var s3 := s.(requesters := [Fresh(2).(at := Linked)], queue := [0]);
    run, events := Extend(run, events, s2, Advance(0, true), s3);
    var s4 := s3.(requesters := [Fresh(2).(at := Waiting)]);
    run, events := Extend(run, events, s3, Advance(0, true), s4);
    s := s4.(receivers := [Receiver(Message(2, body), Arrived, None, false, [])]);
    run, events := Extend(run, events, s4, Arrive(Message(2, body)), s);
  }

  /** The requester sees its context done between the receiver's two stores, and reads the size. */
  lemma SizeReadTooEarly(body: seq<byte>) returns (run: seq<State>, events: seq<Event>, s: State)
    ensures RunTo(run, events, s)
    ensures s == One(Asker(SizeRead, true, 0, None, Some(0)), Carrier(body, Flagged, []))
  {
    run, events, s := RequestAnswered(body);
    assert FirstWithId(s, s.queue, 2) == Some(0);
    var waiting := Asker(Waiting, false, 0, None, None);
    var s1 := One(waiting, Carrier(body, Found, []));
    run, events := Extend(run, events, s, Deliver(0, true), s1);
    var s2 := One(waiting.(owner := Some(0)), Carrier(body, Entered, []));
    run, events := Extend(run, events, s1, Deliver(0, true), s2);
    var marked := Asker(Waiting, true, 0, None, Some(0));
    var s3 := One(marked, Carrier(body, Flagged, []));
    run, events := Extend(run, events, s2, Deliver(0, true), s3);
    var s4 := One(marked.(at := Ready), Carrier(body, Flagged, []));
    run, events := Extend(run, events, s3, Advance(0, true), s4);
    s := One(marked.(at := SizeRead), Carrier(body, Flagged, []));
    run, events := Extend(run, events, s4, Advance(0, true), s);
  }

  /** There is a run in which the only answer is delivered whole, without a timeout, and its requester returns
    size 0. */
  lemma AnswerMissed(body: seq<byte>) returns (run: seq<State>, events: seq<Event>)
    requires body != []
    ensures IsRun(run, events)
    ensures var s := run[|run| - 1];
      && |s.requesters| == |s.receivers| == 1 && s.receivers[0].msg == Message(s.requesters[0].id, body)
      && s.receivers[0].at == Gone && s.receivers[0].contents == body
      && s.requesters[0].at == Returned && !s.requesters[0].timedOut && s.requesters[0].gotSize == 0
  {
    var s;
    run, events, s := SizeReadTooEarly(body);
    var read := Asker(SizeRead, true, 0, Some(0), Some(0));
    var s1 := One(read, Carrier(body, Allocated', Zeros(|body|)));
    run, events := Extend(run, events, s, Deliver(0, true), s1);
    var s2 := One(read.(size := |body|), Carrier(body, Sized, Zeros(|body|)));
    run, events := Extend(run, events, s1, Deliver(0, true), s2);
    var s3 := One(read.(size := |body|), Carrier(body, Copied, body));
    run, events := Extend(run, events, s2, Deliver(0, true), s3);
    var held := read.(at := ReplyRead, size := |body|, gotReply := Some(0));
    var s4 := One(held, Carrier(body, Copied, body));
    run, events := Extend(run, events, s3, Advance(0, true), s4);
    var s5 := One(held.(owner := None), Carrier(body, Unlocked, body));
    run, events := Extend(run, events, s4, Deliver(0, true), s5);
    var s6 := One(held.(owner := None), Carrier(body, Gone, body)).(holder := None);
    run, events := Extend(run, events, s5, Deliver(0, true), s6);
    var s7 := s6.(queue := [], requesters := [held.(owner := None, at := Returned)]);
    run, events := Extend(run, events, s6, Advance(0, true), s7);
  }

  /** And there is a run in which it is delivered and returned whole, without a timeout. */
  lemma AnswerReturned(body: seq<byte>) returns (run: seq<State>, events: seq<Event>)
    requires body != []
    ensures IsRun(run, events)
    ensures var s := run[|run| - 1];
      && |s.requesters| == |s.receivers| == 1 && s.receivers[0].msg == Message(s.requesters[0].id, body)
      && s.receivers[0].at == Gone && s.receivers[0].contents == body
      && s.requesters[0].at == Returned && !s.requesters[0].timedOut
      && s.requesters[0].gotSize == |body| && s.requesters[0].gotReply == Some(0)
  {
    var s;
    run, events, s := SizeStored(body);
    var done := Asker(Waiting, true, |body|, Some(0), Some(0));
    var s1 := One(done, Carrier(body, Copied, body));
    run, events := Extend(run, events, s, Deliver(0, true), s1);
    var s2 := One(done.(owner := None), Carrier(body, Unlocked, body));
    run, events := Extend(run, events, s1, Deliver(0, true), s2);
    var s3 := One(done.(owner := None), Carrier(body, Gone, body)).(holder := None);
    run, events := Extend(run, events, s2, Deliver(0, true), s3);
    var read := done.(owner := None, at := SizeRead, gotSize := |body|);
    var s4 := s3.(requesters := [done.(owner := None, at := Ready)]);
    run, events := Extend(run, events, s3, Advance(0, true), s4);
    var s5 := s3.(requesters := [read]);
    run, events := Extend(run, events, s4, Advance(0, true), s5);
    var s6 := s3.(requesters := [read.(at := ReplyRead, gotReply := Some(0))]);
    run, events := Extend(run, events, s5, Advance(0, true), s6);
    var s7 := s6.(queue := [], requesters := [read.(at := Returned, gotReply := Some(0))]);
    run, events := Extend(run, events, s6, Advance(0, true), s7);
  }

  /** The receiver has stored reply and size, and the requester still waits. */
  lemma SizeStored(body: seq<byte>) returns (run: seq<State>, events: seq<Event>, s: State)
    ensures RunTo(run, events, s)
    ensures s == One(Asker(Waiting, true, |body|, Some(0), Some(0)), Carrier(body, Sized, Zeros(|body|)))
  {
    run, events, s := RequestAnswered(body);
    assert FirstWithId(s, s.queue, 2) == Some(0);
    var waiting := Asker(Waiting, false, 0, None, None);
    var s1 := One(waiting, Carrier(body, Found, []));
    run, events := Extend(run, events, s, Deliver(0, true), s1);
    var s2 := One(waiting.(owner := Some(0)), Carrier(body, Entered, []));
    run, events := Extend(run, events, s1, Deliver(0, true), s2);
    var marked := Asker(Waiting, true, 0, None, Some(0));
    var s3 := One(marked, Carrier(body, Flagged, []));
    run, events := Extend(run, events, s2, Deliver(0, true), s3);
    var s4 := One(marked.(reply := Some(0)), Carrier(body, Allocated', Zeros(|body|)));
    run, events := Extend(run, events, s3, Deliver(0, true), s4);
    s := One(marked.(reply := Some(0), size := |body|), Carrier(body, Sized, Zeros(|body|)));
    run, events := Extend(run, events, s4, Deliver(0, true), s);
  }
}
