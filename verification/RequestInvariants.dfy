/**
 What every step of requesters and receivers keeps.
*/
module RequestInvariants {
  import opened Options
  import opened RequestModel

  predicate InQueue(at: Ask) {
    at in {Linked, Waiting, Expired, Ready, SizeRead, ReplyRead}
  }

  predicate Holding(at: Delivery) {
    at != Arrived && at != Gone
  }

  predicate Owning(at: Delivery) {
    at in {Entered, Flagged, Allocated', Sized, Copied}
  }

  predicate Past(at: Delivery) {
    at in {Allocated', Sized, Copied, Unlocked, Gone}
  }

  predicate PastCopy(at: Delivery) {
    at in {Copied, Unlocked, Gone}
  }

  // ---------------------------------------------------------------- ids and the queue

  ghost predicate Ids(s: State) {
    && s.counter == (if s.requesters == [] then 1 else IssuedId(|s.requesters| - 1))
    && forall k :: 0 <= k < |s.requesters| ==> s.requesters[k].id == IssuedId(k)
  }

  /** The queue lists, once each, the contexts between their own linking and unlinking. */
  ghost predicate Queued(s: State) {
    && (forall i, j :: 0 <= i < j < |s.queue| ==> s.queue[i] != s.queue[j])
    && (forall k :: k in s.queue ==> k < |s.requesters|)
    && (forall k: nat :: k < |s.requesters| ==> (InQueue(s.requesters[k].at) <==> k in s.queue))
  }

  lemma StepIds(s: State, e: Event, s': State)
    requires Ids(s) && Next(s, e, s')
    ensures Ids(s')
  {
    match e
    case Issue =>
      assert s'.counter == IssuedId(|s.requesters|);
    case Arrive(_) =>
    case Advance(k, choice) =>
    case Deliver(r, choice) =>
      assert forall k :: 0 <= k < |s.requesters| ==> s'.requesters[k].id == s.requesters[k].id;
  }

  lemma {:induction false} WithoutRemoves(q: seq<nat>, k: nat)
    requires forall i, j :: 0 <= i < j < |q| ==> q[i] != q[j]
    ensures forall x :: x in Without(q, k) <==> x in q && x != k
    ensures forall i, j :: 0 <= i < j < |Without(q, k)| ==> Without(q, k)[i] != Without(q, k)[j]
  {
    if q != [] {
      assert forall x :: x in q <==> x == q[0] || x in q[1..];
      WithoutRemoves(q[1..], k);
      assert q[0] !in q[1..];
    }
  }

  lemma AdvanceQueued(s: State, k: nat, choice: bool, s': State)
    requires Queued(s) && Next(s, Advance(k, choice), s')
    ensures Queued(s')
  {
    WithoutRemoves(s.queue, k);
    assert InQueue(s.requesters[k].at) <==> k in s.queue;
  }

  lemma DeliverQueued(s: State, r: nat, choice: bool, s': State)
    requires Queued(s) && Next(s, Deliver(r, choice), s')
    ensures Queued(s')
  {
    assert forall k :: 0 <= k < |s.requesters| ==> s'.requesters[k].at == s.requesters[k].at;
  }

  lemma StepQueued(s: State, e: Event, s': State)
    requires Queued(s) && Next(s, e, s')
    ensures Queued(s')
  {
    match e
    case Issue =>
    case Arrive(_) =>
    case Advance(k, choice) => AdvanceQueued(s, k, choice, s');
    case Deliver(r, choice) => DeliverQueued(s, r, choice, s');
  }

  // ---------------------------------------------------------------- locks and targets

  /** The queue's mutex is held by the one receiver that is delivering, whose target is queued. */
  ghost predicate Holders(s: State) {
    && (s.holder.Some? ==> s.holder.value < |s.receivers| && Holding(s.receivers[s.holder.value].at))
    && forall r: nat :: r < |s.receivers| && Holding(s.receivers[r].at) ==>
      s.holder == Some(r) && s.receivers[r].target.Some? && s.receivers[r].target.value in s.queue
  }

  /** A receiver targets a context that bears the id of its message. */
  ghost predicate Targets(s: State) {
    forall r: nat :: r < |s.receivers| ==> Targeted(s, s.receivers[r])
  }

  ghost predicate Targeted(s: State, x: Receiver) {
    && (x.at == Arrived ==> x.target == None)
    && (x.target.Some? ==>
      x.target.value < |s.requesters| && s.requesters[x.target.value].id == x.msg.id)
  }

  /** A context's mutex is held exactly by the receiver that is storing into it. */
  ghost predicate Owners(s: State) {
    forall k: nat, r: nat :: k < |s.requesters| ==>
      (s.requesters[k].owner == Some(r) <==> OwnedBy(s, k, r))
  }

  ghost predicate OwnedBy(s: State, k: nat, r: nat) {
    r < |s.receivers| && Owning(s.receivers[r].at) && s.receivers[r].target == Some(k)
  }

  lemma OwnerHolds(s: State, k: nat)
    requires Owners(s) && Holders(s) && k < |s.requesters| && s.requesters[k].owner.Some?
    ensures s.holder == s.requesters[k].owner
    ensures OwnedBy(s, k, s.requesters[k].owner.value)
  {
    assert OwnedBy(s, k, s.requesters[k].owner.value);
  }

  lemma {:induction false} FirstIsQueued(s: State, q: seq<nat>, id: nat)
    ensures FirstWithId(s, q, id).Some? ==>
      var t := FirstWithId(s, q, id).value;
      t in q && t < |s.requesters| && s.requesters[t].id == id
    ensures FirstWithId(s, q, id) == None ==>
      forall k :: k in q && k < |s.requesters| ==> s.requesters[k].id != id
  {
    if q != [] {
      FirstIsQueued(s, q[1..], id);
      assert forall x :: x in q <==> x == q[0] || x in q[1..];
    }
  }

  lemma AdvanceHolders(s: State, k: nat, choice: bool, s': State)
    requires Queued(s) && Holders(s) && Next(s, Advance(k, choice), s')
    ensures Holders(s')
  {
    WithoutRemoves(s.queue, k);
  }

  lemma DeliverHolders(s: State, r: nat, choice: bool, s': State)
    requires Holders(s) && Next(s, Deliver(r, choice), s')
    ensures Holders(s')
  {
    FirstIsQueued(s, s.queue, s.receivers[r].msg.id);
    assert s.receivers[r].at == Arrived || s.holder == Some(r);
  }

  lemma StepHolders(s: State, e: Event, s': State)
    requires Queued(s) && Holders(s) && Next(s, e, s')
    ensures Holders(s')
  {
    match e
    case Issue =>
    case Arrive(_) =>
    case Advance(k, choice) => AdvanceHolders(s, k, choice, s');
    case Deliver(r, choice) => DeliverHolders(s, r, choice, s');
  }

  lemma StepTargets(s: State, e: Event, s': State)
    requires Targets(s) && Next(s, e, s')
    ensures Targets(s')
  {
    match e
    case Issue =>
    case Arrive(_) =>
    case Advance(k, choice) =>
    case Deliver(r, choice) =>
      FirstIsQueued(s, s.queue, s.receivers[r].msg.id);
  }

  lemma IssueOwners(s: State, s': State)
    requires Owners(s) && Targets(s) && Next(s, Issue, s')
    ensures Owners(s')
  {
    forall k: nat, r: nat | k <= |s.requesters|
      ensures s'.requesters[k].owner == Some(r) <==> OwnedBy(s', k, r)
    {
      if k < |s.requesters| {
        assert OwnedBy(s', k, r) <==> OwnedBy(s, k, r);
      } else if r < |s.receivers| {
        assert Targeted(s, s.receivers[r]);
      }
    }
  }

  lemma DeliverOwners(s: State, d: nat, choice: bool, s': State)
    requires Owners(s) && Holders(s) && Targets(s) && Next(s, Deliver(d, choice), s')
    ensures Owners(s')
  {
    assert Targeted(s, s.receivers[d]);
    forall k: nat, r: nat | k < |s.requesters| ensures s'.requesters[k].owner == Some(r) <==> OwnedBy(s', k, r) {
      assert s.requesters[k].owner == Some(r) <==> OwnedBy(s, k, r);
      assert s.requesters[k].owner == Some(d) <==> OwnedBy(s, k, d);
    }
  }

  lemma StepOwners(s: State, e: Event, s': State)
    requires Owners(s) && Holders(s) && Targets(s) && Next(s, e, s')
    ensures Owners(s')
  {
    if e.Issue? {
      IssueOwners(s, s');
    } else if e.Deliver? {
      DeliverOwners(s, e.r, e.choice, s');
    } else {
      forall k: nat, r: nat | k < |s.requesters| ensures s'.requesters[k].owner == Some(r) <==> OwnedBy(s', k, r) {
        assert OwnedBy(s', k, r) <==> OwnedBy(s, k, r);
      }
    }
  }

  // ---------------------------------------------------------------- replies and sizes

  /** Buffer r was allocated by a receiver that targets context k. */
  ghost predicate Supplies(s: State, k: nat, r: nat) {
    r < |s.receivers| && s.receivers[r].target == Some(k) && Past(s.receivers[r].at) && !s.receivers[r].failed
  }

  /** Receiver r has stored this size into context k. */
  ghost predicate SizedBy(s: State, k: nat, r: nat, size: nat) {
    Supplies(s, k, r) && s.receivers[r].at != Allocated' && |s.receivers[r].msg.body| == size
  }

  ghost predicate Replies(s: State) {
    forall k: nat :: k < |s.requesters| ==> Replied(s, k, s.requesters[k])
  }

  ghost predicate Replied(s: State, k: nat, x: Requester) {
    HasReply(s, k, x.reply) && HasReply(s, k, x.gotReply) && HasSize(s, k, x.size) && HasSize(s, k, x.gotSize)
  }

  ghost predicate HasReply(s: State, k: nat, reply: Option<nat>) {
    reply.Some? ==> Supplies(s, k, reply.value)
  }

  ghost predicate HasSize(s: State, k: nat, size: nat) {
    size != 0 ==> exists r :: SizedBy(s, k, r, size)
  }

  /** A buffer is zero, and as long as the message, from its allocation on, and holds its bytes from the copy on. */
  ghost predicate Copies(s: State) {
    forall r: nat :: r < |s.receivers| ==> CopyState(s.receivers[r])
  }

  ghost predicate CopyState(x: Receiver) {
    && (x.at in {Allocated', Sized} ==> x.contents == Zeros(|x.msg.body|) && !x.failed)
    && (x.at in {Arrived, Found, Entered, Flagged} ==> !x.failed)
    && (PastCopy(x.at) && x.target.Some? && !x.failed ==> x.contents == x.msg.body)
  }

  lemma StepCopies(s: State, e: Event, s': State)
    requires Copies(s) && Targets(s) && Next(s, e, s')
    ensures Copies(s')
  {
    match e
    case Issue =>
    case Arrive(_) =>
    case Advance(k, choice) =>
    case Deliver(r, choice) =>
      assert Targeted(s, s.receivers[r]) && CopyState(s.receivers[r]);
  }

  /** Nothing a receiver has done to a context is undone. */
  lemma SuppliesPersist(s: State, e: Event, s': State)
    requires Next(s, e, s') && Copies(s)
    ensures forall k, r :: Supplies(s, k, r) ==> Supplies(s', k, r)
    ensures forall k, r, size :: SizedBy(s, k, r, size) ==> SizedBy(s', k, r, size)
  {
    match e
    case Issue =>
    case Arrive(_) =>
    case Advance(k, choice) =>
    case Deliver(r, choice) =>
      assert CopyState(s.receivers[r]);
  }

  lemma RepliedPersists(s: State, e: Event, s': State, k: nat, x: Requester)
    requires Next(s, e, s') && Copies(s) && Replied(s, k, x)
    ensures Replied(s', k, x)
  {
    SizePersists(s, e, s', k, x.size);
    SizePersists(s, e, s', k, x.gotSize);
    SuppliesPersist(s, e, s');
  }

  lemma SizePersists(s: State, e: Event, s': State, k: nat, size: nat)
    requires Next(s, e, s') && Copies(s) && HasSize(s, k, size)
    ensures HasSize(s', k, size)
  {
    SuppliesPersist(s, e, s');
    if size != 0 {
      var r :| SizedBy(s, k, r, size);
      assert SizedBy(s', k, r, size);
    }
  }

  /** The context of k after a step. */
  lemma StepContext(s: State, e: Event, s': State, k: nat)
    requires Next(s, e, s') && k < |s.requesters|
    ensures k < |s'.requesters|
    ensures s'.requesters[k] ==
      if e.Advance? && e.k == k then AskStep(s.requesters[k], e.choice)
      else if e.Deliver? && s.receivers[e.r].target == Some(k) then
        DeliverTo(s.requesters[k], s.receivers[e.r], e.r, e.choice)
      else s.requesters[k]
  {
  }

  /** The store of a receiver into its target. */
  lemma DeliverReplied(s: State, r: nat, choice: bool, s': State, k: nat)
    requires Next(s, Deliver(r, choice), s') && Copies(s) && Targets(s) && Replies(s)
    requires k < |s.requesters|
    ensures Replied(s', k, s'.requesters[k])
  {
    var x := s.receivers[r];
    StepContext(s, Deliver(r, choice), s', k);
    RepliedPersists(s, Deliver(r, choice), s', k, s.requesters[k]);
    if x.target == Some(k) {
      TargetReplied(s, r, choice, s', k);
    }
  }

  lemma TargetReplied(s: State, r: nat, choice: bool, s': State, k: nat)
    requires Next(s, Deliver(r, choice), s') && Copies(s) && k < |s.requesters|
    requires s.receivers[r].target == Some(k) && Replied(s', k, s.requesters[k])
    ensures Replied(s', k, DeliverTo(s.requesters[k], s.receivers[r], r, choice))
  {
    var c, x := s.requesters[k], s.receivers[r];
    assert CopyState(x);
    if x.at == Flagged {
      assert choice ==> Supplies(s', k, r);
      WithReply(s', k, c, if choice then Some(r) else None);
    } else if x.at == Allocated' {
      assert SizedBy(s', k, r, |x.msg.body|);
      WithSize(s', k, c, r, |x.msg.body|);
    } else {
      OtherStores(s', k, c, x, r, choice);
    }
  }

  lemma WithReply(s: State, k: nat, c: Requester, reply: Option<nat>)
    requires Replied(s, k, c) && (reply.Some? ==> Supplies(s, k, reply.value))
    ensures Replied(s, k, c.(reply := reply))
  {
  }

  lemma WithSize(s: State, k: nat, c: Requester, r: nat, size: nat)
    requires Replied(s, k, c) && SizedBy(s, k, r, size)
    ensures Replied(s, k, c.(size := size))
  {
  }

  lemma OtherStores(s: State, k: nat, c: Requester, x: Receiver, r: nat, choice: bool)
    requires Replied(s, k, c) && x.at != Flagged && x.at != Allocated'
    ensures Replied(s, k, DeliverTo(c, x, r, choice))
  {
  }

  lemma AdvanceReplied(s: State, k: nat, x: Requester, choice: bool)
    requires Replied(s, k, x)
    ensures Replied(s, k, AskStep(x, choice))
  {
  }

  lemma StepReplied(s: State, e: Event, s': State, k: nat)
    requires Replies(s) && Copies(s) && Targets(s) && Next(s, e, s') && k < |s.requesters|
    ensures k < |s'.requesters| && Replied(s', k, s'.requesters[k])
  {
    if e.Deliver? {
      DeliverReplied(s, e.r, e.choice, s', k);
    } else {
      StepContext(s, e, s', k);
      RepliedPersists(s, e, s', k, s.requesters[k]);
      if e.Advance? && e.k == k {
        AdvanceReplied(s', k, s.requesters[k], e.choice);
      }
    }
  }

  lemma StepReplies(s: State, e: Event, s': State)
    requires Replies(s) && Copies(s) && Targets(s) && Next(s, e, s')
    ensures Replies(s')
  {
    forall k: nat | k < |s'.requesters| ensures Replied(s', k, s'.requesters[k]) {
      if k < |s.requesters| {
        StepReplied(s, e, s', k);
      }
    }
  }

  // ---------------------------------------------------------------- a context seen done without a timeout

  /** Receiver r targets k and has marked it done. */
  ghost predicate Marked(s: State, k: nat, r: nat) {
    && r < |s.receivers| && s.receivers[r].target == Some(k)
    && s.receivers[r].at in {Flagged, Allocated', Sized, Copied, Unlocked, Gone}
  }

  /** Receiver r is why k shows done while its size is 0: it is between the two stores, or its allocation
    failed, or its message is empty. */
  ghost predicate Withheld(s: State, k: nat, r: nat) {
    Marked(s, k, r) &&
    (s.receivers[r].at in {Flagged, Allocated'} || s.receivers[r].failed || s.receivers[r].msg.body == [])
  }

  ghost predicate Answers(s: State) {
    forall k: nat :: k < |s.requesters| ==> Answered(s, k, s.requesters[k])
  }

  ghost predicate Answered(s: State, k: nat, x: Requester) {
    x.answered && !x.timedOut && x.size == 0 ==> exists r :: Withheld(s, k, r)
  }

  lemma WithheldPersists(s: State, e: Event, s': State, k: nat, r: nat)
    requires Next(s, e, s') && Withheld(s, k, r) && Targets(s) && k < |s.requesters|
    ensures Withheld(s', k, r) || s'.requesters[k].size != 0
  {
    assert Targeted(s, s.receivers[r]);
  }

  /** Without a timeout, only a receiver's own stores make a context done or give it a size. */
  lemma StepAnswers(s: State, e: Event, s': State)
    requires Answers(s) && Targets(s) && TimeoutsMarked(s) && Next(s, e, s')
    ensures Answers(s')
  {
    forall k: nat | k < |s'.requesters| ensures Answered(s', k, s'.requesters[k]) {
      if k < |s.requesters| {
        AnsweredStep(s, e, s', k);
      }
    }
  }

  ghost predicate TimeoutsMarked(s: State) {
    forall k: nat :: k < |s.requesters| && s.requesters[k].at == Expired ==> s.requesters[k].timedOut
  }

  lemma AnsweredStep(s: State, e: Event, s': State, k: nat)
    requires Answers(s) && Targets(s) && TimeoutsMarked(s) && Next(s, e, s') && k < |s.requesters|
    ensures Answered(s', k, s'.requesters[k])
  {
    assert Answered(s, k, s.requesters[k]);
    if s.requesters[k].answered && !s.requesters[k].timedOut && s.requesters[k].size == 0 {
      var r :| Withheld(s, k, r);
      WithheldPersists(s, e, s', k, r);
    }
    if e.Deliver? && s.receivers[e.r].target == Some(k) {
      var x := s.receivers[e.r];
      assert Targeted(s, x);
      if x.at in {Entered, Allocated'} {
        assert s'.requesters[k].size == 0 ==> Withheld(s', k, e.r);
      }
    }
  }

  lemma StepTimeouts(s: State, e: Event, s': State)
    requires TimeoutsMarked(s) && Next(s, e, s')
    ensures TimeoutsMarked(s')
  {
    match e
    case Issue =>
    case Arrive(_) =>
    case Advance(k, choice) =>
    case Deliver(r, choice) =>
  }

  // ---------------------------------------------------------------- at most one answer to an id

  /** No two messages taken in bear the same id. */
  ghost predicate AnsweredOnce(s: State) {
    forall r: nat, r': nat :: r < r' < |s.receivers| ==> s.receivers[r].msg.id != s.receivers[r'].msg.id
  }

  lemma AnsweredOnceBefore(s: State, e: Event, s': State)
    requires Next(s, e, s') && AnsweredOnce(s')
    ensures AnsweredOnce(s)
  {
    forall r: nat, r': nat | r < r' < |s.receivers|
      ensures s.receivers[r].msg.id != s.receivers[r'].msg.id
    {
      assert s.receivers[r].msg == s'.receivers[r].msg && s.receivers[r'].msg == s'.receivers[r'].msg;
    }
  }

  /** A context with a size has a reply, and so does a requester that has read a size. */
  ghost predicate Paired(x: Requester) {
    && (x.size != 0 ==> x.reply.Some?)
    && (x.gotSize != 0 && x.at == SizeRead ==> x.reply.Some?)
    && (x.gotSize != 0 && x.at in {ReplyRead, Returned} ==> x.gotReply.Some?)
    && (x.gotSize != 0 ==> x.at in {SizeRead, ReplyRead, Returned})
  }

  ghost predicate Pairs(s: State) {
    forall k: nat :: k < |s.requesters| ==> Paired(s.requesters[k])
  }

  lemma SameReceiver(s: State, k: nat, r: nat, r': nat)
    requires Targets(s) && AnsweredOnce(s) && r < |s.receivers| && r' < |s.receivers|
    requires s.receivers[r].target == s.receivers[r'].target == Some(k)
    ensures r == r'
  {
    assert Targeted(s, s.receivers[r]) && Targeted(s, s.receivers[r']);
  }

  /** If receiver r is at work on k, nothing else has given k a size. */
  lemma OnlyReceiver(s: State, k: nat, r: nat)
    requires Targets(s) && Replies(s) && AnsweredOnce(s)
    requires k < |s.requesters| && r < |s.receivers| && s.receivers[r].target == Some(k)
    requires s.receivers[r].at == Flagged
    ensures s.requesters[k].size == 0 && s.requesters[k].gotSize == 0
  {
    assert Replied(s, k, s.requesters[k]);
    forall r': nat ensures !Supplies(s, k, r') {
      if r' < |s.receivers| && s.receivers[r'].target == Some(k) {
        SameReceiver(s, k, r, r');
      }
    }
  }

  /** A receiver about to store the size has its buffer in the context. */
  lemma DeliverPaired(s: State, r: nat, choice: bool, k: nat)
    requires Pairs(s) && Targets(s) && Replies(s) && Attached(s) && AnsweredOnce(s)
    requires r < |s.receivers| && s.receivers[r].target == Some(k) && k < |s.requesters|
    ensures Paired(DeliverTo(s.requesters[k], s.receivers[r], r, choice))
  {
    assert Paired(s.requesters[k]);
    if s.receivers[r].at == Flagged {
      OnlyReceiver(s, k, r);
    }
  }

  lemma AdvancePaired(x: Requester, choice: bool)
    requires Paired(x)
    ensures Paired(AskStep(x, choice))
  {
  }

  lemma StepPaired(s: State, e: Event, s': State, k: nat)
    requires Pairs(s) && Targets(s) && Replies(s) && Attached(s) && AnsweredOnce(s) && Next(s, e, s')
    requires k < |s.requesters|
    ensures k < |s'.requesters| && Paired(s'.requesters[k])
  {
    StepContext(s, e, s', k);
    if e.Advance? && e.k == k {
      AdvancePaired(s.requesters[k], e.choice);
    } else if e.Deliver? && s.receivers[e.r].target == Some(k) {
      DeliverPaired(s, e.r, e.choice, k);
    }
  }

  lemma StepPairs(s: State, e: Event, s': State)
    requires Pairs(s) && Targets(s) && Replies(s) && Attached(s) && AnsweredOnce(s) && Next(s, e, s')
    ensures Pairs(s')
  {
    forall k: nat | k < |s'.requesters| ensures Paired(s'.requesters[k]) {
      if k < |s.requesters| {
        StepPaired(s, e, s', k);
      }
    }
  }

  /** While a receiver holds the mutex between its two stores, its buffer stays in the context. */
  ghost predicate Attached(s: State) {
    forall r: nat :: r < |s.receivers| && s.receivers[r].at == Allocated' ==>
      s.receivers[r].target.Some? && s.receivers[r].target.value < |s.requesters| &&
      s.requesters[s.receivers[r].target.value].reply == Some(r)
  }

  lemma AdvanceAttached(s: State, k: nat, choice: bool, s': State)
    requires Attached(s) && Owners(s) && Next(s, Advance(k, choice), s')
    ensures Attached(s')
  {
    forall r: nat | r < |s.receivers| && s.receivers[r].at == Allocated'
      ensures s'.requesters[s.receivers[r].target.value].reply == Some(r)
    {
      assert OwnedBy(s, s.receivers[r].target.value, r);
    }
  }

  lemma DeliverAttached(s: State, d: nat, choice: bool, s': State)
    requires Attached(s) && Holders(s) && Targets(s) && Next(s, Deliver(d, choice), s')
    ensures Attached(s')
  {
    assert Targeted(s, s.receivers[d]);
  }

  lemma StepAttached(s: State, e: Event, s': State)
    requires Attached(s) && Holders(s) && Owners(s) && Targets(s) && Next(s, e, s')
    ensures Attached(s')
  {
    match e
    case Issue =>
    case Arrive(_) =>
    case Advance(k, choice) => AdvanceAttached(s, k, choice, s');
    case Deliver(d, choice) => DeliverAttached(s, d, choice, s');
  }

  // ---------------------------------------------------------------- every run

  /** A requester that has unlinked has in hand only buffers whose receiver is through with the copy. */
  ghost predicate Complete(s: State) {
    forall k: nat :: k < |s.requesters| && s.requesters[k].at == Returned && s.requesters[k].gotReply.Some? ==>
      var r := s.requesters[k].gotReply.value;
      r < |s.receivers| && PastCopy(s.receivers[r].at)
  }

  lemma AdvanceComplete(s: State, k: nat, choice: bool, s': State)
    requires Complete(s) && Holders(s) && Replies(s) && Next(s, Advance(k, choice), s')
    ensures Complete(s')
  {
    assert Replied(s, k, s.requesters[k]);
  }

  lemma DeliverComplete(s: State, r: nat, choice: bool, s': State)
    requires Complete(s) && Next(s, Deliver(r, choice), s')
    ensures Complete(s')
  {
    assert forall k :: 0 <= k < |s.requesters| ==>
      s'.requesters[k].at == s.requesters[k].at && s'.requesters[k].gotReply == s.requesters[k].gotReply;
    assert PastCopy(s.receivers[r].at) ==> PastCopy(s'.receivers[r].at);
  }

  lemma StepComplete(s: State, e: Event, s': State)
    requires Complete(s) && Holders(s) && Replies(s) && Next(s, e, s')
    ensures Complete(s')
  {
    match e
    case Issue =>
    case Arrive(_) =>
    case Advance(k, choice) => AdvanceComplete(s, k, choice, s');
    case Deliver(r, choice) => DeliverComplete(s, r, choice, s');
  }

  ghost predicate Inv(s: State) {
    && Ids(s) && Queued(s) && Holders(s) && Targets(s) && Owners(s) && Copies(s) && Replies(s)
    && TimeoutsMarked(s) && Answers(s) && Attached(s) && Complete(s)
    && (AnsweredOnce(s) ==> Pairs(s))
  }

  lemma StepInv(s: State, e: Event, s': State)
    requires Inv(s) && Next(s, e, s')
    ensures Inv(s')
  {
    StepIds(s, e, s');
    StepQueued(s, e, s');
    StepHolders(s, e, s');
    StepTargets(s, e, s');
    StepOwners(s, e, s');
    StepCopies(s, e, s');
    StepReplies(s, e, s');
    StepTimeouts(s, e, s');
    StepAnswers(s, e, s');
    StepAttached(s, e, s');
    StepComplete(s, e, s');
    if AnsweredOnce(s') {
      AnsweredOnceBefore(s, e, s');
      StepPairs(s, e, s');
    }
  }

  lemma {:induction false} RunInv(run: seq<State>, events: seq<Event>, n: nat)
    requires IsRun(run, events) && n < |run|
    ensures Inv(run[n])
  {
    if n > 0 {
      RunInv(run, events, n - 1);
      assert NextAt(run, events, n - 1);
      StepInv(run[n - 1], events[n - 1], run[n]);
    }
  }
}
