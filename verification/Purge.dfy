/**
 The purge of expired registrations: erase/remove_if over the deque of one event, in place, with a predicate
 that drops a reference and deletes the waiter with its last one.

 It runs under the event's mutex; a waiter that stops waiting meanwhile is a matter of the transition system.
*/
module Purge {

  class Waiter {
    var stillWaiting: bool
    var refCount: int
    var deletes: nat  // history: how often the object was deleted

    constructor (stillWaiting: bool, refCount: int)
      ensures this.stillWaiting == stillWaiting && this.refCount == refCount && deletes == 0
    {
      this.stillWaiting := stillWaiting;
      this.refCount := refCount;
      deletes := 0;
    }
  }

  datatype Registration = Registration(waiter: Waiter, index: nat)

  /** The predicate given to remove_if. The waiter must not have been deleted. */
  method RemoveExpiredWaitHelper(wait: Registration) returns (remove: bool)
    requires wait.waiter.refCount > 0 && wait.waiter.deletes == 0
    modifies wait.waiter
    ensures remove == !old(wait.waiter.stillWaiting) && wait.waiter.stillWaiting == old(wait.waiter.stillWaiting)
    ensures wait.waiter.refCount == old(wait.waiter.refCount) - if remove then 1 else 0
    ensures wait.waiter.deletes == if wait.waiter.refCount == 0 then 1 else 0
  {
    if wait.waiter.stillWaiting {
      return false;
    }
    wait.waiter.refCount := wait.waiter.refCount - 1;
    if wait.waiter.refCount == 0 {
      wait.waiter.deletes := wait.waiter.deletes + 1;
    }
    return true;
  }

  // ---------------------------------------------------------------- the specification

  ghost function Waiters(q: seq<Registration>): set<Waiter> {
    set r | r in q :: r.waiter
  }

  ghost function Expired(q: seq<Registration>): set<Waiter>
    reads Waiters(q)
  {
    set r | r in q && !r.waiter.stillWaiting :: r.waiter
  }

  /** The entries whose waiter is not in the set, in order. */
  ghost function Kept(q: seq<Registration>, gone: set<Waiter>): seq<Registration> {
    if q == [] then []
    else
      var r := q[|q| - 1];
      Kept(q[..|q| - 1], gone) + if r.waiter in gone then [] else [r]
  }

  /** How many entries name the waiter. */
  ghost function Entries(q: seq<Registration>, w: Waiter): nat {
    if q == [] then 0 else Entries(q[..|q| - 1], w) + if q[|q| - 1].waiter == w then 1 else 0
  }

  lemma {:induction false} EntriesSplit(q: seq<Registration>, i: nat, w: Waiter)
    requires i < |q|
    ensures Entries(q[..i + 1], w) == Entries(q[..i], w) + if q[i].waiter == w then 1 else 0
    ensures Entries(q[..i + 1], w) <= Entries(q, w)
  {
    assert q[..i + 1][..i] == q[..i];
    if i + 1 < |q| {
      var p := q[..|q| - 1];
      EntriesSplit(p, i, w);
      assert p[..i + 1] == q[..i + 1];
    } else {
      assert q[..i + 1] == q;
    }
  }

  lemma KeptSplit(q: seq<Registration>, i: nat, gone: set<Waiter>)
    requires i < |q|
    ensures Kept(q[..i + 1], gone) == Kept(q[..i], gone) + if q[i].waiter in gone then [] else [q[i]]
  {
    assert q[..i + 1][..i] == q[..i];
  }

  /** What is kept is what is not expired: no entry of a waiter in the set is left, every other one is. */
  lemma {:induction false} KeptEntries(q: seq<Registration>, gone: set<Waiter>, w: Waiter)
    ensures Entries(Kept(q, gone), w) == if w in gone then 0 else Entries(q, w)
  {
    if q != [] {
      var r, p := q[|q| - 1], q[..|q| - 1];
      KeptEntries(p, gone, w);
      if r.waiter !in gone {
        assert Kept(q, gone)[..|Kept(q, gone)| - 1] == Kept(p, gone);
      } else {
        assert Kept(q, gone) == Kept(p, gone);
      }
    }
  }

  /** Every waiter has a reference for each entry, and none was deleted. */
  ghost predicate Referenced(q: seq<Registration>)
    reads Waiters(q)
  {
    forall w :: w in Waiters(q) ==> w.deletes == 0 && w.refCount >= Entries(q, w)
  }

  lemma {:induction false} NamedHasEntry(q: seq<Registration>, w: Waiter)
    ensures w in Waiters(q) <==> Entries(q, w) > 0
  {
    if q != [] {
      var p := q[..|q| - 1];
      assert q == p + [q[|q| - 1]];
      NamedHasEntry(p, w);
    }
  }

  /** Where a waiter stands when the first i entries have been looked at; `refs` was its count before. */
  ghost predicate Progress(q: seq<Registration>, i: nat, gone: set<Waiter>, w: Waiter, refs: int)
    requires i <= |q|
    reads w
  {
    && (w in gone <==> !w.stillWaiting)
    && w.refCount == refs - (if w in gone then Entries(q[..i], w) else 0)
    && w.deletes == if w.refCount == 0 then 1 else 0
  }

  class Event {
    var registeredWaits: seq<Registration>

    constructor (waits: seq<Registration>)
      ensures registeredWaits == waits
    {
      registeredWaits := waits;
    }

    /** Keeps the entries still waited for, in order, drops one reference for each of the others, and deletes
      exactly the waiters whose last reference that was. */
    method PurgeExpired()
      requires Referenced(registeredWaits)
      modifies this, Waiters(registeredWaits)
      ensures registeredWaits == Kept(old(registeredWaits), old(Expired(registeredWaits)))
      ensures forall w :: w in old(Waiters(registeredWaits)) ==>
        && w.stillWaiting == old(w.stillWaiting)
        && w.refCount == old(w.refCount) -
             (if old(w.stillWaiting) then 0 else Entries(old(registeredWaits), w))
        && w.deletes == if w.refCount == 0 then 1 else 0
      ensures Referenced(registeredWaits)
    {
      ghost var q, gone := registeredWaits, Expired(registeredWaits);
      forall w | w in Waiters(q) ensures w.refCount > 0 {
        NamedHasEntry(q, w);
      }
      var k := RemoveIf();
      assert q[..|q|] == q;
      registeredWaits := registeredWaits[..k];
      forall w | w in Waiters(registeredWaits) ensures w.deletes == 0 && w.refCount >= Entries(registeredWaits, w) {
        NamedHasEntry(registeredWaits, w);
        KeptEntries(q, gone, w);
        NamedHasEntry(q, w);
      }
    }

    /** Moves the entries to keep to the front, and returns how many there are. */
    method RemoveIf() returns (k: nat)
      requires Referenced(registeredWaits)
      requires forall w :: w in Waiters(registeredWaits) ==> w.refCount > 0
      modifies this, Waiters(registeredWaits)
      ensures k <= |registeredWaits|
      ensures registeredWaits[..k] == Kept(old(registeredWaits), old(Expired(registeredWaits)))
      ensures forall w :: w in old(Waiters(registeredWaits)) ==>
        Progress(old(registeredWaits), |old(registeredWaits)|, old(Expired(registeredWaits)), w, old(w.refCount))
      ensures forall w :: w in old(Waiters(registeredWaits)) ==> w.stillWaiting == old(w.stillWaiting)
    {
      ghost var q, gone := registeredWaits, Expired(registeredWaits);
      ghost var refs := map w | w in Waiters(q) :: w.refCount;
      var i := 0;
      k := 0;
      while i < |registeredWaits|
        invariant |registeredWaits| == |q| && 0 <= k <= i <= |q|
        invariant registeredWaits[..k] == Kept(q[..i], gone) && registeredWaits[i..] == q[i..]
        invariant forall w :: w in Waiters(q) ==> Progress(q, i, gone, w, refs[w])
      {
        var wait := registeredWaits[i];
        Compacted(registeredWaits, q, i, k, gone);
        NextEntry(q, i, gone, refs);
        var remove := RemoveExpiredWaitHelper(wait);
        assert Progress(q, i + 1, gone, wait.waiter, refs[wait.waiter]);
        forall w | w in Waiters(q) && w != wait.waiter ensures Progress(q, i + 1, gone, w, refs[w]) {
        }
        if !remove {
          registeredWaits := registeredWaits[k := wait];
          k := k + 1;
        }
        i := i + 1;
      }
      assert q[..i] == q;
    }
  }

  /** One more entry is kept, by moving it down, or passed over. */
  lemma Compacted(waits: seq<Registration>, q: seq<Registration>, i: nat, k: nat, gone: set<Waiter>)
    requires |waits| == |q| && k <= i < |q| && waits[..k] == Kept(q[..i], gone) && waits[i..] == q[i..]
    ensures waits[i] == q[i] && waits[i + 1..] == q[i + 1..]
    ensures q[i].waiter in gone ==> waits[..k] == Kept(q[..i + 1], gone)
    ensures q[i].waiter !in gone ==>
      var moved := waits[k := waits[i]];
      moved[..k + 1] == Kept(q[..i + 1], gone) && moved[i + 1..] == q[i + 1..]
  {
    assert waits[i] == waits[i..][0] == q[i..][0];
    assert waits[i + 1..] == waits[i..][1..] && q[i + 1..] == q[i..][1..];
    KeptSplit(q, i, gone);
    var moved := waits[k := waits[i]];
    assert moved[..k + 1] == waits[..k] + [waits[i]];
    assert moved[i + 1..] == waits[i + 1..];
  }

  /** The next entry's waiter is alive, and what its entries come to with it. */
  lemma NextEntry(q: seq<Registration>, i: nat, gone: set<Waiter>, refs: map<Waiter, int>)
    requires i < |q| && forall w :: w in Waiters(q) ==> w in refs && refs[w] >= Entries(q, w)
    requires forall w :: w in Waiters(q) ==> Progress(q, i, gone, w, refs[w])
    ensures q[i].waiter in Waiters(q) && q[i].waiter.refCount > 0 && q[i].waiter.deletes == 0
    ensures forall w :: w in Waiters(q) ==>
      Entries(q[..i + 1], w) == Entries(q[..i], w) + if q[i].waiter == w then 1 else 0
  {
    forall w | w in Waiters(q)
      ensures Entries(q[..i + 1], w) == Entries(q[..i], w) + if q[i].waiter == w then 1 else 0
      ensures Entries(q[..i + 1], w) <= Entries(q, w)
    {
      EntriesSplit(q, i, w);
    }
    assert q[i] in q;
  }
}
