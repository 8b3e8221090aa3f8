/**
 The Win32 form of the event library: a 64-bit timeout served by waits that take 32 bits of milliseconds, of
 which the largest value means for ever.
*/
module Timeouts {
  import opened Bytes

  const WAIT_INFINITE: nat := 0xffff_ffff_ffff_ffff
  const INFINITE: nat := 0xffff_ffff
  const WAIT_UNIT: nat := INFINITE - 1

  const WAIT_OBJECT_0: nat := 0
  const WAIT_ABANDONED: nat := 128
  const WAIT_TIMEOUT: nat := 258

  /** The milliseconds of all the waits together. */
  function Sum(waits: seq<nat>): nat {
    if waits == [] then 0 else Sum(waits[..|waits| - 1]) + waits[|waits| - 1]
  }

  /** `waits` and `answers` list the timeouts of the waits made and what they returned, which is up to the
    system. */
  method WaitForEvent(milliseconds: nat, lastError: nat) returns (rc: nat, waits: seq<nat>, answers: seq<nat>)
    requires milliseconds <= WAIT_INFINITE
    ensures 1 <= |waits| == |answers| <= WaitsNeeded(milliseconds)
    ensures waits == Waits(milliseconds)[..|waits|]
    ensures forall i :: 0 <= i < |waits| - 1 ==> answers[i] == WAIT_TIMEOUT
    ensures |waits| < WaitsNeeded(milliseconds) ==> answers[|waits| - 1] != WAIT_TIMEOUT
    ensures var result := answers[|waits| - 1];
      rc == if result in {WAIT_OBJECT_0, WAIT_ABANDONED} then 0
            else if result == WAIT_TIMEOUT then WAIT_TIMEOUT else lastError
  {
    var result: nat;
    if milliseconds == WAIT_INFINITE || milliseconds / TWO_32 == 0 {
      result := *;
      waits, answers := [milliseconds % TWO_32], [result];
    } else {
      var rounds, remainder := milliseconds / WAIT_UNIT, milliseconds % WAIT_UNIT;
      assert Waits(milliseconds) == [remainder] + seq(rounds, _ => WAIT_UNIT);
      result, waits, answers := WaitInRounds(remainder, rounds);
    }
    rc := if result == WAIT_OBJECT_0 || result == WAIT_ABANDONED then 0
          else if result == WAIT_TIMEOUT then WAIT_TIMEOUT else lastError;
  }

  /** The remainder first, then whole units until the rounds are used up. */
  method WaitInRounds(remainder: nat, rounds: nat) returns (result: nat, waits: seq<nat>, answers: seq<nat>)
    ensures 1 <= |waits| == |answers| <= 1 + rounds && result == answers[|waits| - 1]
    ensures waits == ([remainder] + seq(rounds, _ => WAIT_UNIT))[..|waits|]
    ensures forall i :: 0 <= i < |waits| - 1 ==> answers[i] == WAIT_TIMEOUT
    ensures |waits| < 1 + rounds ==> result != WAIT_TIMEOUT
  {
    result := *;
    waits, answers := [remainder], [result];
    var left: nat := rounds;
    while result == WAIT_TIMEOUT && left != 0
      invariant left <= rounds && |waits| == |answers| == 1 + rounds - left
      invariant result == answers[|waits| - 1]
      invariant waits == ([remainder] + seq(rounds, _ => WAIT_UNIT))[..|waits|]
      invariant forall i :: 0 <= i < |waits| - 1 ==> answers[i] == WAIT_TIMEOUT
      decreases left
    {
      left := left - 1;
      result := *;
      waits, answers := waits + [WAIT_UNIT], answers + [result];
    }
  }

  function WaitsNeeded(milliseconds: nat): (n: nat)
    requires milliseconds <= WAIT_INFINITE
    ensures n >= 1
  {
    if milliseconds == WAIT_INFINITE || milliseconds < TWO_32 then 1 else 1 + milliseconds / WAIT_UNIT
  }

  /** The timeouts of the waits when each of them times out. */
  function Waits(milliseconds: nat): (w: seq<nat>)
    requires milliseconds <= WAIT_INFINITE
    ensures |w| == WaitsNeeded(milliseconds)
  {
    if WaitsNeeded(milliseconds) == 1 then [milliseconds % TWO_32]
    else [milliseconds % WAIT_UNIT] + seq(milliseconds / WAIT_UNIT, _ => WAIT_UNIT)
  }

  /** The first wait of a split is shorter than the others, which are as long as a finite wait can be. */
  lemma WaitSizes(milliseconds: nat)
    requires TWO_32 <= milliseconds < WAIT_INFINITE
    ensures Waits(milliseconds)[0] < 0xffff_fffe
    ensures forall i :: 1 <= i < |Waits(milliseconds)| ==> Waits(milliseconds)[i] == 0xffff_fffe
  {
  }

  lemma {:induction false} SumOfUnits(first: nat, n: nat)
    ensures Sum([first] + seq(n, _ => WAIT_UNIT)) == first + n * WAIT_UNIT
  {
    var waits := [first] + seq(n, _ => WAIT_UNIT);
    if n > 0 {
      SumOfUnits(first, n - 1);
      assert waits[..n] == [first] + seq(n - 1, _ => WAIT_UNIT);
    } else {
      assert waits[..0] == [];
    }
  }

  /** The waits for a finite timeout add up to it, and none of them is for ever, except for the one timeout that
    reads as infinite when cut to 32 bits. */
  lemma WaitsAddUp(milliseconds: nat)
    requires milliseconds < WAIT_INFINITE
    ensures Sum(Waits(milliseconds)) == milliseconds
    ensures (forall i :: 0 <= i < |Waits(milliseconds)| ==> Waits(milliseconds)[i] < INFINITE) <==>
            milliseconds != INFINITE
    ensures milliseconds >= TWO_32 ==> |Waits(milliseconds)| >= 2
  {
    if milliseconds < TWO_32 {
      assert Waits(milliseconds) == [milliseconds] && [milliseconds][..0] == [];
    } else {
      SumOfUnits(milliseconds % WAIT_UNIT, milliseconds / WAIT_UNIT);
    }
  }

  /** Only the infinite timeout, and that one, wait for ever. */
  lemma WaitsForEver(milliseconds: nat)
    requires milliseconds <= WAIT_INFINITE
    ensures INFINITE in Waits(milliseconds) <==> milliseconds in {INFINITE, WAIT_INFINITE}
  {
    if milliseconds < WAIT_INFINITE {
      WaitsAddUp(milliseconds);
    }
    if milliseconds in {INFINITE, WAIT_INFINITE} {
      assert Waits(milliseconds)[0] == INFINITE;
    }
  }
}
