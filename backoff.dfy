/**
 * The back-off policy contract of backoff.go.
 *
 * A policy is consulted by a retrying cache after each failed resolution: `NextBackOff`
 * yields how long to wait before the next attempt (a duration in nanoseconds) or the
 * `BackOffStop` signal, and `Reset` returns the policy to its initial state.
 *
 * The Go interface admits any implementation. This model has two: the package's own
 * `zeroBackoff`, which has no state and always answers 0, and `Scripted`, an abstract
 * stateful policy that hands out a fixed list of delays in order and then signals stop.
 */
module BackOff {

  /** The duration -1, returned by `NextBackOff` when no more retries should be made. */
  const BackOffStop: int := -1

  datatype Policy =
    | ZeroBackOff
    | Scripted(delays: seq<int>, used: nat)

  /** What the contract lets `NextBackOff` return: a wait duration, or the stop signal. */
  predicate IsDelay(d: int) {
    d >= 0 || d == BackOffStop
  }

  predicate WellFormed(b: Policy) {
    match b
    case ZeroBackOff => true
    case Scripted(ds, used) => used <= |ds| && forall i :: 0 <= i < |ds| ==> IsDelay(ds[i])
  }

  /** A policy that never asks for a positive wait: `zeroBackoff`, or a script of such delays. */
  predicate NeverWaits(b: Policy) {
    match b
    case ZeroBackOff => true
    case Scripted(ds, _) => forall i :: 0 <= i < |ds| ==> ds[i] <= 0
  }

  /** The answer of one `NextBackOff` call, with the policy's state after it. */
  datatype Next = Next(delay: int, policy: Policy)

  function NextBackOff(b: Policy): (r: Next)
    ensures WellFormed(b) ==> IsDelay(r.delay) && WellFormed(r.policy)
    ensures NeverWaits(b) ==> r.delay <= 0 && NeverWaits(r.policy)
  {
    match b
    case ZeroBackOff => Next(0, ZeroBackOff)
    case Scripted(ds, used) =>
      if used < |ds| then Next(ds[used], Scripted(ds, used + 1)) else Next(BackOffStop, b)
  }

  function Reset(b: Policy): (r: Policy)
    ensures WellFormed(b) ==> WellFormed(r)
    ensures NeverWaits(b) ==> NeverWaits(r)
  {
    match b
    case ZeroBackOff => ZeroBackOff
    case Scripted(ds, _) => Scripted(ds, 0)
  }

  /** Resetting a policy that was just reset changes nothing. */
  lemma ResetIdempotent(b: Policy)
    ensures Reset(Reset(b)) == Reset(b)
  {
  }

  /** The policy after `k` consecutive `NextBackOff` calls. */
  function Advance(b: Policy, k: nat): Policy
    decreases k
  {
    if k == 0 then b else Advance(NextBackOff(b).policy, k - 1)
  }

  /** `Reset` returns the policy to its initial state, whatever it has handed out since. */
  lemma {:induction false} ResetForgetsHistory(b: Policy, k: nat)
    ensures Reset(Advance(b, k)) == Reset(b)
    ensures Reset(Reset(b)) == Reset(b)
    decreases k
  {
    if k > 0 {
      ResetForgetsHistory(NextBackOff(b).policy, k - 1);
    }
  }

  /** `zeroBackoff` has no state: it answers 0 however often it is asked, and `Reset` does nothing. */
  lemma {:induction false} ZeroBackOffIsStateless(k: nat)
    ensures Advance(ZeroBackOff, k) == ZeroBackOff
    ensures NextBackOff(Advance(ZeroBackOff, k)).delay == 0
    ensures Reset(Advance(ZeroBackOff, k)) == ZeroBackOff
  {
    if k > 0 {
      ZeroBackOffIsStateless(k - 1);
    }
  }

  lemma {:induction false} AdvanceScripted(ds: seq<int>, used: nat, k: nat)
    requires used <= |ds|
    ensures Advance(Scripted(ds, used), k) == Scripted(ds, if used + k <= |ds| then used + k else |ds|)
    decreases k
  {
    if k > 0 {
      AdvanceScripted(ds, if used < |ds| then used + 1 else used, k - 1);
    }
  }

  /** After a reset, a scripted policy hands out its delays in order and then signals stop for good. */
  lemma ScriptedYieldsDelaysInOrder(b: Policy, k: nat)
    requires b.Scripted?
    ensures var d := NextBackOff(Advance(Reset(b), k)).delay;
      if k < |b.delays| then d == b.delays[k] else d == BackOffStop
  {
    AdvanceScripted(b.delays, 0, k);
  }
}
