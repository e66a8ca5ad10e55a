/** The counting loop of the keepalive goroutine (ssh/connection/connection.go:184-203), against a
    specification on the outcome sequence that has no counter. */
module KeepAlive {
  import opened Common

  /** The last maxRetries + 1 probes up to and including number i all failed. */
  predicate DeadAt(answered: seq<bool>, maxRetries: nat, i: nat) {
    maxRetries <= i < |answered| && forall k :: i - maxRetries <= k <= i ==> !answered[k]
  }

  /** `answered` are the outcomes of the probes, one per tick; the context is cancelled from elsewhere
      after `cancelledAt` of them. The loop cancels the connection exactly at the first probe where the
      last maxRetries + 1 outcomes are all failures, and never earlier. */
  method Probe(answered: seq<bool>, maxRetries: nat, cancelledAt: nat) returns (gaveUpAt: Option<nat>)
    ensures gaveUpAt.Some? ==> gaveUpAt.value < cancelledAt && DeadAt(answered, maxRetries, gaveUpAt.value)
                               && forall i :: 0 <= i < gaveUpAt.value ==> !DeadAt(answered, maxRetries, i)
    ensures gaveUpAt.None? ==> forall i :: 0 <= i < cancelledAt ==> !DeadAt(answered, maxRetries, i)
  {
    var retries := 0;
    var tick := 0;
    while tick < |answered| && tick < cancelledAt
      invariant 0 <= tick <= |answered| && tick <= cancelledAt
      invariant 0 <= retries <= maxRetries && retries <= tick
      invariant forall k :: tick - retries <= k < tick ==> !answered[k]
      invariant retries < tick ==> answered[tick - retries - 1]
      invariant forall i :: 0 <= i < tick ==> !DeadAt(answered, maxRetries, i)
    {
      if !answered[tick] {
        retries := retries + 1;
      } else {
        retries := 0;
      }
      if retries > maxRetries {
        return Some(tick);
      }
      if retries <= tick {
        assert !DeadAt(answered, maxRetries, tick) by {
          assert answered[tick - retries];
        }
      }
      tick := tick + 1;
    }
    return None;
  }
}
