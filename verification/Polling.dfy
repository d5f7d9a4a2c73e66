/** The polling loops `wait_for` and `hold_until_job_done`, as loops over what each test observes. */
module Polling {
  import opened Protocol

  datatype PollResult = Seen | PeerFailed | TimedOut

  /** Tests `0..k-1` saw neither the marker nor a failure. */
  ghost predicate Nothing(marker: nat -> bool, failed: nat -> bool, k: nat) {
    forall j: nat :: j < k ==> !marker(j) && !failed(j)
  }

  /**
    The `i`-th round tests the marker, then `.step-failed`, then sleeps.  The loop ends at the
    first round that sees either, the marker winning a tie, and after `limit + 1` sleeps at
    the latest.
  */
  method Poll(limit: nat, marker: nat -> bool, failed: nat -> bool) returns (r: PollResult, sleeps: nat)
    ensures Nothing(marker, failed, sleeps)
    ensures r.Seen? <==> sleeps <= limit && marker(sleeps)
    ensures r.PeerFailed? <==> sleeps <= limit && !marker(sleeps) && failed(sleeps)
    ensures r.TimedOut? <==> sleeps == limit + 1
  {
    var i := 0;
    while !marker(i)
      invariant i <= limit && Nothing(marker, failed, i)
      decreases limit - i
    {
      if failed(i) {
        return PeerFailed, i;
      }
      i := i + 1;
      if i > limit {
        return TimedOut, i;
      }
    }
    return Seen, i;
  }

  method WaitFor(marker: nat -> bool, failed: nat -> bool) returns (r: PollResult, sleeps: nat)
    ensures sleeps * WAIT_PERIOD <= 86402
    ensures r.Seen? <==>
            exists k: nat {:trigger marker(k)} :: k <= WAIT_LIMIT && marker(k) && Nothing(marker, failed, k)
  {
    r, sleeps := Poll(WAIT_LIMIT, marker, failed);
    if r.Seen? {
      assert marker(sleeps);
    }
  }

  method HoldUntilJobDone(jobDone: nat -> bool, failed: nat -> bool) returns (r: PollResult, sleeps: nat)
    ensures sleeps * HOLD_PERIOD <= 86405
    ensures r.Seen? <==>
            exists k: nat {:trigger jobDone(k)} :: k <= HOLD_LIMIT && jobDone(k) && Nothing(jobDone, failed, k)
  {
    r, sleeps := Poll(HOLD_LIMIT, jobDone, failed);
    if r.Seen? {
      assert jobDone(sleeps);
    }
  }
}
