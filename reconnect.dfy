/**
 * The reconnection supervisor of `MCPClient._connection_worker_with_reconnect`:
 * an outer loop that, until stopped, waits `min(2^retry_count, 60)` seconds when
 * `retry_count > 0`, attempts a connection, and then listens for reverse calls.
 * `retry_count` is reset by a successful attempt, set to 1 when a live
 * connection drops, and incremented by a failed or raising attempt.
 */
module Reconnect {

  /** `self.max_retry_delay` (hard-coded in the client; `config.MAX_RETRY_DELAY` is never read). */
  const MaxRetryDelay: nat := 60

  function Pow2(n: nat): (p: nat)
    ensures p >= 1
    ensures n >= 1 ==> p >= 2 && p % 2 == 0
  {
    if n == 0 then 1 else 2 * Pow2(n - 1)
  }

  /**
   * Seconds waited before the next attempt when the counter is `retryCount`:
   * no wait at all for 0, otherwise `min(2^retryCount, MaxRetryDelay)`.
   */
  function BackoffDelay(retryCount: nat): (d: nat)
    ensures retryCount == 0 <==> d == 0
    ensures d <= MaxRetryDelay
    ensures retryCount >= 1 ==> 2 <= d
  {
    if retryCount == 0 then 0
    else if Pow2(retryCount) < MaxRetryDelay then Pow2(retryCount)
    else MaxRetryDelay
  }

  lemma {:induction false} Pow2Monotone(m: nat, n: nat)
    requires m <= n
    ensures Pow2(m) <= Pow2(n)
    decreases n
  {
    if m < n {
      Pow2Monotone(m, n - 1);
    }
  }

  /** The delay never decreases as the counter grows. */
  lemma {:induction false} BackoffMonotone(m: nat, n: nat)
    requires m <= n
    ensures BackoffDelay(m) <= BackoffDelay(n)
  {
    if m > 0 {
      Pow2Monotone(m, n);
    }
  }

  /** The schedule 2, 4, 8, 16, 32, then 60 for every later retry. */
  lemma {:induction false} BackoffSchedule(n: nat)
    ensures 1 <= n <= 5 ==> BackoffDelay(n) == Pow2(n)
    ensures n >= 6 ==> BackoffDelay(n) == MaxRetryDelay
    ensures BackoffDelay(1) == 2 && BackoffDelay(2) == 4 && BackoffDelay(3) == 8
    ensures BackoffDelay(4) == 16 && BackoffDelay(5) == 32
  {
    assert Pow2(5) == 32 by {
      assert Pow2(1) == 2 && Pow2(2) == 4 && Pow2(3) == 8 && Pow2(4) == 16;
    }
    if 1 <= n <= 5 {
      Pow2Monotone(n, 5);
    }
    if n >= 6 {
      Pow2Monotone(6, n);
    }
  }

  /**
   * What happened in one pass of the loop after the optional wait. A failed
   * pass says whether `disconnect` was called while the attempt was running,
   * in which case the loop test sees the stop before any further wait.
   */
  datatype Outcome =
    | AttemptFailed(stopMeanwhile: bool)     // `_attempt_connection()` returned False
    | AttemptRaised(stopMeanwhile: bool)     // the loop body raised an exception
    | Connected(stopWhileListening: bool)    // connected; listening ended by stop or by a drop

  /** One pass of the outer loop: whether a stop arrives during the wait, then the outcome. */
  datatype Pass = Pass(stopDuringWait: bool, outcome: Outcome)

  class Supervisor {
    var retryCount: nat
    var isConnected: bool
    var stopRequested: bool
    /** The delays waited so far, in order. */
    var waits: seq<nat>

    /** Every wait is one of the backoff delays, so between 2 and 60 seconds. */
    ghost predicate Valid()
      reads this
    {
      forall i :: 0 <= i < |waits| ==> 2 <= waits[i] <= MaxRetryDelay
    }

    constructor ()
      ensures Valid()
      ensures retryCount == 0 && !isConnected && !stopRequested && waits == []
    {
      retryCount, isConnected, stopRequested, waits := 0, false, false, [];
    }

    /**
     * The interruptible wait at the top of the loop (lines 133-139): no wait when
     * the counter is 0; otherwise one wait of `BackoffDelay(retryCount)` seconds,
     * after which a stop seen during the wait leaves the loop.
     */
    method Wait(stopDuringWait: bool) returns (proceed: bool)
      requires Valid()
      modifies this
      ensures Valid()
      ensures retryCount == old(retryCount) && isConnected == old(isConnected)
      ensures old(retryCount) == 0 ==> proceed && waits == old(waits) && stopRequested == old(stopRequested)
      ensures old(retryCount) > 0 ==> waits == old(waits) + [BackoffDelay(old(retryCount))]
      ensures old(retryCount) > 0 ==> proceed == !(stopDuringWait || old(stopRequested))
      ensures old(retryCount) > 0 ==> stopRequested == (stopDuringWait || old(stopRequested))
    {
      proceed := true;
      if retryCount > 0 {
        waits := waits + [BackoffDelay(retryCount)];
        if stopDuringWait || stopRequested {
          stopRequested := true;
          proceed := false;
        }
      }
    }

    /** A successful attempt (lines 144-146). */
    method AttemptSucceeded()
      requires Valid()
      modifies this
      ensures Valid()
      ensures retryCount == 0 && isConnected
      ensures stopRequested == old(stopRequested) && waits == old(waits)
    {
      retryCount := 0;
      isConnected := true;
    }

    /**
     * Listening has returned (lines 149-154): either a stop was requested, or
     * the reader died and `_listen_for_calls` cleared `is_connected`; in the
     * latter case the counter restarts at the first backoff tier.
     */
    method ListenReturned(stopWhileListening: bool)
      requires Valid()
      modifies this
      ensures Valid()
      ensures stopRequested == (old(stopRequested) || stopWhileListening)
      ensures stopRequested ==> retryCount == old(retryCount)
      ensures !stopRequested ==> retryCount == 1 && !isConnected
      ensures stopWhileListening ==> !isConnected
      ensures waits == old(waits)
    {
      if stopWhileListening {
        Stop();
      } else if !stopRequested {
        isConnected := false;
      }
      if !stopRequested {
        retryCount := 1;
      }
    }

    /** A failed or raising attempt (lines 155-163). */
    method AttemptFailed()
      requires Valid()
      modifies this
      ensures Valid()
      ensures retryCount == old(retryCount) + 1
      ensures isConnected == old(isConnected) && stopRequested == old(stopRequested)
      ensures waits == old(waits)
    {
      retryCount := retryCount + 1;
    }

    /** `disconnect`: raises the stop flag and clears `is_connected`; repeating it changes nothing. */
    method Stop()
      requires Valid()
      modifies this
      ensures Valid()
      ensures stopRequested && !isConnected
      ensures retryCount == old(retryCount) && waits == old(waits)
    {
      stopRequested := true;
      isConnected := false;
    }

    /** One pass of the outer loop body (lines 131-163). */
    method RunPass(p: Pass) returns (continues: bool)
      requires Valid() && !stopRequested
      modifies this
      ensures Valid()
      ensures continues == !stopRequested
      ensures stopRequested <==>
        || (old(retryCount) > 0 && p.stopDuringWait)
        || p.outcome == Connected(true)
        || (!p.outcome.Connected? && p.outcome.stopMeanwhile)
      ensures waits == old(waits) + (if old(retryCount) > 0 then [BackoffDelay(old(retryCount))] else [])
      ensures continues && p.outcome.Connected? ==> retryCount == 1 && !isConnected
      ensures !p.outcome.Connected? && !(old(retryCount) > 0 && p.stopDuringWait) ==>
        retryCount == old(retryCount) + 1
      ensures old(retryCount) > 0 && p.stopDuringWait ==>
        retryCount == old(retryCount) && isConnected == old(isConnected)
      ensures p.outcome == Connected(true) && !(old(retryCount) > 0 && p.stopDuringWait) ==>
        retryCount == 0 && !isConnected
      ensures !p.outcome.Connected? && !(old(retryCount) > 0 && p.stopDuringWait) ==>
        isConnected == (old(isConnected) && !p.outcome.stopMeanwhile)
    {
      var proceed := Wait(p.stopDuringWait);
      if !proceed {
        return false;
      }
      match p.outcome {
        case AttemptFailed(stopMeanwhile) =>
          AttemptFailed();
          if stopMeanwhile {
            Stop();
          }
        case AttemptRaised(stopMeanwhile) =>
          AttemptFailed();
          if stopMeanwhile {
            Stop();
          }
        case Connected(stopWhileListening) =>
          AttemptSucceeded();
          ListenReturned(stopWhileListening);
      }
      continues := !stopRequested;
    }

    /**
     * The outer loop `while not self.stop_event.is_set()` driven by the passes
     * in `passes`; it ends when a stop is seen or the passes run out.
     */
    method Run(passes: seq<Pass>) returns (done: nat)
      requires Valid()
      modifies this
      ensures Valid()
      ensures done <= |passes|
      ensures done < |passes| ==> stopRequested
      ensures |waits| <= |old(waits)| + done
    {
      done := 0;
      while done < |passes| && !stopRequested
        invariant Valid()
        invariant done <= |passes|
        invariant |waits| <= |old(waits)| + done
      {
        var _ := RunPass(passes[done]);
        done := done + 1;
      }
    }
  }

  /**
   * A silent drop, then a failed attempt after 2 seconds, then a raising one
   * after 4 seconds during which `disconnect` is called: the loop ends there.
   */
  method DropThenRetry()
  {
    var s := new Supervisor();
    var go := s.RunPass(Pass(false, Connected(false)));
    assert go && s.retryCount == 1 && !s.isConnected && s.waits == [];
    go := s.RunPass(Pass(false, AttemptFailed(false)));
    assert go && s.waits == [2] && s.retryCount == 2;
    go := s.RunPass(Pass(false, AttemptRaised(true)));
    assert !go && s.waits == [2, 4] && s.retryCount == 3;
    s.Stop();
    s.Stop();
    assert !s.isConnected;
  }
}
