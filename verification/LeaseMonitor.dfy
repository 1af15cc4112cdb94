/** The goroutine that closes the process before its leader lease can run out. */
module LeaseMonitor {

  import opened Prelude
  import opened Cluster
  import opened LeaseSafety

  /** Times of the stamped renewals, in order. */
  ghost predicate Ordered(renewals: seq<nat>)
  {
    forall i, j :: 0 <= i < j < |renewals| ==> renewals[i] <= renewals[j]
  }

  /** How many renewals have been stamped by time `t`. */
  function StampedBy(renewals: seq<nat>, t: nat): (k: nat)
    ensures k <= |renewals|
    ensures forall i :: 0 <= i < k ==> renewals[i] <= t
    ensures k < |renewals| ==> t < renewals[k]
  {
    if renewals == [] || t < renewals[0] then 0 else 1 + StampedBy(renewals[1..], t)
  }

  /** `leaseExpireTS` at time `t`. */
  function ExpireAt(c: Config, renewals: seq<nat>, t: nat): int
    requires renewals != [] && renewals[0] <= t
  {
    ExpireStamp(c, renewals[StampedBy(renewals, t) - 1])
  }

  lemma ExpireGrows(c: Config, renewals: seq<nat>, t: nat, u: nat)
    requires Ordered(renewals) && renewals != [] && renewals[0] <= t <= u
    ensures ExpireAt(c, renewals, t) <= ExpireAt(c, renewals, u)
  {
    var i, j := StampedBy(renewals, t) - 1, StampedBy(renewals, u) - 1;
    assert i <= j;
  }

  /**
   At most a second and the timer's lateness after the stamp is reached (or right at
   the start, for a stamp already passed).
   */
  predicate NotOverdue(c: Config, renewals: seq<nat>, t: nat)
    requires renewals != [] && renewals[0] <= t
  {
    var due := ExpireAt(c, renewals, t) * 1000;
    t <= (if due + 999 < renewals[0] then renewals[0] else due + 999) + c.jitter
  }

  /** Never before the stamp is reached, and not overdue. */
  predicate ClosedInTime(c: Config, renewals: seq<nat>, t: nat)
    requires renewals != [] && renewals[0] <= t
  {
    ExpireAt(c, renewals, t) * 1000 <= t && NotOverdue(c, renewals, t)
  }

  /**
   The timer was set at `t`, its firing number `fired`, to `wake`: the loop was running, and
   that is when the stamp of then is reached.
   */
  ghost predicate SetAt(c: Config, renewals: seq<nat>, stopAt: Option<nat>, wake: nat, fired: nat, t: nat)
  {
    && renewals != [] && renewals[0] <= t <= wake && (stopAt.Some? ==> t < stopAt.value)
    && wake / 1000 == ExpireAt(c, renewals, t) && fired <= StampedBy(renewals, t)
  }

  /** A firing that does not close finds a stamp that was not there when the timer was set. */
  lemma NewStamp(c: Config, renewals: seq<nat>, stopAt: Option<nat>, wake: nat, fired: nat, t: nat, now: nat)
    requires Ordered(renewals) && SetAt(c, renewals, stopAt, wake, fired, t) && wake <= now
    requires ExpireAt(c, renewals, now) > now / 1000
    ensures StampedBy(renewals, t) < StampedBy(renewals, now)
  {
    ExpireGrows(c, renewals, t, now);
  }

  /**
   The monitor loop, started with the first stamp.  `late` is how late each timer fires, at most `jitter`;
   `stopAt` is when the reign's stop channel is closed, if it is.  The result is
   the time of the forced close, or none when the loop was stopped, which it can be
   only before the close is overdue.  The timer fires at most once for every stamp, and
   once more to close.
   */
  method LeaseExpireMonitorLoop(c: Config, renewals: seq<nat>, late: nat -> nat, stopAt: Option<nat>)
    returns (closed: Option<nat>, fired: nat)
    requires Ordered(renewals) && renewals != []
    requires forall k :: late(k) <= c.jitter
    ensures closed.None? ==> stopAt.Some? && (renewals[0] <= stopAt.value ==> NotOverdue(c, renewals, stopAt.value))
    ensures closed.Some? ==>
              var t := closed.value;
              && renewals[0] <= t && (stopAt.Some? ==> t < stopAt.value)
              && ClosedInTime(c, renewals, t)
    ensures fired <= |renewals| + if closed.Some? then 1 else 0
  {
    var start := renewals[0];
    var wake: nat := start;
    fired := 0;
    ghost var t: nat := start;
    while true
      invariant start <= wake && fired <= |renewals|
      invariant if fired == 0 then wake == start else SetAt(c, renewals, stopAt, wake, fired, t)
      decreases |renewals| - fired
    {
      var now := wake + late(fired);
      if stopAt.Some? && stopAt.value <= now {
        if fired > 0 && start <= stopAt.value {
          ExpireGrows(c, renewals, t, stopAt.value);
        }
        return None, fired;
      }
      var delta := ExpireAt(c, renewals, now) - now / 1000;
      if delta <= 0 {
        if fired > 0 {
          ExpireGrows(c, renewals, t, now);
        }
        return Some(now), fired + 1;
      }
      if fired > 0 {
        NewStamp(c, renewals, stopAt, wake, fired, t, now);
      }
      wake, fired, t := now + delta * 1000, fired + 1, now;
    }
  }

  /**
   Whatever the schedule, a database whose agent was closed in time is down before
   its lease ends, provided the last stamp came within the delay of the renewal it
   acknowledges and the timing premise holds.
   */
  lemma DownBeforeLeaseEnds(c: Config, renewals: seq<nat>, renewed: nat, t: nat)
    requires TimingSafe(c)
    requires Ordered(renewals) && renewals != [] && renewals[0] <= t && ClosedInTime(c, renewals, t)
    requires renewals[StampedBy(renewals, t) - 1] <= renewed + c.delay
    ensures t + c.stop < LeaseEnd(c, renewed)
  {
    var r := renewals[StampedBy(renewals, t) - 1];
    assert renewals[0] <= r;
    assert ExpireAt(c, renewals, t) == r / 1000 + c.ttl - c.threshold;
  }
}
