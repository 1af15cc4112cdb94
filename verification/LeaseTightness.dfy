/**
 The threshold condition cannot be weakened: when it fails there is a lease TTL
 and a run, with careful operators, in which two databases are writable.
 */
module LeaseTightness {

  import opened Prelude
  import opened Cluster
  import opened LeaseSafety
  import opened Runs

  /** Every agent but `n` is as it started. */
  predicate OnlyActive(c: Config, t: State, n: NodeId)
  {
    && n in c.nodes
    && t.agents.Keys == c.nodes
    && forall m :: m in c.nodes && m != n ==> t.agents[m] == FRESH_AGENT
  }

  /** A fresh agent finds no leader and wins the campaign. */
  lemma Win(c: Config, steps: seq<Step>, t: State, n: NodeId) returns (more: seq<Step>, u: State)
    requires Path(c, steps, t, CarefulStep) && n in t.agents && t.agents[n] == FRESH_AGENT && t.store.key.None?
    ensures Path(c, more, u, CarefulStep) && u.now == t.now
    ensures n in u.agents && u.agents == t.agents[n := u.agents[n]]
    ensures u.agents[n].phase == Answered(false, true, t.store.nextLease, t.now) && u.agents[n].db.ReadOnly?
    ensures u.store.key == Some(LeaderKey(n, Some(t.store.nextLease)))
    ensures t.store.nextLease in u.store.leases && u.store.leases[t.store.nextLease] == LeaseEnd(c, t.now)
  {
    more, u := Ask(c, steps, t, n, CarefulStep);
    more, u := Extend(c, more, u, Act(n, Commit), CarefulStep);
  }

  /** ... and becomes writable, all without time passing. */
  lemma Elect(c: Config, steps: seq<Step>, t: State, n: NodeId) returns (more: seq<Step>, u: State)
    requires Path(c, steps, t, CarefulStep) && n in t.agents && t.agents[n] == FRESH_AGENT && t.store.key.None?
    ensures Path(c, more, u, CarefulStep) && u.now == t.now
    ensures n in u.agents && u.agents == t.agents[n := u.agents[n]]
    ensures u.agents[n].isLeader && LedBy(c, u, n, LeaseEnd(c, t.now))
    ensures u.agents[n].expireTS == ExpireStamp(c, t.now) && u.agents[n].wake == Some(t.now)
  {
    more, u := Win(c, steps, t, n);
    more, u := Extend(c, more, u, Act(n, Receive), CarefulStep);
    more, u := Extend(c, more, u, Act(n, Promote(true)), CarefulStep);
  }

  /** `n` serves under a lease that ends at `end`, with no renewal under way. */
  predicate LedBy(c: Config, t: State, n: NodeId, end: nat)
  {
    && n in t.agents
    && var a := t.agents[n];
       && a.phase.Serving? && a.db.ReadWrite? && a.wake.Some? && a.ack.None?
       && t.store.key == Some(LeaderKey(n, Some(a.lease)))
       && a.lease in t.store.leases && t.store.leases[a.lease] == end
  }

  // One step each of a lone leader.

  lemma Wait(c: Config, steps: seq<Step>, t: State, n: NodeId, d: nat) returns (more: seq<Step>, u: State)
    requires Path(c, steps, t, CarefulStep) && OnlyActive(c, t, n) && OnTime(c, t.agents[n], t.now + d)
    ensures Path(c, more, u, CarefulStep) && u == t.(now := t.now + d)
  {
    more, u := Extend(c, steps, t, Tick(d), CarefulStep);
  }

  lemma CheckOn(c: Config, steps: seq<Step>, t: State, n: NodeId, end: nat) returns (more: seq<Step>, u: State)
    requires Path(c, steps, t, CarefulStep) && OnlyActive(c, t, n) && LedBy(c, t, n, end)
    requires t.agents[n].wake.value <= t.now && t.now / 1000 < t.agents[n].expireTS
    ensures Path(c, more, u, CarefulStep) && OnlyActive(c, u, n) && LedBy(c, u, n, end)
    ensures u.now == t.now && u.agents[n].expireTS == t.agents[n].expireTS
    ensures u.agents[n].wake == Some(t.now + (t.agents[n].expireTS - t.now / 1000) * 1000)
  {
    more, u := Extend(c, steps, t, Act(n, Check), CarefulStep);
  }

  lemma CheckOut(c: Config, steps: seq<Step>, t: State, n: NodeId, end: nat) returns (more: seq<Step>, u: State)
    requires Path(c, steps, t, CarefulStep) && OnlyActive(c, t, n) && LedBy(c, t, n, end)
    requires t.agents[n].wake.value <= t.now && t.agents[n].expireTS <= t.now / 1000
    ensures Path(c, more, u, CarefulStep) && OnlyActive(c, u, n) && u.now == t.now && u.store == t.store
    ensures u.agents[n].db.ReadWrite? && u.agents[n].wake.None? && u.agents[n].stopBy == Some(t.now + c.stop)
  {
    more, u := Extend(c, steps, t, Act(n, Check), CarefulStep);
  }

  /** A renewal now, stamped after the full delay. */
  lemma RenewAndStamp(c: Config, steps: seq<Step>, t: State, n: NodeId, end: nat) returns (more: seq<Step>, u: State)
    requires Path(c, steps, t, CarefulStep) && OnlyActive(c, t, n) && LedBy(c, t, n, end)
    requires OnTime(c, t.agents[n], t.now + c.delay)
    ensures Path(c, more, u, CarefulStep) && OnlyActive(c, u, n) && LedBy(c, u, n, LeaseEnd(c, t.now))
    ensures u.now == t.now + c.delay && u.agents[n].wake == t.agents[n].wake
    ensures u.agents[n].expireTS == ExpireStamp(c, u.now)
  {
    more, u := Extend(c, steps, t, Act(n, Renew), CarefulStep);
    more, u := Wait(c, more, u, n, c.delay);
    more, u := Extend(c, more, u, Act(n, Stamp), CarefulStep);
  }

  /** A leader elected at 999 ms past a second, after its monitor's first look. */
  lemma Start(c: Config, n: NodeId) returns (steps: seq<Step>, t: State)
    requires n in c.nodes && c.threshold < c.ttl
    ensures Path(c, steps, t, CarefulStep) && OnlyActive(c, t, n) && t.now == 999
    ensures LedBy(c, t, n, LeaseEnd(c, 999))
    ensures t.agents[n].wake == Some(999 + (c.ttl - c.threshold) * 1000)
  {
    steps, t := Extend(c, [], Init(c), Tick(999), CarefulStep);
    steps, t := Elect(c, steps, t, n);
    steps, t := CheckOn(c, steps, t, n, LeaseEnd(c, 999));
  }

  /** It renews its lease at `r - delay`, stamps the renewal at the full second `r`, and lives until its next look. */
  lemma RenewLate(c: Config, n: NodeId, r: nat) returns (steps: seq<Step>, t: State)
    requires n in c.nodes && c.threshold < c.ttl
    requires r % 1000 == 0 && 999 + c.delay <= r <= (c.ttl - c.threshold) * 1000
    ensures Path(c, steps, t, CarefulStep) && OnlyActive(c, t, n) && t.now == 999 + (c.ttl - c.threshold) * 1000
    ensures LedBy(c, t, n, LeaseEnd(c, r - c.delay))
    ensures t.agents[n].wake == Some(t.now + r) && t.agents[n].expireTS == ExpireStamp(c, r)
  {
    steps, t := Start(c, n);
    steps, t := Wait(c, steps, t, n, r - c.delay - 999);
    steps, t := RenewAndStamp(c, steps, t, n, LeaseEnd(c, 999));
    steps, t := Wait(c, steps, t, n, t.agents[n].wake.value - r);
    steps, t := CheckOn(c, steps, t, n, LeaseEnd(c, r - c.delay));
  }

  /** It is still writable when its lease ends. */
  lemma Outlive(c: Config, n: NodeId, r: nat) returns (steps: seq<Step>, t: State)
    requires n in c.nodes && c.threshold < c.ttl
    requires r % 1000 == 0 && 999 + c.delay <= r <= (c.ttl - c.threshold) * 1000
    requires c.threshold * 1000 <= c.delay + 999 + c.jitter + c.stop
    ensures Path(c, steps, t, CarefulStep) && OnlyActive(c, t, n)
    ensures t.agents[n].db.ReadWrite?
    ensures t.store.key.Some? && t.store.key.value.lease.Some?
    ensures var l := t.store.key.value.lease.value; l in t.store.leases && t.store.leases[l] <= t.now
  {
    var end := LeaseEnd(c, r - c.delay);
    steps, t := RenewLate(c, n, r);
    if end <= t.now + r + c.jitter {
      steps, t := Wait(c, steps, t, n, if end <= t.now then 0 else end - t.now);
    } else {
      steps, t := Wait(c, steps, t, n, r + c.jitter);
      steps, t := CheckOut(c, steps, t, n, end);
      steps, t := Wait(c, steps, t, n, end - t.now);
    }
  }

  predicate TwoNodes(nodes: set<NodeId>)
  {
    exists m, n :: m in nodes && n in nodes && m != n
  }

  /** The TTL leaves room for a stamped renewal before the monitor's second look. */
  predicate RoomToRenew(c: Config)
  {
    c.threshold + c.delay / 1000 + 2 <= c.ttl
  }

  lemma TwoWriters(c: Config) returns (steps: seq<Step>)
    requires TwoNodes(c.nodes) && RoomToRenew(c)
    requires c.threshold * 1000 < c.delay + 1000 + c.jitter + c.stop
    ensures Legal(c, Init(c), steps) && RunsUnder(c, Init(c), steps, CarefulStep)
    ensures !AtMostOneWritable(Exec(c, Init(c), steps))
  {
    var m, n :| m in c.nodes && n in c.nodes && m != n;
    var t: State;
    steps, t := Outlive(c, m, 1000 * (c.delay / 1000 + 2));
    steps, t := Extend(c, steps, t, Expire(t.store.key.value.lease.value), CarefulStep);
    steps, t := Elect(c, steps, t, n);
    assert t.agents[m].db.ReadWrite? && t.agents[n].db.ReadWrite?;
  }

  /** No run with careful operators ever has two writable databases. */
  ghost predicate NeverTwoWriters(c: Config)
  {
    forall steps :: Legal(c, Init(c), steps) && RunsUnder(c, Init(c), steps, CarefulStep) ==>
                      AtMostOneWritable(Exec(c, Init(c), steps))
  }

  lemma OneWriter(c: Config)
    requires TimingSafe(c)
    ensures NeverTwoWriters(c)
  {
    forall steps | Legal(c, Init(c), steps) && RunsUnder(c, Init(c), steps, CarefulStep)
      ensures AtMostOneWritable(Exec(c, Init(c), steps))
    {
      RunSafe(c, Init(c), steps);
    }
  }

  /**
   A configuration never has two writers if and only if its shutdown threshold covers the
   reply delay, one second of truncation, the timer's lateness and the time the database
   takes to stop.
   */
  lemma ConfigurationExact(c: Config)
    requires TwoNodes(c.nodes) && RoomToRenew(c)
    ensures NeverTwoWriters(c) <==> c.delay + 1000 + c.jitter + c.stop <= c.threshold * 1000
  {
    if c.delay + 1000 + c.jitter + c.stop <= c.threshold * 1000 {
      OneWriter(c);
    } else {
      var steps := TwoWriters(c);
    }
  }

  /** So a threshold is adequate for every longer lease TTL if and only if it covers as much. */
  lemma ThresholdExact(nodes: set<NodeId>, threshold: nat, delay: nat, jitter: nat, stop: nat)
    requires TwoNodes(nodes)
    ensures (forall ttl: nat :: threshold < ttl ==>
               NeverTwoWriters(Config(nodes, ttl, threshold, delay, jitter, stop)))
            <==> delay + 1000 + jitter + stop <= threshold * 1000
  {
    if delay + 1000 + jitter + stop <= threshold * 1000 {
      forall ttl: nat | threshold < ttl
        ensures NeverTwoWriters(Config(nodes, ttl, threshold, delay, jitter, stop))
      {
        OneWriter(Config(nodes, ttl, threshold, delay, jitter, stop));
      }
    } else {
      ConfigurationExact(Config(nodes, threshold + delay / 1000 + 2, threshold, delay, jitter, stop));
    }
  }

  /** A leader asked to resign has closed its database. */
  lemma AskToResign(c: Config, m: NodeId) returns (steps: seq<Step>, t: State)
    requires m in c.nodes
    ensures Path(c, steps, t, CarefulStep) && OnlyActive(c, t, m)
    ensures Owns(t.store, m) && t.agents[m].phase == Resigning(false) && t.agents[m].isLeader
  {
    steps, t := Elect(c, [], Init(c), m);
    steps, t := Extend(c, steps, t, Act(m, Resign), CarefulStep);
  }

  /** Its key is gone; it still counts itself the leader. */
  lemma Resigned(c: Config, m: NodeId) returns (steps: seq<Step>, t: State)
    requires m in c.nodes
    ensures Path(c, steps, t, CarefulStep) && OnlyActive(c, t, m)
    ensures t.store.key.None? && t.agents[m].isLeader && t.agents[m].phase == Released(false)
  {
    steps, t := AskToResign(c, m);
    steps, t := Extend(c, steps, t, Act(m, Release(true)), CarefulStep);
  }

  /** Carelessness is fatal under every configuration: a leader that has resigned is asked to open its database. */
  lemma Careless(c: Config, m: NodeId, n: NodeId, act: Action) returns (steps: seq<Step>)
    requires m in c.nodes && n in c.nodes && m != n && OpensManually(act)
    ensures steps != [] && steps[|steps| - 1] == Act(m, act)
    ensures Legal(c, Init(c), steps) && !AtMostOneWritable(Exec(c, Init(c), steps))
  {
    var t: State;
    steps, t := Resigned(c, m);
    steps, t := Elect(c, steps, t, n);
    var last := Act(m, act);
    RunSnoc(c, Init(c), steps, last, CarefulStep);
    steps := steps + [last];
    assert Exec(c, Init(c), steps).agents[m].db.ReadWrite? && Exec(c, Init(c), steps).agents[n].db.ReadWrite?;
  }

  /** Read-write is asked of it. */
  lemma CarelessOperator(c: Config, m: NodeId, n: NodeId) returns (steps: seq<Step>)
    requires m in c.nodes && n in c.nodes && m != n
    ensures Legal(c, Init(c), steps) && steps != [] && steps[|steps| - 1] == Act(m, ManualReadWrite)
    ensures !AtMostOneWritable(Exec(c, Init(c), steps))
  {
    steps := Careless(c, m, n, ManualReadWrite);
  }

  /** Read-only is asked of it, and the request is rolled back. */
  lemma RefusedReadOnly(c: Config, m: NodeId, n: NodeId) returns (steps: seq<Step>)
    requires m in c.nodes && n in c.nodes && m != n
    ensures Legal(c, Init(c), steps) && steps != [] && steps[|steps| - 1] == Act(m, ManualReadOnly(true))
    ensures !AtMostOneWritable(Exec(c, Init(c), steps))
  {
    steps := Careless(c, m, n, ManualReadOnly(true));
  }

  /** Not even two nodes are needed for a writable database at the top of the leader loop. */
  lemma OpenAtTop(c: Config, m: NodeId) returns (steps: seq<Step>)
    requires m in c.nodes
    ensures Legal(c, Init(c), steps)
    ensures var s := Exec(c, Init(c), steps); m in s.agents && s.agents[m].phase.Idle? && s.agents[m].db.ReadWrite?
  {
    var t: State;
    steps, t := Resigned(c, m);
    steps, t := Extend(c, steps, t, Act(m, EndReign), CarefulStep);
    RunSnoc(c, Init(c), steps, Act(m, ManualReadWrite), CarefulStep);
    steps := steps + [Act(m, ManualReadWrite)];
  }
}
