/**
 At most one database is writable, in every state of every run.
 */
module LeaseSafety {

  import opened Prelude
  import opened Cluster

  /** The timing premise under which the shutdown threshold covers every delay. */
  predicate TimingSafe(c: Config)
  {
    && c.delay + 1000 + c.jitter + c.stop <= c.threshold * 1000
    && c.delay + c.jitter + c.stop < c.ttl * 1000
  }

  /** Leader under a lease that the monitor watches. */
  predicate Leased(a: Agent)
  {
    a.phase.Promoting? || a.phase.Serving?
  }

  /** Leader without a lease. */
  predicate SinglePoint(a: Agent)
  {
    a.phase.SpmPromoting? || a.phase.SpmServing?
  }

  /** The operator's requests that open the database: for read-write, and for read-only when it is rolled back. */
  predicate OpensManually(act: Action)
  {
    act.ManualReadWrite? || (act.ManualReadOnly? && act.refused)
  }

  /** An operator's request opens a database only while its node leads. */
  predicate Careful(a: Agent, act: Action)
  {
    OpensManually(act) ==> Leased(a) || SinglePoint(a)
  }

  predicate CarefulStep(s: State, step: Step)
  {
    step.Act? && step.node in s.agents ==> Careful(s.agents[step.node], step.act)
  }

  // ---------- the invariant ----------

  /** The last moment the database of a leased leader can be writable. */
  function Deadline(c: Config, a: Agent): int
    requires a.wake.Some?
  {
    var closing := a.expireTS * 1000 + 999;
    (if closing < a.wake.value then a.wake.value else closing) + c.jitter + c.stop
  }

  /** `n` keeps the leader key past time `t`. */
  predicate KeptPast(e: Store, n: NodeId, t: int)
  {
    && Owns(e, n)
    && match e.key.value.lease
       case None => true
       case Some(l) => l in e.leases && t < e.leases[l]
  }

  predicate LeaseFits(c: Config, now: nat, e: Store, l: nat, since: nat)
  {
    && l < e.nextLease
    && (l in e.leases ==> LeaseEnd(c, since) <= e.leases[l])
    && (l !in e.leases ==> LeaseEnd(c, since) <= now)
  }

  ghost predicate AgentSafe(c: Config, now: nat, e: Store, n: NodeId, a: Agent)
  {
    && OnTime(c, a, now)
    && (a.db.ReadWrite? ==> Leased(a) || SinglePoint(a) || a.phase.Exited?)
    && (Leased(a) ==>
          && a.wake.Some?
          && e.key == Some(LeaderKey(n, Some(a.lease)))
          && KeptPast(e, n, Deadline(c, a)))
    && (a.wake.Some? ==> a.lease < e.nextLease && (Leased(a) || a.phase == Resigning(false) || a.phase == Released(false)))
    && (a.wake.Some? && a.ack.Some? && a.lease in e.leases ==> LeaseEnd(c, a.ack.value) <= e.leases[a.lease])
    && (SinglePoint(a) ==> e.key == Some(LeaderKey(n, None)))
    && (a.db.ReadWrite? && a.phase.Exited? ==> a.stopBy.Some? && KeptPast(e, n, a.stopBy.value))
    && (a.phase.Granted? ==> LeaseFits(c, now, e, a.phase.lease, a.phase.since))
    && (a.phase.Answered? ==> LeaseFits(c, now, e, a.phase.lease, a.phase.since))
    && (a.phase.Answered? && a.phase.ok && a.phase.lease in e.leases ==>
          e.key == Some(LeaderKey(n, Some(a.phase.lease))))
    && (a.phase.SpmAnswered? && a.phase.ok ==> e.key == Some(LeaderKey(n, None)))
  }

  ghost predicate LeasesSafe(c: Config, now: nat, e: Store)
  {
    forall l :: l in e.leases ==> l < e.nextLease && e.leases[l] <= LeaseEnd(c, now)
  }

  ghost predicate Safe(c: Config, s: State)
  {
    && LeasesSafe(c, s.now, s.store)
    && (forall n :: n in s.agents ==> AgentSafe(c, s.now, s.store, n, s.agents[n]))
  }

  ghost predicate AtMostOneWritable(s: State)
  {
    forall m, n :: m in s.agents && n in s.agents && s.agents[m].db.ReadWrite? && s.agents[n].db.ReadWrite? ==> m == n
  }

  lemma WritableOwns(c: Config, s: State, n: NodeId)
    requires Safe(c, s) && n in s.agents && s.agents[n].db.ReadWrite?
    ensures Owns(s.store, n)
  {
  }

  // ---------- preservation ----------

  /** What an action of another agent may do to the store. */
  ghost predicate Undisturbed(e: Store, f: Store, m: NodeId)
  {
    && (Owns(e, m) ==> f.key == e.key)
    && e.nextLease <= f.nextLease
    && (forall l :: l in e.leases ==> l in f.leases && e.leases[l] <= f.leases[l])
    && (forall l :: l in f.leases ==> l in e.leases || e.nextLease <= l)
  }

  lemma FrameAgent(c: Config, now: nat, e: Store, f: Store, m: NodeId, b: Agent)
    requires AgentSafe(c, now, e, m, b) && Undisturbed(e, f, m)
    ensures AgentSafe(c, now, f, m, b)
  {
  }

  /** Every action leaves the key and the leases of the other nodes alone. */
  lemma OthersUndisturbed(c: Config, now: nat, e: Store, n: NodeId, a: Agent, act: Action, m: NodeId)
    requires ActEnabled(c, now, e, n, a, act) && LeasesSafe(c, now, e)
    requires m != n
    ensures Undisturbed(e, ActStore(c, now, e, n, a, act), m)
  {
  }

  /** The premises on the acting node. */
  ghost predicate ActorReady(c: Config, now: nat, e: Store, n: NodeId, a: Agent, act: Action)
  {
    TimingSafe(c) && Careful(a, act) && AgentSafe(c, now, e, n, a) && LeasesSafe(c, now, e)
  }

  lemma CommitSafe(c: Config, now: nat, e: Store, n: NodeId, a: Agent)
    requires ActorReady(c, now, e, n, a, Commit) && ElectionEnabled(c, now, e, n, a, Commit)
    ensures AgentSafe(c, now, ElectionStore(c, now, e, n, a, Commit), n, ElectionAgent(c, now, e, n, a, Commit))
  {
  }

  lemma ReceiveSafe(c: Config, now: nat, e: Store, n: NodeId, a: Agent)
    requires ActorReady(c, now, e, n, a, Receive) && ElectionEnabled(c, now, e, n, a, Receive)
    ensures AgentSafe(c, now, ElectionStore(c, now, e, n, a, Receive), n, ElectionAgent(c, now, e, n, a, Receive))
  {
  }

  lemma ElectionActorSafe(c: Config, now: nat, e: Store, n: NodeId, a: Agent, act: Action)
    requires ActorReady(c, now, e, n, a, act) && ElectionAction(act) && ElectionEnabled(c, now, e, n, a, act)
    ensures AgentSafe(c, now, ElectionStore(c, now, e, n, a, act), n, ElectionAgent(c, now, e, n, a, act))
  {
    if act.Commit? {
      CommitSafe(c, now, e, n, a);
    } else if act.Receive? {
      ReceiveSafe(c, now, e, n, a);
    }
  }

  lemma CheckSafe(c: Config, now: nat, e: Store, n: NodeId, a: Agent)
    requires ActorReady(c, now, e, n, a, Check) && TimerEnabled(c, now, e, n, a, Check)
    ensures AgentSafe(c, now, TimerStore(c, now, e, n, a, Check), n, TimerAgent(c, now, e, n, a, Check))
  {
  }

  lemma StampSafe(c: Config, now: nat, e: Store, n: NodeId, a: Agent)
    requires ActorReady(c, now, e, n, a, Stamp) && TimerEnabled(c, now, e, n, a, Stamp)
    ensures AgentSafe(c, now, TimerStore(c, now, e, n, a, Stamp), n, TimerAgent(c, now, e, n, a, Stamp))
  {
  }

  lemma TimerActorSafe(c: Config, now: nat, e: Store, n: NodeId, a: Agent, act: Action)
    requires ActorReady(c, now, e, n, a, act) && TimerAction(act) && TimerEnabled(c, now, e, n, a, act)
    ensures AgentSafe(c, now, TimerStore(c, now, e, n, a, act), n, TimerAgent(c, now, e, n, a, act))
  {
    if act.Check? {
      CheckSafe(c, now, e, n, a);
    } else if act.Stamp? {
      StampSafe(c, now, e, n, a);
    }
  }

  lemma OperatorActorSafe(c: Config, now: nat, e: Store, n: NodeId, a: Agent, act: Action)
    requires ActorReady(c, now, e, n, a, act) && OperatorAction(act) && OperatorEnabled(c, now, e, n, a, act)
    ensures AgentSafe(c, now, OperatorStore(c, now, e, n, a, act), n, OperatorAgent(c, now, e, n, a, act))
  {
  }

  lemma SpmActorSafe(c: Config, now: nat, e: Store, n: NodeId, a: Agent, act: Action)
    requires ActorReady(c, now, e, n, a, act) && SpmAction(act) && SpmEnabled(c, now, e, n, a, act)
    ensures AgentSafe(c, now, SpmStore(c, now, e, n, a, act), n, SpmAgent(c, now, e, n, a, act))
  {
  }

  lemma AdmitActorSafe(c: Config, now: nat, e: Store, n: NodeId, a: Agent, act: Action)
    requires ActorReady(c, now, e, n, a, act) && act.Admit? && LocalEnabled(c, now, e, n, a, act)
    ensures AgentSafe(c, now, LocalStore(c, now, e, n, a, act), n, LocalAgent(c, now, e, n, a, act))
  {
  }

  lemma LocalActorSafe(c: Config, now: nat, e: Store, n: NodeId, a: Agent, act: Action)
    requires ActorReady(c, now, e, n, a, act) && LocalAction(act) && LocalEnabled(c, now, e, n, a, act)
    ensures AgentSafe(c, now, LocalStore(c, now, e, n, a, act), n, LocalAgent(c, now, e, n, a, act))
  {
    if act.Admit? {
      AdmitActorSafe(c, now, e, n, a, act);
    }
  }

  lemma ActorSafe(c: Config, now: nat, e: Store, n: NodeId, a: Agent, act: Action)
    requires ActorReady(c, now, e, n, a, act) && ActEnabled(c, now, e, n, a, act)
    ensures AgentSafe(c, now, ActStore(c, now, e, n, a, act), n, ActAgent(c, now, e, n, a, act))
  {
    if ElectionAction(act) {
      ElectionActorSafe(c, now, e, n, a, act);
    } else if TimerAction(act) {
      TimerActorSafe(c, now, e, n, a, act);
    } else if OperatorAction(act) {
      OperatorActorSafe(c, now, e, n, a, act);
    } else if SpmAction(act) {
      SpmActorSafe(c, now, e, n, a, act);
    } else {
      LocalActorSafe(c, now, e, n, a, act);
    }
  }

  lemma LeasesStaySafe(c: Config, now: nat, e: Store, n: NodeId, a: Agent, act: Action)
    requires ActEnabled(c, now, e, n, a, act) && LeasesSafe(c, now, e)
    ensures LeasesSafe(c, now, ActStore(c, now, e, n, a, act))
  {
  }

  lemma ExpirySafe(c: Config, now: nat, e: Store, l: nat, n: NodeId, a: Agent)
    requires AgentSafe(c, now, e, n, a) && l in e.leases && e.leases[l] <= now
    ensures AgentSafe(c, now, ExpireLease(e, l), n, a)
  {
  }

  lemma ActSafe(c: Config, s: State, n: NodeId, act: Action)
    requires TimingSafe(c) && Safe(c, s)
    requires Enabled(c, s, Act(n, act)) && CarefulStep(s, Act(n, act))
    ensures Safe(c, Apply(c, s, Act(n, act)))
  {
    var t, a := Apply(c, s, Act(n, act)), s.agents[n];
    ActorSafe(c, s.now, s.store, n, a, act);
    LeasesStaySafe(c, s.now, s.store, n, a, act);
    forall m | m in t.agents && m != n ensures AgentSafe(c, t.now, t.store, m, t.agents[m]) {
      OthersUndisturbed(c, s.now, s.store, n, a, act, m);
      FrameAgent(c, s.now, s.store, t.store, m, s.agents[m]);
    }
  }

  lemma StepSafe(c: Config, s: State, step: Step)
    requires TimingSafe(c) && Safe(c, s)
    requires Enabled(c, s, step) && CarefulStep(s, step)
    ensures Safe(c, Apply(c, s, step))
  {
    match step
    case Tick(_) =>
    case Expire(l) =>
      forall n | n in s.agents ensures AgentSafe(c, s.now, ExpireLease(s.store, l), n, s.agents[n]) {
        ExpirySafe(c, s.now, s.store, l, n, s.agents[n]);
      }
    case Act(n, act) => ActSafe(c, s, n, act);
  }

  /** The invariant holds along every legal run with careful operators. */
  lemma {:induction false} RunSafe(c: Config, s: State, steps: seq<Step>)
    requires TimingSafe(c) && Safe(c, s)
    requires Legal(c, s, steps) && RunsUnder(c, s, steps, CarefulStep)
    ensures Safe(c, Exec(c, s, steps))
    decreases |steps|
  {
    if steps != [] {
      StepSafe(c, s, steps[0]);
      RunSafe(c, Apply(c, s, steps[0]), steps[1..]);
    }
  }

  /** A request that opens a database by hand keeps the invariant if and only if it is careful. */
  lemma OperatorExact(c: Config, s: State, n: NodeId, act: Action)
    requires TimingSafe(c) && Safe(c, s) && Enabled(c, s, Act(n, act)) && OpensManually(act)
    ensures Safe(c, Apply(c, s, Act(n, act))) <==> Careful(s.agents[n], act)
  {
    if Careful(s.agents[n], act) {
      ActSafe(c, s, n, act);
    } else {
      var t := Apply(c, s, Act(n, act));
      assert t.agents[n].db.ReadWrite? && t.agents[n].phase == s.agents[n].phase;
      assert !AgentSafe(c, t.now, t.store, n, t.agents[n]);
    }
  }
}
