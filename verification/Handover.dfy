/**
 Leaving single point mode.  From the moment the database is read-only until the
 resume transaction, the leader key stays with the node, lease-free, and the
 database stays read-only.
 */
module Handover {

  import opened Prelude
  import opened Cluster
  import opened LeaseSafety

  /** The node is on its way from single point mode to the leased resume. */
  predicate Between(e: Store, n: NodeId, a: Agent)
  {
    && e.key == Some(LeaderKey(n, None))
    && !a.db.ReadWrite?
    && match a.phase
       case SpmLeaving => true
       case Idle => true
       case Exited => true
       case Decided(v, _) => v.leader == Some(n)
       case Granted(resume, _, _, _) => resume
       case SpmAsking(resume, _) => resume
       case _ => false
  }

  /** The steps that end it: the node's own resume transactions, or giving the key away on purpose. */
  predicate Ends(n: NodeId, step: Step)
  {
    && step.Act? && step.node == n
    && (step.act.Commit? || step.act.SpmCommit? || step.act.Close? || step.act.Clean?)
  }

  lemma OwnElectionStep(c: Config, now: nat, e: Store, n: NodeId, a: Agent, act: Action)
    requires Between(e, n, a) && a.wake.None? && !act.Commit?
    requires ElectionAction(act) && ElectionEnabled(c, now, e, n, a, act)
    ensures Between(ElectionStore(c, now, e, n, a, act), n, ElectionAgent(c, now, e, n, a, act))
    ensures ElectionAgent(c, now, e, n, a, act).wake.None?
  {
  }

  lemma OwnOperatorStep(c: Config, now: nat, e: Store, n: NodeId, a: Agent, act: Action)
    requires Between(e, n, a) && a.wake.None? && Careful(a, act) && !act.Close?
    requires OperatorAction(act) && OperatorEnabled(c, now, e, n, a, act)
    ensures Between(OperatorStore(c, now, e, n, a, act), n, OperatorAgent(c, now, e, n, a, act))
    ensures OperatorAgent(c, now, e, n, a, act).wake.None?
  {
  }

  lemma OwnLocalStep(c: Config, now: nat, e: Store, n: NodeId, a: Agent, act: Action)
    requires Between(e, n, a) && a.wake.None? && !act.Clean?
    requires LocalAction(act) && LocalEnabled(c, now, e, n, a, act)
    ensures Between(LocalStore(c, now, e, n, a, act), n, LocalAgent(c, now, e, n, a, act))
    ensures LocalAgent(c, now, e, n, a, act).wake.None?
  {
  }

  lemma OwnStep(c: Config, now: nat, e: Store, n: NodeId, a: Agent, act: Action)
    requires Between(e, n, a) && ActEnabled(c, now, e, n, a, act) && Careful(a, act)
    requires !Ends(n, Act(n, act)) && a.wake.None?
    ensures Between(ActStore(c, now, e, n, a, act), n, ActAgent(c, now, e, n, a, act))
    ensures ActAgent(c, now, e, n, a, act).wake.None?
  {
    if ElectionAction(act) {
      OwnElectionStep(c, now, e, n, a, act);
    } else if OperatorAction(act) {
      OwnOperatorStep(c, now, e, n, a, act);
    } else if LocalAction(act) {
      OwnLocalStep(c, now, e, n, a, act);
    }
  }

  lemma OthersStep(c: Config, now: nat, e: Store, n: NodeId, a: Agent, m: NodeId, b: Agent, act: Action)
    requires Between(e, n, a) && ActEnabled(c, now, e, m, b, act) && m != n
    ensures Between(ActStore(c, now, e, m, b, act), n, a)
  {
  }

  ghost predicate Leaving(s: State, n: NodeId)
  {
    n in s.agents && Between(s.store, n, s.agents[n]) && s.agents[n].wake.None?
  }

  lemma StepLeaving(c: Config, s: State, step: Step, n: NodeId)
    requires Leaving(s, n) && Enabled(c, s, step) && CarefulStep(s, step) && !Ends(n, step)
    ensures Leaving(Apply(c, s, step), n)
  {
    match step
    case Tick(_) =>
    case Expire(_) =>
    case Act(m, act) =>
      if m == n {
        OwnStep(c, s.now, s.store, n, s.agents[n], act);
      } else {
        OthersStep(c, s.now, s.store, n, s.agents[n], m, s.agents[m], act);
      }
  }

  lemma {:induction false} RunLeaving(c: Config, s: State, steps: seq<Step>, n: NodeId)
    requires Leaving(s, n) && Legal(c, s, steps) && RunsUnder(c, s, steps, CarefulStep)
    requires forall i :: 0 <= i < |steps| ==> !Ends(n, steps[i])
    ensures Leaving(Exec(c, s, steps), n)
    decreases |steps|
  {
    if steps != [] {
      StepLeaving(c, s, steps[0], n);
      forall i | 0 <= i < |steps[1..]| ensures !Ends(n, steps[1..][i]) {
        assert steps[1..][i] == steps[i + 1];
      }
      RunLeaving(c, Apply(c, s, steps[0]), steps[1..], n);
    }
  }

  /**
   After single point mode is stopped, whatever happens short of the node's own
   resume or resignation, the key is still its own and its database not writable;
   and the resume transaction, when it comes, succeeds.
   */
  lemma NoGapLeavingSinglePoint(c: Config, s: State, steps: seq<Step>, n: NodeId)
    requires Safe(c, s) && Enabled(c, s, Act(n, SpmStop))
    requires var t := Apply(c, s, Act(n, SpmStop));
             && Legal(c, t, steps) && RunsUnder(c, t, steps, CarefulStep)
             && forall i :: 0 <= i < |steps| ==> !Ends(n, steps[i])
    ensures var u := Exec(c, Apply(c, s, Act(n, SpmStop)), steps);
            && n in u.agents
            && u.store.key == Some(LeaderKey(n, None)) && !u.agents[n].db.ReadWrite?
            && (Enabled(c, u, Act(n, Commit)) ==>
                  var v := Apply(c, u, Act(n, Commit));
                  && v.agents[n].phase.Answered? && v.agents[n].phase.ok
                  && Owns(v.store, n) && v.store.key.value.lease.Some? && !v.agents[n].db.ReadWrite?)
  {
    var t := Apply(c, s, Act(n, SpmStop));
    assert AgentSafe(c, s.now, s.store, n, s.agents[n]);
    assert Leaving(t, n);
    RunLeaving(c, t, steps, n);
  }

  // ---------- which resume follows ----------

  /** The mark is gone, and with it everything read before it went. */
  ghost predicate Unmarked(s: State, n: NodeId)
  {
    Leaving(s, n) && NoMark(s.store, n, s.agents[n])
  }

  predicate NoMark(e: Store, n: NodeId, a: Agent)
  {
    e.spm != Some(n) && !a.phase.SpmAsking? && (a.phase.Decided? ==> a.phase.view.spm != Some(n))
  }

  lemma OwnUnmarked(c: Config, now: nat, e: Store, n: NodeId, a: Agent, act: Action)
    requires Between(e, n, a) && NoMark(e, n, a) && ActEnabled(c, now, e, n, a, act) && !Ends(n, Act(n, act))
    ensures NoMark(ActStore(c, now, e, n, a, act), n, ActAgent(c, now, e, n, a, act))
  {
    if ElectionAction(act) {
      OwnElectionUnmarked(c, now, e, n, a, act);
    } else if SpmAction(act) {
      OwnSpmUnmarked(c, now, e, n, a, act);
    }
  }

  lemma OwnElectionUnmarked(c: Config, now: nat, e: Store, n: NodeId, a: Agent, act: Action)
    requires NoMark(e, n, a) && ElectionAction(act) && ElectionEnabled(c, now, e, n, a, act)
    ensures NoMark(ElectionStore(c, now, e, n, a, act), n, ElectionAgent(c, now, e, n, a, act))
  {
  }

  lemma OwnSpmUnmarked(c: Config, now: nat, e: Store, n: NodeId, a: Agent, act: Action)
    requires Between(e, n, a) && NoMark(e, n, a) && SpmAction(act) && SpmEnabled(c, now, e, n, a, act) && !act.SpmCommit?
    ensures NoMark(SpmStore(c, now, e, n, a, act), n, SpmAgent(c, now, e, n, a, act))
  {
  }

  lemma OthersUnmarked(c: Config, now: nat, e: Store, n: NodeId, a: Agent, m: NodeId, b: Agent, act: Action)
    requires NoMark(e, n, a) && ActEnabled(c, now, e, m, b, act) && m != n
    ensures NoMark(ActStore(c, now, e, m, b, act), n, a)
  {
  }

  lemma StepUnmarked(c: Config, s: State, step: Step, n: NodeId)
    requires Unmarked(s, n) && Enabled(c, s, step) && CarefulStep(s, step) && !Ends(n, step)
    ensures Unmarked(Apply(c, s, step), n)
  {
    StepLeaving(c, s, step, n);
    match step
    case Tick(_) =>
    case Expire(_) =>
    case Act(m, act) =>
      if m == n {
        OwnUnmarked(c, s.now, s.store, n, s.agents[n], act);
      } else {
        OthersUnmarked(c, s.now, s.store, n, s.agents[n], m, s.agents[m], act);
      }
  }

  lemma {:induction false} RunUnmarked(c: Config, s: State, steps: seq<Step>, n: NodeId)
    requires Unmarked(s, n) && Legal(c, s, steps) && RunsUnder(c, s, steps, CarefulStep)
    requires forall i :: 0 <= i < |steps| ==> !Ends(n, steps[i])
    ensures Unmarked(Exec(c, s, steps), n)
    decreases |steps|
  {
    if steps != [] {
      StepUnmarked(c, s, steps[0], n);
      forall i | 0 <= i < |steps[1..]| ensures !Ends(n, steps[1..][i]) {
        assert steps[1..][i] == steps[i + 1];
      }
      RunUnmarked(c, Apply(c, s, steps[0]), steps[1..], n);
    }
  }

  /** What the node can do next when it has read the key as its own. */
  lemma ReadsOwn(c: Config, now: nat, e: Store, n: NodeId, a: Agent)
    requires e.key == Some(LeaderKey(n, None)) && a.phase.Idle?
    ensures ActEnabled(c, now, e, n, a, Read)
    ensures ActStore(c, now, e, n, a, Read) == e
    ensures var b := ActAgent(c, now, e, n, a, Read);
            b.phase.Decided? && b.phase.view.leader == Some(n) && b.phase.view.spm == e.spm
  {
  }

  lemma Resumes(c: Config, now: nat, e: Store, n: NodeId, a: Agent)
    requires a.phase.Decided? && a.phase.view.leader == Some(n)
    ensures ActEnabled(c, now, e, n, a, SpmBegin) <==> a.phase.view.spm == Some(n)
    ensures ActEnabled(c, now, e, n, a, Grant) <==> a.phase.view.spm != Some(n)
  {
  }

  lemma Removes(c: Config, now: nat, e: Store, n: NodeId, a: Agent, removed: bool)
    requires a.phase.SpmLeaving?
    ensures ActEnabled(c, now, e, n, a, SpmRemove(removed))
    ensures ActAgent(c, now, e, n, a, SpmRemove(removed)) == a.(phase := Idle)
    ensures ActStore(c, now, e, n, a, SpmRemove(removed)) == if removed then e.(spm := None) else e
  {
  }

  /** The resume that follows single point mode is a leased one if the mark is removed ... */
  lemma LeasedAfterRemoval(c: Config, s: State, steps: seq<Step>, n: NodeId)
    requires Leaving(s, n) && s.agents[n].phase.SpmLeaving?
    requires Legal(c, s, [Act(n, SpmRemove(true))] + steps)
    requires var t := Apply(c, s, Act(n, SpmRemove(true)));
             && RunsUnder(c, t, steps, CarefulStep)
             && forall i :: 0 <= i < |steps| ==> !Ends(n, steps[i])
    ensures var u := Exec(c, Apply(c, s, Act(n, SpmRemove(true))), steps);
            && n in u.agents && u.store.spm != Some(n)
            && (u.agents[n].phase.Idle? ==> Enabled(c, u, Act(n, Read)))
            && (u.agents[n].phase.Decided? ==> Enabled(c, u, Act(n, Grant)) && !Enabled(c, u, Act(n, SpmBegin)))
  {
    var t := Apply(c, s, Act(n, SpmRemove(true)));
    Removes(c, s.now, s.store, n, s.agents[n], true);
    RunUnmarked(c, t, steps, n);
    var u := Exec(c, t, steps);
    if u.agents[n].phase.Decided? {
      Resumes(c, u.now, u.store, n, u.agents[n]);
    }
  }

  /** ... and single point mode again if that fails. */
  lemma AloneWhileMarked(c: Config, now: nat, e: Store, n: NodeId, a: Agent)
    requires Between(e, n, a) && a.phase.SpmLeaving? && e.spm == Some(n)
    ensures ActEnabled(c, now, e, n, a, SpmRemove(false))
    ensures var b := ActAgent(c, now, e, n, a, SpmRemove(false));
            && ActStore(c, now, e, n, a, SpmRemove(false)) == e
            && ActEnabled(c, now, e, n, b, Read)
            && var d := ActAgent(c, now, e, n, b, Read);
               ActEnabled(c, now, e, n, d, SpmBegin) && !ActEnabled(c, now, e, n, d, Grant)
  {
    Removes(c, now, e, n, a, false);
    var b := a.(phase := Idle);
    ReadsOwn(c, now, e, n, b);
    Resumes(c, now, e, n, ActAgent(c, now, e, n, b, Read));
  }
}
