/**
 Logs: in every run with one writer at a time, current winners and fresh
 positions, a node that holds the global term has executed nothing its leader
 has not.
 */
module Logs {

  import opened Prelude
  import opened Gtid
  import opened Cluster
  import opened Terms
  import opened Forgetting
  import LeaseSafety

  // ---------- premises ----------

  /** The leader of the reign before the one that starts at index `i`. */
  function PreviousLeader(e: Store, i: nat): NodeId
    requires 0 < i <= |e.reigns|
  {
    e.reigns[i - 1].leader
  }

  /** A winner publishes no position beyond the one its database is at. */
  predicate FreshWinner(e: Store, a: Agent)
  {
    0 < |e.reigns| ==> a.lastTxn <= Published(a.log, PreviousLeader(e, |e.reigns|))
  }

  /**
   A follower is compared at a position that is decisive by the count of the leader of the
   reign before.  A node that has forgotten its term brings no transactions.
   */
  predicate FreshFollower(e: Store, n: NodeId, a: Agent, v: View)
  {
    && (a.term == 0 && a.forgot ==> a.log == [])
    && (a.term != 0 && 1 < v.term <= |e.reigns| && a.term == v.term - 1 && Compared(n, a, v).Some? ==>
          Decisive(a.log, Compared(n, a, v).value.txn, PreviousLeader(e, v.term - 1)))
  }

  /**
   Uploading the election log makes a current node's position fresh: when it led the last
   reign itself and has written something, or when it follows the leader of that reign.
   */
  lemma UploadIsFresh(e: Store, n: NodeId, a: Agent)
    requires StoreTerms(e) && 1 <= e.term && a.term == e.term
    requires var u := PreviousLeader(e, |e.reigns|);
             if u == n then 0 < Count(a.log, n) else a.follows == Some(u)
    ensures FreshWinner(e, Uploaded(n, a, Snapshot(e), false))
  {
    var u := PreviousLeader(e, |e.reigns|);
    assert IsPreviousMaster(n, a.term, Snapshot(e)) ==> u == n;
  }

  /** `n` has led no reign after term `t`. */
  ghost predicate LedUpTo(reigns: seq<Reign>, n: NodeId, t: nat)
  {
    forall i :: 0 <= i < |reigns| && reigns[i].leader == n ==> i + 1 <= t
  }

  /**
   The log of a master is of use to `n`: it stems from a term not before the node's stored
   term nor before a reign of its own, and `n` does not lead.
   */
  ghost predicate Supplies(e: Store, n: NodeId, master: Agent)
  {
    !Owns(e, n) && TermOf(e, n) <= master.origin && LedUpTo(e.reigns, n, master.origin)
  }

  /**
   What is asked of positions and of replication:
   - of a winner's and of an admitted follower's position, as above;
   - a node applies only the log of a master that is of use to it.
   */
  ghost predicate Fresh(s: State, step: Step)
  {
    step.Act? && step.node in s.agents ==>
      var n, a := step.node, s.agents[step.node];
      && (Campaigns(a, step.act) && s.store.key.None? ==> FreshWinner(s.store, a))
      && (step.act.Admit? && a.phase.Decided? && PreWatch(n, a, a.phase.view).Accept? ==>
            FreshFollower(s.store, n, a, a.phase.view))
      && (step.act.Replicate? && a.follows.Some? && a.follows.value in s.agents ==>
            Supplies(s.store, n, s.agents[a.follows.value]))
  }

  // ---------- the invariant ----------

  /** Reign `i` starts from a prefix of the one before and publishes where it starts. */
  ghost predicate LinkedAt(reigns: seq<Reign>, i: nat)
    requires i < |reigns|
  {
    && reigns[i].base <= reigns[i].log
    && (0 < i ==>
          && reigns[i].base <= reigns[i - 1].log
          && reigns[i].lastTxn <= Published(reigns[i].base, reigns[i - 1].leader))
  }

  ghost predicate Linked(reigns: seq<Reign>)
  {
    forall i: nat :: i < |reigns| ==> LinkedAt(reigns, i)
  }

  /** The log is a prefix of the log of reign `t`; reign 0 is empty. */
  ghost predicate PrefixOf(reigns: seq<Reign>, log: seq<Txn>, t: nat)
  {
    t <= |reigns| && if t == 0 then log == [] else log <= reigns[t - 1].log
  }

  /** The log of the key's owner is the log of the last reign. */
  ghost predicate Current(reigns: seq<Reign>, a: Agent)
  {
    0 < |reigns| && a.origin == |reigns| && a.log == reigns[|reigns| - 1].log
  }

  ghost predicate AgentLogs(e: Store, n: NodeId, a: Agent)
  {
    && PrefixOf(e.reigns, a.log, a.origin)
    && TermOf(e, n) <= a.origin
    && LedUpTo(e.reigns, n, a.origin)
    && (Owns(e, n) ==> Current(e.reigns, a))
    && (a.phase.Watching? ==>
          a.follows == a.phase.view.leader && TermOf(e, n) <= a.phase.view.term <= a.origin)
    && (a.phase.Watching? || (a.phase.Decided? && a.phase.view.leader != Some(n)) ==>
          LedUpTo(e.reigns, n, a.phase.view.term))
  }

  predicate LedByOneOf(reigns: seq<Reign>, i: nat, nodes: set<NodeId>)
    requires i < |reigns|
  {
    reigns[i].leader in nodes
  }

  ghost predicate LogsOk(s: State)
  {
    && Linked(s.store.reigns)
    && (forall i: nat :: i < |s.store.reigns| ==> LedByOneOf(s.store.reigns, i, s.agents.Keys))
    && forall n :: n in s.agents ==> AgentLogs(s.store, n, s.agents[n])
  }

  // ---------- preservation: nodes that do not act ----------

  /** Reigns only grow, and not in the name of `m`. */
  ghost predicate Grown(reigns: seq<Reign>, more: seq<Reign>, m: NodeId)
  {
    && |reigns| <= |more|
    && (forall i :: 0 <= i < |reigns| ==> more[i].leader == reigns[i].leader && reigns[i].log <= more[i].log)
    && (forall i :: |reigns| <= i < |more| ==> more[i].leader != m)
  }

  ghost predicate Bystander(e: Store, f: Store, m: NodeId)
  {
    && Grown(e.reigns, f.reigns, m)
    && TermOf(f, m) == TermOf(e, m)
    && (Owns(f, m) ==> Owns(e, m) && f.reigns == e.reigns)
  }

  lemma GrownPrefix(reigns: seq<Reign>, more: seq<Reign>, m: NodeId, log: seq<Txn>, t: nat)
    requires Grown(reigns, more, m) && PrefixOf(reigns, log, t)
    ensures PrefixOf(more, log, t)
  {
    if t != 0 {
      assert log <= reigns[t - 1].log <= more[t - 1].log;
    }
  }

  lemma GrownLed(reigns: seq<Reign>, more: seq<Reign>, m: NodeId, t: nat)
    requires Grown(reigns, more, m) && LedUpTo(reigns, m, t)
    ensures LedUpTo(more, m, t)
  {
  }

  lemma FrameLogs(e: Store, f: Store, m: NodeId, b: Agent)
    requires AgentLogs(e, m, b) && Bystander(e, f, m)
    ensures AgentLogs(f, m, b)
  {
    GrownPrefix(e.reigns, f.reigns, m, b.log, b.origin);
    GrownLed(e.reigns, f.reigns, m, b.origin);
    if b.phase.Watching? || (b.phase.Decided? && b.phase.view.leader != Some(m)) {
      GrownLed(e.reigns, f.reigns, m, b.phase.view.term);
    }
  }

  // ---------- preservation: the node that acts ----------

  /** What most actions do, as far as logs are concerned: nothing. */
  ghost predicate Quiet(e: Store, f: Store, n: NodeId, a: Agent, b: Agent)
  {
    && f.reigns == e.reigns && (f.terms == e.terms || (n in f.terms && f.terms == e.terms[n := 0]))
    && (f.key == e.key || f.key.None? || (Owns(e, n) && Owns(f, n)))
    && b.log == a.log && b.origin == a.origin && b.follows == a.follows
    && (b.phase.Watching? ==> b.phase == a.phase)
    && (b.phase.Decided? ==> a.phase.Decided? && b.phase.view == a.phase.view)
  }

  lemma QuietActor(e: Store, f: Store, n: NodeId, a: Agent, b: Agent)
    requires AgentLogs(e, n, a) && Quiet(e, f, n, a, b)
    ensures AgentLogs(f, n, b)
  {
  }

  lemma QuietBystander(e: Store, f: Store, n: NodeId, a: Agent, b: Agent, m: NodeId)
    requires Quiet(e, f, n, a, b) && m != n
    ensures Bystander(e, f, m)
  {
  }

  predicate MovesLog(act: Action)
  {
    act.Admit? || act.Write? || act.Replicate? || act.Read?
  }

  predicate WinsReign(e: Store, a: Agent, act: Action)
  {
    Campaigns(a, act) && e.key.None?
  }

  lemma QuietElection(c: Config, now: nat, e: Store, n: NodeId, a: Agent, act: Action)
    requires ElectionAction(act) && !act.Read? && !WinsReign(e, a, act) && ElectionEnabled(c, now, e, n, a, act)
    ensures Quiet(e, ElectionStore(c, now, e, n, a, act), n, a, ElectionAgent(c, now, e, n, a, act))
  {
  }

  lemma QuietTimer(c: Config, now: nat, e: Store, n: NodeId, a: Agent, act: Action)
    requires TimerAction(act) && TimerEnabled(c, now, e, n, a, act)
    ensures Quiet(e, TimerStore(c, now, e, n, a, act), n, a, TimerAgent(c, now, e, n, a, act))
  {
  }

  lemma QuietOperator(c: Config, now: nat, e: Store, n: NodeId, a: Agent, act: Action)
    requires OperatorAction(act) && OperatorEnabled(c, now, e, n, a, act)
    ensures Quiet(e, OperatorStore(c, now, e, n, a, act), n, a, OperatorAgent(c, now, e, n, a, act))
  {
  }

  lemma QuietSpm(c: Config, now: nat, e: Store, n: NodeId, a: Agent, act: Action)
    requires SpmAction(act) && !WinsReign(e, a, act) && SpmEnabled(c, now, e, n, a, act)
    ensures Quiet(e, SpmStore(c, now, e, n, a, act), n, a, SpmAgent(c, now, e, n, a, act))
  {
  }

  lemma QuietLocal(c: Config, now: nat, e: Store, n: NodeId, a: Agent, act: Action)
    requires LocalAction(act) && !MovesLog(act) && LocalEnabled(c, now, e, n, a, act)
    ensures Quiet(e, LocalStore(c, now, e, n, a, act), n, a, LocalAgent(c, now, e, n, a, act))
  {
  }

  lemma QuietAction(c: Config, now: nat, e: Store, n: NodeId, a: Agent, act: Action)
    requires ActEnabled(c, now, e, n, a, act) && !MovesLog(act) && !WinsReign(e, a, act)
    ensures Quiet(e, ActStore(c, now, e, n, a, act), n, a, ActAgent(c, now, e, n, a, act))
  {
    if ElectionAction(act) {
      QuietElection(c, now, e, n, a, act);
    } else if TimerAction(act) {
      QuietTimer(c, now, e, n, a, act);
    } else if OperatorAction(act) {
      QuietOperator(c, now, e, n, a, act);
    } else if SpmAction(act) {
      QuietSpm(c, now, e, n, a, act);
    } else {
      QuietLocal(c, now, e, n, a, act);
    }
  }

  /** The actor `n` turns `a` into `b` and the store from `e` to `f`; all logs stay linked. */
  ghost predicate Kept(e: Store, f: Store, n: NodeId, b: Agent)
  {
    && Linked(f.reigns)
    && AgentLogs(f, n, b)
    && (forall i: nat, nodes :: i < |f.reigns| && n in nodes ==>
          (i < |e.reigns| ==> LedByOneOf(e.reigns, i, nodes)) ==> LedByOneOf(f.reigns, i, nodes))
    && forall m :: m != n ==> Bystander(e, f, m)
  }

  lemma QuietKept(e: Store, f: Store, n: NodeId, a: Agent, b: Agent)
    requires Linked(e.reigns) && AgentLogs(e, n, a) && Quiet(e, f, n, a, b)
    ensures Kept(e, f, n, b)
  {
    QuietActor(e, f, n, a, b);
    forall m | m != n ensures Bystander(e, f, m) {
      QuietBystander(e, f, n, a, b, m);
    }
  }

  lemma Assemble(c: Config, s: State, n: NodeId, act: Action)
    requires LogsOk(s) && Enabled(c, s, Act(n, act))
    requires Kept(s.store, ActStore(c, s.now, s.store, n, s.agents[n], act), n,
                  ActAgent(c, s.now, s.store, n, s.agents[n], act))
    ensures LogsOk(Apply(c, s, Act(n, act)))
  {
    var t := Apply(c, s, Act(n, act));
    assert t.agents.Keys == s.agents.Keys;
    forall m | m in t.agents && m != n ensures AgentLogs(t.store, m, t.agents[m]) {
      FrameLogs(s.store, t.store, m, s.agents[m]);
    }
    forall i: nat | i < |t.store.reigns| ensures LedByOneOf(t.store.reigns, i, s.agents.Keys) {
      assert i < |s.store.reigns| ==> LedByOneOf(s.store.reigns, i, s.agents.Keys);
    }
  }

  // ---------- a reign begins ----------

  lemma WinShape(c: Config, now: nat, e: Store, n: NodeId, a: Agent, act: Action)
    requires ActEnabled(c, now, e, n, a, act) && WinsReign(e, a, act)
    ensures var f, b := ActStore(c, now, e, n, a, act), ActAgent(c, now, e, n, a, act);
            && f.reigns == e.reigns + [Reign(a.term + 1, n, a.log, a.log, a.lastTxn)]
            && f.terms == e.terms[n := a.term + 1]
            && Owns(f, n)
            && b.log == a.log && b.origin == |e.reigns| + 1 && !b.phase.Watching? && !b.phase.Decided?
  {
  }

  lemma LinkedGrows(reigns: seq<Reign>, r: Reign)
    requires Linked(reigns) && r.base <= r.log
    requires 0 < |reigns| ==>
               var p := reigns[|reigns| - 1]; r.base <= p.log && r.lastTxn <= Published(r.base, p.leader)
    ensures Linked(reigns + [r])
  {
    var more := reigns + [r];
    forall i: nat | i < |more| ensures LinkedAt(more, i) {
      if i < |reigns| {
        assert LinkedAt(reigns, i);
      }
    }
  }

  lemma WinKept(e: Store, f: Store, n: NodeId, a: Agent, b: Agent)
    requires |e.reigns| == e.term && Linked(e.reigns) && AgentLogs(e, n, a) && FreshWinner(e, a)
    requires a.term == TermOf(e, n) == e.term && e.key.None?
    requires f.reigns == e.reigns + [Reign(a.term + 1, n, a.log, a.log, a.lastTxn)]
    requires f.terms == e.terms[n := a.term + 1] && Owns(f, n)
    requires b.log == a.log && b.origin == |e.reigns| + 1 && !b.phase.Watching? && !b.phase.Decided?
    ensures Kept(e, f, n, b)
  {
    LinkedGrows(e.reigns, Reign(a.term + 1, n, a.log, a.log, a.lastTxn));
  }

  // ---------- a read, a write, an admission, a replication ----------

  lemma ReadKept(e: Store, n: NodeId, a: Agent, b: Agent)
    requires StoreTerms(e) && Linked(e.reigns) && AgentLogs(e, n, a)
    requires b.log == a.log && b.origin == a.origin && b.phase == Decided(Snapshot(e), false)
    ensures Kept(e, e, n, b)
  {
  }

  lemma LinkedWrite(reigns: seq<Reign>, log: seq<Txn>)
    requires Linked(reigns) && 0 < |reigns| && reigns[|reigns| - 1].log <= log
    ensures Linked(reigns[|reigns| - 1 := reigns[|reigns| - 1].(log := log)])
  {
    var more := reigns[|reigns| - 1 := reigns[|reigns| - 1].(log := log)];
    forall i: nat | i < |more| ensures LinkedAt(more, i) {
      assert LinkedAt(reigns, i);
    }
  }

  lemma WriteKept(e: Store, f: Store, n: NodeId, a: Agent, b: Agent)
    requires StoreTerms(e) && Linked(e.reigns) && AgentLogs(e, n, a) && AgentTerms(e, n, a) && Owns(e, n)
    requires var r := e.reigns[|e.reigns| - 1];
             f == e.(reigns := e.reigns[|e.reigns| - 1 := r.(log := Append(a.log, n))])
    requires b == a.(log := Append(a.log, n))
    ensures Kept(e, f, n, b)
  {
    LinkedWrite(e.reigns, Append(a.log, n));
  }

  /** An admitted follower's log is a prefix of the log of the reign it is admitted to, or of a later one. */
  lemma AdmitPrefix(e: Store, n: NodeId, a: Agent, v: View)
    requires StoreTerms(e) && Linked(e.reigns) && AgentLogs(e, n, a)
    requires ViewFits(e, v) && v.leader.Some? && a.term <= v.term && a.term == TermOf(e, n)
    requires FreshFollower(e, n, a, v) && AgentNew(e, n, a) && PreWatch(n, a, v).Accept?
    ensures PreWatch(n, a, v).term == v.term
    ensures a.origin < v.term ==> a.log <= e.reigns[v.term - 1].base && PrefixOf(e.reigns, a.log, v.term)
  {
    assert LinkedAt(e.reigns, v.term - 1);
    if a.term != 0 && a.origin < v.term {
      ComparedIsContained(e.reigns[v.term - 2].log, a.log, e.reigns[v.term - 1].base, e.reigns[v.term - 2].leader,
                          Compared(n, a, v).value.txn);
    }
  }

  lemma AdmitKept(e: Store, f: Store, n: NodeId, a: Agent, b: Agent, v: View)
    requires StoreTerms(e) && Linked(e.reigns) && AgentLogs(e, n, a) && !Owns(e, n)
    requires ViewFits(e, v) && v.leader.Some? && LedUpTo(e.reigns, n, v.term)
    requires a.term <= v.term && a.term == TermOf(e, n)
    requires PreWatch(n, a, v).Accept? ==> FreshFollower(e, n, a, v) && AgentNew(e, n, a)
    requires f == e || (PreWatch(n, a, v).Accept? && f == e.(terms := e.terms[n := PreWatch(n, a, v).term]))
    requires b.log == a.log
    requires if PreWatch(n, a, v).Accept? then b.origin == (if a.origin < v.term then v.term else a.origin)
             else b.origin == a.origin && b.phase.Exited?
    requires (b.phase == Watching(v) && b.follows == v.leader) || b.phase.Idle? || b.phase.Exited?
    ensures Kept(e, f, n, b)
  {
    if PreWatch(n, a, v).Accept? {
      AdmitPrefix(e, n, a, v);
    }
  }

  lemma ReplicateKept(e: Store, n: NodeId, a: Agent, b: Agent, m: NodeId, master: Agent)
    requires StoreTerms(e) && Linked(e.reigns) && AgentTerms(e, n, a) && AgentLogs(e, n, a) && AgentLogs(e, m, master)
    requires a.follows == Some(m) && Supplies(e, n, master)
    requires b == a.(log := b.log, origin := b.origin) && b.log <= master.log && b.origin == master.origin
    ensures Kept(e, e, n, b)
  {
    if a.phase.Watching? {
      assert e.reigns[a.phase.view.term - 1].leader == m;
    }
  }

  // ---------- steps and runs ----------

  /** Everything the containment of logs rests on. */
  ghost predicate Sound(c: Config, s: State)
  {
    LeaseSafety.Safe(c, s) && TermsOk(s) && LogsOk(s) && NewOk(s)
  }

  lemma AdmitActor(c: Config, now: nat, e: Store, n: NodeId, a: Agent, act: Action)
    requires act.Admit? && ActEnabled(c, now, e, n, a, act)
    requires StoreTerms(e) && AgentTerms(e, n, a) && Linked(e.reigns) && AgentLogs(e, n, a)
    requires AgentNew(e, n, a) && (PreWatch(n, a, a.phase.view).Accept? ==> FreshFollower(e, n, a, a.phase.view))
    ensures Kept(e, ActStore(c, now, e, n, a, act), n, ActAgent(c, now, e, n, a, act))
  {
    AdmitKept(e, LocalStore(c, now, e, n, a, act), n, a, LocalAgent(c, now, e, n, a, act), a.phase.view);
  }

  lemma AdmitStep(c: Config, s: State, n: NodeId, act: Action)
    requires TermsOk(s) && LogsOk(s) && NewOk(s)
    requires Enabled(c, s, Act(n, act)) && Fresh(s, Act(n, act)) && act.Admit?
    ensures LogsOk(Apply(c, s, Act(n, act)))
  {
    AdmitActor(c, s.now, s.store, n, s.agents[n], act);
    Assemble(c, s, n, act);
  }

  /** A watching node may always copy: its master led the reign it was admitted to. */
  lemma WatchingMayCopy(s: State, n: NodeId)
    requires TermsOk(s) && LogsOk(s) && n in s.agents && s.agents[n].phase.Watching?
    ensures var a := s.agents[n];
            a.follows.Some? && a.follows.value in s.agents && Supplies(s.store, n, s.agents[a.follows.value])
  {
    var a := s.agents[n];
    assert AgentTerms(s.store, n, a) && AgentLogs(s.store, n, a);
    assert LedByOneOf(s.store.reigns, a.phase.view.term - 1, s.agents.Keys);
    assert AgentLogs(s.store, a.follows.value, s.agents[a.follows.value]);
  }

  lemma ReplicateStep(c: Config, s: State, n: NodeId, act: Action)
    requires TermsOk(s) && LogsOk(s) && Enabled(c, s, Act(n, act)) && Fresh(s, Act(n, act)) && act.Replicate?
    ensures LogsOk(Apply(c, s, Act(n, act)))
  {
    ReplicateActor(c, s, n, act);
    Assemble(c, s, n, act);
  }

  lemma ReplicateActor(c: Config, s: State, n: NodeId, act: Action)
    requires TermsOk(s) && LogsOk(s) && Enabled(c, s, Act(n, act)) && Fresh(s, Act(n, act)) && act.Replicate?
    ensures Kept(s.store, ActStore(c, s.now, s.store, n, s.agents[n], act), n,
                 ActAgent(c, s.now, s.store, n, s.agents[n], act))
  {
    var e, a := s.store, s.agents[n];
    var m := a.follows.value;
    ReplicateShape(c, s.now, e, n, a, act);
    assert AgentTerms(e, n, a) && AgentLogs(e, n, a) && AgentLogs(e, m, s.agents[m]);
    ReplicateKept(e, n, a, a.(log := act.log, origin := act.origin), m, s.agents[m]);
  }

  lemma ReplicateShape(c: Config, now: nat, e: Store, n: NodeId, a: Agent, act: Action)
    requires ActEnabled(c, now, e, n, a, act) && act.Replicate?
    ensures ActStore(c, now, e, n, a, act) == e
    ensures ActAgent(c, now, e, n, a, act) == a.(log := act.log, origin := act.origin)
  {
  }

  lemma WriteActor(c: Config, now: nat, e: Store, n: NodeId, a: Agent)
    requires ActEnabled(c, now, e, n, a, Write)
    requires StoreTerms(e) && Linked(e.reigns) && AgentLogs(e, n, a) && AgentTerms(e, n, a) && Owns(e, n)
    ensures Kept(e, ActStore(c, now, e, n, a, Write), n, ActAgent(c, now, e, n, a, Write))
  {
    WriteKept(e, ActStore(c, now, e, n, a, Write), n, a, ActAgent(c, now, e, n, a, Write));
  }

  lemma WriteStep(c: Config, s: State, n: NodeId)
    requires TermsOk(s) && LogsOk(s) && Enabled(c, s, Act(n, Write)) && Owns(s.store, n)
    ensures LogsOk(Apply(c, s, Act(n, Write)))
  {
    WriteActor(c, s.now, s.store, n, s.agents[n]);
    Assemble(c, s, n, Write);
  }

  lemma WinStep(c: Config, s: State, n: NodeId, act: Action)
    requires TermsOk(s) && LogsOk(s) && Enabled(c, s, Act(n, act)) && WinsReign(s.store, s.agents[n], act)
    requires CurrentWinner(s, Act(n, act)) && Fresh(s, Act(n, act))
    ensures LogsOk(Apply(c, s, Act(n, act)))
  {
    var e, a := s.store, s.agents[n];
    assert AgentTerms(e, n, a) && AgentLogs(e, n, a);
    WinShape(c, s.now, e, n, a, act);
    WinKept(e, ActStore(c, s.now, e, n, a, act), n, a, ActAgent(c, s.now, e, n, a, act));
    Assemble(c, s, n, act);
  }

  lemma ReadStep(c: Config, s: State, n: NodeId)
    requires TermsOk(s) && LogsOk(s) && Enabled(c, s, Act(n, Read))
    ensures LogsOk(Apply(c, s, Act(n, Read)))
  {
    var e, a := s.store, s.agents[n];
    assert AgentLogs(e, n, a);
    ReadKept(e, n, a, ActAgent(c, s.now, e, n, a, Read));
    Assemble(c, s, n, Read);
  }

  lemma QuietStep(c: Config, s: State, n: NodeId, act: Action)
    requires LogsOk(s) && Enabled(c, s, Act(n, act)) && !MovesLog(act) && !WinsReign(s.store, s.agents[n], act)
    ensures LogsOk(Apply(c, s, Act(n, act)))
  {
    var e, a := s.store, s.agents[n];
    QuietAction(c, s.now, e, n, a, act);
    QuietKept(e, ActStore(c, s.now, e, n, a, act), n, a, ActAgent(c, s.now, e, n, a, act));
    Assemble(c, s, n, act);
  }

  lemma ActLogs(c: Config, s: State, n: NodeId, act: Action)
    requires Sound(c, s) && Enabled(c, s, Act(n, act))
    requires CurrentWinner(s, Act(n, act)) && Fresh(s, Act(n, act))
    ensures LogsOk(Apply(c, s, Act(n, act)))
  {
    if act.Admit? {
      AdmitStep(c, s, n, act);
    } else if act.Replicate? {
      ReplicateStep(c, s, n, act);
    } else if act.Write? {
      LeaseSafety.WritableOwns(c, s, n);
      WriteStep(c, s, n);
    } else if act.Read? {
      ReadStep(c, s, n);
    } else if WinsReign(s.store, s.agents[n], act) {
      WinStep(c, s, n, act);
    } else {
      QuietStep(c, s, n, act);
    }
  }

  lemma ExpireLogs(s: State, l: nat)
    requires LogsOk(s)
    ensures LogsOk(s.(store := ExpireLease(s.store, l)))
  {
    var f := ExpireLease(s.store, l);
    forall n | n in s.agents ensures AgentLogs(f, n, s.agents[n]) {
      FrameLogs(s.store, f, n, s.agents[n]);
    }
  }

  /** All premises at once. */
  ghost predicate GoodStep(s: State, step: Step)
  {
    LeaseSafety.CarefulStep(s, step) && CurrentWinner(s, step) && Fresh(s, step)
  }

  lemma StepSound(c: Config, s: State, step: Step)
    requires LeaseSafety.TimingSafe(c) && Sound(c, s) && Enabled(c, s, step) && GoodStep(s, step)
    ensures Sound(c, Apply(c, s, step))
  {
    LeaseSafety.StepSafe(c, s, step);
    StepTerms(c, s, step);
    StepNew(c, s, step);
    match step
    case Tick(_) =>
    case Expire(l) => ExpireLogs(s, l);
    case Act(n, act) => ActLogs(c, s, n, act);
  }

  lemma {:induction false} RunSound(c: Config, s: State, steps: seq<Step>)
    requires LeaseSafety.TimingSafe(c) && Sound(c, s) && Legal(c, s, steps) && RunsUnder(c, s, steps, GoodStep)
    ensures Sound(c, Exec(c, s, steps))
    decreases |steps|
  {
    if steps != [] {
      StepSound(c, s, steps[0]);
      RunSound(c, Apply(c, s, steps[0]), steps[1..]);
    }
  }

  /** The node holds the global term, or watches the leader under it though its term was not persisted. */
  predicate AtGlobalTerm(e: Store, n: NodeId, a: Agent)
  {
    TermOf(e, n) == e.term || (a.phase.Watching? && a.phase.view.term == e.term)
  }

  /** A follower at the global term has executed nothing its leader has not. */
  ghost predicate FollowersContained(s: State)
  {
    forall m, n :: m in s.agents && n in s.agents && Owns(s.store, m) && AtGlobalTerm(s.store, n, s.agents[n]) ==>
      s.agents[n].log <= s.agents[m].log
  }

  lemma SoundContained(c: Config, s: State)
    requires Sound(c, s)
    ensures FollowersContained(s)
  {
    forall m, n | m in s.agents && n in s.agents && Owns(s.store, m) && AtGlobalTerm(s.store, n, s.agents[n])
      ensures s.agents[n].log <= s.agents[m].log
    {
      assert AgentLogs(s.store, m, s.agents[m]) && AgentLogs(s.store, n, s.agents[n]);
    }
  }

  lemma FollowerLogContainment(c: Config, steps: seq<Step>)
    requires LeaseSafety.TimingSafe(c) && Legal(c, Init(c), steps) && RunsUnder(c, Init(c), steps, GoodStep)
    ensures FollowersContained(Exec(c, Init(c), steps))
  {
    RunSound(c, Init(c), steps);
    SoundContained(c, Exec(c, Init(c), steps));
  }

  // ---------- exactly when copying is harmless ----------

  /** Whatever `n` may apply of its master's log now, followers stay contained. */
  ghost predicate CopiesSafely(c: Config, s: State, n: NodeId)
  {
    forall log, origin :: Enabled(c, s, Act(n, Replicate(log, origin))) ==>
      FollowersContained(Apply(c, s, Act(n, Replicate(log, origin))))
  }

  lemma CopyKeeps(c: Config, s: State, n: NodeId, w: NodeId, log: seq<Txn>, origin: nat)
    requires FollowersContained(s) && n in s.agents && w in s.agents && n != w
    requires Owns(s.store, w) && AtGlobalTerm(s.store, n, s.agents[n])
    requires Enabled(c, s, Act(n, Replicate(log, origin)))
    ensures FollowersContained(Apply(c, s, Act(n, Replicate(log, origin)))) <==> log <= s.agents[w].log
  {
    var t := Apply(c, s, Act(n, Replicate(log, origin)));
    assert t.store == s.store && t.agents == s.agents[n := s.agents[n].(log := log, origin := origin)];
    assert AtGlobalTerm(t.store, n, t.agents[n]);
    if log <= s.agents[w].log {
      forall m, k | m in t.agents && k in t.agents && Owns(t.store, m) && AtGlobalTerm(t.store, k, t.agents[k])
        ensures t.agents[k].log <= t.agents[m].log
      {
        assert m == w;
      }
    }
  }

  /**
   In a sound state, a follower at the global term that is not ahead of its master copies
   safely if and only if that master has nothing the leader lacks.
   */
  lemma CopyExact(c: Config, s: State, n: NodeId, m: NodeId, w: NodeId)
    requires Sound(c, s) && n in s.agents && m in s.agents && w in s.agents && n != w
    requires Owns(s.store, w) && AtGlobalTerm(s.store, n, s.agents[n])
    requires s.agents[n].follows == Some(m) && !s.agents[n].db.Stopped? && s.agents[n].log <= s.agents[m].log
    ensures CopiesSafely(c, s, n) <==> s.agents[m].log <= s.agents[w].log
  {
    SoundContained(c, s);
    var log, origin := s.agents[m].log, s.agents[m].origin;
    CopyKeeps(c, s, n, w, log, origin);
    if log <= s.agents[w].log {
      forall l, o | Enabled(c, s, Act(n, Replicate(l, o)))
        ensures FollowersContained(Apply(c, s, Act(n, Replicate(l, o))))
      {
        CopyKeeps(c, s, n, w, l, o);
      }
    }
  }

  /** A master that is of use at the global term has nothing the leader lacks: the leader itself, or who holds its term. */
  lemma UsefulIsContained(c: Config, s: State, n: NodeId, m: NodeId, w: NodeId)
    requires Sound(c, s) && n in s.agents && m in s.agents && w in s.agents && Owns(s.store, w)
    ensures m == w || AtGlobalTerm(s.store, m, s.agents[m]) ==> s.store.term <= s.agents[m].origin
    ensures s.store.term <= s.agents[m].origin ==> s.agents[m].log <= s.agents[w].log
    ensures n != w && TermOf(s.store, n) == s.store.term ==>
              (Supplies(s.store, n, s.agents[m]) <==> s.store.term <= s.agents[m].origin)
  {
    assert AgentLogs(s.store, m, s.agents[m]) && AgentLogs(s.store, w, s.agents[w]);
  }

  /** The node is being admitted to a term it has not been in before. */
  predicate NewlyAdmitted(n: NodeId, a: Agent)
  {
    a.phase.Decided? && PreWatch(n, a, a.phase.view).Accept? && a.origin < a.phase.view.term
  }

  lemma AdmittedWithin(e: Store, n: NodeId, a: Agent)
    requires StoreTerms(e) && Linked(e.reigns) && AgentTerms(e, n, a) && AgentLogs(e, n, a) && AgentNew(e, n, a)
    requires NewlyAdmitted(n, a)
    requires a.phase.view.leader.Some? && a.phase.view.leader != Some(n) && FreshFollower(e, n, a, a.phase.view)
    ensures 1 <= a.phase.view.term <= |e.reigns| && a.log <= e.reigns[a.phase.view.term - 1].base
  {
    AdmitPrefix(e, n, a, a.phase.view);
  }

  /**
   A node admitted to a term for the first time has executed nothing that was missing
   from its leader's log when that leader was elected.
   */
  lemma AdmittedWithinElection(c: Config, steps: seq<Step>, n: NodeId, persisted: bool, redirected: bool)
    requires LeaseSafety.TimingSafe(c) && Legal(c, Init(c), steps) && RunsUnder(c, Init(c), steps, GoodStep)
    requires var s, step := Exec(c, Init(c), steps), Act(n, Admit(persisted, redirected));
             Enabled(c, s, step) && Fresh(s, step) && NewlyAdmitted(n, s.agents[n])
    ensures var s := Exec(c, Init(c), steps);
            var t := s.agents[n].phase.view.term;
            1 <= t <= |s.store.reigns| && s.agents[n].log <= s.store.reigns[t - 1].base
  {
    RunSound(c, Init(c), steps);
    AdmitEnabled(c, Exec(c, Init(c), steps), n, persisted, redirected);
    AdmittedInState(c, Exec(c, Init(c), steps), n);
  }

  lemma AdmitEnabled(c: Config, s: State, n: NodeId, persisted: bool, redirected: bool)
    requires var step := Act(n, Admit(persisted, redirected)); Enabled(c, s, step) && Fresh(s, step)
    requires NewlyAdmitted(n, s.agents[n])
    ensures var a := s.agents[n];
            a.phase.view.leader.Some? && a.phase.view.leader != Some(n) && FreshFollower(s.store, n, a, a.phase.view)
  {
  }

  lemma AdmittedInState(c: Config, s: State, n: NodeId)
    requires Sound(c, s) && n in s.agents && NewlyAdmitted(n, s.agents[n])
    requires var a := s.agents[n];
             a.phase.view.leader.Some? && a.phase.view.leader != Some(n) && FreshFollower(s.store, n, a, a.phase.view)
    ensures var t := s.agents[n].phase.view.term;
            1 <= t <= |s.store.reigns| && s.agents[n].log <= s.store.reigns[t - 1].base
  {
    assert AgentLogs(s.store, n, s.agents[n]) && AgentTerms(s.store, n, s.agents[n]) && AgentNew(s.store, n, s.agents[n]);
    AdmittedWithin(s.store, n, s.agents[n]);
  }

  // ---------- GTIDs ----------

  ghost predicate AllNumbered(s: State)
  {
    forall n :: n in s.agents ==> Numbered(s.agents[n].log)
  }

  lemma ActNumbered(c: Config, s: State, n: NodeId, act: Action)
    requires AllNumbered(s) && Enabled(c, s, Act(n, act))
    ensures Numbered(ActAgent(c, s.now, s.store, n, s.agents[n], act).log)
  {
    var a, b := s.agents[n], ActAgent(c, s.now, s.store, n, s.agents[n], act);
    if act.Write? {
      AppendNumbered(a.log, n);
    } else if act.Replicate? {
      NumberedPrefix(act.log, s.agents[a.follows.value].log);
    } else {
      assert b.log == a.log;
    }
  }

  /** Executed GTID sets never have gaps, in any run at all. */
  lemma {:induction false} RunNumbered(c: Config, s: State, steps: seq<Step>)
    requires AllNumbered(s) && Legal(c, s, steps)
    ensures AllNumbered(Exec(c, s, steps))
    decreases |steps|
  {
    if steps != [] {
      if steps[0].Act? {
        ActNumbered(c, s, steps[0].node, steps[0].act);
      }
      RunNumbered(c, Apply(c, s, steps[0]), steps[1..]);
    }
  }
}
