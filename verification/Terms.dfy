/**
 Terms: one leader per term, terms only grow, and no node is ahead of the
 global term, in every run whose winners are up to date.
 */
module Terms {

  import opened Prelude
  import opened Gtid
  import opened Cluster

  predicate Campaigns(a: Agent, act: Action)
  {
    || (act.Commit? && a.phase.Granted? && !a.phase.resume)
    || (act.SpmCommit? && a.phase.SpmAsking? && !a.phase.resume)
  }

  /** The premise: a node that wins a campaign holds the global term. */
  predicate CurrentWinner(s: State, step: Step)
  {
    step.Act? && step.node in s.agents && Campaigns(s.agents[step.node], step.act) && s.store.key.None? ==>
      s.agents[step.node].term == s.store.term
  }

  // ---------- the invariant ----------

  /** Reign `t` is entry `t - 1`, and the store describes the last reign. */
  ghost predicate StoreTerms(e: Store)
  {
    && |e.reigns| == e.term
    && (forall i :: 0 <= i < |e.reigns| ==> e.reigns[i].term == i + 1)
    && (e.key.Some? ==> 1 <= e.term && e.reigns[e.term - 1].leader == e.key.value.owner)
    && (1 <= e.term ==> e.lastTxn == e.reigns[e.term - 1].lastTxn && e.name == Some(e.reigns[e.term - 1].leader))
    && (forall n :: n in e.terms ==> e.terms[n] <= e.term)
  }

  ghost predicate ViewFits(e: Store, v: View)
  {
    && v.term <= e.term
    && (v.leader.Some? ==>
          && 1 <= v.term <= |e.reigns|
          && e.reigns[v.term - 1].leader == v.leader.value
          && e.reigns[v.term - 1].lastTxn == v.lastTxn)
  }

  /** The agent read itself as the leader: as long as it is, nothing has moved. */
  ghost predicate OwnView(e: Store, n: NodeId, a: Agent, v: View)
  {
    && v.leader == Some(n) && a.term == v.term && a.lastTxn == v.lastTxn
    && (Owns(e, n) ==> v.term == e.term)
  }

  /** The agent read no leader or another one. */
  ghost predicate OtherView(e: Store, n: NodeId, a: Agent, v: View)
  {
    v.leader != Some(n) && a.term <= v.term && (a.term == TermOf(e, n) || e.key == Some(LeaderKey(n, None)))
  }

  function ViewOf(p: Phase): Option<View>
  {
    match p
    case Decided(v, _) => Some(v)
    case Granted(_, v, _, _) => Some(v)
    case SpmAsking(_, v) => Some(v)
    case SpmAnswered(_, v, _) => Some(v)
    case Watching(v) => Some(v)
    case _ => None
  }

  ghost predicate AgentTerms(e: Store, n: NodeId, a: Agent)
  {
    && (ViewOf(a.phase).Some? ==> ViewFits(e, ViewOf(a.phase).value))
    && (match a.phase
        case Decided(v, _) => if v.leader == Some(n) then OwnView(e, n, a, v) else OtherView(e, n, a, v) && !Owns(e, n)
        case Granted(resume, v, _, _) =>
          if resume then OwnView(e, n, a, v) else v.leader.None? && OtherView(e, n, a, v) && !Owns(e, n)
        case SpmAsking(resume, v) => if resume then OwnView(e, n, a, v) else v.leader.None? && OtherView(e, n, a, v)
        case SpmAnswered(resume, v, ok) => if resume then OwnView(e, n, a, v) else v.leader.None? && OtherView(e, n, a, v)
        case Watching(v) => v.leader.Some? && v.leader != Some(n) && !Owns(e, n)
        case _ => true)
  }

  ghost predicate TermsOk(s: State)
  {
    StoreTerms(s.store) && forall n :: n in s.agents ==> AgentTerms(s.store, n, s.agents[n])
  }

  // ---------- preservation ----------

  /** The store keeps its history; `n` may have begun one more reign. */
  ghost predicate Continues(e: Store, f: Store, n: NodeId)
  {
    && e.term <= f.term
    && |e.reigns| <= |f.reigns|
    && (forall i :: 0 <= i < |e.reigns| ==>
          f.reigns[i].leader == e.reigns[i].leader && f.reigns[i].lastTxn == e.reigns[i].lastTxn)
    && (forall m :: m != n ==> TermOf(f, m) == TermOf(e, m))
    && (forall m :: m != n && Owns(f, m) ==> Owns(e, m) && f.term == e.term)
  }

  lemma FrameTerms(e: Store, f: Store, n: NodeId, m: NodeId, b: Agent)
    requires AgentTerms(e, m, b) && Continues(e, f, n) && m != n
    requires StoreTerms(e)
    requires e.key == Some(LeaderKey(m, None)) ==> f.key == e.key
    ensures AgentTerms(f, m, b)
  {
  }

  ghost predicate ActorReady(e: Store, n: NodeId, a: Agent, act: Action)
  {
    && StoreTerms(e) && AgentTerms(e, n, a)
    && (Campaigns(a, act) && e.key.None? ==> a.term == e.term)
  }

  /** The history goes on, and a lease-free key of another node is left alone. */
  ghost predicate StoreKeeps(e: Store, f: Store, n: NodeId)
  {
    && StoreTerms(f) && Continues(e, f, n)
    && (forall m :: m != n && e.key == Some(LeaderKey(m, None)) ==> f.key == e.key)
  }

  /** The store keeps everything terms are about, except that `n` may have let go of its key. */
  predicate SameTerms(e: Store, f: Store, n: NodeId)
  {
    && f.term == e.term && f.reigns == e.reigns && f.terms == e.terms && f.lastTxn == e.lastTxn && f.name == e.name
    && (f.key == e.key || (Owns(e, n) && f.key.None?))
  }

  lemma QuietStore(e: Store, f: Store, n: NodeId)
    requires StoreTerms(e) && SameTerms(e, f, n)
    ensures StoreKeeps(e, f, n)
  {
  }

  /** Either the view is gone, or it and what goes with it are as before. */
  predicate SameView(e: Store, f: Store, a: Agent, b: Agent)
  {
    || ViewOf(b.phase).None?
    || (b.phase == a.phase && b.term == a.term && b.lastTxn == a.lastTxn && f.key == e.key)
  }

  lemma QuietView(e: Store, f: Store, n: NodeId, a: Agent, b: Agent)
    requires StoreTerms(e) && AgentTerms(e, n, a) && SameTerms(e, f, n) && SameView(e, f, a, b)
    ensures AgentTerms(f, n, b)
  {
  }

  ghost predicate Keeps(e: Store, f: Store, n: NodeId, b: Agent)
  {
    StoreKeeps(e, f, n) && AgentTerms(f, n, b)
  }

  // The elections proper.

  lemma CommitKeeps(c: Config, now: nat, e: Store, n: NodeId, a: Agent)
    requires ActorReady(e, n, a, Commit) && ElectionEnabled(c, now, e, n, a, Commit)
    ensures Keeps(e, ElectionStore(c, now, e, n, a, Commit), n, ElectionAgent(c, now, e, n, a, Commit))
  {
  }

  lemma ReadKeeps(c: Config, now: nat, e: Store, n: NodeId, a: Agent)
    requires ActorReady(e, n, a, Read) && ElectionEnabled(c, now, e, n, a, Read)
    ensures Keeps(e, ElectionStore(c, now, e, n, a, Read), n, ElectionAgent(c, now, e, n, a, Read))
  {
    QuietStore(e, ElectionStore(c, now, e, n, a, Read), n);
  }

  lemma ElectionKeeps(c: Config, now: nat, e: Store, n: NodeId, a: Agent, act: Action)
    requires ActorReady(e, n, a, act)
    requires ElectionAction(act) && !act.Commit? && ElectionEnabled(c, now, e, n, a, act)
    ensures Keeps(e, ElectionStore(c, now, e, n, a, act), n, ElectionAgent(c, now, e, n, a, act))
  {
    if act.Read? {
      ReadKeeps(c, now, e, n, a);
    } else {
      QuietStore(e, ElectionStore(c, now, e, n, a, act), n);
    }
  }

  // Single point mode.

  lemma SpmCommitStore(c: Config, now: nat, e: Store, n: NodeId, a: Agent)
    requires ActorReady(e, n, a, SpmCommit) && SpmEnabled(c, now, e, n, a, SpmCommit)
    ensures StoreKeeps(e, SpmStore(c, now, e, n, a, SpmCommit), n)
  {
  }

  lemma SpmCommitView(c: Config, now: nat, e: Store, n: NodeId, a: Agent)
    requires ActorReady(e, n, a, SpmCommit) && SpmEnabled(c, now, e, n, a, SpmCommit)
    ensures AgentTerms(SpmStore(c, now, e, n, a, SpmCommit), n, SpmAgent(c, now, e, n, a, SpmCommit))
  {
  }

  lemma SpmKeeps(c: Config, now: nat, e: Store, n: NodeId, a: Agent, act: Action)
    requires ActorReady(e, n, a, act)
    requires SpmAction(act) && !act.SpmCommit? && SpmEnabled(c, now, e, n, a, act)
    ensures Keeps(e, SpmStore(c, now, e, n, a, act), n, SpmAgent(c, now, e, n, a, act))
  {
    QuietStore(e, SpmStore(c, now, e, n, a, act), n);
  }

  // Serving, timers and operators.

  lemma TimerShape(c: Config, now: nat, e: Store, n: NodeId, a: Agent, act: Action)
    requires TimerAction(act) && TimerEnabled(c, now, e, n, a, act)
    ensures var f := TimerStore(c, now, e, n, a, act);
            SameTerms(e, f, n) && SameView(e, f, a, TimerAgent(c, now, e, n, a, act))
  {
  }

  lemma OperatorShape(c: Config, now: nat, e: Store, n: NodeId, a: Agent, act: Action)
    requires OperatorAction(act) && OperatorEnabled(c, now, e, n, a, act)
    ensures var f := OperatorStore(c, now, e, n, a, act);
            SameTerms(e, f, n) && SameView(e, f, a, OperatorAgent(c, now, e, n, a, act))
  {
  }

  lemma LocalShape(c: Config, now: nat, e: Store, n: NodeId, a: Agent, act: Action)
    requires LocalAction(act) && !act.Admit? && !act.Write? && LocalEnabled(c, now, e, n, a, act)
    ensures var f := LocalStore(c, now, e, n, a, act);
            SameTerms(e, f, n) && SameView(e, f, a, LocalAgent(c, now, e, n, a, act))
  {
  }

  lemma QuietKeeps(e: Store, f: Store, n: NodeId, a: Agent, b: Agent)
    requires StoreTerms(e) && AgentTerms(e, n, a) && SameTerms(e, f, n) && SameView(e, f, a, b)
    ensures Keeps(e, f, n, b)
  {
    QuietStore(e, f, n);
    QuietView(e, f, n, a, b);
  }

  // Admission and writes.

  /**
   `preWatch` leaves an accepted node at the term of its leader.  The branch for a
   node ahead of its leader is never taken and `v.term - 1` never wraps.
   */
  lemma AcceptedAtLeaderTerm(n: NodeId, a: Agent, v: View)
    requires a.term <= v.term && 1 <= v.term
    ensures Pred64(v.term) == v.term - 1
    ensures PreWatch(n, a, v).Accept? ==> PreWatch(n, a, v).term == v.term
  {
  }

  lemma AdmittedKeeps(e: Store, f: Store, n: NodeId, b: Agent, v: View)
    requires StoreTerms(e) && ViewFits(e, v) && v.leader.Some? && v.leader != Some(n) && !Owns(e, n)
    requires f == e || f == e.(terms := e.terms[n := v.term])
    requires b.phase == Watching(v) || ViewOf(b.phase).None?
    ensures Keeps(e, f, n, b)
  {
  }

  lemma AdmitKeeps(c: Config, now: nat, e: Store, n: NodeId, a: Agent, act: Action)
    requires ActorReady(e, n, a, act) && act.Admit? && LocalEnabled(c, now, e, n, a, act)
    ensures Keeps(e, LocalStore(c, now, e, n, a, act), n, LocalAgent(c, now, e, n, a, act))
  {
    AcceptedAtLeaderTerm(n, a, a.phase.view);
    AdmittedKeeps(e, LocalStore(c, now, e, n, a, act), n, LocalAgent(c, now, e, n, a, act), a.phase.view);
  }

  /** A write only makes the log of the last reign longer. */
  lemma WriteKeeps(e: Store, f: Store, n: NodeId, a: Agent, b: Agent)
    requires StoreTerms(e) && AgentTerms(e, n, a)
    requires b.phase == a.phase && b.term == a.term && b.lastTxn == a.lastTxn
    requires f == e || (0 < |e.reigns| && exists log :: f == e.(reigns := Longer(e.reigns, log)))
    ensures Keeps(e, f, n, b)
  {
  }

  function Longer(reigns: seq<Reign>, log: seq<Txn>): seq<Reign>
    requires 0 < |reigns|
  {
    reigns[|reigns| - 1 := reigns[|reigns| - 1].(log := log)]
  }

  lemma WriteShape(c: Config, now: nat, e: Store, n: NodeId, a: Agent)
    requires LocalEnabled(c, now, e, n, a, Write) && StoreTerms(e) && AgentTerms(e, n, a)
    ensures Keeps(e, LocalStore(c, now, e, n, a, Write), n, LocalAgent(c, now, e, n, a, Write))
  {
    var f := LocalStore(c, now, e, n, a, Write);
    assert f != e ==> f == e.(reigns := Longer(e.reigns, Append(a.log, n)));
    WriteKeeps(e, f, n, a, LocalAgent(c, now, e, n, a, Write));
  }

  lemma ActorKeeps(c: Config, now: nat, e: Store, n: NodeId, a: Agent, act: Action)
    requires ActorReady(e, n, a, act) && ActEnabled(c, now, e, n, a, act)
    ensures Keeps(e, ActStore(c, now, e, n, a, act), n, ActAgent(c, now, e, n, a, act))
  {
    if act.Commit? {
      CommitKeeps(c, now, e, n, a);
    } else if ElectionAction(act) {
      ElectionKeeps(c, now, e, n, a, act);
    } else if TimerAction(act) {
      TimerShape(c, now, e, n, a, act);
      QuietKeeps(e, TimerStore(c, now, e, n, a, act), n, a, TimerAgent(c, now, e, n, a, act));
    } else if OperatorAction(act) {
      OperatorShape(c, now, e, n, a, act);
      QuietKeeps(e, OperatorStore(c, now, e, n, a, act), n, a, OperatorAgent(c, now, e, n, a, act));
    } else if act.SpmCommit? {
      SpmCommitStore(c, now, e, n, a);
      SpmCommitView(c, now, e, n, a);
    } else if SpmAction(act) {
      SpmKeeps(c, now, e, n, a, act);
    } else if act.Admit? {
      AdmitKeeps(c, now, e, n, a, act);
    } else if act.Write? {
      WriteShape(c, now, e, n, a);
    } else {
      LocalShape(c, now, e, n, a, act);
      QuietKeeps(e, LocalStore(c, now, e, n, a, act), n, a, LocalAgent(c, now, e, n, a, act));
    }
  }

  lemma ActTerms(c: Config, s: State, n: NodeId, act: Action)
    requires TermsOk(s) && Enabled(c, s, Act(n, act)) && CurrentWinner(s, Act(n, act))
    ensures TermsOk(Apply(c, s, Act(n, act)))
    ensures Continues(s.store, Apply(c, s, Act(n, act)).store, n)
  {
    var t, a := Apply(c, s, Act(n, act)), s.agents[n];
    ActorKeeps(c, s.now, s.store, n, a, act);
    forall m | m in t.agents && m != n ensures AgentTerms(t.store, m, t.agents[m]) {
      FrameTerms(s.store, t.store, n, m, s.agents[m]);
    }
  }

  lemma ExpireTerms(e: Store, l: nat, m: NodeId, b: Agent)
    requires AgentTerms(e, m, b) && StoreTerms(e)
    ensures AgentTerms(ExpireLease(e, l), m, b)
  {
  }

  /** Reigns seen so far never change hands, and no later state forgets one. */
  ghost predicate Extends(e: Store, f: Store)
  {
    && e.term <= f.term
    && |e.reigns| <= |f.reigns|
    && (forall i :: 0 <= i < |e.reigns| ==>
          f.reigns[i].leader == e.reigns[i].leader && f.reigns[i].lastTxn == e.reigns[i].lastTxn)
  }

  lemma StepTerms(c: Config, s: State, step: Step)
    requires TermsOk(s) && Enabled(c, s, step) && CurrentWinner(s, step)
    ensures TermsOk(Apply(c, s, step)) && Extends(s.store, Apply(c, s, step).store)
  {
    match step
    case Tick(_) =>
    case Expire(l) =>
      forall n | n in s.agents ensures AgentTerms(ExpireLease(s.store, l), n, s.agents[n]) {
        ExpireTerms(s.store, l, n, s.agents[n]);
      }
    case Act(n, act) => ActTerms(c, s, n, act);
  }

  lemma {:induction false} RunTerms(c: Config, s: State, steps: seq<Step>)
    requires TermsOk(s) && Legal(c, s, steps) && RunsUnder(c, s, steps, CurrentWinner)
    ensures TermsOk(Exec(c, s, steps)) && Extends(s.store, Exec(c, s, steps).store)
    decreases |steps|
  {
    if steps != [] {
      StepTerms(c, s, steps[0]);
      RunTerms(c, Apply(c, s, steps[0]), steps[1..]);
    }
  }

  // ---------- whole runs ----------

  /** The step begins a reign: a campaign transaction that finds no leader key. */
  predicate Wins(s: State, step: Step)
  {
    step.Act? && step.node in s.agents && Campaigns(s.agents[step.node], step.act) && s.store.key.None?
  }

  function CountWins(c: Config, s: State, steps: seq<Step>): nat
    requires Legal(c, s, steps)
    decreases |steps|
  {
    if steps == [] then 0
    else (if Wins(s, steps[0]) then 1 else 0) + CountWins(c, Apply(c, s, steps[0]), steps[1..])
  }

  /** A campaign raises the global term by one; a resume, and every other step, leaves it alone. */
  lemma StepRaises(c: Config, s: State, step: Step)
    requires TermsOk(s) && Enabled(c, s, step) && CurrentWinner(s, step)
    ensures Apply(c, s, step).store.term == s.store.term + if Wins(s, step) then 1 else 0
  {
    if step.Act? {
      var n, act := step.node, step.act;
      ActRaises(c, s.now, s.store, n, s.agents[n], act);
    }
  }

  lemma ActRaises(c: Config, now: nat, e: Store, n: NodeId, a: Agent, act: Action)
    requires AgentTerms(e, n, a) && ActEnabled(c, now, e, n, a, act)
    requires Campaigns(a, act) && e.key.None? ==> a.term == e.term
    ensures ActStore(c, now, e, n, a, act).term == e.term + if Campaigns(a, act) && e.key.None? then 1 else 0
  {
  }

  /** Over any run the global term counts the campaigns won. */
  lemma {:induction false} TermCountsWins(c: Config, s: State, steps: seq<Step>)
    requires TermsOk(s) && Legal(c, s, steps) && RunsUnder(c, s, steps, CurrentWinner)
    ensures Exec(c, s, steps).store.term == s.store.term + CountWins(c, s, steps)
    decreases |steps|
  {
    if steps != [] {
      StepTerms(c, s, steps[0]);
      StepRaises(c, s, steps[0]);
      TermCountsWins(c, Apply(c, s, steps[0]), steps[1..]);
    }
  }

  /** A campaign that wins raises the term by one if and only if its node holds the global term. */
  lemma WinRaisesExactly(c: Config, s: State, step: Step)
    requires Enabled(c, s, step) && Wins(s, step)
    ensures Apply(c, s, step).store.term == s.store.term + 1 <==> CurrentWinner(s, step)
  {
  }

  /** At every step of the run the term grows by one if a campaign is won, and not otherwise. */
  ghost predicate TermTracksWins(c: Config, s: State, steps: seq<Step>)
    requires Legal(c, s, steps)
    decreases |steps|
  {
    steps == [] ||
    (&& Apply(c, s, steps[0]).store.term == s.store.term + (if Wins(s, steps[0]) then 1 else 0)
     && TermTracksWins(c, Apply(c, s, steps[0]), steps[1..]))
  }

  /** That is so, over any run, if and only if every winner is current. */
  lemma {:induction false} TracksExactly(c: Config, s: State, steps: seq<Step>)
    requires TermsOk(s) && Legal(c, s, steps)
    ensures TermTracksWins(c, s, steps) <==> RunsUnder(c, s, steps, CurrentWinner)
    decreases |steps|
  {
    if steps != [] {
      if Wins(s, steps[0]) {
        WinRaisesExactly(c, s, steps[0]);
      }
      if CurrentWinner(s, steps[0]) {
        StepRaises(c, s, steps[0]);
        StepTerms(c, s, steps[0]);
        TracksExactly(c, Apply(c, s, steps[0]), steps[1..]);
      }
    }
  }

  lemma SameTermSameOwner(e: Store, f: Store)
    requires StoreTerms(e) && StoreTerms(f) && Extends(e, f)
    ensures e.term <= f.term
    ensures e.key.Some? && f.key.Some? && e.term == f.term ==> e.key.value.owner == f.key.value.owner
  {
  }

  lemma LaterOwner(c: Config, s: State, steps: seq<Step>)
    requires TermsOk(s) && Legal(c, s, steps) && RunsUnder(c, s, steps, CurrentWinner)
    ensures var e, f := s.store, Exec(c, s, steps).store;
            && e.term <= f.term
            && (e.key.Some? && f.key.Some? && e.term == f.term ==> e.key.value.owner == f.key.value.owner)
  {
    RunTerms(c, s, steps);
    SameTermSameOwner(s.store, Exec(c, s, steps).store);
  }

  /** Whenever in a run two leader keys carry the same term, they name the same node. */
  lemma OneLeaderPerTerm(c: Config, before: seq<Step>, after: seq<Step>)
    requires Legal(c, Init(c), before) && RunsUnder(c, Init(c), before, CurrentWinner)
    requires var s := Exec(c, Init(c), before); Legal(c, s, after) && RunsUnder(c, s, after, CurrentWinner)
    ensures var s := Exec(c, Init(c), before);
            var t := Exec(c, s, after);
            && s.store.term <= t.store.term
            && (s.store.key.Some? && t.store.key.Some? && s.store.term == t.store.term ==>
                  s.store.key.value.owner == t.store.key.value.owner)
  {
    RunTerms(c, Init(c), before);
    LaterOwner(c, Exec(c, Init(c), before), after);
  }

  /**
   No node is ahead: stored terms are within the global term, in the store and in
   whatever snapshot an agent still holds, and a node deciding whether to follow is
   within the term it read.
   */
  lemma NobodyAhead(c: Config, steps: seq<Step>, n: NodeId)
    requires Legal(c, Init(c), steps) && RunsUnder(c, Init(c), steps, CurrentWinner)
    ensures var s := Exec(c, Init(c), steps);
            && TermOf(s.store, n) <= s.store.term
            && (n in s.agents ==>
                  var a := s.agents[n];
                  && (ViewOf(a.phase).Some? ==> ViewOf(a.phase).value.term <= s.store.term)
                  && (a.phase.Decided? ==> a.term <= a.phase.view.term)
                  && (a.phase.Decided? && a.phase.view.leader.Some? ==> Pred64(a.phase.view.term) == a.phase.view.term - 1))
  {
    RunTerms(c, Init(c), steps);
    var s := Exec(c, Init(c), steps);
    assert n in s.agents ==> AgentTerms(s.store, n, s.agents[n]);
  }
}
