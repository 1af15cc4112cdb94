/**
 A node whose stored term is 0 is taken for a new joiner and admitted unchecked.  In every
 run, whatever the timing, the operators and the winners, it has executed something only if
 it resumed single point mode or was admitted without its term being persisted.
 */
module Forgetting {

  import opened Prelude
  import opened Cluster
  import opened Terms

  /** The stored term of `n` is reset to 0 or, being 0, is not persisted at an admission. */
  predicate Forgets(s: State, step: Step, n: NodeId)
  {
    && step.Act? && step.node == n && n in s.agents
    && var a := s.agents[n];
       || (step.act.SpmCommit? && a.phase.SpmAsking? && a.phase.resume && Owns(s.store, n))
       || (&& step.act.Admit? && !step.act.persisted && TermOf(s.store, n) == 0
           && a.phase.Decided? && PreWatch(n, a, a.phase.view).Accept?)
  }

  // ---------- the invariant ----------

  /** The node has no stored term and has forgotten none. */
  predicate New(e: Store, n: NodeId, a: Agent)
  {
    TermOf(e, n) == 0 && !a.forgot
  }

  /** Where the loop of a node that has never led or followed can stand. */
  predicate Starting(n: NodeId, p: Phase)
  {
    match p
    case Idle => true
    case Decided(v, _) => v.leader != Some(n)
    case Granted(resume, _, _, _) => !resume
    case Answered(resume, ok, _, _) => !resume && !ok
    case Undoing => true
    case SpmAsking(resume, _) => !resume
    case SpmAnswered(resume, _, ok) => !resume && !ok
    case Exited => true
    case _ => false
  }

  predicate Blank(n: NodeId, a: Agent)
  {
    a.log == [] && a.follows.None? && !a.db.ReadWrite? && !a.isLeader && Starting(n, a.phase)
  }

  /** The node is about to put its own term back. */
  predicate Resuming(n: NodeId, p: Phase)
  {
    match p
    case Decided(v, _) => v.leader == Some(n)
    case Granted(resume, _, _, _) => resume
    case SpmAsking(resume, _) => resume
    case SpmAnswered(resume, _, _) => resume
    case _ => false
  }

  predicate AgentNew(e: Store, n: NodeId, a: Agent)
  {
    && (New(e, n, a) ==> Blank(n, a) && !Owns(e, n))
    && (ViewOf(a.phase).Some? && ViewOf(a.phase).value.leader.Some? ==> 1 <= ViewOf(a.phase).value.term)
    && (Resuming(n, a.phase) ==> 1 <= a.term)
  }

  predicate KeyHasTerm(e: Store)
  {
    e.key.Some? ==> 1 <= e.term
  }

  ghost predicate NewOk(s: State)
  {
    KeyHasTerm(s.store) && forall n :: n in s.agents ==> AgentNew(s.store, n, s.agents[n])
  }

  // ---------- preservation ----------

  ghost predicate ActorNew(e: Store, f: Store, n: NodeId, b: Agent)
  {
    && KeyHasTerm(f) && AgentNew(f, n, b)
    && forall m :: m != n ==> TermOf(f, m) == TermOf(e, m) && (Owns(f, m) ==> Owns(e, m))
  }

  lemma ElectionNew(c: Config, now: nat, e: Store, n: NodeId, a: Agent, act: Action)
    requires KeyHasTerm(e) && AgentNew(e, n, a) && ElectionAction(act) && ElectionEnabled(c, now, e, n, a, act)
    ensures ActorNew(e, ElectionStore(c, now, e, n, a, act), n, ElectionAgent(c, now, e, n, a, act))
  {
  }

  lemma TimerNew(c: Config, now: nat, e: Store, n: NodeId, a: Agent, act: Action)
    requires KeyHasTerm(e) && AgentNew(e, n, a) && TimerAction(act) && TimerEnabled(c, now, e, n, a, act)
    ensures ActorNew(e, TimerStore(c, now, e, n, a, act), n, TimerAgent(c, now, e, n, a, act))
  {
  }

  lemma OperatorNew(c: Config, now: nat, e: Store, n: NodeId, a: Agent, act: Action)
    requires KeyHasTerm(e) && AgentNew(e, n, a) && OperatorAction(act) && OperatorEnabled(c, now, e, n, a, act)
    ensures ActorNew(e, OperatorStore(c, now, e, n, a, act), n, OperatorAgent(c, now, e, n, a, act))
  {
  }

  lemma SpmCommitNew(c: Config, now: nat, e: Store, n: NodeId, a: Agent)
    requires KeyHasTerm(e) && AgentNew(e, n, a) && SpmEnabled(c, now, e, n, a, SpmCommit)
    ensures ActorNew(e, SpmStore(c, now, e, n, a, SpmCommit), n, SpmAgent(c, now, e, n, a, SpmCommit))
  {
  }

  lemma SpmNew(c: Config, now: nat, e: Store, n: NodeId, a: Agent, act: Action)
    requires KeyHasTerm(e) && AgentNew(e, n, a) && SpmAction(act) && SpmEnabled(c, now, e, n, a, act)
    ensures ActorNew(e, SpmStore(c, now, e, n, a, act), n, SpmAgent(c, now, e, n, a, act))
  {
    if act.SpmCommit? {
      SpmCommitNew(c, now, e, n, a);
    }
  }

  lemma LocalNew(c: Config, now: nat, e: Store, n: NodeId, a: Agent, act: Action)
    requires KeyHasTerm(e) && AgentNew(e, n, a) && LocalAction(act) && LocalEnabled(c, now, e, n, a, act)
    ensures ActorNew(e, LocalStore(c, now, e, n, a, act), n, LocalAgent(c, now, e, n, a, act))
  {
  }

  lemma ActNew(c: Config, now: nat, e: Store, n: NodeId, a: Agent, act: Action)
    requires KeyHasTerm(e) && AgentNew(e, n, a) && ActEnabled(c, now, e, n, a, act)
    ensures ActorNew(e, ActStore(c, now, e, n, a, act), n, ActAgent(c, now, e, n, a, act))
  {
    if ElectionAction(act) {
      ElectionNew(c, now, e, n, a, act);
    } else if TimerAction(act) {
      TimerNew(c, now, e, n, a, act);
    } else if OperatorAction(act) {
      OperatorNew(c, now, e, n, a, act);
    } else if SpmAction(act) {
      SpmNew(c, now, e, n, a, act);
    } else {
      LocalNew(c, now, e, n, a, act);
    }
  }

  lemma StepNew(c: Config, s: State, step: Step)
    requires NewOk(s) && Enabled(c, s, step)
    ensures NewOk(Apply(c, s, step))
  {
    match step
    case Tick(_) =>
    case Expire(_) =>
    case Act(n, act) => ActNew(c, s.now, s.store, n, s.agents[n], act);
  }

  /** `forgot` tells whether one of the two causes has happened. */
  lemma StepForgets(c: Config, s: State, step: Step, n: NodeId)
    requires Enabled(c, s, step) && n in s.agents && !s.agents[n].forgot && !Forgets(s, step, n)
    ensures n in Apply(c, s, step).agents && !Apply(c, s, step).agents[n].forgot
  {
  }

  // ---------- whole runs ----------

  ghost predicate NeverForgets(c: Config, s: State, steps: seq<Step>, n: NodeId)
    requires Legal(c, s, steps)
    decreases |steps|
  {
    steps == [] || (!Forgets(s, steps[0], n) && NeverForgets(c, Apply(c, s, steps[0]), steps[1..], n))
  }

  lemma {:induction false} RunNew(c: Config, s: State, steps: seq<Step>, n: NodeId)
    requires NewOk(s) && Legal(c, s, steps) && NeverForgets(c, s, steps, n)
    requires n in s.agents && !s.agents[n].forgot
    ensures NewOk(Exec(c, s, steps)) && n in Exec(c, s, steps).agents && !Exec(c, s, steps).agents[n].forgot
    decreases |steps|
  {
    if steps != [] {
      StepNew(c, s, steps[0]);
      StepForgets(c, s, steps[0], n);
      RunNew(c, Apply(c, s, steps[0]), steps[1..], n);
    }
  }

  /** A node that never forgets is without a term only while it has executed nothing. */
  lemma ZeroTermMeansNew(c: Config, steps: seq<Step>, n: NodeId)
    requires Legal(c, Init(c), steps) && n in c.nodes && NeverForgets(c, Init(c), steps, n)
    ensures var s := Exec(c, Init(c), steps);
            n in s.agents && (TermOf(s.store, n) == 0 ==> s.agents[n].log == [] && !Owns(s.store, n))
  {
    RunNew(c, Init(c), steps, n);
    var s := Exec(c, Init(c), steps);
    assert AgentNew(s.store, n, s.agents[n]);
  }
}
