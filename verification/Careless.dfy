/**
 What an opening by hand can lead to: for a node that leads, never two writers; for a node
 that does not hold the leader key, always.
 */
module Careless {

  import opened Prelude
  import opened Cluster
  import opened LeaseSafety
  import opened Runs

  lemma CarefulAllowsPlain()
    ensures AllowsPlain(CarefulStep)
  {
  }

  // ---------- taking over ----------

  /** A node is taken down, and its leader key, if it has one, is cleaned away. */
  lemma TakeDown(c: Config, s: State, p: NodeId) returns (steps: seq<Step>, t: State)
    requires p in s.agents && (s.store.key.None? || Owns(s.store, p))
    ensures From(c, s, steps, t, CarefulStep) && t.now == s.now && t.store.key.None?
    ensures p in t.agents && t.agents == s.agents[p := t.agents[p]] && t.agents[p].phase.Exited?
  {
    CarefulAllowsPlain();
    steps, t := Down(c, s, p);
    steps, t := DoFrom(c, s, steps, t, p, Stop, CarefulStep);
    steps, t := DoFrom(c, s, steps, t, p, Clean, CarefulStep);
  }

  lemma Down(c: Config, s: State, p: NodeId) returns (steps: seq<Step>, t: State)
    requires p in s.agents
    ensures From(c, s, steps, t, CarefulStep) && t.now == s.now && t.store == s.store
    ensures p in t.agents && t.agents == s.agents[p := t.agents[p]] && t.agents[p].phase.Exited?
  {
    CarefulAllowsPlain();
    steps, t := [], s;
    if !s.agents[p].phase.Exited? {
      steps, t := DoFrom(c, s, steps, t, p, Crash, CarefulStep);
    }
  }

  /** It restarts and wins a campaign. */
  lemma ComeBack(c: Config, s: State, steps: seq<Step>, t: State, p: NodeId) returns (more: seq<Step>, u: State)
    requires From(c, s, steps, t, CarefulStep) && t.store.key.None? && p in t.agents && t.agents[p].phase.Exited?
    ensures From(c, s, more, u, CarefulStep) && p in u.agents && u.agents == t.agents[p := u.agents[p]]
    ensures var a := u.agents[p]; a.phase.Answered? && a.phase.ok && a.phase.since == u.now
  {
    CarefulAllowsPlain();
    more, u := DoFrom(c, s, steps, t, p, Restart, CarefulStep);
    more, u := AskFrom(c, s, more, u, p, CarefulStep);
    more, u := ExtendFrom(c, s, more, u, Act(p, Commit), CarefulStep);
  }

  /** From any state in which the key is gone or its own, a node can be made to serve, all without time passing. */
  lemma TakeOver(c: Config, s: State, p: NodeId) returns (steps: seq<Step>, t: State)
    requires p in s.agents && (s.store.key.None? || Owns(s.store, p))
    ensures From(c, s, steps, t, CarefulStep) && p in t.agents && t.agents == s.agents[p := t.agents[p]]
    ensures t.agents[p].db.ReadWrite?
  {
    CarefulAllowsPlain();
    steps, t := TakeDown(c, s, p);
    steps, t := ComeBack(c, s, steps, t, p);
    steps, t := DoFrom(c, s, steps, t, p, Receive, CarefulStep);
    steps, t := DoFrom(c, s, steps, t, p, Promote(true), CarefulStep);
  }

  // ---------- what an opening leads to ----------

  /** Whatever happens next, with careful operators, there is one writer at most. */
  ghost predicate StaysSingle(c: Config, s: State)
  {
    forall steps :: Legal(c, s, steps) && RunsUnder(c, s, steps, CarefulStep) ==> AtMostOneWritable(Exec(c, s, steps))
  }

  predicate OwnerKnown(s: State)
  {
    s.store.key.Some? ==> s.store.key.value.owner in s.agents
  }

  lemma KeylessCannotStaySingle(c: Config, s: State, n: NodeId, m: NodeId)
    requires n in s.agents && m in s.agents && m != n && OwnerKnown(s)
    requires s.agents[n].db.ReadWrite? && !Owns(s.store, n)
    ensures !StaysSingle(c, s)
  {
    var p := if s.store.key.Some? then s.store.key.value.owner else m;
    var steps, t := TakeOver(c, s, p);
    assert t.agents[p].db.ReadWrite? && t.agents[n].db.ReadWrite?;
    assert !AtMostOneWritable(Exec(c, s, steps));
  }

  lemma SafeStaysSingle(c: Config, s: State)
    requires TimingSafe(c) && Safe(c, s)
    ensures StaysSingle(c, s)
  {
    forall steps | Legal(c, s, steps) && RunsUnder(c, s, steps, CarefulStep)
      ensures AtMostOneWritable(Exec(c, s, steps))
    {
      RunSafe(c, s, steps);
    }
  }

  /**
   In a safe state with another node, a request that opens by hand the database of a node
   that leads or does not hold the key can lead to two writers if and only if it is careless.
   */
  lemma OpeningExact(c: Config, s: State, n: NodeId, m: NodeId, act: Action)
    requires TimingSafe(c) && Safe(c, s) && OwnerKnown(s) && Enabled(c, s, Act(n, act)) && OpensManually(act)
    requires m in s.agents && m != n
    requires Owns(s.store, n) ==> Leased(s.agents[n]) || SinglePoint(s.agents[n])
    ensures StaysSingle(c, Apply(c, s, Act(n, act))) <==> Careful(s.agents[n], act)
  {
    var t := Apply(c, s, Act(n, act));
    if Careful(s.agents[n], act) {
      ActSafe(c, s, n, act);
      SafeStaysSingle(c, t);
    } else {
      assert AgentSafe(c, s.now, s.store, n, s.agents[n]);
      assert t.store == s.store && t.agents[n].db.ReadWrite?;
      KeylessCannotStaySingle(c, t, n, m);
    }
  }

  /** The owner of the leader key is always one of the nodes. */
  lemma {:induction false} RunOwnerKnown(c: Config, s: State, steps: seq<Step>)
    requires OwnerKnown(s) && Legal(c, s, steps)
    ensures OwnerKnown(Exec(c, s, steps))
    decreases |steps|
  {
    if steps != [] {
      StepOwnerKnown(c, s, steps[0]);
      RunOwnerKnown(c, Apply(c, s, steps[0]), steps[1..]);
    }
  }

  lemma StepOwnerKnown(c: Config, s: State, step: Step)
    requires OwnerKnown(s) && Enabled(c, s, step)
    ensures OwnerKnown(Apply(c, s, step))
  {
    if step.Act? {
      ActOwner(c, s.now, s.store, step.node, s.agents[step.node], step.act);
    }
  }

  lemma ActOwner(c: Config, now: nat, e: Store, n: NodeId, a: Agent, act: Action)
    requires ActEnabled(c, now, e, n, a, act)
    ensures var f := ActStore(c, now, e, n, a, act); f.key.Some? ==> f.key.value.owner == n || f.key == e.key
  {
  }
}
