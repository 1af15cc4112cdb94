/** Building runs step by step, for the statements that name one. */
module Runs {

  import opened Prelude
  import opened Cluster

  lemma {:induction false} RunSnoc(c: Config, s: State, steps: seq<Step>, step: Step, d: (State, Step) -> bool)
    requires Legal(c, s, steps) && Enabled(c, Exec(c, s, steps), step)
    ensures Legal(c, s, steps + [step])
    ensures Exec(c, s, steps + [step]) == Apply(c, Exec(c, s, steps), step)
    ensures RunsUnder(c, s, steps, d) && d(Exec(c, s, steps), step) ==> RunsUnder(c, s, steps + [step], d)
    decreases |steps|
  {
    if steps == [] {
      assert [step][1..] == [];
    } else {
      assert (steps + [step])[1..] == steps[1..] + [step];
      RunSnoc(c, Apply(c, s, steps[0]), steps[1..], step, d);
    }
  }

  /** `steps` lead from `s` to `t`, all under the discipline `d`. */
  ghost predicate From(c: Config, s: State, steps: seq<Step>, t: State, d: (State, Step) -> bool)
  {
    Legal(c, s, steps) && RunsUnder(c, s, steps, d) && Exec(c, s, steps) == t
  }

  lemma ExtendFrom(c: Config, s: State, steps: seq<Step>, t: State, step: Step, d: (State, Step) -> bool)
    returns (more: seq<Step>, u: State)
    requires From(c, s, steps, t, d) && Enabled(c, t, step) && d(t, step)
    ensures more == steps + [step] && From(c, s, more, u, d) && u == Apply(c, t, step)
  {
    more, u := steps + [step], Apply(c, t, step);
    RunSnoc(c, s, steps, step, d);
  }

  /** `steps` lead from the initial state to `t`, all under the discipline `d`. */
  ghost predicate Path(c: Config, steps: seq<Step>, t: State, d: (State, Step) -> bool)
  {
    From(c, Init(c), steps, t, d)
  }

  lemma Extend(c: Config, steps: seq<Step>, t: State, step: Step, d: (State, Step) -> bool)
    returns (more: seq<Step>, u: State)
    requires Path(c, steps, t, d) && Enabled(c, t, step) && d(t, step)
    ensures more == steps + [step] && Path(c, more, u, d) && u == Apply(c, t, step)
  {
    more, u := ExtendFrom(c, Init(c), steps, t, step, d);
  }

  /** Steps that no discipline of this project restricts. */
  predicate Plain(step: Step)
  {
    step.Act? ==>
      && !step.act.Commit? && !step.act.SpmCommit? && !step.act.ManualReadWrite? && !step.act.ManualReadOnly?
      && !step.act.Admit? && !step.act.Replicate?
  }

  ghost predicate AllowsPlain(d: (State, Step) -> bool)
  {
    forall s, step :: Plain(step) ==> d(s, step)
  }

  /** One plain action of `n`, with what it does spelled out. */
  lemma DoFrom(c: Config, s: State, steps: seq<Step>, t: State, n: NodeId, act: Action, d: (State, Step) -> bool)
    returns (more: seq<Step>, u: State)
    requires AllowsPlain(d) && Plain(Act(n, act))
    requires From(c, s, steps, t, d) && n in t.agents && ActEnabled(c, t.now, t.store, n, t.agents[n], act)
    ensures From(c, s, more, u, d)
    ensures u == State(t.now, ActStore(c, t.now, t.store, n, t.agents[n], act),
                       t.agents[n := ActAgent(c, t.now, t.store, n, t.agents[n], act)])
  {
    more, u := ExtendFrom(c, s, steps, t, Act(n, act), d);
  }

  lemma Do(c: Config, steps: seq<Step>, t: State, n: NodeId, act: Action, d: (State, Step) -> bool)
    returns (more: seq<Step>, u: State)
    requires AllowsPlain(d) && Plain(Act(n, act))
    requires Path(c, steps, t, d) && n in t.agents && ActEnabled(c, t.now, t.store, n, t.agents[n], act)
    ensures Path(c, more, u, d)
    ensures u == State(t.now, ActStore(c, t.now, t.store, n, t.agents[n], act),
                       t.agents[n := ActAgent(c, t.now, t.store, n, t.agents[n], act)])
  {
    more, u := DoFrom(c, Init(c), steps, t, n, act, d);
  }

  /** The agent after it has read that there is no leader. */
  function Decides(e: Store, n: NodeId, a: Agent): Agent
  {
    a.(phase := Decided(Snapshot(e), false), term := TermOf(e, n))
  }

  /** ... and has prepared its campaign and been granted a lease. */
  function Asks(e: Store, n: NodeId, a: Agent, now: nat): Agent
  {
    var b := Decides(e, n, a);
    (if e.term == 0 then b else Uploaded(n, b, Snapshot(e), false)).(phase := Granted(false, Snapshot(e), e.nextLease, now))
  }

  lemma ReadyFrom(c: Config, s: State, steps: seq<Step>, t: State, n: NodeId, d: (State, Step) -> bool)
    returns (more: seq<Step>, u: State)
    requires AllowsPlain(d) && From(c, s, steps, t, d)
    requires n in t.agents && t.agents[n].phase.Idle? && t.store.key.None?
    ensures From(c, s, more, u, d) && u.now == t.now && u.store == t.store
    ensures var b := Decides(t.store, n, t.agents[n]);
            u.agents == t.agents[n := if t.store.term == 0 then b
                                      else Uploaded(n, b, Snapshot(t.store), false).(phase := Decided(Snapshot(t.store), true))]
  {
    more, u := DoFrom(c, s, steps, t, n, Read, d);
    if t.store.term != 0 {
      more, u := DoFrom(c, s, more, u, n, Upload(false), d);
    }
  }

  lemma Ready(c: Config, steps: seq<Step>, t: State, n: NodeId, d: (State, Step) -> bool)
    returns (more: seq<Step>, u: State)
    requires AllowsPlain(d) && Path(c, steps, t, d)
    requires n in t.agents && t.agents[n].phase.Idle? && t.store.key.None?
    ensures Path(c, more, u, d) && u.now == t.now && u.store == t.store
    ensures var b := Decides(t.store, n, t.agents[n]);
            u.agents == t.agents[n := if t.store.term == 0 then b
                                      else Uploaded(n, b, Snapshot(t.store), false).(phase := Decided(Snapshot(t.store), true))]
  {
    more, u := ReadyFrom(c, Init(c), steps, t, n, d);
  }

  lemma AskFrom(c: Config, s: State, steps: seq<Step>, t: State, n: NodeId, d: (State, Step) -> bool)
    returns (more: seq<Step>, u: State)
    requires AllowsPlain(d) && From(c, s, steps, t, d)
    requires n in t.agents && t.agents[n].phase.Idle? && t.store.key.None?
    ensures From(c, s, more, u, d) && u.now == t.now
    ensures u.store == t.store.(leases := t.store.leases[t.store.nextLease := LeaseEnd(c, t.now)],
                                nextLease := t.store.nextLease + 1)
    ensures u.agents == t.agents[n := Asks(t.store, n, t.agents[n], t.now)]
  {
    more, u := ReadyFrom(c, s, steps, t, n, d);
    more, u := DoFrom(c, s, more, u, n, Grant, d);
  }

  lemma Ask(c: Config, steps: seq<Step>, t: State, n: NodeId, d: (State, Step) -> bool)
    returns (more: seq<Step>, u: State)
    requires AllowsPlain(d) && Path(c, steps, t, d)
    requires n in t.agents && t.agents[n].phase.Idle? && t.store.key.None?
    ensures Path(c, more, u, d) && u.now == t.now
    ensures u.store == t.store.(leases := t.store.leases[t.store.nextLease := LeaseEnd(c, t.now)],
                                nextLease := t.store.nextLease + 1)
    ensures u.agents == t.agents[n := Asks(t.store, n, t.agents[n], t.now)]
  {
    more, u := AskFrom(c, Init(c), steps, t, n, d);
  }
}
