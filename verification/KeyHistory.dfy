/**
 The leader key over time.  Its value changes only through a deletion, and an
 agent's view names the revision from which its watch must start.  Nothing here
 depends on timing, on operators or on who wins.
 */
module KeyHistory {

  import opened Prelude
  import opened Cluster
  import opened Terms

  // ---------- histories ----------

  /** A put right after a put has the same owner. */
  predicate SteadyAt(events: seq<KeyEvent>, i: nat)
    requires i + 1 < |events|
  {
    events[i].Put? && events[i + 1].Put? ==> events[i].owner == events[i + 1].owner
  }

  ghost predicate Steady(events: seq<KeyEvent>)
  {
    forall i: nat :: i + 1 < |events| ==> SteadyAt(events, i)
  }

  /** The last event tells whether there is a key, and whose. */
  predicate LastEvent(e: Store)
  {
    match e.key
    case None => e.events == [] || e.events[|e.events| - 1].Delete?
    case Some(k) => e.events != [] && e.events[|e.events| - 1] == Put(k.owner) && e.modRev == |e.events|
  }

  ghost predicate HistoryOk(e: Store)
  {
    Steady(e.events) && LastEvent(e)
  }

  /** Until the first deletion after it, a put's owner is the owner. */
  lemma {:induction false} OwnerUntilDelete(events: seq<KeyEvent>, i: nat, j: nat)
    requires Steady(events) && i <= j < |events| && events[i].Put?
    requires forall k :: i < k <= j ==> events[k].Put?
    ensures events[j] == events[i]
    decreases j
  {
    if i < j {
      OwnerUntilDelete(events, i, j - 1);
      assert SteadyAt(events, j - 1);
    }
  }

  // ---------- preservation ----------

  /** What one step may do to the key and its history. */
  predicate KeyStep(e: Store, f: Store)
  {
    || (f.key == e.key && f.events == e.events && f.modRev == e.modRev)
    || (e.key.Some? && f.key.None? && f.events == e.events + [Delete])
    || (&& f.key.Some? && f.events == e.events + [Put(f.key.value.owner)] && f.modRev == |f.events|
        && (e.key.None? || e.key.value.owner == f.key.value.owner))
  }

  lemma KeyStepHistory(e: Store, f: Store)
    requires HistoryOk(e) && KeyStep(e, f)
    ensures HistoryOk(f)
  {
    forall i: nat | i + 1 < |f.events| ensures SteadyAt(f.events, i) {
      if i + 1 < |e.events| {
        assert SteadyAt(e.events, i);
      }
    }
  }

  lemma ActKeyStep(c: Config, now: nat, e: Store, n: NodeId, a: Agent, act: Action)
    requires ActEnabled(c, now, e, n, a, act)
    ensures KeyStep(e, ActStore(c, now, e, n, a, act))
  {
  }

  /** A view that names a leader names the put it was read from. */
  predicate ViewInHistory(events: seq<KeyEvent>, v: View)
  {
    v.leader.Some? ==> 1 <= v.rev <= |events| && events[v.rev - 1] == Put(v.leader.value)
  }

  predicate ViewKnown(events: seq<KeyEvent>, a: Agent)
  {
    && (ViewOf(a.phase).Some? ==> ViewInHistory(events, ViewOf(a.phase).value))
    && (a.phase.Watching? ==> a.phase.view.leader.Some?)
  }

  ghost predicate KeyOk(s: State)
  {
    HistoryOk(s.store) && forall n :: n in s.agents ==> ViewKnown(s.store.events, s.agents[n])
  }

  /** An action leaves the agent with no snapshot, the one it had, or the current one. */
  predicate SameOrCurrent(e: Store, a: Agent, b: Agent)
  {
    && (ViewOf(b.phase).None? || ViewOf(b.phase) == ViewOf(a.phase) || ViewOf(b.phase) == Some(Snapshot(e)))
    && (b.phase.Watching? ==> b.phase == a.phase || b.phase.view.leader.Some?)
  }

  lemma ElectionViews(c: Config, now: nat, e: Store, n: NodeId, a: Agent, act: Action)
    requires ElectionAction(act) && ElectionEnabled(c, now, e, n, a, act)
    ensures SameOrCurrent(e, a, ElectionAgent(c, now, e, n, a, act))
  {
  }

  lemma SpmViews(c: Config, now: nat, e: Store, n: NodeId, a: Agent, act: Action)
    requires SpmAction(act) && SpmEnabled(c, now, e, n, a, act)
    ensures SameOrCurrent(e, a, SpmAgent(c, now, e, n, a, act))
  {
  }

  lemma LocalViews(c: Config, now: nat, e: Store, n: NodeId, a: Agent, act: Action)
    requires LocalAction(act) && LocalEnabled(c, now, e, n, a, act)
    ensures SameOrCurrent(e, a, LocalAgent(c, now, e, n, a, act))
  {
  }

  lemma ActViews(c: Config, now: nat, e: Store, n: NodeId, a: Agent, act: Action)
    requires ActEnabled(c, now, e, n, a, act)
    ensures SameOrCurrent(e, a, ActAgent(c, now, e, n, a, act))
  {
    if ElectionAction(act) {
      ElectionViews(c, now, e, n, a, act);
    } else if SpmAction(act) {
      SpmViews(c, now, e, n, a, act);
    } else if LocalAction(act) {
      LocalViews(c, now, e, n, a, act);
    }
  }

  lemma ActKey(c: Config, s: State, n: NodeId, act: Action)
    requires KeyOk(s) && Enabled(c, s, Act(n, act))
    ensures KeyOk(Apply(c, s, Act(n, act)))
    ensures s.store.events <= Apply(c, s, Act(n, act)).store.events
  {
    var f, b := ActStore(c, s.now, s.store, n, s.agents[n], act), ActAgent(c, s.now, s.store, n, s.agents[n], act);
    ActKeyStep(c, s.now, s.store, n, s.agents[n], act);
    ActViews(c, s.now, s.store, n, s.agents[n], act);
    KeyStepHistory(s.store, f);
    ViewsKept(s, f, n, b);
  }

  lemma ViewsKept(s: State, f: Store, n: NodeId, b: Agent)
    requires KeyOk(s) && n in s.agents && HistoryOk(f) && s.store.events <= f.events
    requires SameOrCurrent(s.store, s.agents[n], b)
    ensures KeyOk(State(s.now, f, s.agents[n := b]))
  {
  }

  lemma StepKey(c: Config, s: State, step: Step)
    requires KeyOk(s) && Enabled(c, s, step)
    ensures KeyOk(Apply(c, s, step))
    ensures s.store.events <= Apply(c, s, step).store.events
  {
    match step
    case Tick(_) =>
    case Expire(l) => KeyStepHistory(s.store, ExpireLease(s.store, l));
    case Act(n, act) => ActKey(c, s, n, act);
  }

  lemma {:induction false} RunKey(c: Config, s: State, steps: seq<Step>)
    requires KeyOk(s) && Legal(c, s, steps)
    ensures KeyOk(Exec(c, s, steps))
    ensures s.store.events <= Exec(c, s, steps).store.events
    decreases |steps|
  {
    if steps != [] {
      StepKey(c, s, steps[0]);
      RunKey(c, Apply(c, s, steps[0]), steps[1..]);
    }
  }

  /**
   In every run: an agent whose view names a leader can replay the key's history
   from the view's revision, and finds that leader and no other up to the first
   deletion.  With no deletion so far, that leader still holds the key.
   */
  lemma WatchFromView(c: Config, steps: seq<Step>, n: NodeId, j: nat)
    requires Legal(c, Init(c), steps)
    requires var s := Exec(c, Init(c), steps);
             && n in s.agents && ViewOf(s.agents[n].phase).Some?
             && var v := ViewOf(s.agents[n].phase).value;
                && v.leader.Some? && v.rev <= j + 1 <= |s.store.events|
                && forall k :: v.rev <= k <= j ==> s.store.events[k].Put?
    ensures var s := Exec(c, Init(c), steps);
            var v := ViewOf(s.agents[n].phase).value;
            && 1 <= v.rev && s.store.events[j] == Put(v.leader.value)
            && (j + 1 == |s.store.events| ==> Owns(s.store, v.leader.value))
  {
    RunKey(c, Init(c), steps);
    var s := Exec(c, Init(c), steps);
    var v := ViewOf(s.agents[n].phase).value;
    assert ViewKnown(s.store.events, s.agents[n]);
    OwnerUntilDelete(s.store.events, v.rev - 1, j);
  }
}
