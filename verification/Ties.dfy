/**
 Positions are counted by the last leader only.  When that leader wrote nothing, nodes
 with different logs tie, and a follower can be ahead of the leader it is admitted to:
 a run over four terms in which every step but the last keeps all premises.
 */
module Ties {

  import opened Prelude
  import opened Gtid
  import opened Cluster
  import opened Logs
  import opened Runs
  import opened Hazards

  // ---------- parts of the run ----------

  /** A node that has read the leader may follow it and is compared at a fresh position. */
  predicate MayJoin(e: Store, n: NodeId, a: Agent)
  {
    var b := a.(phase := Decided(Snapshot(e), false), term := TermOf(e, n));
    FreshFollower(e, n, b, Snapshot(e)) && PreWatch(n, b, Snapshot(e)).Accept? && PreWatch(n, b, Snapshot(e)).term == e.term
  }

  lemma Join(c: Config, steps: seq<Step>, t: State, n: NodeId) returns (more: seq<Step>, u: State)
    requires Path(c, steps, t, GoodStep) && n in t.agents && t.agents[n].phase.Idle?
    requires t.store.key.Some? && t.store.key.value.owner != n && MayJoin(t.store, n, t.agents[n])
    ensures Path(c, more, u, GoodStep) && u.now == t.now && u.store == t.store.(terms := t.store.terms[n := t.store.term])
    ensures n in u.agents && u.agents == t.agents[n := u.agents[n]]
    ensures var b := u.agents[n];
            && b.phase.Watching? && b.db == t.agents[n].db
            && b.log == t.agents[n].log && b.follows == Some(t.store.key.value.owner)
            && (TermOf(t.store, n) == 0 ==> b.lastUUID == t.agents[n].lastUUID)
  {
    GoodAllowsPlain();
    more, u := Do(c, steps, t, n, Read, GoodStep);
    more, u := Extend(c, more, u, Act(n, Admit(true, true)), GoodStep);
  }

  /** A follower copies part of its master's log and sees the reign end. */
  lemma Copy(c: Config, steps: seq<Step>, t: State, n: NodeId, log: seq<Txn>) returns (more: seq<Step>, u: State)
    requires Path(c, steps, t, GoodStep) && n in t.agents && t.agents[n].phase.Watching? && !t.agents[n].db.Stopped?
    requires t.agents[n].follows.Some? && t.agents[n].follows.value in t.agents
    requires t.agents[n].log <= log <= t.agents[t.agents[n].follows.value].log
    requires Supplies(t.store, n, t.agents[t.agents[n].follows.value])
    ensures Path(c, more, u, GoodStep) && u.now == t.now && u.store == t.store
    ensures n in u.agents && u.agents == t.agents[n := u.agents[n]]
    ensures var a, b := t.agents[n], u.agents[n];
            b.phase.Idle? && b.log == log && b.follows == a.follows && b.db == a.db && b.lastUUID == a.lastUUID
  {
    GoodAllowsPlain();
    var m := t.agents[n].follows.value;
    more, u := Extend(c, steps, t, Act(n, Replicate(log, t.agents[m].origin)), GoodStep);
    more, u := Do(c, more, u, n, WatchEnd, GoodStep);
  }

  lemma Counts(x: NodeId, y: NodeId)
    requires x != y
    ensures EndTxn([Txn(x, 1)], x) == Some(2)
    ensures var log := [Txn(x, 1), Txn(y, 1)]; EndTxn(log, x) == Some(2) && EndTxn(log, y) == Some(2)
    ensures Append([], x) == [Txn(x, 1)] && Append([Txn(x, 1)], y) == [Txn(x, 1), Txn(y, 1)]
  {
    CountOne(x);
    var one, two := [Txn(x, 1)], [Txn(x, 1), Txn(y, 1)];
    assert one[..|one| - 1] == [] && two[..|two| - 1] == one;
    assert Count(one, y) == Count([], y) == 0;
  }

  // ---------- the run ----------

  predicate Trio(c: Config, x: NodeId, y: NodeId, z: NodeId)
  {
    x in c.nodes && y in c.nodes && z in c.nodes && x != y && y != z && x != z
  }

  predicate Present(t: State, x: NodeId, y: NodeId, z: NodeId)
  {
    x in t.agents && y in t.agents && z in t.agents
  }

  /** `x` leads the first term and writes; `y` follows it and has the transaction when `x` is gone. */
  lemma First(c: Config, x: NodeId, y: NodeId, z: NodeId) returns (steps: seq<Step>, t: State)
    requires Trio(c, x, y, z)
    ensures Path(c, steps, t, GoodStep) && Present(t, x, y, z)
    ensures t.store.key.None? && t.store.term == 1 && t.store.terms == map[x := 1, y := 1] && t.store.name == Some(x)
    ensures |t.store.reigns| == 1 && t.store.reigns[0].leader == x
    ensures t.agents[x].phase.Idle? && t.agents[x].log == [Txn(x, 1)] && t.agents[x].lastUUID.None?
    ensures t.agents[y].phase.Idle? && t.agents[y].log == [Txn(x, 1)] && t.agents[y].follows == Some(x)
    ensures t.agents[z] == FRESH_AGENT && t.agents[x].db.ReadOnly? && t.agents[y].db.ReadOnly?
  {
    Counts(x, y);
    steps, t := Succeed(c, [], Init(c), x);
    steps, t := ServeOnce(c, steps, t, x);
    steps, t := Join(c, steps, t, y);
    steps, t := Copy(c, steps, t, y, [Txn(x, 1)]);
    steps, t := Reboot(c, steps, t, x);
  }

  /** `y` leads the second term and writes; `x` follows it and copies. */
  lemma Second(c: Config, x: NodeId, y: NodeId, z: NodeId) returns (steps: seq<Step>, t: State)
    requires Trio(c, x, y, z)
    ensures Path(c, steps, t, GoodStep) && Present(t, x, y, z)
    ensures t.store.key.None? && t.store.term == 2 && t.store.terms == map[x := 2, y := 2] && t.store.name == Some(y)
    ensures |t.store.reigns| == 2 && t.store.reigns[0].leader == x && t.store.reigns[1].leader == y
    ensures var log := [Txn(x, 1), Txn(y, 1)];
            && t.agents[x].phase.Idle? && t.agents[x].log == log && t.agents[x].follows == Some(y)
            && t.agents[y].phase.Idle? && t.agents[y].log == log && t.agents[y].lastUUID.None?
    ensures t.agents[z] == FRESH_AGENT && t.agents[x].db.ReadOnly? && t.agents[y].db.ReadOnly?
  {
    Counts(x, y);
    steps, t := First(c, x, y, z);
    steps, t := Succeed(c, steps, t, y);
    steps, t := ServeOnce(c, steps, t, y);
    steps, t := Join(c, steps, t, x);
    steps, t := Copy(c, steps, t, x, [Txn(x, 1), Txn(y, 1)]);
    steps, t := Reboot(c, steps, t, y);
  }

  /** `x` leads the third term and writes nothing; `z` joins and copies part of the log. */
  lemma Third(c: Config, x: NodeId, y: NodeId, z: NodeId) returns (steps: seq<Step>, t: State)
    requires Trio(c, x, y, z)
    ensures Path(c, steps, t, GoodStep) && Present(t, x, y, z)
    ensures Owns(t.store, x) && t.store.term == 3 && t.store.terms == map[x := 3, y := 2, z := 3]
    ensures t.store.name == Some(x) && t.store.lastUUID == Some(y) && t.store.lastTxn == 2
    ensures |t.store.reigns| == 3 && t.store.reigns[1].leader == y && t.store.reigns[2].leader == x
    ensures t.agents[z].phase.Idle? && t.agents[z].log == [Txn(x, 1)] && t.agents[z].follows == Some(x)
    ensures t.agents[y].phase.Idle? && t.agents[y].log == [Txn(x, 1), Txn(y, 1)] && t.agents[y].lastUUID.None?
    ensures !t.agents[x].phase.Exited?
  {
    Counts(x, y);
    steps, t := Second(c, x, y, z);
    steps, t := Succeed(c, steps, t, x);
    steps, t := Join(c, steps, t, z);
    steps, t := Copy(c, steps, t, z, [Txn(x, 1)]);
  }

  /** `y` joins again, and is restarted; then `x` is gone. */
  lemma ThirdEnds(c: Config, x: NodeId, y: NodeId, z: NodeId) returns (steps: seq<Step>, t: State)
    requires Trio(c, x, y, z)
    ensures Path(c, steps, t, GoodStep) && Present(t, x, y, z)
    ensures t.store.key.None? && t.store.term == 3 && t.store.terms == map[x := 3, y := 3, z := 3] && t.store.name == Some(x)
    ensures |t.store.reigns| == 3 && t.store.reigns[2].leader == x
    ensures t.agents[z].phase.Idle? && t.agents[z].log == [Txn(x, 1)] && t.agents[z].follows == Some(x)
    ensures t.agents[y].phase.Idle? && t.agents[y].log == [Txn(x, 1), Txn(y, 1)] && t.agents[y].follows == Some(x)
    ensures t.agents[y].lastUUID.None?
  {
    Counts(x, y);
    steps, t := Third(c, x, y, z);
    steps, t := Join(c, steps, t, y);
    steps, t := Recover(c, steps, t, y);
    steps, t := Reboot(c, steps, t, x);
  }

  /** `z` wins the fourth term. */
  lemma Fourth(c: Config, x: NodeId, y: NodeId, z: NodeId) returns (steps: seq<Step>, t: State)
    requires Trio(c, x, y, z)
    ensures Path(c, steps, t, GoodStep) && Present(t, x, y, z)
    ensures Owns(t.store, z) && t.store.term == 4 && TermOf(t.store, y) == 3
    ensures t.store.name == Some(z) && t.store.lastUUID == Some(x) && t.store.lastTxn == 2
    ensures |t.store.reigns| == 4 && t.store.reigns[2].leader == x && t.agents[z].log == [Txn(x, 1)]
    ensures var a := t.agents[y];
            a.phase.Idle? && a.log == [Txn(x, 1), Txn(y, 1)] && a.follows == Some(x) && a.lastUUID.None?
  {
    Counts(x, y);
    steps, t := ThirdEnds(c, x, y, z);
    steps, t := Succeed(c, steps, t, z);
  }

  /** `y` reads it. */
  lemma FourthRead(c: Config, x: NodeId, y: NodeId, z: NodeId) returns (steps: seq<Step>, t: State)
    requires Trio(c, x, y, z)
    ensures Path(c, steps, t, GoodStep) && Present(t, x, y, z)
    ensures Owns(t.store, z) && t.store.term == 4 && t.agents[z].log == [Txn(x, 1)]
    ensures var a := t.agents[y];
            && a.phase.Decided? && a.phase.view == Snapshot(t.store) && a.term == 3
            && a.log == [Txn(x, 1), Txn(y, 1)] && a.follows == Some(x) && a.lastUUID.None?
    ensures t.store.name == Some(z) && t.store.lastUUID == Some(x) && t.store.lastTxn == 2
  {
    GoodAllowsPlain();
    steps, t := Fourth(c, x, y, z);
    steps, t := Do(c, steps, t, y, Read, GoodStep);
  }

  /** The position compared is where the database is, by the count of `x`, though `x` did not write last. */
  predicate UpToDate(n: NodeId, a: Agent, x: NodeId)
  {
    && a.phase.Decided? && a.log != [] && a.log[|a.log| - 1].uuid != x
    && Compared(n, a, a.phase.view) == Some(Position(x, Count(a.log, x) + 1))
  }

  /**
   By the count of `x`, `z` is level with `y`, at positions both up to date; so `y` is
   admitted, with a transaction its leader lacks.
   */
  lemma TiedPositions(c: Config, x: NodeId, y: NodeId, z: NodeId) returns (steps: seq<Step>, last: Step)
    requires Trio(c, x, y, z)
    ensures Legal(c, Init(c), steps) && RunsUnder(c, Init(c), steps, GoodStep)
    ensures var s := Exec(c, Init(c), steps);
            && Enabled(c, s, last) && last.Act? && last.act.Admit? && last.node in s.agents
            && UpToDate(last.node, s.agents[last.node], x)
            && !FollowersContained(Apply(c, s, last))
  {
    var t: State;
    Counts(x, y);
    steps, t := FourthRead(c, x, y, z);
    last := Act(y, Admit(true, true));
    var u := Apply(c, t, last);
    assert Owns(u.store, z) && TermOf(u.store, y) == u.store.term && !(u.agents[y].log <= u.agents[z].log);
  }
}
