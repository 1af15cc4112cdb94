/**
 What goes wrong without the premises on winners and followers: two runs in which
 every step but the last keeps all of them.  `Ties` has a third.
 */
module Hazards {

  import opened Prelude
  import opened Gtid
  import opened Cluster
  import opened Terms
  import opened Logs
  import opened Runs

  lemma GoodAllowsPlain()
    ensures AllowsPlain(GoodStep)
  {
  }

  /** A current node with a fresh position wins a campaign. */
  lemma Succeed(c: Config, steps: seq<Step>, t: State, n: NodeId) returns (more: seq<Step>, u: State)
    requires Path(c, steps, t, GoodStep)
    requires n in t.agents && t.agents[n].phase.Idle? && t.store.key.None?
    requires TermOf(t.store, n) == t.store.term
    requires 0 < |t.store.reigns| ==>
               Asks(t.store, n, t.agents[n], t.now).lastTxn ==
               Published(t.agents[n].log, PreviousLeader(t.store, |t.store.reigns|))
    ensures Path(c, more, u, GoodStep) && u.now == t.now
    ensures n in u.agents && u.agents == t.agents[n := u.agents[n]]
    ensures var a, b := t.agents[n], u.agents[n];
            && b.phase == Answered(false, true, t.store.nextLease, t.now)
            && b.db == a.db && b.log == a.log && b.follows == a.follows && b.term == t.store.term
            && b.lastUUID == u.store.lastUUID && b.lastTxn == u.store.lastTxn && b.origin == |u.store.reigns|
    ensures u.store.key == Some(LeaderKey(n, Some(t.store.nextLease)))
    ensures u.store.term == t.store.term + 1 && u.store.terms == t.store.terms[n := t.store.term + 1]
    ensures u.store.name == Some(n) && u.store.spm == t.store.spm
    ensures u.store.reigns == t.store.reigns + [Reign(u.store.term, n, t.agents[n].log, t.agents[n].log, u.store.lastTxn)]
    ensures var b := Asks(t.store, n, t.agents[n], t.now); u.store.lastTxn == b.lastTxn && u.store.lastUUID == b.lastUUID
  {
    GoodAllowsPlain();
    more, u := Ask(c, steps, t, n, GoodStep);
    WinsShape(c, u, n);
    GoodWin(u, n);
    more, u := Extend(c, more, u, Act(n, Commit), GoodStep);
  }

  lemma GoodWin(t: State, n: NodeId)
    requires n in t.agents && t.agents[n].term == t.store.term && FreshWinner(t.store, t.agents[n])
    ensures GoodStep(t, Act(n, Commit))
  {
  }

  /** What a campaign transaction that finds no key does. */
  lemma WinsShape(c: Config, t: State, n: NodeId)
    requires n in t.agents && t.agents[n].phase.Granted? && !t.agents[n].phase.resume && t.store.key.None?
    requires t.agents[n].phase.lease in t.store.leases
    ensures Enabled(c, t, Act(n, Commit))
    ensures var a, u := t.agents[n], Apply(c, t, Act(n, Commit));
            && u.now == t.now && n in u.agents && u.agents == t.agents[n := u.agents[n]]
            && u.agents[n] == a.(phase := Answered(false, true, a.phase.lease, a.phase.since),
                                 origin := |t.store.reigns| + 1, forgot := false)
            && u.store == BeginReign(PutLeader(t.store, n, Some(a.phase.lease), a.term + 1, a), n, a)
  {
  }

  /** A leader shuts down, taking its key along, and comes back. */
  lemma Reboot(c: Config, steps: seq<Step>, t: State, n: NodeId) returns (more: seq<Step>, u: State)
    requires Path(c, steps, t, GoodStep)
    requires n in t.agents && !t.agents[n].phase.Exited? && Owns(t.store, n)
    ensures Path(c, more, u, GoodStep) && u.now == t.now
    ensures n in u.agents && u.agents == t.agents[n := u.agents[n]]
    ensures u.agents[n].phase.Idle? && u.agents[n].log == t.agents[n].log && u.agents[n].follows == t.agents[n].follows
    ensures u.agents[n].lastUUID.None? && u.agents[n].lastTxn == 0 && u.agents[n].db.ReadOnly?
    ensures u.agents[n].forgot == t.agents[n].forgot
    ensures u.store == DropKey(t.store)
  {
    GoodAllowsPlain();
    more, u := Do(c, steps, t, n, Close(true), GoodStep);
    more, u := Do(c, more, u, n, Restart, GoodStep);
  }

  /** `m` leads two reigns and shuts down; `n` has done nothing yet. */
  lemma TwoReigns(c: Config, m: NodeId, n: NodeId) returns (steps: seq<Step>, t: State)
    requires m in c.nodes && n in c.nodes && m != n
    ensures Path(c, steps, t, GoodStep) && n in t.agents && t.agents[n] == FRESH_AGENT
    ensures t.store.key.None? && t.store.term == 2 && t.store.terms == map[m := 2]
  {
    steps, t := Succeed(c, [], Init(c), m);
    steps, t := Reboot(c, steps, t, m);
    steps, t := Succeed(c, steps, t, m);
    steps, t := Reboot(c, steps, t, m);
  }

  /**
   A node that has sat out two reigns wins when nobody else campaigns, and the
   global term goes back from 2 to 1.
   */
  lemma StaleWinner(c: Config, m: NodeId, n: NodeId) returns (steps: seq<Step>, last: Step)
    requires m in c.nodes && n in c.nodes && m != n
    ensures Legal(c, Init(c), steps) && RunsUnder(c, Init(c), steps, GoodStep)
    ensures var s := Exec(c, Init(c), steps);
            && Enabled(c, s, last) && !CurrentWinner(s, last)
            && s.store.term == 2 && Apply(c, s, last).store.term == 1
  {
    var t: State;
    steps, t := TwoReigns(c, m, n);
    GoodAllowsPlain();
    steps, t := Ask(c, steps, t, n, GoodStep);
    last := Act(n, Commit);
  }

  // ---------- single point mode forgets the node's term ----------

  /** The winner serves and writes one transaction. */
  lemma ServeOnce(c: Config, steps: seq<Step>, t: State, n: NodeId) returns (more: seq<Step>, u: State)
    requires Path(c, steps, t, GoodStep) && n in t.agents && Owns(t.store, n)
    requires t.agents[n].phase.Answered? && t.agents[n].phase.ok && t.agents[n].phase.since == t.now
    requires 0 < |t.store.reigns| && t.store.reigns[|t.store.reigns| - 1].leader == n
    ensures Path(c, more, u, GoodStep) && n in u.agents && u.agents == t.agents[n := u.agents[n]]
    ensures var a, b := t.agents[n], u.agents[n];
            && b.log == Append(a.log, n) && b.phase.Serving? && b.isLeader && b.db.ReadWrite?
            && b.lastUUID == a.lastUUID && b.lastTxn == a.lastTxn && b.origin == a.origin
    ensures u.store == t.store.(reigns := Longer(t.store.reigns, u.agents[n].log))
  {
    GoodAllowsPlain();
    more, u := Do(c, steps, t, n, Receive, GoodStep);
    more, u := Do(c, more, u, n, Promote(true), GoodStep);
    more, u := Do(c, more, u, n, Write, GoodStep);
  }

  /** The leader of the first reign writes one transaction and restarts; `n` has done nothing yet. */
  lemma WriteAlone(c: Config, m: NodeId, n: NodeId) returns (steps: seq<Step>, t: State)
    requires m in c.nodes && n in c.nodes && m != n
    ensures Path(c, steps, t, GoodStep)
    ensures m in t.agents && n in t.agents && t.agents[n] == FRESH_AGENT
    ensures t.agents[m].phase.Idle? && t.agents[m].log == [Txn(m, 1)] && t.agents[m].lastUUID.None?
    ensures t.store.key.None? && t.store.term == 1 && t.store.terms == map[m := 1] && t.store.name == Some(m)
    ensures |t.store.reigns| == 1 && t.store.reigns[0].leader == m
  {
    steps, t := Succeed(c, [], Init(c), m);
    steps, t := ServeOnce(c, steps, t, m);
    assert t.agents[m].log == [Txn(m, 1)];
    steps, t := Reboot(c, steps, t, m);
  }

  /** It finds nobody else and prepares to lead alone. */
  lemma DecideAlone(c: Config, m: NodeId, n: NodeId) returns (steps: seq<Step>, t: State)
    requires m in c.nodes && n in c.nodes && m != n
    ensures Path(c, steps, t, GoodStep)
    ensures m in t.agents && n in t.agents && t.agents[n] == FRESH_AGENT
    ensures var a := t.agents[m];
            && a.phase.SpmAsking? && !a.phase.resume && a.term == 1
            && a.log == [Txn(m, 1)] && a.lastTxn == Published(a.log, m)
    ensures t.store.key.None? && t.store.term == 1 && t.store.terms == map[m := 1]
    ensures |t.store.reigns| == 1 && t.store.reigns[0].leader == m
  {
    GoodAllowsPlain();
    steps, t := WriteAlone(c, m, n);
    CountOne(m);
    steps, t := Ready(c, steps, t, m, GoodStep);
    steps, t := Do(c, steps, t, m, SpmBegin, GoodStep);
  }

  /** It becomes single point master of term 2. */
  lemma TakeAlone(c: Config, m: NodeId, n: NodeId) returns (steps: seq<Step>, t: State)
    requires m in c.nodes && n in c.nodes && m != n
    ensures Path(c, steps, t, GoodStep)
    ensures m in t.agents && n in t.agents && t.agents[n] == FRESH_AGENT
    ensures t.agents[m].phase.SpmAnswered? && t.agents[m].log == [Txn(m, 1)]
    ensures t.store.key == Some(LeaderKey(m, None)) && t.store.spm == Some(m)
    ensures t.store.term == 2 && t.store.terms == map[m := 2] && t.store.name == Some(m)
    ensures |t.store.reigns| == 2 && t.store.reigns[1].leader == m
  {
    steps, t := DecideAlone(c, m, n);
    steps, t := Extend(c, steps, t, Act(m, SpmCommit), GoodStep);
  }

  lemma CountOne(m: NodeId)
    ensures EndTxn([Txn(m, 1)], m) == Some(2)
  {
    var log := [Txn(m, 1)];
    assert log[..|log| - 1] == [];
    assert Count(log[..|log| - 1], m) == 0;
  }

  /** A new node joins it. */
  lemma JoinAlone(c: Config, m: NodeId, n: NodeId) returns (steps: seq<Step>, t: State)
    requires m in c.nodes && n in c.nodes && m != n
    ensures Path(c, steps, t, GoodStep)
    ensures m in t.agents && n in t.agents
    ensures t.agents[n].phase.Watching? && t.agents[n].log == [] && t.agents[n].follows == Some(m)
    ensures !t.agents[m].phase.Exited? && t.agents[m].log == [Txn(m, 1)]
    ensures t.store.key == Some(LeaderKey(m, None)) && t.store.spm == Some(m)
    ensures t.store.term == 2 && t.store.terms == map[m := 2, n := 2] && t.store.name == Some(m)
    ensures |t.store.reigns| == 2 && t.store.reigns[1].leader == m
  {
    GoodAllowsPlain();
    steps, t := TakeAlone(c, m, n);
    steps, t := Do(c, steps, t, n, Read, GoodStep);
    steps, t := Extend(c, steps, t, Act(n, Admit(true, true)), GoodStep);
  }

  /** A node crashes and is restarted. */
  lemma Recover(c: Config, steps: seq<Step>, t: State, m: NodeId) returns (more: seq<Step>, u: State)
    requires Path(c, steps, t, GoodStep) && m in t.agents && !t.agents[m].phase.Exited?
    ensures Path(c, more, u, GoodStep) && u.store == t.store && m in u.agents && u.agents == t.agents[m := u.agents[m]]
    ensures var b := u.agents[m];
            b.phase.Idle? && b.log == t.agents[m].log && b.follows == t.agents[m].follows && b.lastUUID.None?
  {
    GoodAllowsPlain();
    more, u := Do(c, steps, t, m, Crash, GoodStep);
    more, u := Do(c, more, u, m, Restart, GoodStep);
  }

  /** A single point master restarts and asks to resume. */
  lemma AskAgain(c: Config, steps: seq<Step>, t: State, m: NodeId) returns (more: seq<Step>, u: State)
    requires Path(c, steps, t, GoodStep) && m in t.agents && !t.agents[m].phase.Exited?
    requires t.store.key == Some(LeaderKey(m, None)) && t.store.spm == Some(m)
    ensures Path(c, more, u, GoodStep) && u.store == t.store && m in u.agents && u.agents == t.agents[m := u.agents[m]]
    ensures var b := u.agents[m];
            b.phase.SpmAsking? && b.phase.resume && b.term == t.store.term && b.log == t.agents[m].log
  {
    GoodAllowsPlain();
    more, u := Recover(c, steps, t, m);
    more, u := Do(c, more, u, m, Read, GoodStep);
    more, u := Do(c, more, u, m, SpmBegin, GoodStep);
  }

  /** Resuming single point mode stores 0 as the node's own term. */
  lemma ForgetTerm(c: Config, m: NodeId, n: NodeId) returns (steps: seq<Step>, t: State)
    requires m in c.nodes && n in c.nodes && m != n
    ensures Path(c, steps, t, GoodStep)
    ensures m in t.agents && n in t.agents
    ensures t.agents[n].phase.Watching? && t.agents[n].log == [] && t.agents[n].follows == Some(m)
    ensures !t.agents[m].phase.Exited? && t.agents[m].log == [Txn(m, 1)]
    ensures t.store.key == Some(LeaderKey(m, None)) && t.agents[m].forgot
    ensures t.store.term == 2 && t.store.terms == map[m := 0, n := 2] && t.store.name == Some(m)
    ensures |t.store.reigns| == 2 && t.store.reigns[1].leader == m
  {
    steps, t := JoinAlone(c, m, n);
    steps, t := AskAgain(c, steps, t, m);
    steps, t := Extend(c, steps, t, Act(m, SpmCommit), GoodStep);
  }

  /** The new node takes over without the transaction. */
  lemma TakeOver(c: Config, m: NodeId, n: NodeId) returns (steps: seq<Step>, t: State)
    requires m in c.nodes && n in c.nodes && m != n
    ensures Path(c, steps, t, GoodStep)
    ensures m in t.agents && n in t.agents && Owns(t.store, n) && t.agents[n].log == []
    ensures t.agents[m].phase.Idle? && t.agents[m].log == [Txn(m, 1)] && t.agents[m].forgot
    ensures t.store.term == 3 && TermOf(t.store, m) == 0
  {
    GoodAllowsPlain();
    steps, t := ForgetTerm(c, m, n);
    steps, t := Reboot(c, steps, t, m);
    steps, t := Do(c, steps, t, n, WatchEnd, GoodStep);
    steps, t := Succeed(c, steps, t, n);
  }

  /**
   The old master reads that it has no term, is taken for a new joiner and admitted
   unchecked, with a transaction its leader lacks.
   */
  lemma ForgottenTerm(c: Config, m: NodeId, n: NodeId) returns (steps: seq<Step>, last: Step)
    requires m in c.nodes && n in c.nodes && m != n
    ensures Legal(c, Init(c), steps) && RunsUnder(c, Init(c), steps, GoodStep)
    ensures var s := Exec(c, Init(c), steps);
            && Enabled(c, s, last) && !Fresh(s, last)
            && !FollowersContained(Apply(c, s, last))
  {
    var t: State;
    GoodAllowsPlain();
    steps, t := TakeOver(c, m, n);
    steps, t := Do(c, steps, t, m, Read, GoodStep);
    last := Act(m, Admit(true, true));
    var u := Apply(c, t, last);
    assert Owns(u.store, n) && TermOf(u.store, m) == u.store.term && !(u.agents[m].log <= u.agents[n].log);
  }
}
