/**
 More ways for a follower to get ahead of its leader, each a run in which every step but
 one keeps all premises: a position cached at the follower's own election, a term that was
 not persisted, a relay log applied after the admission, and a winner that publishes a
 position by the count of another node.
 */
module Followers {

  import opened Prelude
  import opened Gtid
  import opened Cluster
  import opened Terms
  import opened Logs
  import opened Runs
  import opened Hazards
  import opened Ties

  lemma CountsTwice(x: NodeId, y: NodeId)
    requires x != y
    ensures Append([Txn(x, 1), Txn(y, 1)], y) == [Txn(x, 1), Txn(y, 1), Txn(y, 2)]
    ensures Append([Txn(x, 1)], x) == [Txn(x, 1), Txn(x, 2)]
  {
    Counts(x, y);
  }

  // ---------- a cached position ----------

  /** `y` leads the second term with the position it was elected at, and writes. */
  lemma Serves(c: Config, x: NodeId, y: NodeId, z: NodeId) returns (steps: seq<Step>, t: State)
    requires Trio(c, x, y, z)
    ensures Path(c, steps, t, GoodStep) && Present(t, x, y, z)
    ensures Owns(t.store, y) && t.store.term == 2 && t.store.terms == map[x := 1, y := 2] && t.store.name == Some(y)
    ensures t.store.lastUUID == Some(x) && t.store.lastTxn == 2
    ensures |t.store.reigns| == 2 && t.store.reigns[0].leader == x && t.store.reigns[1].leader == y
    ensures var a := t.agents[x]; a.phase.Idle? && a.log == [Txn(x, 1)] && a.lastUUID.None? && a.db.ReadOnly?
    ensures var a := t.agents[y];
            && a.phase.Serving? && a.isLeader && a.db.ReadWrite? && a.log == [Txn(x, 1), Txn(y, 1)]
            && a.lastUUID == Some(x) && a.lastTxn == 2 && a.origin == 2
  {
    Counts(x, y);
    steps, t := First(c, x, y, z);
    steps, t := Succeed(c, steps, t, y);
    steps, t := ServeOnce(c, steps, t, y);
  }

  /** It writes once more; `x` has one of the two. */
  lemma ServesTwice(c: Config, x: NodeId, y: NodeId, z: NodeId) returns (steps: seq<Step>, t: State)
    requires Trio(c, x, y, z)
    ensures Path(c, steps, t, GoodStep) && Present(t, x, y, z)
    ensures Owns(t.store, y) && t.store.term == 2 && t.store.terms == map[x := 2, y := 2] && t.store.name == Some(y)
    ensures |t.store.reigns| == 2 && t.store.reigns[1].leader == y
    ensures t.agents[x].phase.Idle? && t.agents[x].log == [Txn(x, 1), Txn(y, 1)] && t.agents[x].follows == Some(y)
    ensures var a := t.agents[y];
            && a.phase.Serving? && a.isLeader && a.log == [Txn(x, 1), Txn(y, 1), Txn(y, 2)]
            && a.lastUUID == Some(x) && a.lastTxn == 2
  {
    Counts(x, y);
    CountsTwice(x, y);
    GoodAllowsPlain();
    steps, t := Serves(c, x, y, z);
    steps, t := Join(c, steps, t, x);
    steps, t := Copy(c, steps, t, x, [Txn(x, 1), Txn(y, 1)]);
    steps, t := Do(c, steps, t, y, Write, GoodStep);
  }

  /** A serving leader resigns by changeMaster, and its reign ends; its position stays cached. */
  lemma Resigns(c: Config, steps: seq<Step>, t: State, n: NodeId) returns (more: seq<Step>, u: State)
    requires Path(c, steps, t, GoodStep) && n in t.agents && t.agents[n].phase.Serving? && t.agents[n].isLeader
    requires Owns(t.store, n)
    ensures Path(c, more, u, GoodStep) && u.now == t.now && u.store == DropKey(t.store)
    ensures n in u.agents && u.agents == t.agents[n := u.agents[n]]
    ensures var a, b := t.agents[n], u.agents[n];
            b.phase.Idle? && b.log == a.log && b.lastUUID == a.lastUUID && b.lastTxn == a.lastTxn
  {
    GoodAllowsPlain();
    more, u := Do(c, steps, t, n, Resign, GoodStep);
    more, u := Do(c, more, u, n, Release(true), GoodStep);
    more, u := Do(c, more, u, n, EndReign, GoodStep);
  }

  /** `y` resigns and `x` takes over. */
  lemma HandsOver(c: Config, x: NodeId, y: NodeId, z: NodeId) returns (steps: seq<Step>, t: State)
    requires Trio(c, x, y, z)
    ensures Path(c, steps, t, GoodStep) && Present(t, x, y, z)
    ensures Owns(t.store, x) && t.store.term == 3 && TermOf(t.store, y) == 2 && t.store.lastTxn == 2
    ensures |t.store.reigns| == 3 && t.store.reigns[1].leader == y
    ensures t.agents[x].log == [Txn(x, 1), Txn(y, 1)]
    ensures var a := t.agents[y];
            && a.phase.Idle? && a.log == [Txn(x, 1), Txn(y, 1), Txn(y, 2)]
            && a.lastUUID == Some(x) && a.lastTxn == 2
  {
    Counts(x, y);
    steps, t := ServesTwice(c, x, y, z);
    steps, t := Resigns(c, steps, t, y);
    steps, t := Succeed(c, steps, t, x);
  }

  /**
   A leader that resigns without restarting is compared at the position cached at its own
   election, and admitted with a transaction its leader lacks, although it wrote that
   transaction itself.
   */
  lemma CachedPosition(c: Config, x: NodeId, y: NodeId, z: NodeId) returns (steps: seq<Step>, last: Step)
    requires Trio(c, x, y, z)
    ensures Legal(c, Init(c), steps) && RunsUnder(c, Init(c), steps, GoodStep)
    ensures var s := Exec(c, Init(c), steps);
            && last == Act(y, Admit(true, true)) && Enabled(c, s, last)
            && Outdated(y, s.agents[y])
            && !FollowersContained(Apply(c, s, last))
  {
    var t: State;
    GoodAllowsPlain();
    steps, t := HandsOver(c, x, y, z);
    steps, t := Do(c, steps, t, y, Read, GoodStep);
    last := Act(y, Admit(true, true));
    var u := Apply(c, t, last);
    assert Owns(u.store, x) && TermOf(u.store, y) == u.store.term && !(u.agents[y].log <= u.agents[x].log);
  }

  /** The node wrote its last transaction itself and is not compared by its own count. */
  predicate Outdated(n: NodeId, a: Agent)
  {
    && a.phase.Decided? && a.log != [] && a.log[|a.log| - 1].uuid == n
    && Compared(n, a, a.phase.view).Some? && Compared(n, a, a.phase.view).value.uuid != n
  }

  // ---------- a term that was not persisted ----------

  /** A new node joins, and the put of its term fails. */
  lemma JoinUnpersisted(c: Config, steps: seq<Step>, t: State, n: NodeId) returns (more: seq<Step>, u: State)
    requires Path(c, steps, t, GoodStep) && n in t.agents && t.agents[n] == FRESH_AGENT
    requires t.store.key.Some? && t.store.key.value.owner != n && TermOf(t.store, n) == 0
    ensures Path(c, more, u, GoodStep) && u.now == t.now && u.store == t.store
    ensures n in u.agents && u.agents == t.agents[n := u.agents[n]]
    ensures var b := u.agents[n];
            && b.phase.Watching? && b.db.ReadOnly? && b.log == [] && b.forgot
            && b.follows == Some(t.store.key.value.owner)
  {
    GoodAllowsPlain();
    more, u := Do(c, steps, t, n, Read, GoodStep);
    more, u := Extend(c, more, u, Act(n, Admit(false, true)), GoodStep);
  }

  /** `x` leads and writes; `y` joins without a term and copies; `z` joins. */
  lemma TwoJoin(c: Config, x: NodeId, y: NodeId, z: NodeId) returns (steps: seq<Step>, t: State)
    requires Trio(c, x, y, z)
    ensures Path(c, steps, t, GoodStep) && Present(t, x, y, z)
    ensures Owns(t.store, x) && t.store.term == 1 && t.store.terms == map[x := 1, z := 1] && t.store.name == Some(x)
    ensures |t.store.reigns| == 1 && t.store.reigns[0].leader == x && !t.agents[x].phase.Exited?
    ensures t.agents[y].phase.Idle? && t.agents[y].log == [Txn(x, 1)]
    ensures t.agents[z].phase.Watching? && t.agents[z].log == [] && t.agents[z].follows == Some(x)
  {
    Counts(x, y);
    steps, t := Succeed(c, [], Init(c), x);
    steps, t := ServeOnce(c, steps, t, x);
    steps, t := JoinUnpersisted(c, steps, t, y);
    steps, t := Copy(c, steps, t, y, [Txn(x, 1)]);
    steps, t := Join(c, steps, t, z);
  }

  /** `x` is gone, and `z` takes over with an empty log. */
  lemma EmptyTakesOver(c: Config, x: NodeId, y: NodeId, z: NodeId) returns (steps: seq<Step>, t: State)
    requires Trio(c, x, y, z)
    ensures Path(c, steps, t, GoodStep) && Present(t, x, y, z)
    ensures Owns(t.store, z) && t.store.term == 2 && TermOf(t.store, y) == 0 && t.agents[z].log == []
    ensures t.agents[y].phase.Idle? && t.agents[y].log == [Txn(x, 1)]
  {
    GoodAllowsPlain();
    steps, t := TwoJoin(c, x, y, z);
    steps, t := Reboot(c, steps, t, x);
    steps, t := Do(c, steps, t, z, WatchEnd, GoodStep);
    steps, t := Succeed(c, steps, t, z);
  }

  /** `y` still has no term, and is admitted unchecked with a transaction its leader lacks. */
  lemma UnpersistedTerm(c: Config, x: NodeId, y: NodeId, z: NodeId) returns (steps: seq<Step>, last: Step)
    requires Trio(c, x, y, z)
    ensures Legal(c, Init(c), steps) && RunsUnder(c, Init(c), steps, GoodStep)
    ensures var s := Exec(c, Init(c), steps);
            && last == Act(y, Admit(true, true)) && Enabled(c, s, last) && TermOf(s.store, y) == 0
            && !FollowersContained(Apply(c, s, last))
  {
    var t: State;
    GoodAllowsPlain();
    steps, t := EmptyTakesOver(c, x, y, z);
    steps, t := Do(c, steps, t, y, Read, GoodStep);
    last := Act(y, Admit(true, true));
    var u := Apply(c, t, last);
    assert Owns(u.store, z) && TermOf(u.store, y) == u.store.term && !(u.agents[y].log <= u.agents[z].log);
  }

  // ---------- a relay log applied after the admission ----------

  /** `x` leads; `y` and `z` join and copy its first transaction. */
  lemma OneInRelay(c: Config, x: NodeId, y: NodeId, z: NodeId) returns (steps: seq<Step>, t: State)
    requires Trio(c, x, y, z)
    ensures Path(c, steps, t, GoodStep) && Present(t, x, y, z)
    ensures Owns(t.store, x) && t.store.term == 1 && t.store.terms == map[x := 1, y := 1, z := 1] && t.store.name == Some(x)
    ensures |t.store.reigns| == 1 && t.store.reigns[0].leader == x
    ensures t.agents[x].phase.Serving? && t.agents[x].db.ReadWrite? && t.agents[x].log == [Txn(x, 1)]
    ensures forall n :: n == y || n == z ==>
              var a := t.agents[n];
              a.phase.Idle? && a.log == [Txn(x, 1)] && a.follows == Some(x) && a.lastUUID.None? && a.db.ReadOnly?
  {
    Counts(x, y);
    steps, t := Succeed(c, [], Init(c), x);
    steps, t := ServeOnce(c, steps, t, x);
    steps, t := Join(c, steps, t, y);
    steps, t := Copy(c, steps, t, y, [Txn(x, 1)]);
    steps, t := Join(c, steps, t, z);
    steps, t := Copy(c, steps, t, z, [Txn(x, 1)]);
  }

  /** `x` writes another transaction and is gone. */
  lemma WritesAndLeaves(c: Config, x: NodeId, y: NodeId, z: NodeId) returns (steps: seq<Step>, t: State)
    requires Trio(c, x, y, z)
    ensures Path(c, steps, t, GoodStep) && Present(t, x, y, z)
    ensures t.store.key.None? && t.store.term == 1 && t.store.terms == map[x := 1, y := 1, z := 1] && t.store.name == Some(x)
    ensures |t.store.reigns| == 1 && t.store.reigns[0].leader == x && t.agents[x].log == [Txn(x, 1), Txn(x, 2)]
    ensures forall n :: n == y || n == z ==>
              var a := t.agents[n];
              a.phase.Idle? && a.log == [Txn(x, 1)] && a.follows == Some(x) && a.lastUUID.None? && a.db.ReadOnly?
  {
    CountsTwice(x, y);
    GoodAllowsPlain();
    steps, t := OneInRelay(c, x, y, z);
    steps, t := Do(c, steps, t, x, Write, GoodStep);
    steps, t := Reboot(c, steps, t, x);
  }

  /** `z` takes over, level with what `y` has applied. */
  lemma LevelTakesOver(c: Config, x: NodeId, y: NodeId, z: NodeId) returns (steps: seq<Step>, t: State)
    requires Trio(c, x, y, z)
    ensures Path(c, steps, t, GoodStep) && Present(t, x, y, z)
    ensures Owns(t.store, z) && t.store.term == 2 && TermOf(t.store, y) == 1 && t.store.lastTxn == 2
    ensures t.store.name == Some(z) && t.store.lastUUID == Some(x)
    ensures |t.store.reigns| == 2 && t.store.reigns[0].leader == x && t.store.reigns[1].leader == z
    ensures t.agents[x].log == [Txn(x, 1), Txn(x, 2)] && t.agents[z].log == [Txn(x, 1)]
    ensures var a := t.agents[y];
            a.phase.Idle? && a.log == [Txn(x, 1)] && a.follows == Some(x) && a.lastUUID.None? && a.db.ReadOnly?
  {
    Counts(x, y);
    steps, t := WritesAndLeaves(c, x, y, z);
    steps, t := Succeed(c, steps, t, z);
  }

  /** `y` is admitted, but its database is not redirected. */
  lemma NotRedirected(c: Config, x: NodeId, y: NodeId, z: NodeId) returns (steps: seq<Step>, t: State)
    requires Trio(c, x, y, z)
    ensures Path(c, steps, t, GoodStep) && Present(t, x, y, z)
    ensures Owns(t.store, z) && t.store.term == 2 && TermOf(t.store, y) == 2
    ensures |t.store.reigns| == 2 && t.store.reigns[0].leader == x && t.store.reigns[1].leader == z
    ensures t.agents[x].log == [Txn(x, 1), Txn(x, 2)] && t.agents[z].log == [Txn(x, 1)]
    ensures t.agents[y].log == [Txn(x, 1)] && t.agents[y].follows == Some(x) && t.agents[y].db.ReadOnly?
  {
    Counts(x, y);
    GoodAllowsPlain();
    steps, t := LevelTakesOver(c, x, y, z);
    steps, t := Do(c, steps, t, y, Read, GoodStep);
    steps, t := Extend(c, steps, t, Act(y, Admit(true, false)), GoodStep);
  }

  /** It then applies what its relay log holds of the old leader, which its new leader lacks. */
  lemma LateRelayLog(c: Config, x: NodeId, y: NodeId, z: NodeId) returns (steps: seq<Step>, last: Step)
    requires Trio(c, x, y, z)
    ensures Legal(c, Init(c), steps) && RunsUnder(c, Init(c), steps, GoodStep)
    ensures var s := Exec(c, Init(c), steps);
            && last.Act? && last.node == y && last.act.Replicate? && Enabled(c, s, last)
            && !FollowersContained(Apply(c, s, last))
  {
    var t: State;
    steps, t := NotRedirected(c, x, y, z);
    last := Act(y, Replicate([Txn(x, 1), Txn(x, 2)], t.agents[x].origin));
    var u := Apply(c, t, last);
    assert Owns(u.store, z) && TermOf(u.store, y) == u.store.term && !(u.agents[y].log <= u.agents[z].log);
  }

  // ---------- a position by another node's count ----------

  /** `x` leads the first term, all three have its transaction, and it is gone; `y` leads the second term and writes. */
  lemma ThreeLevel(c: Config, x: NodeId, y: NodeId, z: NodeId) returns (steps: seq<Step>, t: State)
    requires Trio(c, x, y, z)
    ensures Path(c, steps, t, GoodStep) && Present(t, x, y, z)
    ensures Owns(t.store, y) && t.store.term == 2 && t.store.terms == map[x := 1, y := 2, z := 1] && t.store.name == Some(y)
    ensures t.store.lastUUID == Some(x) && t.store.lastTxn == 2
    ensures |t.store.reigns| == 2 && t.store.reigns[0].leader == x && t.store.reigns[1].leader == y
    ensures var a := t.agents[x]; a.phase.Idle? && a.log == [Txn(x, 1)] && a.lastUUID.None? && a.db.ReadOnly?
    ensures var a := t.agents[y]; !a.phase.Exited? && a.log == [Txn(x, 1), Txn(y, 1)] && a.origin == 2
    ensures var a := t.agents[z]; a.phase.Idle? && a.log == [Txn(x, 1)] && a.follows == Some(x) && a.lastUUID.None?
  {
    Counts(x, y);
    steps, t := OneInRelay(c, x, y, z);
    steps, t := Reboot(c, steps, t, x);
    steps, t := Succeed(c, steps, t, y);
    steps, t := ServeOnce(c, steps, t, y);
  }

  /** `z` is admitted but goes on following `x`. */
  lemma StillFollows(c: Config, x: NodeId, y: NodeId, z: NodeId) returns (steps: seq<Step>, t: State)
    requires Trio(c, x, y, z)
    ensures Path(c, steps, t, GoodStep) && Present(t, x, y, z)
    ensures Owns(t.store, y) && t.store.term == 2 && t.store.terms == map[x := 1, y := 2, z := 2] && t.store.name == Some(y)
    ensures t.store.lastUUID == Some(x) && t.store.lastTxn == 2
    ensures |t.store.reigns| == 2 && t.store.reigns[0].leader == x && t.store.reigns[1].leader == y
    ensures var a := t.agents[x]; a.phase.Idle? && a.log == [Txn(x, 1)] && a.lastUUID.None? && a.db.ReadOnly?
    ensures var a := t.agents[y]; !a.phase.Exited? && a.log == [Txn(x, 1), Txn(y, 1)] && a.origin == 2
    ensures var a := t.agents[z]; a.phase.Idle? && a.log == [Txn(x, 1)] && a.follows == Some(x)
  {
    Counts(x, y);
    GoodAllowsPlain();
    steps, t := ThreeLevel(c, x, y, z);
    steps, t := Do(c, steps, t, z, Read, GoodStep);
    steps, t := Extend(c, steps, t, Act(z, Admit(true, false)), GoodStep);
  }

  /** `x` joins, copies the transaction of `y` and restarts; `y` is gone. */
  lemma FormerJoins(c: Config, x: NodeId, y: NodeId, z: NodeId) returns (steps: seq<Step>, t: State)
    requires Trio(c, x, y, z)
    ensures Path(c, steps, t, GoodStep) && Present(t, x, y, z)
    ensures t.store.key.None? && t.store.term == 2 && t.store.terms == map[x := 2, y := 2, z := 2] && t.store.name == Some(y)
    ensures |t.store.reigns| == 2 && t.store.reigns[1].leader == y
    ensures var a := t.agents[x]; a.phase.Idle? && a.log == [Txn(x, 1), Txn(y, 1)] && a.lastUUID.None?
    ensures var a := t.agents[z]; a.phase.Idle? && a.log == [Txn(x, 1)] && a.follows == Some(x)
  {
    Counts(x, y);
    steps, t := StillFollows(c, x, y, z);
    steps, t := Join(c, steps, t, x);
    steps, t := Copy(c, steps, t, x, [Txn(x, 1), Txn(y, 1)]);
    steps, t := Recover(c, steps, t, x);
    steps, t := Reboot(c, steps, t, y);
  }

  /** `z`, current, asks for the third term with the position it has by the count of `x`. */
  lemma AsksWithForeignCount(c: Config, x: NodeId, y: NodeId, z: NodeId) returns (steps: seq<Step>, t: State)
    requires Trio(c, x, y, z)
    ensures Path(c, steps, t, GoodStep) && Present(t, x, y, z)
    ensures t.store.key.None? && t.store.term == 2 && t.store.terms == map[x := 2, y := 2, z := 2]
    ensures |t.store.reigns| == 2 && t.store.reigns[1].leader == y
    ensures var a := t.agents[x]; a.phase.Idle? && a.log == [Txn(x, 1), Txn(y, 1)] && a.lastUUID.None?
    ensures var a := t.agents[z];
            && a.phase.Granted? && !a.phase.resume && a.phase.lease in t.store.leases
            && a.term == 2 && a.log == [Txn(x, 1)] && a.lastUUID == Some(x) && a.lastTxn == 2
  {
    Counts(x, y);
    GoodAllowsPlain();
    steps, t := FormerJoins(c, x, y, z);
    steps, t := Ask(c, steps, t, z, GoodStep);
  }

  lemma NothingBy(x: NodeId, y: NodeId)
    requires x != y
    ensures Published([Txn(x, 1)], y) == 0
  {
    var one := [Txn(x, 1)];
    assert one[..|one| - 1] == [];
    assert Count(one[..|one| - 1], y) == 0;
  }

  /** The state after `z` has won, and after `x` has read that. */
  lemma ForeignWin(c: Config, x: NodeId, y: NodeId, z: NodeId) returns (steps: seq<Step>, t: State, u: State)
    requires Trio(c, x, y, z)
    ensures Path(c, steps, t, GoodStep) && Enabled(c, t, Act(z, Commit)) && u == Apply(c, t, Act(z, Commit))
    ensures CurrentWinner(t, Act(z, Commit)) && !Fresh(t, Act(z, Commit))
    ensures Present(u, x, y, z) && Owns(u.store, z) && u.store.term == 3 && TermOf(u.store, x) == 2
    ensures u.store.lastUUID == Some(x) && u.store.lastTxn == 2
    ensures |u.store.reigns| == 3 && u.store.reigns[1].leader == y && u.agents[z].log == [Txn(x, 1)]
    ensures var a := u.agents[x]; a.phase.Idle? && a.log == [Txn(x, 1), Txn(y, 1)] && a.lastUUID.None?
  {
    NothingBy(x, y);
    steps, t := AsksWithForeignCount(c, x, y, z);
    u := Apply(c, t, Act(z, Commit));
  }

  lemma TwoSteps(c: Config, s: State, one: Step, two: Step)
    requires Enabled(c, s, one) && GoodStep(s, one)
    requires Enabled(c, Apply(c, s, one), two) && GoodStep(Apply(c, s, one), two)
    ensures Legal(c, s, [one, two]) && RunsUnder(c, s, [one, two], GoodStep)
    ensures Exec(c, s, [one, two]) == Apply(c, Apply(c, s, one), two)
  {
    RunSnoc(c, s, [], one, GoodStep);
    assert [] + [one] == [one];
    RunSnoc(c, s, [one], two, GoodStep);
    assert [one] + [two] == [one, two];
  }

  /** `x` reads the new leader, and is admitted at a decisive position. */
  lemma FormerAdmitted(c: Config, x: NodeId, y: NodeId, z: NodeId, s: State, u: State)
    requires x != y && x != z && x in s.agents && z in s.agents
    requires Owns(s.store, z) && s.store.term == 3 && TermOf(s.store, x) == 2
    requires s.store.lastUUID == Some(x) && s.store.lastTxn == 2
    requires |s.store.reigns| == 3 && s.store.reigns[1].leader == y && s.agents[z].log == [Txn(x, 1)]
    requires var a := s.agents[x]; a.phase.Idle? && a.log == [Txn(x, 1), Txn(y, 1)] && a.lastUUID.None?
    requires Enabled(c, s, Act(x, Read)) && u == Apply(c, s, Act(x, Read))
    ensures var admit := Act(x, Admit(true, true));
            Enabled(c, u, admit) && GoodStep(u, admit) && !FollowersContained(Apply(c, u, admit))
  {
    Counts(x, y);
    NothingBy(x, y);
    var admit := Act(x, Admit(true, true));
    var a := u.agents[x];
    assert a.log[..|a.log| - 1] == [Txn(x, 1)];
    assert Compared(x, a, a.phase.view) == Some(Position(x, 2));
    var v := Apply(c, u, admit);
    assert Owns(v.store, z) && TermOf(v.store, x) == v.store.term && !(v.agents[x].log <= v.agents[z].log);
  }

  /**
   A current winner publishes its position by the count of a node that did not lead last.
   Nothing else is amiss, and the former leader is admitted, at a decisive position, with a
   transaction its leader lacks.
   */
  lemma ForeignCount(c: Config, x: NodeId, y: NodeId, z: NodeId) returns (steps: seq<Step>, rest: seq<Step>)
    requires Trio(c, x, y, z)
    ensures Legal(c, Init(c), steps) && RunsUnder(c, Init(c), steps, GoodStep)
    ensures var s, win := Exec(c, Init(c), steps), Act(z, Commit);
            && Enabled(c, s, win) && CurrentWinner(s, win) && !Fresh(s, win)
            && Legal(c, Apply(c, s, win), rest) && RunsUnder(c, Apply(c, s, win), rest, GoodStep)
            && !FollowersContained(Exec(c, Apply(c, s, win), rest))
  {
    var s, t: State;
    steps, s, t := ForeignWin(c, x, y, z);
    var read, admit := Act(x, Read), Act(x, Admit(true, true));
    GoodAllowsPlain();
    FormerAdmitted(c, x, y, z, t, Apply(c, t, read));
    TwoSteps(c, t, read, admit);
    rest := [read, admit];
  }
}
