/**
 Failing and coming back: an agent is never stuck, a call that fails leaves nothing behind
 that the next round cannot deal with, and a node that is taken down stays down until it is
 restarted.
 */
module Recovery {

  import opened Prelude
  import opened Cluster
  import opened LeaseSafety
  import opened Runs
  import opened Careless

  // ---------- a node that leads knows it ----------

  predicate Leading(p: Phase)
  {
    p.Promoting? || p.Serving? || p.SpmPromoting? || p.SpmServing?
  }

  ghost predicate LeadersKnow(s: State)
  {
    forall n :: n in s.agents && Leading(s.agents[n].phase) ==> s.agents[n].isLeader
  }

  lemma ActKnows(c: Config, now: nat, e: Store, n: NodeId, a: Agent, act: Action)
    requires ActEnabled(c, now, e, n, a, act) && (Leading(a.phase) ==> a.isLeader)
    ensures var b := ActAgent(c, now, e, n, a, act); Leading(b.phase) ==> b.isLeader
  {
    if ElectionAction(act) {
      assert Leading(ElectionAgent(c, now, e, n, a, act).phase) ==> act.Receive?;
    } else if TimerAction(act) {
      assert TimerAgent(c, now, e, n, a, act).isLeader == a.isLeader;
    } else if SpmAction(act) {
      SpmKnows(c, now, e, n, a, act);
    }
  }

  lemma SpmKnows(c: Config, now: nat, e: Store, n: NodeId, a: Agent, act: Action)
    requires SpmAction(act) && SpmEnabled(c, now, e, n, a, act) && (Leading(a.phase) ==> a.isLeader)
    ensures var b := SpmAgent(c, now, e, n, a, act); Leading(b.phase) ==> b.isLeader
  {
  }

  lemma {:induction false} RunKnows(c: Config, s: State, steps: seq<Step>)
    requires LeadersKnow(s) && Legal(c, s, steps)
    ensures LeadersKnow(Exec(c, s, steps))
    decreases |steps|
  {
    if steps != [] {
      if steps[0].Act? {
        ActKnows(c, s.now, s.store, steps[0].node, s.agents[steps[0].node], steps[0].act);
      }
      RunKnows(c, Apply(c, s, steps[0]), steps[1..]);
    }
  }

  // ---------- the way back to the top ----------

  /** From `s`, at the same moment and with the others as they are, `n` gets to `t`. */
  ghost predicate Gets(c: Config, s: State, n: NodeId, steps: seq<Step>, t: State)
  {
    && From(c, s, steps, t, CarefulStep) && t.now == s.now && n in t.agents && t.agents == s.agents[n := t.agents[n]]
    && forall i :: 0 <= i < |steps| ==> Working(n, steps[i])
  }

  /** A step of the node itself that is not its end, nor its beginning. */
  predicate Working(n: NodeId, step: Step)
  {
    step.Act? && step.node == n && !step.act.Close? && !step.act.Crash? && !step.act.Restart? && !step.act.Admit?
  }

  lemma Goes(c: Config, s: State, n: NodeId, steps: seq<Step>, t: State, act: Action) returns (more: seq<Step>, u: State)
    requires Gets(c, s, n, steps, t) && Working(n, Act(n, act)) && !OpensManually(act) && !act.Replicate?
    requires ActEnabled(c, t.now, t.store, n, t.agents[n], act)
    ensures Gets(c, s, n, more, u) && more == steps + [Act(n, act)]
    ensures u.agents[n] == ActAgent(c, t.now, t.store, n, t.agents[n], act)
    ensures u.store == ActStore(c, t.now, t.store, n, t.agents[n], act)
  {
    more, u := ExtendFrom(c, s, steps, t, Act(n, act), CarefulStep);
  }

  lemma BackFromElection(c: Config, s: State, n: NodeId) returns (steps: seq<Step>, t: State)
    requires n in s.agents
    requires var p := s.agents[n].phase; p.Decided? || p.Granted? || p.Answered? || p.Undoing?
    ensures Gets(c, s, n, steps, t) && t.agents[n].phase.Idle? && t.agents[n].db == s.agents[n].db
  {
    steps, t := [], s;
    if s.agents[n].phase.Decided? {
      steps, t := Goes(c, s, n, steps, t, Skip);
    } else {
      if !s.agents[n].phase.Undoing? {
        steps, t := Goes(c, s, n, steps, t, Lose);
      }
      if t.agents[n].phase.Undoing? {
        steps, t := Goes(c, s, n, steps, t, Undo(false));
      }
    }
  }

  lemma BackFromLease(c: Config, s: State, n: NodeId) returns (steps: seq<Step>, t: State)
    requires n in s.agents
    requires var a := s.agents[n]; a.phase.Promoting? || (a.phase.Serving? && a.isLeader)
    ensures Gets(c, s, n, steps, t) && t.agents[n].phase.Idle? && t.agents[n].db.ReadOnly?
  {
    if s.agents[n].phase.Promoting? {
      steps, t := Goes(c, s, n, [], s, Promote(false));
    } else {
      steps, t := Goes(c, s, n, [], s, Resign);
      steps, t := Resigned(c, s, n, steps, t);
    }
  }

  lemma FromReleased(c: Config, s: State, n: NodeId, steps: seq<Step>, t: State) returns (more: seq<Step>, u: State)
    requires Gets(c, s, n, steps, t) && t.agents[n].phase.Released?
    ensures Gets(c, s, n, more, u) && u.agents[n].phase.Idle? && u.agents[n].db.ReadOnly?
  {
    more, u := Goes(c, s, n, steps, t, EndReign);
    if t.agents[n].phase.single {
      more, u := FromLeaving(c, s, n, more, u);
    }
  }

  lemma Resigned(c: Config, s: State, n: NodeId, steps: seq<Step>, t: State) returns (more: seq<Step>, u: State)
    requires Gets(c, s, n, steps, t) && t.agents[n].phase.Resigning?
    ensures Gets(c, s, n, more, u) && u.agents[n].phase.Idle? && u.agents[n].db.ReadOnly?
  {
    more, u := Goes(c, s, n, steps, t, Release(false));
    more, u := FromReleased(c, s, n, more, u);
  }

  lemma FromLeaving(c: Config, s: State, n: NodeId, steps: seq<Step>, t: State) returns (more: seq<Step>, u: State)
    requires Gets(c, s, n, steps, t) && t.agents[n].phase.SpmLeaving?
    ensures Gets(c, s, n, more, u) && u.agents[n].phase.Idle? && u.agents[n].db == t.agents[n].db
  {
    more, u := Goes(c, s, n, steps, t, SpmRemove(false));
  }

  lemma FromServing(c: Config, s: State, n: NodeId, steps: seq<Step>, t: State) returns (more: seq<Step>, u: State)
    requires Gets(c, s, n, steps, t) && (t.agents[n].phase.SpmPromoting? || t.agents[n].phase.SpmServing?)
    ensures Gets(c, s, n, more, u) && u.agents[n].phase.Idle? && u.agents[n].db.ReadOnly?
  {
    more, u := Goes(c, s, n, steps, t, if t.agents[n].phase.SpmServing? then SpmStop else SpmPromote(false));
    more, u := FromLeaving(c, s, n, more, u);
  }

  lemma FromAnswered(c: Config, s: State, n: NodeId, steps: seq<Step>, t: State) returns (more: seq<Step>, u: State)
    requires Gets(c, s, n, steps, t) && t.agents[n].phase.SpmAnswered?
    ensures Gets(c, s, n, more, u) && u.agents[n].phase.Idle? && (u.agents[n].db.ReadOnly? || u.agents[n].db == t.agents[n].db)
  {
    more, u := Goes(c, s, n, steps, t, SpmReceive);
    if t.agents[n].phase.ok {
      more, u := FromServing(c, s, n, more, u);
    }
  }

  lemma BackFromAlone(c: Config, s: State, n: NodeId) returns (steps: seq<Step>, t: State)
    requires n in s.agents && SpmPhase(s.agents[n].phase)
    ensures Gets(c, s, n, steps, t) && t.agents[n].phase.Idle?
    ensures t.agents[n].db.ReadWrite? ==> s.agents[n].db.ReadWrite? && !SinglePoint(s.agents[n])
  {
    steps, t := [], s;
    if s.agents[n].phase.SpmAsking? {
      AskedAlone(c, s.now, s.store, n, s.agents[n]);
      steps, t := Goes(c, s, n, steps, t, SpmCommit);
    }
    if t.agents[n].phase.SpmAnswered? {
      steps, t := FromAnswered(c, s, n, steps, t);
    } else if t.agents[n].phase.SpmLeaving? {
      steps, t := FromLeaving(c, s, n, steps, t);
    } else {
      steps, t := FromServing(c, s, n, steps, t);
    }
  }

  predicate SpmPhase(p: Phase)
  {
    p.SpmAsking? || p.SpmAnswered? || p.SpmPromoting? || p.SpmServing? || p.SpmLeaving?
  }

  /**
   No agent is stuck: wherever it stands in a safe state, its own steps lead it back to the
   top of its loop, with a database that takes no writes, and nobody else has to move.
   */
  lemma NeverStuck(c: Config, s: State, n: NodeId) returns (steps: seq<Step>, t: State)
    requires Safe(c, s) && LeadersKnow(s) && n in s.agents && !s.agents[n].phase.Exited?
    ensures Gets(c, s, n, steps, t) && t.agents[n].phase.Idle? && !t.agents[n].db.ReadWrite?
  {
    var p := s.agents[n].phase;
    assert AgentSafe(c, s.now, s.store, n, s.agents[n]);
    steps, t := [], s;
    if p.Decided? || p.Granted? || p.Answered? || p.Undoing? {
      steps, t := BackFromElection(c, s, n);
    } else if p.Promoting? || p.Serving? {
      steps, t := BackFromLease(c, s, n);
    } else if p.Resigning? {
      steps, t := Resigned(c, s, n, [], s);
    } else if p.Released? {
      steps, t := FromReleased(c, s, n, [], s);
    } else if p.Watching? {
      steps, t := Goes(c, s, n, steps, t, WatchEnd);
    } else if !p.Idle? {
      steps, t := BackFromAlone(c, s, n);
    }
  }

  // ---------- campaigns that fail ----------

  /**
   A campaign whose call fails, before or after its transaction, and whose delete goes
   through leaves the node without the key; a resume that fails changes nothing; nor does a
   campaign or a resume that is answered, however late, to have lost.
   */
  lemma FailedCampaign(c: Config, now: nat, e: Store, n: NodeId, a: Agent)
    requires a.phase.Granted? || a.phase.Answered?
    ensures ActEnabled(c, now, e, n, a, Lose) && ActStore(c, now, e, n, a, Lose) == e
    ensures a.phase.Answered? && !a.phase.ok ==>
              ActEnabled(c, now, e, n, a, Receive) && ActAgent(c, now, e, n, a, Receive) == a.(phase := Idle)
    ensures var b := ActAgent(c, now, e, n, a, Lose);
            if a.phase.resume then b == a.(phase := Idle)
            else && ActEnabled(c, now, e, n, b, Undo(true)) && ActAgent(c, now, e, n, b, Undo(true)) == a.(phase := Idle)
                 && !Owns(ActStore(c, now, e, n, b, Undo(true)), n)
                 && (forall m :: m != n && Owns(e, m) ==> ActStore(c, now, e, n, b, Undo(true)) == e)
  {
  }

  // ---------- the mark of single point mode ----------

  /** The node holds the key without a lease and is marked as the single point master. */
  predicate Marked(e: Store, n: NodeId)
  {
    e.key == Some(LeaderKey(n, None)) && e.spm == Some(n)
  }

  /** The steps that take the key, its being lease-free, or the mark away from `n`. */
  predicate Unmarks(s: State, step: Step, n: NodeId)
  {
    && step.Act?
    && (|| step.act == SpmRemove(true)
        || (step.node == n && (step.act == Undo(true) || step.act == Release(true) || step.act == Close(true) || step.act.Clean?))
        || (step.node == n && step.act.Commit? && n in s.agents && s.agents[n].phase.Granted? && s.agents[n].phase.resume))
  }

  lemma ActMarked(c: Config, now: nat, e: Store, m: NodeId, a: Agent, act: Action, n: NodeId)
    requires Marked(e, n) && ActEnabled(c, now, e, m, a, act)
    ensures Marked(ActStore(c, now, e, m, a, act), n) <==>
            !(|| act == SpmRemove(true)
              || (m == n && (act == Undo(true) || act == Release(true) || act == Close(true) || act.Clean?))
              || (m == n && act.Commit? && a.phase.resume))
  {
  }

  /** Each of these steps does, and no other step does. */
  lemma StepMarked(c: Config, s: State, step: Step, n: NodeId)
    requires Marked(s.store, n) && Enabled(c, s, step)
    ensures Marked(Apply(c, s, step).store, n) <==> !Unmarks(s, step, n)
  {
    if step.Act? {
      ActMarked(c, s.now, s.store, step.node, s.agents[step.node], step.act, n);
    }
  }

  ghost predicate NeverUnmarks(c: Config, s: State, steps: seq<Step>, n: NodeId)
    requires Legal(c, s, steps)
    decreases |steps|
  {
    steps == [] || (!Unmarks(s, steps[0], n) && NeverUnmarks(c, Apply(c, s, steps[0]), steps[1..], n))
  }

  lemma {:induction false} RunMarked(c: Config, s: State, steps: seq<Step>, n: NodeId)
    requires Marked(s.store, n) && Legal(c, s, steps) && NeverUnmarks(c, s, steps, n)
    ensures Marked(Exec(c, s, steps).store, n)
    decreases |steps|
  {
    if steps != [] {
      StepMarked(c, s, steps[0], n);
      RunMarked(c, Apply(c, s, steps[0]), steps[1..], n);
    }
  }

  /** A single point master resigns; its mark is still there. */
  lemma ResignsAlone(c: Config, s: State, m: NodeId) returns (steps: seq<Step>, t: State)
    requires m in s.agents && s.agents[m].phase.SpmServing? && s.agents[m].isLeader && Owns(s.store, m)
    ensures From(c, s, steps, t, CarefulStep) && m in t.agents && t.agents == s.agents[m := t.agents[m]]
    ensures t.agents[m].phase.SpmLeaving? && t.store.key.None? && t.store.term == s.store.term
  {
    CarefulAllowsPlain();
    steps, t := DoFrom(c, s, [], s, m, Resign, CarefulStep);
    steps, t := DoFrom(c, s, steps, t, m, Release(true), CarefulStep);
    steps, t := DoFrom(c, s, steps, t, m, EndReign, CarefulStep);
  }

  /** A node at the top takes the key that is gone, alone. */
  lemma SucceedsAlone(c: Config, s: State, steps: seq<Step>, t: State, n: NodeId) returns (more: seq<Step>, u: State)
    requires From(c, s, steps, t, CarefulStep) && t.store.key.None? && t.store.term != 0
    requires n in t.agents && t.agents[n].phase.Idle?
    ensures From(c, s, more, u, CarefulStep) && n in u.agents && u.agents == t.agents[n := u.agents[n]]
    ensures u.agents[n].phase.SpmAsking? && !u.agents[n].phase.resume && u.store == t.store
  {
    CarefulAllowsPlain();
    more, u := ReadyFrom(c, s, steps, t, n, CarefulStep);
    more, u := DoFrom(c, s, more, u, n, SpmBegin, CarefulStep);
  }

  /** The mark is removed without asking whose it is: a node that has resigned can remove that of its successor. */
  lemma AnothersMark(c: Config, s: State, m: NodeId, n: NodeId) returns (steps: seq<Step>, t: State)
    requires m in s.agents && n in s.agents && m != n && s.store.term != 0
    requires s.agents[m].phase.SpmServing? && s.agents[m].isLeader && Owns(s.store, m) && s.agents[n].phase.Idle?
    ensures From(c, s, steps, t, CarefulStep) && Marked(t.store, n)
    ensures Enabled(c, t, Act(m, SpmRemove(true))) && !Marked(Apply(c, t, Act(m, SpmRemove(true))).store, n)
  {
    steps, t := ResignsAlone(c, s, m);
    steps, t := SucceedsAlone(c, s, steps, t, n);
    AskedAlone(c, t.now, t.store, n, t.agents[n]);
    steps, t := ExtendFrom(c, s, steps, t, Act(n, SpmCommit), CarefulStep);
    StepMarked(c, t, Act(m, SpmRemove(true)), n);
  }

  /** What the transaction of single point mode decides, and what it leaves behind when it is won. */
  lemma AskedAlone(c: Config, now: nat, e: Store, n: NodeId, a: Agent)
    requires a.phase.SpmAsking?
    ensures ActEnabled(c, now, e, n, a, SpmCommit)
    ensures var b := ActAgent(c, now, e, n, a, SpmCommit);
            && b.phase == SpmAnswered(a.phase.resume, a.phase.view, if a.phase.resume then Owns(e, n) else e.key.None?)
            && b.db == a.db
            && (b.phase.ok ==> Marked(ActStore(c, now, e, n, a, SpmCommit), n))
            && (!b.phase.ok ==> ActStore(c, now, e, n, a, SpmCommit) == e)
  {
  }

  /**
   A lost answer costs nothing: the transaction is tried again.  If it had been won by a
   resume, it is won again; if by a campaign, the node goes to the top, where it finds itself
   the single point master.
   */
  lemma LostAnswer(c: Config, s: State, n: NodeId) returns (steps: seq<Step>, t: State)
    requires n in s.agents && s.agents[n].phase.SpmAnswered? && s.agents[n].phase.ok && Marked(s.store, n)
    ensures Gets(c, s, n, steps, t) && |steps| == 3 && steps[0] == Act(n, SpmLose)
    ensures Marked(t.store, n) && t.agents[n].db == s.agents[n].db
    ensures if s.agents[n].phase.resume then t.agents[n].phase.SpmPromoting? else t.agents[n].phase.Idle?
  {
    steps, t := Goes(c, s, n, [], s, SpmLose);
    steps, t := AsksAgain(c, s, n, steps, t);
  }

  lemma AsksAgain(c: Config, s: State, n: NodeId, steps: seq<Step>, t: State) returns (more: seq<Step>, u: State)
    requires Gets(c, s, n, steps, t) && Marked(t.store, n) && t.agents[n].phase.SpmAsking?
    ensures Gets(c, s, n, more, u) && |more| == |steps| + 2 && steps <= more
    ensures Marked(u.store, n) && u.agents[n].db == t.agents[n].db
    ensures if t.agents[n].phase.resume then u.agents[n].phase.SpmPromoting? else u.agents[n].phase.Idle?
  {
    AskedAlone(c, t.now, t.store, n, t.agents[n]);
    more, u := Goes(c, s, n, steps, t, SpmCommit);
    more, u := Goes(c, s, n, more, u, SpmReceive);
  }

  // ---------- down, and up again ----------

  /**
   A writable database whose agent is gone goes on taking writes, for at most `stop`: that much
   time may pass as far as this node is concerned, and no more, until it is stopped.
   */
  lemma CrashExact(c: Config, s: State, n: NodeId, d: nat)
    requires Enabled(c, s, Act(n, Crash)) && s.agents[n].db.ReadWrite?
    ensures var t := Apply(c, s, Act(n, Crash));
            && t.agents[n].db.ReadWrite? && Enabled(c, t, Act(n, Write))
            && (Enabled(c, t, Tick(d)) <==>
                  d <= c.stop && forall m :: m in s.agents && m != n ==> OnTime(c, s.agents[m], s.now + d))
            && Enabled(c, t, Act(n, Stop)) && !Apply(c, t, Act(n, Stop)).agents[n].db.ReadWrite?
  {
    var t := Apply(c, s, Act(n, Crash));
    Crashes(c, s.now, s.store, n, s.agents[n]);
    Stops(c, s.now, s.store, n, t.agents[n]);
    assert forall m :: m in s.agents && m != n ==> t.agents[m] == s.agents[m];
    assert OnTime(c, t.agents[n], s.now + d) <==> d <= c.stop;
  }

  lemma Crashes(c: Config, now: nat, e: Store, n: NodeId, a: Agent)
    requires !a.phase.Exited?
    ensures ActEnabled(c, now, e, n, a, Crash) && ActStore(c, now, e, n, a, Crash) == e
    ensures ActAgent(c, now, e, n, a, Crash) == a.(phase := Exited, wake := None, ack := None, stopBy := Some(now + c.stop))
    ensures var b := ActAgent(c, now, e, n, a, Crash);
            ActEnabled(c, now, e, n, b, Write) <==> a.db.ReadWrite?
  {
  }

  lemma Stops(c: Config, now: nat, e: Store, n: NodeId, a: Agent)
    requires a.phase.Exited?
    ensures ActEnabled(c, now, e, n, a, Stop) && ActAgent(c, now, e, n, a, Stop).db.Stopped?
  {
  }

  /** The process is gone, with its timer, and the database is stopped. */
  predicate Down(a: Agent)
  {
    a.phase.Exited? && a.wake.None? && a.db.Stopped?
  }

  lemma ActDown(c: Config, now: nat, e: Store, n: NodeId, a: Agent, act: Action)
    requires ActEnabled(c, now, e, n, a, act) && Down(a) && !act.Restart?
    ensures var b := ActAgent(c, now, e, n, a, act); Down(b) && b.log == a.log && b.term == a.term
  {
    assert act.Stop? || act.Clean? || act.DropAck? || TimerAction(act);
  }

  /** A node that is down does nothing and its database keeps its log, until it is restarted. */
  lemma {:induction false} RunDown(c: Config, s: State, steps: seq<Step>, n: NodeId)
    requires n in s.agents && Down(s.agents[n]) && Legal(c, s, steps) && Act(n, Restart) !in steps
    ensures var t := Exec(c, s, steps);
            n in t.agents && Down(t.agents[n]) && t.agents[n].log == s.agents[n].log && t.agents[n].term == s.agents[n].term
    decreases |steps|
  {
    if steps != [] {
      var t := Apply(c, s, steps[0]);
      if steps[0].Act? && steps[0].node == n {
        ActDown(c, s.now, s.store, n, s.agents[n], steps[0].act);
      }
      RunDown(c, t, steps[1..], n);
    }
  }

  /** Of what the agent knew nothing is left; the database follows whom it followed and has the log it had. */
  lemma RestartForgets(c: Config, now: nat, e: Store, n: NodeId, a: Agent)
    requires a.phase.Exited?
    ensures ActEnabled(c, now, e, n, a, Restart) && ActStore(c, now, e, n, a, Restart) == e
    ensures ActAgent(c, now, e, n, a, Restart) ==
            FRESH_AGENT.(follows := a.follows, log := a.log, origin := a.origin, forgot := a.forgot,
                         lease := a.lease, expireTS := a.expireTS)
    ensures var b := ActAgent(c, now, e, n, a, Restart);
            forall act :: OpensManually(act) ==> !ActEnabled(c, now, e, n, b, act)
  {
  }

  /**
   A marked node that was taken down comes back as the single point master, and serves: it
   is alone again without an election.
   */
  lemma ReturnsAlone(c: Config, s: State, n: NodeId) returns (steps: seq<Step>, t: State)
    requires n in s.agents && s.agents[n].phase.Exited? && Marked(s.store, n)
    ensures From(c, s, steps, t, CarefulStep) && Marked(t.store, n) && t.store.term == s.store.term
    ensures n in t.agents && t.agents[n].phase.SpmServing? && t.agents[n].db.ReadWrite? && t.agents[n].log == s.agents[n].log
  {
    CarefulAllowsPlain();
    RestartForgets(c, s.now, s.store, n, s.agents[n]);
    steps, t := DoFrom(c, s, [], s, n, Restart, CarefulStep);
    steps, t := DoFrom(c, s, steps, t, n, Read, CarefulStep);
    steps, t := DoFrom(c, s, steps, t, n, SpmBegin, CarefulStep);
    steps, t := ServesAlone(c, s, steps, t, n);
  }

  lemma ServesAlone(c: Config, s: State, steps: seq<Step>, t: State, n: NodeId) returns (more: seq<Step>, u: State)
    requires From(c, s, steps, t, CarefulStep) && Marked(t.store, n)
    requires n in t.agents && t.agents[n].phase.SpmAsking? && t.agents[n].phase.resume && t.agents[n].term == t.store.term
    ensures From(c, s, more, u, CarefulStep) && Marked(u.store, n) && u.store.term == t.store.term
    ensures n in u.agents && u.agents[n].phase.SpmServing? && u.agents[n].db.ReadWrite? && u.agents[n].log == t.agents[n].log
  {
    CarefulAllowsPlain();
    more, u := WinsAlone(c, s, steps, t, n);
    more, u := DoFrom(c, s, more, u, n, SpmReceive, CarefulStep);
    more, u := DoFrom(c, s, more, u, n, SpmPromote(true), CarefulStep);
  }

  lemma WinsAlone(c: Config, s: State, steps: seq<Step>, t: State, n: NodeId) returns (more: seq<Step>, u: State)
    requires From(c, s, steps, t, CarefulStep) && Marked(t.store, n)
    requires n in t.agents && t.agents[n].phase.SpmAsking? && t.agents[n].phase.resume && t.agents[n].term == t.store.term
    ensures From(c, s, more, u, CarefulStep) && Marked(u.store, n) && u.store.term == t.store.term
    ensures n in u.agents && u.agents[n].phase.SpmAnswered? && u.agents[n].phase.ok && u.agents[n].log == t.agents[n].log
  {
    more, u := ExtendFrom(c, s, steps, t, Act(n, SpmCommit), CarefulStep);
  }

  // ---------- keeping the lease alive ----------

  /**
   As long as the keep-alive loop runs, whatever the leader loop is at, it renews its lease
   for another whole lifetime; a lost answer leaves the stamp as it was, and it renews again.
   */
  lemma KeepsRenewing(c: Config, now: nat, e: Store, n: NodeId, a: Agent, later: nat)
    requires a.wake.Some? && a.ack.None? && a.lease in e.leases
    ensures ActEnabled(c, now, e, n, a, Renew)
    ensures var b, f := ActAgent(c, now, e, n, a, Renew), ActStore(c, now, e, n, a, Renew);
            && a.lease in f.leases && f.leases[a.lease] == now + c.ttl * 1000 && f.key == e.key
            && ActEnabled(c, later, f, n, b, DropAck) && ActStore(c, later, f, n, b, DropAck) == f
            && ActAgent(c, later, f, n, b, DropAck) == a
  {
  }

  /** The stamp is taken when the answer is received, be it to the transaction or to a renewal. */
  predicate Stamps(a: Agent, act: Action)
  {
    act.Stamp? || (act.Receive? && a.phase.Answered? && a.phase.ok)
  }

  /**
   Stamped at `r` and not again, the agent is closed by the check at `t` if and only if in
   whole seconds `ttl - threshold` have passed; otherwise it is checked again when they have.
   */
  lemma ClosedExactly(c: Config, e: Store, n: NodeId, a: Agent, act: Action, r: nat, t: nat)
    requires Stamps(a, act) && ActEnabled(c, r, e, n, a, act) && !a.phase.Exited?
    requires var b := ActAgent(c, r, e, n, a, act); b.wake.Some? && b.wake.value <= t
    ensures ActEnabled(c, t, e, n, ActAgent(c, r, e, n, a, act), Check)
    ensures var d := ActAgent(c, t, e, n, ActAgent(c, r, e, n, a, act), Check);
            if r / 1000 + c.ttl - c.threshold <= t / 1000 then d.phase.Exited? && d.db == a.db
            else !d.phase.Exited? && d.wake.Some? && d.wake.value / 1000 == r / 1000 + c.ttl - c.threshold
  {
  }
}
