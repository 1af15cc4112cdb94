/** Who may follow a leader: the check of `preWatch`, said outright. */
module Admission {

  import opened Prelude
  import opened Gtid
  import opened Cluster
  import opened LeaseSafety
  import opened Runs
  import opened Careless

  /** The database holds transactions of `u`, and is not past position `q` by their count. */
  predicate CountsWithin(log: seq<Txn>, u: NodeId, q: nat)
  {
    0 < Count(log, u) && Count(log, u) + 1 <= q
  }

  /**
   For a node one term behind: its position is cached, or else read off its database by its
   own count if the leader published that, and by the count of its master if not; and it is
   not past what the leader published.
   */
  predicate NotBeyond(n: NodeId, a: Agent, v: View)
  {
    if a.lastUUID.Some? then a.lastTxn <= v.lastTxn
    else if v.lastUUID == Some(n) then CountsWithin(a.log, n, v.lastTxn)
    else a.follows.Some? && CountsWithin(a.log, a.follows.value, v.lastTxn)
  }

  /**
   A node within its leader's term is admitted if and only if it is new, or is at that term
   already, or is one term behind and not beyond the leader.  It ends at the leader's term;
   a node one term behind has its position cached then, any other keeps what it had.
   */
  lemma AdmittedExactly(n: NodeId, a: Agent, v: View)
    requires a.term <= v.term && 1 <= v.term
    ensures PreWatch(n, a, v).Accept? <==>
            a.term == 0 || a.term == v.term || (a.term == v.term - 1 && NotBeyond(n, a, v))
    ensures PreWatch(n, a, v).Accept? ==> PreWatch(n, a, v).term == v.term
    ensures PreWatch(n, a, v).Accept? && (a.term == 0 || a.term == v.term || a.lastUUID.Some?) ==>
              PreWatch(n, a, v).lastUUID == a.lastUUID && PreWatch(n, a, v).lastTxn == a.lastTxn
    ensures PreWatch(n, a, v).Accept? && 0 < a.term < v.term && a.lastUUID.None? ==>
              var u := if v.lastUUID == Some(n) then n else a.follows.value;
              PreWatch(n, a, v).lastUUID == Some(u) && PreWatch(n, a, v).lastTxn == Count(a.log, u) + 1
  {
  }

  /** The last leader the view knows, by its name at that term or by its count one term earlier. */
  predicate LedLast(n: NodeId, term: nat, v: View)
  {
    (term == v.term && v.name == Some(n)) || (term == v.term - 1 && v.lastUUID == Some(n))
  }

  /**
   The position a campaign is prepared with: one past the count of the node itself if it led
   last, and of its master if not.  Where there is nothing to count, or it cannot be read, a
   node that led last keeps the position it had, and any other has none.
   */
  lemma UploadedExactly(n: NodeId, a: Agent, v: View, failed: bool)
    requires 1 <= v.term
    ensures var b := Uploaded(n, a, v, failed);
            var u := if LedLast(n, a.term, v) then Some(n) else a.follows;
            && b == a.(lastUUID := b.lastUUID, lastTxn := b.lastTxn)
            && if !failed && u.Some? && 0 < Count(a.log, u.value)
               then b.lastUUID == u && b.lastTxn == Count(a.log, u.value) + 1
               else if LedLast(n, a.term, v) then b == a
               else b.lastUUID.None? && b.lastTxn == 0
  {
  }

  /** A restarted agent that reads another leader under its own stored term. */
  lemma RestartedAdmitted(c: Config, now: nat, e: Store, n: NodeId, a: Agent, m: NodeId)
    requires a.phase.Exited? && m != n && Owns(e, m) && TermOf(e, n) == e.term
    ensures ActEnabled(c, now, e, n, a, Restart)
    ensures var b := ActAgent(c, now, e, n, a, Restart);
            && ActStore(c, now, e, n, a, Restart) == e && ActEnabled(c, now, e, n, b, Read)
            && ActStore(c, now, e, n, b, Read) == e
            && var d := ActAgent(c, now, e, n, b, Read);
               && d.phase == Decided(Snapshot(e), false) && d.term == e.term && d.lastUUID.None? && d.lastTxn == 0
               && PreWatch(n, d, d.phase.view) == Accept(e.term, None, 0)
               && forall p, r :: ActEnabled(c, now, e, n, d, Admit(p, r))
  {
    var b := ActAgent(c, now, e, n, a, Restart);
    assert b.phase.Idle? && b.lastUUID.None? && b.lastTxn == 0;
    ReadsOther(c, now, e, n, b, m);
  }

  /** An agent at the top that has no position cached, and whose stored term is the leader's. */
  lemma ReadsOther(c: Config, now: nat, e: Store, n: NodeId, a: Agent, m: NodeId)
    requires a.phase.Idle? && a.lastUUID.None? && a.lastTxn == 0 && m != n && Owns(e, m) && TermOf(e, n) == e.term
    ensures ActEnabled(c, now, e, n, a, Read) && ActStore(c, now, e, n, a, Read) == e
    ensures var d := ActAgent(c, now, e, n, a, Read);
            && d.phase == Decided(Snapshot(e), false) && d.term == e.term && d.lastUUID.None? && d.lastTxn == 0
            && PreWatch(n, d, d.phase.view) == Accept(e.term, None, 0)
            && forall p, r :: ActEnabled(c, now, e, n, d, Admit(p, r))
  {
  }

  /** In any state where a node holds the global term and another node leads, it is let in again after a restart. */
  lemma ReadmittedAfterRestart(c: Config, s: State, steps: seq<Step>, t: State, n: NodeId, m: NodeId)
    returns (more: seq<Step>, u: State)
    requires From(c, s, steps, t, CarefulStep)
    requires n in t.agents && m != n && Owns(t.store, m) && TermOf(t.store, n) == t.store.term
    requires t.agents[n].phase.Exited?
    ensures From(c, s, more, u, CarefulStep) && u.store == t.store && n in u.agents
    ensures ActEnabled(c, u.now, u.store, n, u.agents[n], Admit(true, true))
    ensures u.agents[n].phase.view == Snapshot(t.store)
    ensures PreWatch(n, u.agents[n], u.agents[n].phase.view) == Accept(t.store.term, None, 0)
  {
    CarefulAllowsPlain();
    RestartedAdmitted(c, t.now, t.store, n, t.agents[n], m);
    more, u := DoFrom(c, s, steps, t, n, Restart, CarefulStep);
    more, u := DoFrom(c, s, more, u, n, Read, CarefulStep);
  }

  /** What an admission that is persisted leaves. */
  lemma PersistedAdmission(c: Config, now: nat, e: Store, n: NodeId, a: Agent, redirected: bool)
    requires ActEnabled(c, now, e, n, a, Admit(true, redirected))
    requires a.term <= a.phase.view.term == e.term && 1 <= e.term && PreWatch(n, a, a.phase.view).Accept?
    ensures var f, b := ActStore(c, now, e, n, a, Admit(true, redirected)), ActAgent(c, now, e, n, a, Admit(true, redirected));
            f == e.(terms := e.terms[n := e.term]) && !b.phase.Exited? && ActEnabled(c, now, f, n, b, Crash)
  {
    AdmittedExactly(n, a, a.phase.view);
  }

  lemma CrashShape(c: Config, now: nat, e: Store, n: NodeId, a: Agent)
    requires ActEnabled(c, now, e, n, a, Crash)
    ensures ActStore(c, now, e, n, a, Crash) == e && ActAgent(c, now, e, n, a, Crash).phase.Exited?
  {
  }

  /** The state right after it. */
  lemma AfterPersisted(c: Config, s: State, n: NodeId, redirected: bool)
    requires Enabled(c, s, Act(n, Admit(true, redirected)))
    requires var a := s.agents[n];
             a.term <= a.phase.view.term == s.store.term && 1 <= s.store.term && PreWatch(n, a, a.phase.view).Accept?
    ensures var u := Apply(c, s, Act(n, Admit(true, redirected)));
            && u.now == s.now && u.store == s.store.(terms := s.store.terms[n := s.store.term])
            && n in u.agents && ActEnabled(c, u.now, u.store, n, u.agents[n], Crash)
  {
    PersistedAdmission(c, s.now, s.store, n, s.agents[n], redirected);
  }

  /** So an admission that was persisted holds: the node crashes right after it, restarts, reads, and is let in again. */
  lemma AdmissionHolds(c: Config, s: State, n: NodeId, m: NodeId, redirected: bool) returns (steps: seq<Step>, t: State)
    requires Enabled(c, s, Act(n, Admit(true, redirected))) && m != n && Owns(s.store, m)
    requires var a := s.agents[n];
             a.term <= a.phase.view.term == s.store.term && 1 <= s.store.term && PreWatch(n, a, a.phase.view).Accept?
    ensures From(c, Apply(c, s, Act(n, Admit(true, redirected))), steps, t, CarefulStep)
    ensures n in t.agents && ActEnabled(c, t.now, t.store, n, t.agents[n], Admit(true, true))
    ensures PreWatch(n, t.agents[n], t.agents[n].phase.view).Accept? && t.agents[n].phase.view.leader == Some(m)
  {
    var u := Apply(c, s, Act(n, Admit(true, redirected)));
    AfterPersisted(c, s, n, redirected);
    steps, t := CrashesAndReturns(c, u, n, m);
  }

  lemma CrashesAndReturns(c: Config, s: State, n: NodeId, m: NodeId) returns (steps: seq<Step>, t: State)
    requires n in s.agents && m != n && Owns(s.store, m) && TermOf(s.store, n) == s.store.term
    requires ActEnabled(c, s.now, s.store, n, s.agents[n], Crash)
    ensures From(c, s, steps, t, CarefulStep)
    ensures n in t.agents && ActEnabled(c, t.now, t.store, n, t.agents[n], Admit(true, true))
    ensures PreWatch(n, t.agents[n], t.agents[n].phase.view).Accept? && t.agents[n].phase.view.leader == Some(m)
  {
    CarefulAllowsPlain();
    CrashShape(c, s.now, s.store, n, s.agents[n]);
    steps, t := DoFrom(c, s, [], s, n, Crash, CarefulStep);
    steps, t := ReadmittedAfterRestart(c, s, steps, t, n, m);
  }
}
