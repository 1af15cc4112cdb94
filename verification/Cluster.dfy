/**
 A cluster of agents and their databases around one etcd store, as a timed
 transition system.

 Time is in milliseconds.  A step is one of:
 - time passing, which may not run past a due timer or a due shutdown;
 - etcd dropping a lease whose time is up;
 - one action of one agent, its database, its operator or its supervisor.

 `ActEnabled`, `ActAgent` and `ActStore` give the guard of an action and what it
 does to the agent and to the store.
 */
module Cluster {

  import opened Prelude
  import opened Gtid

  // ---------- configuration ----------

  /**
   `ttl` and `threshold` are LeaderLeaseTTL and ShutdownThreshold, in seconds.
   The other three are milliseconds the environment is trusted with:
   - `delay`: from a lease being granted or renewed in etcd to the agent stamping it;
   - `jitter`: how late a due timer may fire;
   - `stop`: how long a database may stay writable once its agent is gone.
   */
  datatype Config = Config(nodes: set<NodeId>, ttl: nat, threshold: nat,
                           delay: nat, jitter: nat, stop: nat)

  // ---------- etcd ----------

  /** The `master` key: its value and the lease attached to it, if any. */
  datatype LeaderKey = LeaderKey(owner: NodeId, lease: Option<nat>)

  datatype KeyEvent = Put(owner: NodeId) | Delete

  /**
   One reign, recorded for the statements about histories: its term and leader,
   the leader's log when it was elected, the leader's log so far, and the
   position it published.
   */
  datatype Reign = Reign(term: nat, leader: NodeId, base: seq<Txn>, log: seq<Txn>, lastTxn: nat)

  /** `events` and `reigns` are histories; everything else is what etcd holds. */
  datatype Store = Store(
    key: Option<LeaderKey>,
    leases: map<nat, nat>,
    nextLease: nat,
    term: nat,
    name: Option<NodeId>,
    lastUUID: Option<NodeId>,
    lastTxn: nat,
    terms: map<NodeId, nat>,
    spm: Option<NodeId>,
    modRev: nat,
    events: seq<KeyEvent>,
    reigns: seq<Reign>)

  /** What one read transaction returns about the leader. */
  datatype View = View(leader: Option<NodeId>, term: nat, name: Option<NodeId>,
                       lastUUID: Option<NodeId>, lastTxn: nat, spm: Option<NodeId>, rev: nat)

  predicate Owns(e: Store, n: NodeId)
  {
    e.key.Some? && e.key.value.owner == n
  }

  function TermOf(e: Store, n: NodeId): nat
  {
    if n in e.terms then e.terms[n] else 0
  }

  function Snapshot(e: Store): View
  {
    View(if e.key.Some? then Some(e.key.value.owner) else None,
         e.term, e.name, e.lastUUID, e.lastTxn, e.spm, e.modRev)
  }

  function DropKey(e: Store): Store
  {
    e.(key := None, events := e.events + [Delete])
  }

  /** A delete guarded by the owner value; it has no effect unless `n` owns the key. */
  function DeleteOwn(e: Store, n: NodeId): Store
  {
    if Owns(e, n) then DropKey(e) else e
  }

  /** The puts of one leader transaction. */
  function PutLeader(e: Store, n: NodeId, lease: Option<nat>, term: nat, a: Agent): Store
  {
    e.(key := Some(LeaderKey(n, lease)), term := term, name := Some(n),
       lastUUID := a.lastUUID, lastTxn := a.lastTxn,
       modRev := |e.events| + 1, events := e.events + [Put(n)])
  }

  function BeginReign(e: Store, n: NodeId, a: Agent): Store
  {
    e.(terms := e.terms[n := a.term + 1],
       reigns := e.reigns + [Reign(a.term + 1, n, a.log, a.log, a.lastTxn)])
  }

  // ---------- one agent and its database ----------

  datatype DbMode = ReadOnly | ReadWrite | Stopped

  /** Where the agent's leader loop stands. */
  datatype Phase =
    | Idle                                                    // top of the loop
    | Decided(view: View, ready: bool)                        // leader read; `ready` after preCampaign
    | Granted(resume: bool, view: View, lease: nat, since: nat)   // lease granted
    | Answered(resume: bool, ok: bool, lease: nat, since: nat)    // transaction done, reply under way
    | Undoing                                                 // campaign call failed
    | Promoting | Serving                                     // leader under a lease
    | Resigning(single: bool) | Released(single: bool)        // inside the changeMaster handler
    | SpmAsking(resume: bool, view: View)
    | SpmAnswered(resume: bool, view: View, ok: bool)
    | SpmPromoting | SpmServing | SpmLeaving                  // leader without a lease
    | Watching(view: View)
    | Exited

  /**
   `origin` and `forgot` are history: a term whose reign's log this log is a prefix of, and
   whether the node's stored term was reset to 0 or, being 0, not persisted at an admission.
   */
  datatype Agent = Agent(
    phase: Phase,
    db: DbMode,
    isLeader: bool,
    term: nat,
    lastUUID: Option<NodeId>,
    lastTxn: nat,
    lease: nat,
    expireTS: int,
    wake: Option<nat>,
    ack: Option<nat>,
    stopBy: Option<nat>,
    follows: Option<NodeId>,
    log: seq<Txn>,
    origin: nat,
    forgot: bool)

  predicate IsPreviousMaster(n: NodeId, term: nat, v: View)
  {
    || (term == v.term && v.name == Some(n))
    || (term == Pred64(v.term) && v.lastUUID == Some(n))
  }

  /** The database's replication position: the UUID it is counted by, and the next id. */
  datatype Position = Position(uuid: NodeId, txn: nat)

  function LoadMaster(n: NodeId, log: seq<Txn>): Option<Position>
  {
    match EndTxn(log, n)
    case None => None
    case Some(x) => Some(Position(n, x))
  }

  function LoadSlave(follows: Option<NodeId>, log: seq<Txn>): Option<Position>
  {
    match follows
    case None => None
    case Some(m) => match EndTxn(log, m) { case None => None case Some(x) => Some(Position(m, x)) }
  }

  /** What an agent takes over from reading the leader and its own stored term. */
  function Reads(n: NodeId, a: Agent, v: View, myTerm: nat): Agent
  {
    if v.leader == Some(n) then a.(term := v.term, lastUUID := v.lastUUID, lastTxn := v.lastTxn)
    else a.(term := myTerm)
  }

  /**
   Uploading the election log also caches the position in the agent.  When the
   position cannot be read, a former master keeps what it had and a slave has none.
   */
  function Uploaded(n: NodeId, a: Agent, v: View, failed: bool): Agent
  {
    var former := IsPreviousMaster(n, a.term, v);
    var position := if failed then None else if former then LoadMaster(n, a.log) else LoadSlave(a.follows, a.log);
    match position
    case Some(p) => a.(lastUUID := Some(p.uuid), lastTxn := p.txn)
    case None => if former then a else a.(lastUUID := None, lastTxn := 0)
  }

  datatype Verdict = Reject | Accept(term: nat, lastUUID: Option<NodeId>, lastTxn: nat)

  /** The position `preWatch` compares: the cached one, or a fresh one when none is cached. */
  function Compared(n: NodeId, a: Agent, v: View): Option<Position>
  {
    if a.lastUUID.Some? then Some(Position(a.lastUUID.value, a.lastTxn))
    else if IsPreviousMaster(n, a.term, v) then LoadMaster(n, a.log)
    else LoadSlave(a.follows, a.log)
  }

  /** May this agent follow the leader it has read? */
  function PreWatch(n: NodeId, a: Agent, v: View): Verdict
  {
    if a.term == 0 then Accept(v.term, a.lastUUID, a.lastTxn)
    else if a.term < Pred64(v.term) then Reject
    else if a.term == v.term then Accept(a.term, a.lastUUID, a.lastTxn)
    else match Compared(n, a, v)
         case None => Reject
         case Some(p) =>
           if v.lastTxn < p.txn then Reject
           else Accept(if a.term == Pred64(v.term) then v.term else a.term, Some(p.uuid), p.txn)
  }

  // ---------- actions ----------

  datatype Action =
    | Read | Skip | Upload(failed: bool) | Grant | Commit | Receive | Lose | Undo(deleted: bool)
    | Promote(ok: bool) | Renew | Stamp | DropAck | Check
    | ManualReadOnly(refused: bool) | ManualReadWrite | Resign | Release(deleted: bool) | EndReign
    | SpmBegin | SpmCommit | SpmLose | SpmReceive | SpmPromote(ok: bool) | SpmStop | SpmRemove(removed: bool)
    | Admit(persisted: bool, redirected: bool) | WatchEnd
    | Close(deleted: bool) | Crash | Stop | Clean | Restart
    | Write | Replicate(log: seq<Txn>, origin: nat)

  // Groups of actions, for proofs by cases.

  predicate ElectionAction(act: Action)
  {
    act.Read? || act.Skip? || act.Upload? || act.Grant? || act.Commit? || act.Receive? || act.Lose? || act.Undo?
  }

  predicate TimerAction(act: Action)
  {
    act.Promote? || act.Renew? || act.Stamp? || act.DropAck? || act.Check?
  }

  predicate OperatorAction(act: Action)
  {
    act.ManualReadOnly? || act.ManualReadWrite? || act.Resign? || act.Release? || act.EndReign? || act.Close? || act.Crash?
  }

  /** Admission, the database and the supervisor. */
  predicate LocalAction(act: Action)
  {
    act.Admit? || act.WatchEnd? || act.Stop? || act.Clean? || act.Restart? || act.Write? || act.Replicate?
  }

  predicate SpmAction(act: Action)
  {
    act.SpmBegin? || act.SpmCommit? || act.SpmLose? || act.SpmReceive? || act.SpmPromote? || act.SpmStop? || act.SpmRemove?
  }

  /** `updateLeaseExpireTS` at time `now`. */
  function ExpireStamp(c: Config, now: nat): int
  {
    now / 1000 + c.ttl - c.threshold
  }

  function LeaseEnd(c: Config, now: nat): nat
  {
    now + c.ttl * 1000
  }

  predicate ElectionEnabled(c: Config, now: nat, e: Store, n: NodeId, a: Agent, act: Action)
    requires ElectionAction(act)
  {
    match act
    case Read => a.phase.Idle?
    case Skip => a.phase.Decided?
    case Upload(_) => a.phase.Decided? && a.phase.view.leader.None? && a.phase.view.term != 0
    case Grant =>
      && a.phase.Decided?
      && var v := a.phase.view;
         || (v.leader.None? && (v.term == 0 || a.phase.ready))
         || (v.leader == Some(n) && v.spm != Some(n))
    case Commit => a.phase.Granted? && a.phase.lease in e.leases
    case Receive => a.phase.Answered? && (a.phase.ok ==> now <= a.phase.since + c.delay)
    case Lose => a.phase.Granted? || a.phase.Answered?
    case Undo(_) => a.phase.Undoing?
  }

  predicate TimerEnabled(c: Config, now: nat, e: Store, n: NodeId, a: Agent, act: Action)
    requires TimerAction(act)
  {
    match act
    case Promote(_) => a.phase.Promoting?
    case Renew => a.wake.Some? && a.ack.None? && a.lease in e.leases
    case Stamp => a.wake.Some? && a.ack.Some? && now <= a.ack.value + c.delay
    case DropAck => a.ack.Some?
    case Check => a.wake.Some? && a.wake.value <= now
  }

  predicate OperatorEnabled(c: Config, now: nat, e: Store, n: NodeId, a: Agent, act: Action)
    requires OperatorAction(act)
  {
    match act
    case ManualReadOnly(_) => a.isLeader && !a.phase.Exited?
    case ManualReadWrite => a.isLeader && !a.phase.Exited?
    case Resign => a.isLeader && (a.phase.Serving? || a.phase.SpmServing?)
    case Release(_) => a.phase.Resigning?
    case EndReign => a.phase.Released?
    case Close(_) => !a.phase.Exited?
    case Crash => !a.phase.Exited?
  }

  predicate SpmEnabled(c: Config, now: nat, e: Store, n: NodeId, a: Agent, act: Action)
    requires SpmAction(act)
  {
    match act
    case SpmBegin =>
      && a.phase.Decided?
      && var v := a.phase.view;
         || (v.leader.None? && v.term != 0 && a.phase.ready)
         || (v.leader == Some(n) && v.spm == Some(n))
    case SpmCommit => a.phase.SpmAsking?
    case SpmLose => a.phase.SpmAnswered?
    case SpmReceive => a.phase.SpmAnswered?
    case SpmPromote(_) => a.phase.SpmPromoting?
    case SpmStop => a.phase.SpmServing?
    case SpmRemove(_) => a.phase.SpmLeaving?
  }

  predicate LocalEnabled(c: Config, now: nat, e: Store, n: NodeId, a: Agent, act: Action)
    requires LocalAction(act)
  {
    match act
    case Admit(_, _) => a.phase.Decided? && a.phase.view.leader.Some? && a.phase.view.leader != Some(n)
    case WatchEnd => a.phase.Watching?
    case Stop => a.phase.Exited?
    case Clean => a.phase.Exited? && a.db.Stopped?
    case Restart => a.phase.Exited?
    case Write => a.db.ReadWrite?
    case Replicate(log, _) => a.follows.Some? && !a.db.Stopped? && a.log <= log
  }

  predicate ActEnabled(c: Config, now: nat, e: Store, n: NodeId, a: Agent, act: Action)
  {
    if ElectionAction(act) then ElectionEnabled(c, now, e, n, a, act)
    else if TimerAction(act) then TimerEnabled(c, now, e, n, a, act)
    else if OperatorAction(act) then OperatorEnabled(c, now, e, n, a, act)
    else if SpmAction(act) then SpmEnabled(c, now, e, n, a, act)
    else LocalEnabled(c, now, e, n, a, act)
  }

  function ElectionAgent(c: Config, now: nat, e: Store, n: NodeId, a: Agent, act: Action): Agent
    requires ElectionAction(act) && ElectionEnabled(c, now, e, n, a, act)
  {
    match act
    case Read => Reads(n, a, Snapshot(e), TermOf(e, n)).(phase := Decided(Snapshot(e), false))
    case Skip => a.(phase := Idle)
    case Upload(failed) => Uploaded(n, a, a.phase.view, failed).(phase := Decided(a.phase.view, true))
    case Grant => a.(phase := Granted(a.phase.view.leader.Some?, a.phase.view, e.nextLease, now))
    case Commit =>
      var p := a.phase;
      var ok := if p.resume then Owns(e, n) else e.key.None?;
      a.(phase := Answered(p.resume, ok, p.lease, p.since),
         origin := if ok && !p.resume then |e.reigns| + 1 else a.origin,
         forgot := if ok && !p.resume then false else a.forgot)
    case Receive =>
      var p := a.phase;
      if !p.ok then a.(phase := Idle)
      else a.(phase := Promoting, isLeader := true,
              term := if p.resume then a.term else a.term + 1,
              lease := p.lease, expireTS := ExpireStamp(c, now), wake := Some(now), ack := None)
    case Lose => a.(phase := if a.phase.resume then Idle else Undoing)
    case Undo(_) => a.(phase := Idle)
  }

  function TimerAgent(c: Config, now: nat, e: Store, n: NodeId, a: Agent, act: Action): Agent
    requires TimerAction(act) && TimerEnabled(c, now, e, n, a, act)
  {
    match act
    case Promote(ok) =>
      if ok then a.(phase := Serving, db := ReadWrite)
      else a.(phase := Idle, db := ReadOnly, wake := None, ack := None)
    case Renew => a.(ack := Some(now))
    case Stamp => a.(expireTS := ExpireStamp(c, now), ack := None)
    case DropAck => a.(ack := None)
    case Check =>
      var delta := a.expireTS - now / 1000;
      if delta <= 0 then a.(phase := Exited, wake := None, ack := None, stopBy := Some(now + c.stop))
      else a.(wake := Some(now + delta * 1000))
  }

  function OperatorAgent(c: Config, now: nat, e: Store, n: NodeId, a: Agent, act: Action): Agent
    requires OperatorAction(act) && OperatorEnabled(c, now, e, n, a, act)
  {
    match act
    case ManualReadOnly(refused) => a.(db := if refused then ReadWrite else ReadOnly)   // refused: rolled back
    case ManualReadWrite => a.(db := ReadWrite)
    case Resign => a.(phase := Resigning(a.phase.SpmServing?), db := ReadOnly)
    case Release(_) => a.(phase := Released(a.phase.single))
    case EndReign =>
      if a.phase.single then a.(phase := SpmLeaving, db := ReadOnly)
      else a.(phase := Idle, db := ReadOnly, wake := None, ack := None)
    case Close(_) =>
      a.(phase := Exited, db := if a.db.Stopped? then Stopped else ReadOnly, wake := None, ack := None)
    case Crash => a.(phase := Exited, wake := None, ack := None, stopBy := Some(now + c.stop))
  }

  function SpmAgent(c: Config, now: nat, e: Store, n: NodeId, a: Agent, act: Action): Agent
    requires SpmAction(act) && SpmEnabled(c, now, e, n, a, act)
  {
    match act
    case SpmBegin =>
      a.(phase := SpmAsking(a.phase.view.leader.Some?, a.phase.view),
         isLeader := a.isLeader || a.phase.view.leader.Some?)
    case SpmCommit =>
      var p := a.phase;
      var ok := if p.resume then Owns(e, n) else e.key.None?;
      a.(phase := SpmAnswered(p.resume, p.view, ok),
         origin := if ok && !p.resume then |e.reigns| + 1 else a.origin,
         forgot := if ok then p.resume else a.forgot)
    case SpmLose => a.(phase := SpmAsking(a.phase.resume, a.phase.view))
    case SpmReceive => if a.phase.ok then a.(phase := SpmPromoting, isLeader := true) else a.(phase := Idle)
    case SpmPromote(ok) => if ok then a.(phase := SpmServing, db := ReadWrite) else a.(phase := SpmLeaving, db := ReadOnly)
    case SpmStop => a.(phase := SpmLeaving, db := ReadOnly)
    case SpmRemove(_) => a.(phase := Idle)
  }

  function LocalAgent(c: Config, now: nat, e: Store, n: NodeId, a: Agent, act: Action): Agent
    requires LocalAction(act) && LocalEnabled(c, now, e, n, a, act)
  {
    match act
    case Admit(persisted, redirected) =>
      var v := a.phase.view;
      (match PreWatch(n, a, v)
       case Reject => a.(phase := Exited, db := if a.db.Stopped? then Stopped else ReadOnly)
       case Accept(t, u, x) =>
         var b := a.(term := t, lastUUID := u, lastTxn := x,
                     origin := if a.origin < v.term then v.term else a.origin,
                     forgot := if persisted then false else a.forgot || TermOf(e, n) == 0);
         if redirected then b.(phase := Watching(v), isLeader := false, follows := v.leader)
         else b.(phase := Idle))
    case WatchEnd => a.(phase := Idle)
    case Stop => a.(db := Stopped, stopBy := None)
    case Clean => a
    case Restart =>
      a.(phase := Idle, db := ReadOnly, isLeader := false, term := 0, lastUUID := None, lastTxn := 0,
         wake := None, ack := None, stopBy := None)
    case Write => a.(log := Append(a.log, n))
    case Replicate(log, origin) => a.(log := log, origin := origin)
  }

  function ActAgent(c: Config, now: nat, e: Store, n: NodeId, a: Agent, act: Action): Agent
    requires ActEnabled(c, now, e, n, a, act)
  {
    if ElectionAction(act) then ElectionAgent(c, now, e, n, a, act)
    else if TimerAction(act) then TimerAgent(c, now, e, n, a, act)
    else if OperatorAction(act) then OperatorAgent(c, now, e, n, a, act)
    else if SpmAction(act) then SpmAgent(c, now, e, n, a, act)
    else LocalAgent(c, now, e, n, a, act)
  }

  function ElectionStore(c: Config, now: nat, e: Store, n: NodeId, a: Agent, act: Action): Store
    requires ElectionAction(act) && ElectionEnabled(c, now, e, n, a, act)
  {
    match act
    case Grant => e.(leases := e.leases[e.nextLease := LeaseEnd(c, now)], nextLease := e.nextLease + 1)
    case Commit =>
      if a.phase.resume then
        if Owns(e, n) then PutLeader(e, n, Some(a.phase.lease), a.term, a) else e
      else
        if e.key.None? then BeginReign(PutLeader(e, n, Some(a.phase.lease), a.term + 1, a), n, a) else e
    case Undo(deleted) => if deleted then DeleteOwn(e, n) else e
    case _ => e
  }

  function TimerStore(c: Config, now: nat, e: Store, n: NodeId, a: Agent, act: Action): Store
    requires TimerAction(act) && TimerEnabled(c, now, e, n, a, act)
  {
    match act
    case Renew => e.(leases := e.leases[a.lease := LeaseEnd(c, now)])
    case _ => e
  }

  function OperatorStore(c: Config, now: nat, e: Store, n: NodeId, a: Agent, act: Action): Store
    requires OperatorAction(act) && OperatorEnabled(c, now, e, n, a, act)
  {
    match act
    case Release(deleted) => if deleted then DeleteOwn(e, n) else e
    case Close(deleted) => if deleted then DeleteOwn(e, n) else e
    case _ => e
  }

  function SpmStore(c: Config, now: nat, e: Store, n: NodeId, a: Agent, act: Action): Store
    requires SpmAction(act) && SpmEnabled(c, now, e, n, a, act)
  {
    match act
    case SpmCommit =>
      if a.phase.resume then
        if Owns(e, n) then PutLeader(e, n, None, a.term, a).(terms := e.terms[n := 0], spm := Some(n)) else e
      else
        if e.key.None? then BeginReign(PutLeader(e, n, None, a.term + 1, a), n, a).(spm := Some(n)) else e
    case SpmRemove(removed) => if removed then e.(spm := None) else e
    case _ => e
  }

  function LocalStore(c: Config, now: nat, e: Store, n: NodeId, a: Agent, act: Action): Store
    requires LocalAction(act) && LocalEnabled(c, now, e, n, a, act)
  {
    match act
    case Admit(persisted, _) =>
      (match PreWatch(n, a, a.phase.view)
       case Reject => e
       case Accept(t, _, _) => if persisted then e.(terms := e.terms[n := t]) else e)
    case Clean => DeleteOwn(e, n)
    case Write =>
      if |e.reigns| > 0 && e.reigns[|e.reigns| - 1].leader == n then
        var r := e.reigns[|e.reigns| - 1];
        e.(reigns := e.reigns[|e.reigns| - 1 := r.(log := Append(a.log, n))])
      else e
    case _ => e
  }

  function ActStore(c: Config, now: nat, e: Store, n: NodeId, a: Agent, act: Action): Store
    requires ActEnabled(c, now, e, n, a, act)
  {
    if ElectionAction(act) then ElectionStore(c, now, e, n, a, act)
    else if TimerAction(act) then TimerStore(c, now, e, n, a, act)
    else if OperatorAction(act) then OperatorStore(c, now, e, n, a, act)
    else if SpmAction(act) then SpmStore(c, now, e, n, a, act)
    else LocalStore(c, now, e, n, a, act)
  }

  // ---------- the whole system ----------

  datatype State = State(now: nat, store: Store, agents: map<NodeId, Agent>)

  datatype Step = Tick(d: nat) | Expire(lease: nat) | Act(node: NodeId, act: Action)

  /** No timer and no shutdown is overdue at time `t`. */
  predicate OnTime(c: Config, a: Agent, t: nat)
  {
    && (a.wake.Some? ==> t <= a.wake.value + c.jitter)
    && (a.db.ReadWrite? && a.phase.Exited? && a.stopBy.Some? ==> t <= a.stopBy.value)
  }

  predicate ReplicaOf(s: State, n: NodeId, act: Action)
  {
    act.Replicate? && n in s.agents && s.agents[n].follows.Some? ==>
      var m := s.agents[n].follows.value;
      m in s.agents && act.log <= s.agents[m].log && act.origin == s.agents[m].origin
  }

  predicate Enabled(c: Config, s: State, step: Step)
  {
    match step
    case Tick(d) => forall n :: n in s.agents ==> OnTime(c, s.agents[n], s.now + d)
    case Expire(l) => l in s.store.leases && s.store.leases[l] <= s.now
    case Act(n, act) =>
      n in s.agents && ActEnabled(c, s.now, s.store, n, s.agents[n], act) && ReplicaOf(s, n, act)
  }

  function ExpireLease(e: Store, l: nat): Store
  {
    var f := e.(leases := e.leases - {l});
    if e.key.Some? && e.key.value.lease == Some(l) then DropKey(f) else f
  }

  function Apply(c: Config, s: State, step: Step): State
    requires Enabled(c, s, step)
  {
    match step
    case Tick(d) => s.(now := s.now + d)
    case Expire(l) => s.(store := ExpireLease(s.store, l))
    case Act(n, act) =>
      var a := s.agents[n];
      State(s.now, ActStore(c, s.now, s.store, n, a, act),
            s.agents[n := ActAgent(c, s.now, s.store, n, a, act)])
  }

  const FRESH_AGENT := Agent(Idle, ReadOnly, false, 0, None, 0, 0, 0, None, None, None, None, [], 0, false)

  const EMPTY_STORE := Store(None, map[], 0, 0, None, None, 0, map[], None, 0, [], [])

  function Init(c: Config): State
  {
    State(0, EMPTY_STORE, map n | n in c.nodes :: FRESH_AGENT)
  }

  /** Every step of the run is enabled where it is taken. */
  predicate Legal(c: Config, s: State, steps: seq<Step>)
    decreases |steps|
  {
    steps == [] || (Enabled(c, s, steps[0]) && Legal(c, Apply(c, s, steps[0]), steps[1..]))
  }

  function Exec(c: Config, s: State, steps: seq<Step>): State
    requires Legal(c, s, steps)
    decreases |steps|
  {
    if steps == [] then s else Exec(c, Apply(c, s, steps[0]), steps[1..])
  }

  /** Every step of the run obeys a discipline, in the state it is taken in. */
  ghost predicate RunsUnder(c: Config, s: State, steps: seq<Step>, discipline: (State, Step) -> bool)
    requires Legal(c, s, steps)
    decreases |steps|
  {
    steps == [] || (discipline(s, steps[0]) && RunsUnder(c, Apply(c, s, steps[0]), steps[1..], discipline))
  }
}
