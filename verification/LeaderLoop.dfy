/**
 The agent's server object and its leader loop: whether the database takes writes, and
 what the server takes itself to be.

 Everything outside the process answers through parameters: what etcd returns, and
 how each call to the database ends.  One `Outside` value holds the answers one
 round of the loop may ask for.
 */
module LeaderLoop {

  import opened Prelude
  import opened Gtid
  import opened Cluster
  import opened Election

  // ---------- the database behind its service manager ----------

  /** How a call ends; a failed call may still have changed the database. */
  datatype Reply = Done | Failed(changed: bool)

  predicate Effective(r: Reply)
  {
    r.Done? || r.changed
  }

  function Opens(r: Reply): nat
  {
    if Effective(r) then 1 else 0
  }

  /** `openings` counts how often the database was opened. */
  class ServiceManager {
    var mode: DbMode
    var connected: bool
    ghost var openings: nat

    constructor (mode: DbMode)
      ensures this.mode == mode && connected && openings == 0
    {
      this.mode, connected, openings := mode, true, 0;
    }

    method SetReadOnly(reply: Reply) returns (ok: bool)
      modifies `mode
      ensures ok == reply.Done?
      ensures mode == if Effective(reply) then ReadOnly else old(mode)
    {
      if Effective(reply) {
        mode := ReadOnly;
      }
      ok := reply.Done?;
    }

    method SetReadWrite(reply: Reply) returns (ok: bool)
      modifies `mode, `openings
      ensures ok == reply.Done?
      ensures mode == if Effective(reply) then ReadWrite else old(mode)
      ensures openings == old(openings) + Opens(reply)
    {
      if Effective(reply) {
        mode, openings := ReadWrite, openings + 1;
      }
      ok := reply.Done?;
    }

    /**
     The operator's read-only request: refused while schema changes run, and taken
     back if one has started meanwhile or cannot be ruled out.  `before` and
     `after` are the counts of running schema changes, absent when the query fails.
     The way back does not ask what the mode was: a refused request can open a
     database that was closed.
     */
    method SetReadOnlyManually(before: Option<nat>, close: Reply, after: Option<nat>, undo: Reply) returns (ok: bool)
      modifies `mode, `openings
      ensures ok <==> before == Some(0) && close.Done? && after == Some(0)
      ensures ok ==> mode == ReadOnly
      ensures before != Some(0) ==> mode == old(mode)
      ensures before == Some(0) && !ok && Effective(undo) ==> mode == ReadWrite
      ensures before == Some(0) && !ok && !Effective(undo) ==> mode == if Effective(close) then ReadOnly else old(mode)
      ensures openings == old(openings) + if before == Some(0) && !ok then Opens(undo) else 0
    {
      if before != Some(0) {
        return false;
      }
      ok := SetReadOnly(close);
      if !ok || after != Some(0) {
        var undone := SetReadWrite(undo);
        ok := false;
      }
    }
  }

  // ---------- requests by hand ----------

  /** A request to the agent's endpoints, and how the calls it makes end. */
  datatype HandRequest =
    | AskReadWrite(reply: Reply)
    | AskReadOnly(before: Option<nat>, close: Reply, after: Option<nat>, undo: Reply)

  /** An accepted read-only request is granted. */
  predicate Granted(h: HandRequest)
  {
    h.AskReadOnly? && h.before == Some(0) && h.close.Done? && h.after == Some(0)
  }

  /** An accepted request opens the database: a read-write request, or a read-only request that is rolled back. */
  predicate OpensByHand(h: HandRequest)
  {
    match h
    case AskReadWrite(reply) => Effective(reply)
    case AskReadOnly(before, _, _, undo) => before == Some(0) && !Granted(h) && Effective(undo)
  }

  /** An accepted request closes the database. */
  predicate ClosesByHand(h: HandRequest)
  {
    h.AskReadOnly? && h.before == Some(0) && Effective(h.close) && !OpensByHand(h)
  }

  function AfterHand(mode: DbMode, accepts: bool, h: HandRequest): DbMode
  {
    if accepts && OpensByHand(h) then ReadWrite
    else if accepts && ClosesByHand(h) then ReadOnly
    else mode
  }

  // ---------- one round of answers ----------

  datatype TxnReply = TxnError | TxnLost | TxnWon

  /**
   - `read`, `myTerm`: the leader and the node's stored term as read from etcd, absent on an error, which may
     be one that cannot be retried (`invalid`);
   - `log`, `follows`: the database, as far as its replication position is read off it; `unreadable` when that fails;
   - `logs`: the election logs found by preCampaign;
   - `txn`: the campaign or resume transaction (single point mode retries errors);
   - `open`, `undo`: opening the database, and closing it because that failed;
   - `close`: closing it at the end of a reign or at a shutdown;
   - `backstop`: the closing call of a keep-alive loop that was told to stop, if it was made before the next round;
   - `closing`: the reign ends because the whole server is closing;
   - `redirected`: the database follows its new master;
   - `hand`: a request by hand that lands after the last call the round itself makes to the database.
   */
  datatype Outside = Outside(read: Option<View>, myTerm: nat, invalid: bool,
                             log: seq<Txn>, follows: Option<NodeId>, unreadable: bool,
                             logs: map<NodeId, LogForElection>, txn: TxnReply,
                             open: Reply, undo: Reply, close: Reply, backstop: Option<Reply>,
                             closing: bool, redirected: bool, hand: Option<HandRequest>)

  // ---------- rounds that leave the database open ----------

  predicate Resumes(id: NodeId, o: Outside)
  {
    o.read.Some? && o.read.value.leader == Some(id) && o.read.value.spm != Some(id)
  }

  predicate ResumesAlone(id: NodeId, o: Outside)
  {
    o.read.Some? && o.read.value.leader == Some(id) && o.read.value.spm == Some(id)
  }

  ghost predicate CampaignsAlone(id: NodeId, onlyFollow: bool, o: Outside)
  {
    && o.read.Some? && o.read.value.leader.None? && o.read.value.term != 0
    && !onlyFollow && Alone(o.logs, id)
  }

  /** The round won or kept the leader key. */
  predicate Leads(id: NodeId, onlyFollow: bool, o: Outside)
  {
    o.txn.TxnWon? && o.read.Some? && (o.read.value.leader == Some(id) || (o.read.value.leader.None? && !onlyFollow))
  }

  // ---------- what the server takes itself to be ----------

  /** `preWatch` asks the database for its position. */
  predicate NeedsPosition(a: Agent, v: View)
  {
    a.term != 0 && Pred64(v.term) <= a.term && a.term != v.term && a.lastUUID.None?
  }

  predicate Admitted(n: NodeId, a: Agent, v: View, unreadable: bool)
  {
    PreWatch(n, a, v).Accept? && !(unreadable && NeedsPosition(a, v))
  }

  function Follows(n: NodeId, a: Agent, v: View, redirected: bool): Agent
    requires PreWatch(n, a, v).Accept?
  {
    var r := PreWatch(n, a, v);
    a.(term := r.term, lastUUID := r.lastUUID, lastTxn := r.lastTxn, isLeader := a.isLeader && !redirected)
  }

  /** The store is unreadable for good, or the node may not follow the leader there is. */
  predicate Refused(id: NodeId, a: Agent, o: Outside)
  {
    match o.read
    case None => o.invalid
    case Some(v) =>
      v.leader.Some? && v.leader != Some(id) && !Admitted(id, Reads(id, a, v, o.myTerm), v, o.unreadable)
  }

  /**
   When the database cannot tell its position, a node that finds another leader is refused
   unless it is new, at the leader's term, or one behind it with a cached position that is
   not beyond the leader's.
   */
  lemma UnreadableRefused(id: NodeId, a: Agent, o: Outside)
    requires o.unreadable && o.read.Some? && o.read.value.leader.Some? && o.read.value.leader != Some(id)
    requires 1 <= o.read.value.term && o.myTerm <= o.read.value.term
    ensures var v := o.read.value;
            !Refused(id, a, o) <==>
            o.myTerm == 0 || o.myTerm == v.term || (o.myTerm == v.term - 1 && a.lastUUID.Some? && a.lastTxn <= v.lastTxn)
  {
  }

  /** The server after a round; one that is refused is closed as it is.  A transaction that is won makes it the leader. */
  ghost function AfterRound(id: NodeId, onlyFollow: bool, a: Agent, o: Outside): Agent
  {
    if o.read.None? || Refused(id, a, o) then a
    else
      var v := o.read.value;
      var b := Reads(id, a, v, o.myTerm);
      if v.leader == Some(id) then b.(isLeader := b.isLeader || v.spm == Some(id) || o.txn.TxnWon?)
      else if v.leader.Some? then Follows(id, b, v, o.redirected)
      else if onlyFollow then b
      else
        var u := if v.term != 0 then Uploaded(id, b, v, o.unreadable) else b;
        if !o.txn.TxnWon? then u
        else if CampaignsAlone(id, onlyFollow, o) then u.(isLeader := true)
        else u.(term := u.term + 1, isLeader := true)
  }

  /** Opening the database failed half way, and closing it again failed altogether. */
  predicate HalfOpen(o: Outside)
  {
    o.txn.TxnWon? && o.open == Failed(true) && o.undo == Failed(false)
  }

  /**
   Two places ignore the failure to close: the leased resume, where the keep-alive
   loop will try once more, and single point mode, where nothing does.
   */
  ghost predicate Leaks(id: NodeId, onlyFollow: bool, o: Outside)
  {
    && HalfOpen(o)
    && ((Resumes(id, o) && o.backstop.None?) || ResumesAlone(id, o) || CampaignsAlone(id, onlyFollow, o))
  }

  /** The round leaves the database open: by a leak, or by hand; `accepts` tells whether requests by hand are accepted. */
  ghost predicate LeftOpen(id: NodeId, onlyFollow: bool, o: Outside, accepts: bool)
  {
    if accepts && o.hand.Some? && (OpensByHand(o.hand.value) || ClosesByHand(o.hand.value)) then OpensByHand(o.hand.value)
    else Leaks(id, onlyFollow, o)
  }

  /** The database is seen as the round sees it. */
  function Seen(a: Agent, o: Outside): Agent
  {
    a.(log := o.log, follows := o.follows)
  }

  /** The server after a number of rounds. */
  ghost function AfterRounds(id: NodeId, onlyFollow: bool, a: Agent, rounds: seq<Outside>): Agent
  {
    if rounds == [] then a
    else var o := rounds[|rounds| - 1];
         AfterRound(id, onlyFollow, Seen(AfterRounds(id, onlyFollow, a, rounds[..|rounds| - 1]), o), o)
  }

  class Server {
    const id: NodeId
    const onlyFollow: bool
    const service: ServiceManager
    var term: nat
    var lastUUID: Option<NodeId>
    var lastTxn: nat
    var isLeader: bool
    var isClosed: bool
    var cancelled: bool
    var exited: bool

    constructor (id: NodeId, onlyFollow: bool, service: ServiceManager)
      ensures this.id == id && this.onlyFollow == onlyFollow && this.service == service
      ensures term == 0 && lastUUID.None? && lastTxn == 0 && !isLeader && !isClosed && !cancelled && !exited
    {
      this.id, this.onlyFollow, this.service := id, onlyFollow, service;
      term, lastUUID, lastTxn, isLeader := 0, None, 0, false;
      isClosed, cancelled, exited := false, false, false;
    }

    /** The server as an agent of the cluster. */
    ghost function Mind(): Agent
      reads this
    {
      FRESH_AGENT.(term := term, lastUUID := lastUUID, lastTxn := lastTxn, isLeader := isLeader)
    }

    /** The server with its database. */
    ghost function Self(o: Outside): Agent
      reads this
    {
      Seen(Mind(), o)
    }

    /** Requests by hand are accepted: the process is there, with its connection, and takes itself for the leader. */
    predicate Accepts()
      reads this, service
    {
      !exited && service.connected && isLeader
    }

    /** The server is running, with its connection and its context. */
    predicate Running()
      reads this, service
    {
      !isClosed && !exited && !cancelled && service.connected
    }

    method SetServiceReadonlyOrShutdown(reply: Reply)
      modifies `exited, service`mode
      ensures exited == (old(exited) || reply.Failed?)
      ensures service.mode == if Effective(reply) then ReadOnly else old(service.mode)
    {
      var ok := service.SetReadOnly(reply);
      if !ok {
        exited := true;
      }
    }

    /**
     Only the first call does anything: it closes the database or exits, then drops the
     connection and cancels the context.
     */
    method Close(reply: Reply)
      modifies `isClosed, `cancelled, `exited, service`mode, service`connected
      ensures isClosed
      ensures exited == (old(exited) || (!old(isClosed) && reply.Failed?))
      ensures service.mode == if !old(isClosed) && Effective(reply) then ReadOnly else old(service.mode)
      ensures var through := !old(isClosed) && !exited;
              && cancelled == (old(cancelled) || through) && service.connected == (old(service.connected) && !through)
    {
      if !isClosed {
        isClosed := true;
        SetServiceReadonlyOrShutdown(reply);
        if !exited {
          service.connected := false;
          cancelled := true;
        }
      }
    }

    /**
     A leased reign, up to the barrier: the keep-alive loop's last act is to close
     the database, unless the server is closing, which has closed it already.
     */
    method Reign(o: Outside)
      requires Running()
      modifies `isClosed, `cancelled, `exited, service`mode, service`connected
      ensures isClosed == o.closing && exited == o.close.Failed?
      ensures !exited ==> if isClosed then !service.connected else Running()
      ensures !exited ==> service.mode == ReadOnly
    {
      if o.closing {
        Close(o.close);
      }
      if !isClosed {
        SetServiceReadonlyOrShutdown(o.close);
      }
    }

    /** Single point mode: no lease, open the database, wait for company, close it again. */
    method BecomeSinglePointMaster(resume: bool, o: Outside)
      modifies `isLeader, service`mode, service`openings
      ensures HalfOpen(o) ==> service.mode == ReadWrite
      ensures !HalfOpen(o) && old(service.mode) == ReadOnly ==> service.mode == ReadOnly
      ensures service.openings == old(service.openings) + if o.txn.TxnWon? then Opens(o.open) else 0
      ensures isLeader == (old(isLeader) || resume || o.txn.TxnWon?)
    {
      if resume {
        isLeader := true;
      }
      if !o.txn.TxnWon? {
        return;
      }
      isLeader := true;
      var ok := service.SetReadWrite(o.open);
      if !ok {
        ok := service.SetReadOnly(o.undo);
        return;
      }
      // company has come: read-only is retried until it works
      ok := service.SetReadOnly(Done);
    }

    /** The leader is this node, under a lease or under none that is left. */
    method ResumeLeader(o: Outside)
      requires Running()
      modifies `isLeader, `isClosed, `cancelled, `exited, service
      ensures !exited ==> if isClosed then !service.connected else Running()
      ensures HalfOpen(o) && o.backstop.None? ==> Running() && service.mode == ReadWrite
      ensures !(HalfOpen(o) && o.backstop.None?) && !exited && old(service.mode) == ReadOnly ==> service.mode == ReadOnly
      ensures service.openings == old(service.openings) + if o.txn.TxnWon? then Opens(o.open) else 0
      ensures isLeader == (old(isLeader) || o.txn.TxnWon?)
    {
      if !o.txn.TxnWon? {
        return;
      }
      isLeader := true;
      var ok := service.SetReadWrite(o.open);
      if ok {
        Reign(o);
        return;
      }
      ok := service.SetReadOnly(o.undo);
      if o.backstop.Some? {
        SetServiceReadonlyOrShutdown(o.backstop.value);
      }
    }

    /** May the node follow the leader it has read? */
    method PreWatch(v: View, o: Outside) returns (ok: bool)
      modifies `term, `lastUUID, `lastTxn
      ensures ok <==> Admitted(id, old(Self(o)), v, o.unreadable)
      ensures ok ==> Self(o) == Follows(id, old(Self(o)), v, false)
    {
      if term == 0 {
        term := v.term;
        return true;
      }
      if term < Pred64(v.term) {
        return false;
      }
      if term == v.term {
        return true;
      }
      if lastUUID.None? {
        if o.unreadable {
          return false;
        }
        var position := if IsPreviousMaster(id, term, v) then LoadMaster(id, o.log) else LoadSlave(o.follows, o.log);
        if position.None? {
          return false;
        }
        lastUUID, lastTxn := Some(position.value.uuid), position.value.txn;
      }
      if v.lastTxn < lastTxn {
        return false;
      }
      if term == Pred64(v.term) {
        term := v.term;
      }
      return true;
    }

    /** There is another leader: check against it, and redirect the database to it. */
    method Follow(v: View, o: Outside) returns (ok: bool)
      modifies `term, `lastUUID, `lastTxn, `isLeader
      ensures ok <==> Admitted(id, old(Self(o)), v, o.unreadable)
      ensures ok ==> Self(o) == Follows(id, old(Self(o)), v, o.redirected)
    {
      ok := PreWatch(v, o);
      if ok && o.redirected {
        isLeader := false;
      }
    }

    /** Uploading the election log caches the position it is made from. */
    method UploadLogForElection(v: View, o: Outside)
      modifies `lastUUID, `lastTxn
      ensures Self(o) == Uploaded(id, old(Self(o)), v, o.unreadable)
    {
      if IsPreviousMaster(id, term, v) {
        var position := LoadMaster(id, o.log);
        if !o.unreadable && position.Some? {
          lastUUID, lastTxn := Some(position.value.uuid), position.value.txn;
        }
      } else {
        var position := LoadSlave(o.follows, o.log);
        lastUUID, lastTxn := None, 0;
        if !o.unreadable && position.Some? {
          lastUUID, lastTxn := Some(position.value.uuid), position.value.txn;
        }
      }
    }

    /** There is no leader and this node may become one. */
    method Campaign(v: View, o: Outside)
      requires Running() && !onlyFollow && o.read == Some(v) && v.leader.None?
      modifies `term, `lastUUID, `lastTxn, `isLeader, `isClosed, `cancelled, `exited, service
      ensures !exited ==> if isClosed then !service.connected else Running()
      ensures Leaks(id, onlyFollow, o) ==> Running() && service.mode == ReadWrite
      ensures !Leaks(id, onlyFollow, o) && !exited && old(service.mode) == ReadOnly ==> service.mode == ReadOnly
      ensures service.openings == old(service.openings) + if o.txn.TxnWon? then Opens(o.open) else 0
      ensures var u := if v.term != 0 then Uploaded(id, old(Self(o)), v, o.unreadable) else old(Self(o));
              Self(o) == if !o.txn.TxnWon? then u
                         else if CampaignsAlone(id, onlyFollow, o) then u.(isLeader := true)
                         else u.(term := u.term + 1, isLeader := true)
    {
      var isSinglePoint := false;
      if v.term != 0 {
        UploadLogForElection(v, o);
        var isLatest: bool;
        isLatest, isSinglePoint := IsLatestLog(id, o.logs);
      }
      if isSinglePoint {
        BecomeSinglePointMaster(false, o);
        return;
      }
      if !o.txn.TxnWon? {
        return;
      }
      term, isLeader := term + 1, true;
      var ok := service.SetReadWrite(o.open);
      if ok {
        Reign(o);
      } else {
        SetServiceReadonlyOrShutdown(o.undo);
      }
    }

    /** `getLeaderAndMyTerm`, taken over. */
    method Read(v: View, o: Outside)
      modifies `term, `lastUUID, `lastTxn
      ensures Self(o) == Reads(id, old(Self(o)), v, o.myTerm)
    {
      term := o.myTerm;
      if v.leader == Some(id) {
        term, lastUUID, lastTxn := v.term, v.lastUUID, v.lastTxn;
      }
    }

    /** The endpoints for requests by hand. */
    method ByHand(h: HandRequest)
      modifies service`mode, service`openings
      ensures service.mode == AfterHand(old(service.mode), Accepts(), h)
      ensures service.openings == old(service.openings) + if Accepts() && OpensByHand(h) then 1 else 0
    {
      if !Accepts() {
        return;
      }
      match h
      case AskReadWrite(reply) =>
        var ok := service.SetReadWrite(reply);
      case AskReadOnly(before, close, after, undo) =>
        var ok := service.SetReadOnlyManually(before, close, after, undo);
    }

    /**
     One round of the leader loop and what is asked by hand before the next; `again` when
     its top is reached once more, `accepts` when requests by hand are accepted then.
     */
    method Round(o: Outside) returns (again: bool, accepts: bool)
      requires Running()
      modifies this, service
      ensures !isClosed && !exited ==> Running()
      ensures if again then !exited else isClosed || exited
      ensures Refused(id, old(Self(o)), o) ==> isClosed && (again ==> o.read.None?)
      ensures o.read.None? ==> isClosed == o.invalid
      ensures again ==> Self(o) == AfterRound(id, onlyFollow, old(Self(o)), o)
      ensures again ==> accepts == (isLeader && !isClosed)
      ensures again && LeftOpen(id, onlyFollow, o, accepts) ==> service.mode == ReadWrite
      ensures again && !LeftOpen(id, onlyFollow, o, accepts) && old(service.mode) == ReadOnly ==> service.mode == ReadOnly
      ensures LeftOpen(id, onlyFollow, o, accepts) ==> again
    {
      again := OwnRound(o);
      accepts := Accepts();
      if o.hand.Some? {
        ByHand(o.hand.value);
      }
    }

    /**
     The round itself.  The database is opened once, and only when this node has won or
     kept the leader key.
     */
    method OwnRound(o: Outside) returns (again: bool)
      requires Running()
      modifies this, service
      ensures !exited ==> if isClosed then !service.connected else Running()
      ensures Leaks(id, onlyFollow, o) ==> again && !isClosed && service.mode == ReadWrite
      ensures if again then !exited else isClosed || exited
      ensures service.openings == old(service.openings) + if Leads(id, onlyFollow, o) then Opens(o.open) else 0
      ensures Refused(id, old(Self(o)), o) ==> isClosed && (again ==> o.read.None?)
      ensures o.read.None? ==> isClosed == o.invalid
      ensures again ==> Self(o) == AfterRound(id, onlyFollow, old(Self(o)), o)
      ensures again && !Leaks(id, onlyFollow, o) && old(service.mode) == ReadOnly ==> service.mode == ReadOnly
    {
      if o.read.None? {
        if o.invalid {
          Close(o.close);
        }
        return !exited;
      }
      var v := o.read.value;
      Read(v, o);
      if v.leader == Some(id) {
        if v.spm == Some(id) {
          BecomeSinglePointMaster(true, o);
        } else {
          ResumeLeader(o);
        }
      } else if v.leader.Some? {
        var ok := Follow(v, o);
        if !ok {
          Close(o.close);
          return false;
        }
      } else if !onlyFollow {
        Campaign(v, o);
      }
      again := !exited;
    }

    /**
     The loop over any sequence of rounds; `tops` holds the database's mode each time the
     top is reached, and `accepts` whether requests by hand were accepted before it.  What
     the source asks for there, a read-only database, holds at every top if and only if no
     round that ran left it open.  A closed server has no context to read the leader with,
     so its loop returns.
     */
    method LeaderLoop(rounds: seq<Outside>) returns (tops: seq<DbMode>, accepts: seq<bool>)
      requires Running() && service.mode == ReadOnly
      modifies this, service
      ensures 1 <= |tops| <= |rounds| + 1 && |accepts| == |tops| - 1
      ensures (forall i :: 0 <= i < |tops| ==> tops[i] == ReadOnly) <==>
              (forall i :: 0 <= i < |accepts| ==> !LeftOpen(id, onlyFollow, rounds[i], accepts[i]))
      ensures Accepted(id, onlyFollow, old(Mind()), rounds, accepts, if isClosed then |accepts| - 1 else |accepts|)
      ensures |tops| <= |rounds| ==> isClosed || exited
    {
      tops, accepts := [service.mode], [];
      ghost var start := Mind();
      while |accepts| < |rounds| && !isClosed
        invariant !exited && (!isClosed ==> Running()) && tops != [] && tops[|tops| - 1] == service.mode
        invariant Reached(id, onlyFollow, start, rounds, tops, accepts, Mind(), isClosed)
        decreases |rounds| - |accepts|
      {
        ghost var before := Mind();
        var again, accepted := Round(rounds[|accepts|]);
        if !again {
          TopsExact(id, onlyFollow, rounds, tops, accepts);
          return;
        }
        RoundsNext(id, onlyFollow, start, rounds, |accepts|, before, Mind());
        ReachedNext(id, onlyFollow, start, rounds, tops, accepts, before, service.mode, accepted, Mind(), isClosed);
        tops, accepts := tops + [service.mode], accepts + [accepted];
      }
      TopsExact(id, onlyFollow, rounds, tops, accepts);
    }
  }

  /** What the loop has recorded when it is at its top once more, with the server at `mind`. */
  ghost predicate Reached(id: NodeId, onlyFollow: bool, a: Agent, rounds: seq<Outside>,
                          tops: seq<DbMode>, accepts: seq<bool>, mind: Agent, closed: bool)
  {
    && |accepts| <= |rounds| && TopsFollow(id, onlyFollow, rounds, tops, accepts)
    && SameMind(mind, AfterRounds(id, onlyFollow, a, rounds[..|accepts|]))
    && Accepted(id, onlyFollow, a, rounds, accepts, if closed then |accepts| - 1 else |accepts|)
  }

  lemma ReachedNext(id: NodeId, onlyFollow: bool, a: Agent, rounds: seq<Outside>, tops: seq<DbMode>, accepts: seq<bool>,
                    before: Agent, mode: DbMode, accepted: bool, mind: Agent, closed: bool)
    requires |accepts| < |rounds| && Reached(id, onlyFollow, a, rounds, tops, accepts, before, false)
    requires SameMind(mind, AfterRounds(id, onlyFollow, a, rounds[..|accepts| + 1]))
    requires TopFollows(tops[|accepts|], mode, LeftOpen(id, onlyFollow, rounds[|accepts|], accepted))
    requires !closed ==> accepted == mind.isLeader
    ensures Reached(id, onlyFollow, a, rounds, tops + [mode], accepts + [accepted], mind, closed)
  {
    TopsNext(id, onlyFollow, rounds, tops, accepts, mode, accepted);
    AcceptedNext(id, onlyFollow, a, rounds, accepts, accepted);
  }

  /** The first `n` entries say whether the server took itself for the leader after that round. */
  ghost predicate Accepted(id: NodeId, onlyFollow: bool, a: Agent, rounds: seq<Outside>, accepts: seq<bool>, n: int)
  {
    forall i :: 0 <= i < n && i < |accepts| && i < |rounds| ==>
      accepts[i] == AfterRounds(id, onlyFollow, a, rounds[..i + 1]).isLeader
  }

  lemma AcceptedNext(id: NodeId, onlyFollow: bool, a: Agent, rounds: seq<Outside>, accepts: seq<bool>, accepted: bool)
    requires |accepts| < |rounds| && Accepted(id, onlyFollow, a, rounds, accepts, |accepts|)
    ensures Accepted(id, onlyFollow, a, rounds, accepts + [accepted], |accepts|)
    ensures accepted == AfterRounds(id, onlyFollow, a, rounds[..|accepts| + 1]).isLeader ==>
              Accepted(id, onlyFollow, a, rounds, accepts + [accepted], |accepts| + 1)
  {
  }

  /** Each top follows from the one before: writable when the round left the database open, read-only when it was and did not. */
  ghost predicate TopFollows(top: DbMode, next: DbMode, left: bool)
  {
    if left then next == ReadWrite else top == ReadOnly ==> next == ReadOnly
  }

  ghost predicate TopsFollow(id: NodeId, onlyFollow: bool, rounds: seq<Outside>, tops: seq<DbMode>, accepts: seq<bool>)
  {
    && |tops| == |accepts| + 1 <= |rounds| + 1 && tops[0] == ReadOnly
    && forall i :: 0 <= i < |accepts| ==>
         TopFollows(tops[i], tops[i + 1], LeftOpen(id, onlyFollow, rounds[i], accepts[i]))
  }

  lemma TopsNext(id: NodeId, onlyFollow: bool, rounds: seq<Outside>, tops: seq<DbMode>, accepts: seq<bool>,
                 next: DbMode, accepted: bool)
    requires TopsFollow(id, onlyFollow, rounds, tops, accepts) && |accepts| < |rounds|
    requires TopFollows(tops[|accepts|], next, LeftOpen(id, onlyFollow, rounds[|accepts|], accepted))
    ensures TopsFollow(id, onlyFollow, rounds, tops + [next], accepts + [accepted])
  {
    var more, also := tops + [next], accepts + [accepted];
    forall i | 0 <= i < |also| ensures TopFollows(more[i], more[i + 1], LeftOpen(id, onlyFollow, rounds[i], also[i])) {
      if i < |accepts| {
        assert TopFollows(tops[i], tops[i + 1], LeftOpen(id, onlyFollow, rounds[i], accepts[i]));
      }
    }
  }

  lemma TopsExact(id: NodeId, onlyFollow: bool, rounds: seq<Outside>, tops: seq<DbMode>, accepts: seq<bool>)
    requires TopsFollow(id, onlyFollow, rounds, tops, accepts)
    ensures (forall i :: 0 <= i < |tops| ==> tops[i] == ReadOnly) <==>
            (forall i :: 0 <= i < |accepts| ==> !LeftOpen(id, onlyFollow, rounds[i], accepts[i]))
  {
    if forall i :: 0 <= i < |accepts| ==> !LeftOpen(id, onlyFollow, rounds[i], accepts[i]) {
      var k := 0;
      while k < |accepts|
        invariant 0 <= k <= |accepts| && forall i :: 0 <= i <= k ==> tops[i] == ReadOnly
      {
        assert TopFollows(tops[k], tops[k + 1], LeftOpen(id, onlyFollow, rounds[k], accepts[k]));
        k := k + 1;
      }
    } else {
      var i :| 0 <= i < |accepts| && LeftOpen(id, onlyFollow, rounds[i], accepts[i]);
      assert TopFollows(tops[i], tops[i + 1], true);
    }
  }

  /** Equal up to the database. */
  predicate SameMind(a: Agent, b: Agent)
  {
    a == b.(log := a.log, follows := a.follows)
  }

  lemma RoundsNext(id: NodeId, onlyFollow: bool, a: Agent, rounds: seq<Outside>, k: nat, before: Agent, mind: Agent)
    requires k < |rounds| && SameMind(before, AfterRounds(id, onlyFollow, a, rounds[..k]))
    requires Seen(mind, rounds[k]) == AfterRound(id, onlyFollow, Seen(before, rounds[k]), rounds[k])
    ensures SameMind(mind, AfterRounds(id, onlyFollow, a, rounds[..k + 1]))
  {
    assert rounds[..k + 1][..k] == rounds[..k];
  }
}
