/**
 A round of the server's loop is a path of the cluster's actions: whatever the others do to
 the store between them, the server ends as the agent does.
 */
module Refinement {

  import opened Prelude
  import opened Cluster
  import opened LeaderLoop

  /** When and on what store an action is taken. */
  datatype Moment = Moment(now: nat, store: Store)

  predicate Takes(c: Config, m: Moment, n: NodeId, a: Agent, act: Action, b: Agent)
  {
    ActEnabled(c, m.now, m.store, n, a, act) && b == ActAgent(c, m.now, m.store, n, a, act)
  }

  /** What the server object keeps of an agent. */
  predicate SameServer(a: Agent, b: Agent)
  {
    a.term == b.term && a.lastUUID == b.lastUUID && a.lastTxn == b.lastTxn && a.isLeader == b.isLeader
  }

  /** The round reads the store at `m`, and the agent has the database the round asks. */
  predicate Begins(o: Outside, m: Moment, n: NodeId, a: Agent)
  {
    && a.phase.Idle? && a.log == o.log && a.follows == o.follows
    && o.read == Some(Snapshot(m.store)) && o.myTerm == TermOf(m.store, n)
  }

  // ---------- stretches of a path ----------

  lemma ReadRefines(c: Config, n: NodeId, o: Outside, a: Agent, m: Moment, b: Agent)
    requires Begins(o, m, n, a) && Takes(c, m, n, a, Read, b)
    ensures b == Reads(n, a, o.read.value, o.myTerm).(phase := Decided(o.read.value, false))
  {
  }

  lemma UploadRefines(c: Config, n: NodeId, a: Agent, m: Moment, failed: bool, b: Agent)
    requires a.phase.Decided? && Takes(c, m, n, a, Upload(failed), b)
    ensures b == Uploaded(n, a, a.phase.view, failed).(phase := Decided(a.phase.view, true))
  {
  }

  /** Uploading does not look at where the loop stands. */
  lemma UploadedAnywhere(n: NodeId, a: Agent, p: Phase, v: View, failed: bool)
    ensures SameServer(Uploaded(n, a.(phase := p), v, failed), Uploaded(n, a, v, failed))
  {
  }

  /** From the decision to the reply, under a lease. */
  lemma LeasedRefines(c: Config, n: NodeId, a: Agent, m: seq<Moment>, b: seq<Agent>)
    requires |m| == 3 && |b| == 3 && a.phase.Decided?
    requires Takes(c, m[0], n, a, Grant, b[0]) && Takes(c, m[1], n, b[0], Commit, b[1]) && Takes(c, m[2], n, b[1], Receive, b[2])
    ensures var resume := a.phase.view.leader.Some?;
            var won := if resume then Owns(m[1].store, n) else m[1].store.key.None?;
            && SameServer(b[2], if won then a.(term := if resume then a.term else a.term + 1, isLeader := true) else a)
            && b[2].db == a.db && (if won then b[2].phase.Promoting? else b[2].phase.Idle?)
  {
  }

  /** From the decision to the reply, without one. */
  lemma LeaseFreeRefines(c: Config, n: NodeId, a: Agent, m: seq<Moment>, b: seq<Agent>)
    requires |m| == 3 && |b| == 3 && a.phase.Decided?
    requires Takes(c, m[0], n, a, SpmBegin, b[0])
    requires Takes(c, m[1], n, b[0], SpmCommit, b[1]) && Takes(c, m[2], n, b[1], SpmReceive, b[2])
    ensures var resume := a.phase.view.leader.Some?;
            var won := if resume then Owns(m[1].store, n) else m[1].store.key.None?;
            && SameServer(b[2], a.(isLeader := a.isLeader || resume || won))
            && b[2].db == a.db && (if won then b[2].phase.SpmPromoting? else b[2].phase.Idle?)
  {
  }

  // ---------- whole rounds ----------

  /** A campaign: read, upload unless the cluster is new, grant, transaction, reply. */
  lemma CampaignRefines(c: Config, n: NodeId, o: Outside, a: Agent, m: seq<Moment>, b: seq<Agent>)
    requires |m| == 5 && |b| == 5 && Begins(o, m[0], n, a)
    requires o.read.value.leader.None? && !CampaignsAlone(n, false, o)
    requires Takes(c, m[0], n, a, Read, b[0])
    requires if o.read.value.term != 0 then Takes(c, m[1], n, b[0], Upload(o.unreadable), b[1]) else b[1] == b[0]
    requires Takes(c, m[2], n, b[1], Grant, b[2])
    requires Takes(c, m[3], n, b[2], Commit, b[3]) && (o.txn.TxnWon? <==> m[3].store.key.None?)
    requires Takes(c, m[4], n, b[3], Receive, b[4])
    ensures !Refused(n, a, o) && SameServer(b[4], AfterRound(n, false, a, o))
  {
    ReadRefines(c, n, o, a, m[0], b[0]);
    if o.read.value.term != 0 {
      UploadRefines(c, n, b[0], m[1], o.unreadable, b[1]);
      UploadedAnywhere(n, Reads(n, a, o.read.value, o.myTerm), b[0].phase, o.read.value, o.unreadable);
    }
    LeasedRefines(c, n, b[1], m[2..], b[2..]);
  }

  /** A leased resume: read, grant, transaction, reply. */
  lemma ResumeRefines(c: Config, n: NodeId, onlyFollow: bool, o: Outside, a: Agent, m: seq<Moment>, b: seq<Agent>)
    requires |m| == 4 && |b| == 4 && Begins(o, m[0], n, a)
    requires o.read.value.leader == Some(n) && o.read.value.spm != Some(n)
    requires Takes(c, m[0], n, a, Read, b[0]) && Takes(c, m[1], n, b[0], Grant, b[1])
    requires Takes(c, m[2], n, b[1], Commit, b[2]) && (o.txn.TxnWon? <==> Owns(m[2].store, n))
    requires Takes(c, m[3], n, b[2], Receive, b[3])
    ensures !Refused(n, a, o) && SameServer(b[3], AfterRound(n, onlyFollow, a, o))
  {
    ReadRefines(c, n, o, a, m[0], b[0]);
    LeasedRefines(c, n, b[0], m[1..], b[1..]);
  }

  /** Single point mode entered by a campaign: read, upload, begin, transaction, reply. */
  lemma AloneRefines(c: Config, n: NodeId, o: Outside, a: Agent, m: seq<Moment>, b: seq<Agent>)
    requires |m| == 5 && |b| == 5 && Begins(o, m[0], n, a) && CampaignsAlone(n, false, o)
    requires Takes(c, m[0], n, a, Read, b[0]) && Takes(c, m[1], n, b[0], Upload(o.unreadable), b[1])
    requires Takes(c, m[2], n, b[1], SpmBegin, b[2])
    requires Takes(c, m[3], n, b[2], SpmCommit, b[3]) && (o.txn.TxnWon? <==> m[3].store.key.None?)
    requires Takes(c, m[4], n, b[3], SpmReceive, b[4])
    ensures !Refused(n, a, o) && SameServer(b[4], AfterRound(n, false, a, o))
  {
    ReadRefines(c, n, o, a, m[0], b[0]);
    UploadRefines(c, n, b[0], m[1], o.unreadable, b[1]);
    UploadedAnywhere(n, Reads(n, a, o.read.value, o.myTerm), b[0].phase, o.read.value, o.unreadable);
    LeaseFreeRefines(c, n, b[1], m[2..], b[2..]);
  }

  /** Single point mode resumed: read, begin, transaction, reply. */
  lemma ResumeAloneRefines(c: Config, n: NodeId, onlyFollow: bool, o: Outside, a: Agent, m: seq<Moment>, b: seq<Agent>)
    requires |m| == 4 && |b| == 4 && Begins(o, m[0], n, a) && ResumesAlone(n, o)
    requires Takes(c, m[0], n, a, Read, b[0]) && Takes(c, m[1], n, b[0], SpmBegin, b[1])
    requires Takes(c, m[2], n, b[1], SpmCommit, b[2]) && (o.txn.TxnWon? <==> Owns(m[2].store, n))
    requires Takes(c, m[3], n, b[2], SpmReceive, b[3])
    ensures !Refused(n, a, o) && SameServer(b[3], AfterRound(n, onlyFollow, a, o))
  {
    ReadRefines(c, n, o, a, m[0], b[0]);
    LeaseFreeRefines(c, n, b[0], m[1..], b[1..]);
  }

  /** Following: read, then admission or refusal, the same way on both sides; a position that cannot be read closes the server. */
  lemma FollowRefines(c: Config, n: NodeId, onlyFollow: bool, o: Outside, a: Agent, act: Action,
                      m: seq<Moment>, b: seq<Agent>)
    requires |m| == 2 && |b| == 2 && Begins(o, m[0], n, a)
    requires o.read.value.leader.Some? && o.read.value.leader != Some(n)
    requires Takes(c, m[0], n, a, Read, b[0]) && Takes(c, m[1], n, b[0], act, b[1])
    requires if o.unreadable && NeedsPosition(b[0], o.read.value) then act.Close?
             else act.Admit? && act.redirected == o.redirected
    ensures Refused(n, a, o) <==> b[1].phase.Exited?
    ensures !Refused(n, a, o) ==> SameServer(b[1], AfterRound(n, onlyFollow, a, o))
    ensures b[1].db.ReadOnly? || b[1].db == a.db
  {
    ReadRefines(c, n, o, a, m[0], b[0]);
  }

  // ---------- requests by hand ----------

  /** The step an accepted request makes the agent take, if any. */
  function HandAction(h: HandRequest): Option<Action>
  {
    match h
    case AskReadWrite(reply) => if Effective(reply) then Some(ManualReadWrite) else None
    case AskReadOnly(_, _, _, _) =>
      if OpensByHand(h) then Some(ManualReadOnly(true)) else if ClosesByHand(h) then Some(ManualReadOnly(false)) else None
  }

  /** The database ends as the endpoint leaves it; a request that is granted leaves it closed. */
  lemma HandRefines(c: Config, n: NodeId, h: HandRequest, a: Agent, m: Moment, b: Agent)
    requires a.isLeader && !a.phase.Exited?
    requires match HandAction(h) case None => b == a case Some(act) => Takes(c, m, n, a, act, b)
    ensures b.db == AfterHand(a.db, true, h) && SameServer(b, a) && b.phase == a.phase
    ensures HandAction(h).Some? ==> ActStore(c, m.now, m.store, n, a, HandAction(h).value) == m.store
    ensures LeaderLoop.Granted(h) ==> b.db.ReadOnly?
    ensures h == AskReadWrite(Done) ==> b.db.ReadWrite?
  {
  }

  // ---------- the end of a reign ----------

  /** A request by hand, accepted, between two of the agent's own steps. */
  predicate Asked(c: Config, m: Moment, n: NodeId, a: Agent, h: Option<HandRequest>, b: Agent)
  {
    match h
    case None => b == a
    case Some(r) => (match HandAction(r) case None => b == a case Some(act) => Takes(c, m, n, a, act, b))
  }

  /**
   A leased reign that is opened, resigned and ended, or not opened at all, ends at the top
   with a read-only database, whatever is asked by hand while it is being resigned.
   */
  lemma ReignRefines(c: Config, n: NodeId, a: Agent, ok: bool, deleted: bool, h: Option<HandRequest>,
                     m: seq<Moment>, b: seq<Agent>)
    requires |m| == 5 && |b| == 5 && a.phase.Promoting? && a.isLeader && Takes(c, m[0], n, a, Promote(ok), b[0])
    requires if ok then Takes(c, m[1], n, b[0], Resign, b[1]) && Takes(c, m[2], n, b[1], Release(deleted), b[2]) &&
                        Asked(c, m[3], n, b[2], h, b[3]) && Takes(c, m[4], n, b[3], EndReign, b[4])
             else b[4] == b[0]
    ensures b[4].phase.Idle? && b[4].db.ReadOnly? && SameServer(b[4], a)
    ensures ok ==> (deleted ==> !Owns(ActStore(c, m[2].now, m[2].store, n, b[1], Release(deleted)), n))
  {
    if ok {
      ResignRefines(c, n, b[0], deleted, h, m[1..], b[1..]);
    }
  }

  /** Resigning, from either kind of reign, up to its end. */
  lemma ResignRefines(c: Config, n: NodeId, a: Agent, deleted: bool, h: Option<HandRequest>, m: seq<Moment>, b: seq<Agent>)
    requires |m| == 4 && |b| == 4 && a.isLeader && Takes(c, m[0], n, a, Resign, b[0])
    requires Takes(c, m[1], n, b[0], Release(deleted), b[1]) && Asked(c, m[2], n, b[1], h, b[2])
    requires Takes(c, m[3], n, b[2], EndReign, b[3])
    ensures b[3].db.ReadOnly? && SameServer(b[3], a) && if a.phase.SpmServing? then b[3].phase.SpmLeaving? else b[3].phase.Idle?
    ensures deleted ==> !Owns(ActStore(c, m[1].now, m[1].store, n, b[0], Release(deleted)), n)
  {
    assert SameServer(b[2], b[1]) && b[2].phase == b[1].phase by {
      if h.Some? {
        HandRefines(c, n, h.value, b[1], m[2], b[2]);
      }
    }
  }

  /** Either kind of reign can be resigned. */
  lemma MayResign(c: Config, n: NodeId, a: Agent, m: Moment)
    requires a.isLeader
    ensures ActEnabled(c, m.now, m.store, n, a, Resign) <==> a.phase.Serving? || a.phase.SpmServing?
  {
  }

  /** Single point mode that is not opened, or has found company, ends like that too, once the mark is removed. */
  lemma AloneEndRefines(c: Config, n: NodeId, a: Agent, ok: bool, removed: bool, m: seq<Moment>, b: seq<Agent>)
    requires |m| == 3 && |b| == 3 && a.phase.SpmPromoting? && Takes(c, m[0], n, a, SpmPromote(ok), b[0])
    requires if ok then Takes(c, m[1], n, b[0], SpmStop, b[1]) else b[1] == b[0]
    ensures ActEnabled(c, m[2].now, m[2].store, n, b[1], SpmRemove(removed))
    ensures Takes(c, m[2], n, b[1], SpmRemove(removed), b[2]) ==>
              b[2].phase.Idle? && b[2].db.ReadOnly? && SameServer(b[2], a)
    ensures ok ==> ActEnabled(c, m[1].now, m[1].store, n, b[0], SpmStop)
  {
  }

  // ---------- which round it is ----------

  /** A round that only reads: an only-follow node that finds no leader. */
  lemma SkipRefines(c: Config, n: NodeId, o: Outside, a: Agent, m: seq<Moment>, b: seq<Agent>)
    requires |m| == 2 && |b| == 2 && Begins(o, m[0], n, a) && o.read.value.leader.None?
    requires Takes(c, m[0], n, a, Read, b[0]) && Takes(c, m[1], n, b[0], Skip, b[1])
    ensures !Refused(n, a, o) && SameServer(b[1], AfterRound(n, true, a, o))
    ensures b[1].phase.Idle? && b[1].db == a.db
  {
    ReadRefines(c, n, o, a, m[0], b[0]);
  }

  /** A leased round whose call fails, at any point of it, ends at the top and leaves the server as it was. */
  lemma FailedRefines(c: Config, n: NodeId, a: Agent, deleted: bool, m: seq<Moment>, b: seq<Agent>)
    requires |m| == 4 && |b| == 4 && a.phase.Decided? && Takes(c, m[0], n, a, Grant, b[0])
    requires b[1] == b[0] || Takes(c, m[1], n, b[0], Commit, b[1])
    requires Takes(c, m[2], n, b[1], Lose, b[2])
    requires if a.phase.view.leader.None? then Takes(c, m[3], n, b[2], Undo(deleted), b[3]) else b[3] == b[2]
    ensures b[3].phase.Idle? && SameServer(b[3], a) && b[3].db == a.db
  {
  }

  /**
   What a read leads to, in the terms of the server's loop: exactly one of following, the
   leased resume, the resume of single point mode, preparing a campaign, and campaigning in
   a new cluster.
   */
  lemma NextExactly(c: Config, n: NodeId, o: Outside, a: Agent, m: seq<Moment>, b: Agent)
    requires |m| == 2 && Begins(o, m[0], n, a) && Takes(c, m[0], n, a, Read, b)
    ensures var can := act => ActEnabled(c, m[1].now, m[1].store, n, b, act);
            var none := o.read.value.leader.None?;
            && (forall p, r :: can(Admit(p, r)) <==> !none && o.read.value.leader != Some(n))
            && (can(SpmBegin) <==> ResumesAlone(n, o))
            && (can(Grant) <==> Resumes(n, o) || (none && o.read.value.term == 0))
            && (forall failed :: can(Upload(failed)) <==> none && o.read.value.term != 0)
            && can(Skip)
  {
    ReadRefines(c, n, o, a, m[0], b);
  }

  /** After the upload the node may campaign, alone or not. */
  lemma ReadyExactly(c: Config, n: NodeId, a: Agent, failed: bool, m: seq<Moment>, b: Agent)
    requires |m| == 2 && a.phase.Decided? && Takes(c, m[0], n, a, Upload(failed), b)
    ensures ActEnabled(c, m[1].now, m[1].store, n, b, Grant) && ActEnabled(c, m[1].now, m[1].store, n, b, SpmBegin)
  {
  }
}
