/** Ranking the election logs: who is latest, and who is alone. */
module Election {

  import opened Prelude
  import opened Gtid

  /** `gtid` stands for the parsed `LastGTID`; it is read only for logs of schema version 1. */
  datatype LogForElection = LogForElection(term: nat, lastUUID: NodeId, gtid: GtidSet, endTxnID: nat, version: nat)

  /** The position a log is compared by; absent when a version 1 log cannot be read. */
  function PositionOf(l: LogForElection): Option<nat>
  {
    if l.version >= 2 then Some(l.endTxnID) else TxnId(l.gtid, l.lastUUID)
  }

  /** `l` beats `mine`: a later term, or the same term and a readable later position. */
  predicate Beats(l: LogForElection, mine: LogForElection)
    requires PositionOf(mine).Some?
  {
    || mine.term < l.term
    || (mine.term == l.term && PositionOf(l).Some? && PositionOf(mine).value < PositionOf(l).value)
  }

  predicate Readable(logs: map<NodeId, LogForElection>, id: NodeId)
  {
    id in logs && PositionOf(logs[id]).Some?
  }

  /** Nobody beats `id`. */
  ghost predicate Latest(logs: map<NodeId, LogForElection>, id: NodeId)
  {
    Readable(logs, id) && forall m :: m in logs && m != id ==> !Beats(logs[m], logs[id])
  }

  /** Everybody else is at an earlier term. */
  ghost predicate Alone(logs: map<NodeId, LogForElection>, id: NodeId)
  {
    Readable(logs, id) && forall m :: m in logs && m != id ==> logs[m].term < logs[id].term
  }

  /**
   The loop over the map, which visits the entries in no particular order and
   leaves at the first log that beats its own.
   */
  method IsLatestLog(id: NodeId, logs: map<NodeId, LogForElection>) returns (isLatest: bool, isSinglePoint: bool)
    ensures isLatest <==> Latest(logs, id)
    ensures isSinglePoint <==> Alone(logs, id)
  {
    if id !in logs {
      return false, false;
    }
    var myLog := logs[id];
    var position := PositionOf(myLog);
    if position.None? {
      return false, false;
    }
    isSinglePoint := true;
    var todo := logs.Keys;
    while todo != {}
      invariant todo <= logs.Keys
      invariant forall m :: m in logs && m !in todo && m != id ==> !Beats(logs[m], myLog)
      invariant isSinglePoint <==> forall m :: m in logs && m !in todo && m != id ==> logs[m].term < myLog.term
      decreases todo
    {
      var m :| m in todo;
      todo := todo - {m};
      if m == id {
        continue;
      }
      var l := logs[m];
      if myLog.term < l.term {
        return false, false;
      }
      if l.term < myLog.term {
        continue;
      }
      isSinglePoint := false;
      if PositionOf(l).Some? && position.value < PositionOf(l).value {
        return false, false;
      }
    }
    isLatest := true;
  }

  // ---------- what the ranking means ----------

  /** What a node of schema version 1 or 2 uploads, read off its log by the count of `u`. */
  function Upload(version: nat, term: nat, u: NodeId, log: seq<Txn>): LogForElection
  {
    LogForElection(term, u, Executed(log), if version >= 2 then Published(log, u) else 0, version)
  }

  /** Both versions are compared by the position of the log; version 2 says 0 where version 1 cannot be read. */
  lemma UploadReadsBack(version: nat, term: nat, u: NodeId, log: seq<Txn>)
    ensures PositionOf(Upload(version, term, u, log)) ==
            if version >= 2 then Some(Published(log, u)) else EndTxn(log, u)
  {
    EndTxnIsTxnId(log, u);
  }

  /**
   The latest nodes are those with the highest term and, among the readable logs of that
   term, the highest position.
   */
  lemma LatestExactly(logs: map<NodeId, LogForElection>, id: NodeId)
    ensures Latest(logs, id) <==>
            && id in logs && PositionOf(logs[id]).Some?
            && (forall m :: m in logs ==> logs[m].term <= logs[id].term)
            && (forall m :: m in logs && logs[m].term == logs[id].term && PositionOf(logs[m]).Some? ==>
                  PositionOf(logs[m]).value <= PositionOf(logs[id]).value)
  {
    if Latest(logs, id) {
      forall m | m in logs
        ensures logs[m].term <= logs[id].term
        ensures logs[m].term == logs[id].term && PositionOf(logs[m]).Some? ==>
                  PositionOf(logs[m]).value <= PositionOf(logs[id]).value
      {
        assert m != id ==> !Beats(logs[m], logs[id]);
      }
    }
  }

  /**
   What it is for: when the positions are those of the nodes' logs, by the count of the last
   leader, for logs of one history, the latest node admits every node of its term, and holds
   the whole log of every one whose position is decisive.
   */
  lemma LatestHoldsTheRest(logs: map<NodeId, LogForElection>, dbs: map<NodeId, seq<Txn>>, h: seq<Txn>, u: NodeId,
                           id: NodeId, m: NodeId)
    requires Latest(logs, id) && m in logs && logs[m].term == logs[id].term
    requires id in dbs && m in dbs && dbs[id] <= h && dbs[m] <= h
    requires PositionOf(logs[id]) == Some(Published(dbs[id], u)) && PositionOf(logs[m]) == Some(Published(dbs[m], u))
    ensures Admits(Published(dbs[m], u), dbs[id], u)
    ensures Decisive(dbs[m], Published(dbs[m], u), u) ==> dbs[m] <= dbs[id]
  {
    LatestExactly(logs, id);
    if Decisive(dbs[m], Published(dbs[m], u), u) {
      ComparedIsContained(h, dbs[m], dbs[id], u, Published(dbs[m], u));
    }
  }

  // ---------- what the ranking gives the cluster ----------

  ghost predicate AllReadable(logs: map<NodeId, LogForElection>)
  {
    forall m :: m in logs ==> PositionOf(logs[m]).Some?
  }

  /** Some log is not beaten by any of `ids`. */
  lemma {:induction false} BestOf(logs: map<NodeId, LogForElection>, ids: set<NodeId>) returns (best: NodeId)
    requires AllReadable(logs) && ids != {} && ids <= logs.Keys
    ensures best in ids && forall m :: m in ids ==> !Beats(logs[m], logs[best])
    decreases |ids|
  {
    var x :| x in ids;
    if ids == {x} {
      best := x;
    } else {
      var rest := ids - {x};
      assert rest != {};
      best := BestOf(logs, rest);
      if Beats(logs[x], logs[best]) {
        best := x;
      }
    }
  }

  /** Somebody always wins. */
  lemma SomeoneIsLatest(logs: map<NodeId, LogForElection>)
    requires AllReadable(logs) && logs != map[]
    ensures exists id :: Latest(logs, id)
  {
    var best := BestOf(logs, logs.Keys);
    assert Latest(logs, best);
  }

  /** The latest nodes are interchangeable: same term, same position. */
  lemma LatestAgree(logs: map<NodeId, LogForElection>, m: NodeId, n: NodeId)
    requires Latest(logs, m) && Latest(logs, n)
    ensures logs[m].term == logs[n].term && PositionOf(logs[m]) == PositionOf(logs[n])
  {
    if m != n {
      assert !Beats(logs[m], logs[n]) && !Beats(logs[n], logs[m]);
    }
  }

  /** A single point is latest, and nobody else is latest or a single point. */
  lemma SinglePointIsUnique(logs: map<NodeId, LogForElection>, m: NodeId)
    requires Alone(logs, m)
    ensures Latest(logs, m)
    ensures forall n :: n != m ==> !Latest(logs, n) && !Alone(logs, n)
  {
    forall n | n != m ensures !Latest(logs, n) && !Alone(logs, n) {
      if n in logs && PositionOf(logs[n]).Some? {
        assert Beats(logs[m], logs[n]);
      }
    }
  }

  /**
   With an unreadable version 1 log at the highest term there may be nobody to
   campaign first; somebody is latest if and only if some readable log has the
   highest term.
   */
  lemma LatestExistsExactly(logs: map<NodeId, LogForElection>)
    ensures (exists id :: Latest(logs, id))
       <==> (exists id :: Readable(logs, id) && forall m :: m in logs ==> logs[m].term <= logs[id].term)
  {
    if id :| Readable(logs, id) && forall m :: m in logs ==> logs[m].term <= logs[id].term {
      var top := set m | m in logs && Readable(logs, m) && logs[m].term == logs[id].term;
      var few := map m | m in top :: logs[m];
      assert id in top;
      var best := BestOf(few, top);
      forall m | m in logs && m != best ensures !Beats(logs[m], logs[best]) {
        if m in top {
          assert !Beats(few[m], few[best]);
        }
      }
      assert Latest(logs, best);
    }
    if id :| Latest(logs, id) {
      forall m | m in logs ensures logs[m].term <= logs[id].term {
        assert m != id ==> !Beats(logs[m], logs[id]);
      }
    }
  }
}
