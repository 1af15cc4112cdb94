/**
 Transactions and GTID positions.

 A log is the sequence of transactions a database has executed.  A position is
 read off it the way the agents read it off an executed GTID set: by the last
 transaction of one server UUID.
 */
module Gtid {

  import opened Prelude

  datatype Txn = Txn(uuid: NodeId, id: nat)

  /** How many transactions of `u` the log holds. */
  function Count(log: seq<Txn>, u: NodeId): nat
  {
    if log == [] then 0
    else Count(log[..|log| - 1], u) + (if log[|log| - 1].uuid == u then 1 else 0)
  }

  /** GTIDs are numbered 1, 2, 3, ... per UUID, in the order of the log. */
  ghost predicate Numbered(log: seq<Txn>)
  {
    forall i :: 0 <= i < |log| ==> log[i].id == Count(log[..i], log[i].uuid) + 1
  }

  /** The id after the last one of `u`, absent when the log holds none. */
  function EndTxn(log: seq<Txn>, u: NodeId): Option<nat>
  {
    if Count(log, u) == 0 then None else Some(Count(log, u) + 1)
  }

  /** The writer `u` commits its next transaction. */
  function Append(log: seq<Txn>, u: NodeId): seq<Txn>
  {
    log + [Txn(u, Count(log, u) + 1)]
  }

  // ---------- what a comparison of positions decides ----------

  /** The position a winner publishes; 0 when it has nothing of `u`. */
  function Published(log: seq<Txn>, u: NodeId): nat
  {
    match EndTxn(log, u)
    case None => 0
    case Some(x) => x
  }

  lemma {:induction false} CountPrefix(p: seq<Txn>, q: seq<Txn>, u: NodeId)
    requires p <= q
    ensures Count(p, u) <= Count(q, u)
    decreases |q|
  {
    if p != q {
      assert p <= q[..|q| - 1];
      CountPrefix(p, q[..|q| - 1], u);
    } else {
      assert p == q;
    }
  }

  lemma PublishedPrefix(p: seq<Txn>, q: seq<Txn>, u: NodeId)
    requires p <= q
    ensures Published(p, u) <= Published(q, u)
  {
    CountPrefix(p, q, u);
  }

  /** The comparison of `preWatch` admits a follower compared at `p` under a winner with log `w`. */
  predicate Admits(p: nat, w: seq<Txn>, u: NodeId)
  {
    p <= Published(w, u)
  }

  /** The position is past everything in the log but its last transaction. */
  predicate Decisive(f: seq<Txn>, p: nat, u: NodeId)
  {
    f == [] || Published(f[..|f| - 1], u) < p
  }

  /** Two nodes followed the same history: a winner that admits `f` at a decisive position holds all of it. */
  lemma ComparedIsContained(h: seq<Txn>, f: seq<Txn>, w: seq<Txn>, u: NodeId, p: nat)
    requires f <= h && w <= h
    requires Decisive(f, p, u) && Admits(p, w, u)
    ensures f <= w
  {
    if |w| < |f| {
      assert w <= f[..|f| - 1];
      PublishedPrefix(w, f[..|f| - 1], u);
    }
  }

  predicate SameHistory(f: seq<Txn>, w: seq<Txn>)
  {
    f <= w || w <= f
  }

  /** Compared at `p`, a follower with log `f` is kept out by every winner it is ahead of. */
  ghost predicate KeptOutAhead(f: seq<Txn>, p: nat, u: NodeId)
  {
    forall w :: SameHistory(f, w) && Admits(p, w, u) ==> f <= w
  }

  /**
   The exact reach of that comparison, at any position: it keeps out every follower that
   is ahead, whoever wins, if and only if the position is decisive.  A position that is
   not beyond the log, be it fresh or cached, is decisive exactly when it is up to date
   and the last transaction was written by `u`.
   */
  lemma ComparisonExact(f: seq<Txn>, p: nat, u: NodeId)
    ensures KeptOutAhead(f, p, u) <==> Decisive(f, p, u)
    ensures 2 <= p <= Count(f, u) + 1 ==>
              f != [] && (KeptOutAhead(f, p, u) <==> p == Count(f, u) + 1 && f[|f| - 1].uuid == u)
  {
    if Decisive(f, p, u) {
      forall w | SameHistory(f, w) && Admits(p, w, u) ensures f <= w {
        ComparedIsContained(if f <= w then w else f, f, w, u, p);
      }
    } else {
      var w := f[..|f| - 1];
      assert SameHistory(f, w) && Admits(p, w, u) && !(f <= w);
    }
  }

  /** A winner with log `w` that publishes `q` keeps out every follower ahead of it whose last transaction is by `u`. */
  ghost predicate KeepsOutAhead(w: seq<Txn>, q: nat, u: NodeId)
  {
    forall f: seq<Txn> :: SameHistory(f, w) && f != [] && f[|f| - 1].uuid == u && Published(f, u) <= q ==> f <= w
  }

  /**
   The other side of the comparison: a winner keeps out every follower that is ahead and
   compared at its own position, if and only if it publishes no more than one past its own
   count.  Positions are never 1, so that is: no more than its own position.
   */
  lemma PublishedExact(w: seq<Txn>, q: nat, u: NodeId)
    ensures KeepsOutAhead(w, q, u) <==> q <= Count(w, u) + 1
    ensures q != 1 ==> (KeepsOutAhead(w, q, u) <==> q <= Published(w, u))
  {
    if q <= Count(w, u) + 1 {
      forall f: seq<Txn> | SameHistory(f, w) && f != [] && f[|f| - 1].uuid == u && Published(f, u) <= q ensures f <= w {
        if |w| < |f| {
          assert w <= f[..|f| - 1];
          CountPrefix(w, f[..|f| - 1], u);
        }
      }
    } else {
      var f := Append(w, u);
      assert f[..|f| - 1] == w && Published(f, u) == Count(w, u) + 2;
      assert SameHistory(f, w) && !(f <= w);
    }
  }

  // ---------- positions and GTID sets ----------

  /** GTIDs `start`, ..., `stop - 1` of one UUID. */
  datatype Interval = Interval(start: nat, stop: nat)

  type GtidSet = map<NodeId, seq<Interval>>

  /** The position of `u` in a parsed GTID set; absent where the source reports an error. */
  function TxnId(g: GtidSet, u: NodeId): Option<nat>
  {
    if u !in g || |g[u]| == 0 then None else Some(g[u][|g[u]| - 1].stop)
  }

  /** Sorted, non-empty, non-adjacent intervals, as the parser normalizes them. */
  ghost predicate Normal(s: seq<Interval>)
  {
    && (forall i :: 0 <= i < |s| ==> 1 <= s[i].start < s[i].stop)
    && (forall i, j :: 0 <= i < j < |s| ==> s[i].stop < s[j].start)
  }

  ghost predicate Holds(s: seq<Interval>, id: nat)
  {
    exists i :: 0 <= i < |s| && s[i].start <= id < s[i].stop
  }

  /** No gap: everything from 1 up to the last id. */
  predicate Contiguous(s: seq<Interval>)
  {
    |s| == 1 && s[0].start == 1
  }

  /** For contiguous sets comparing the last ids is comparing the sets. */
  lemma LastDecidesInclusion(s: seq<Interval>, t: seq<Interval>)
    requires Normal(s) && Normal(t) && Contiguous(s) && Contiguous(t)
    ensures s[0].stop <= t[0].stop <==> forall id: nat :: Holds(s, id) ==> Holds(t, id)
  {
    if s[0].stop <= t[0].stop {
      forall id: nat | Holds(s, id) ensures Holds(t, id) {
        assert t[0].start <= id < t[0].stop;
      }
    } else {
      assert s[0].start <= t[0].stop < s[0].stop;
      assert Holds(s, t[0].stop) && !Holds(t, t[0].stop);
    }
  }

  /** A set without gaps is the only kind that its last id determines. */
  lemma LastDeterminesSet(s: seq<Interval>)
    requires Normal(s) && |s| != 0
    ensures Contiguous(s) <==> forall id: nat :: 1 <= id < s[|s| - 1].stop ==> Holds(s, id)
  {
    var last := s[|s| - 1];
    if Contiguous(s) {
      forall id: nat | 1 <= id < last.stop ensures Holds(s, id) {
        assert s[0].start <= id < s[0].stop;
      }
    } else {
      var gap := last.start - 1;
      assert |s| == 1 ==> 1 <= gap;
      assert |s| > 1 ==> s[0].stop < last.start;
      assert !Holds(s, gap);
    }
  }

  /** The position is one past the greatest id of the set, whatever gaps it has. */
  lemma TxnIdIsLast(g: GtidSet, u: NodeId)
    requires u in g && g[u] != [] && Normal(g[u])
    ensures TxnId(g, u).Some? && TxnId(g, u).value > 0
    ensures Holds(g[u], TxnId(g, u).value - 1)
    ensures forall id: nat :: Holds(g[u], id) ==> id < TxnId(g, u).value
  {
    var s := g[u];
    var last := s[|s| - 1];
    assert last.start <= last.stop - 1 < last.stop;
    assert forall i :: 0 <= i < |s| - 1 ==> s[i].stop < last.start;
  }

  // ---------- the GTID set of a log ----------

  /** The executed GTID set of a log, for the UUIDs it mentions. */
  function Executed(log: seq<Txn>): GtidSet
  {
    map u | u in (set i | 0 <= i < |log| :: log[i].uuid) :: [Interval(1, Count(log, u) + 1)]
  }

  lemma {:induction false} CountPositive(log: seq<Txn>, u: NodeId)
    ensures 0 < Count(log, u) <==> exists i :: 0 <= i < |log| && log[i].uuid == u
    decreases |log|
  {
    if log != [] {
      var p := log[..|log| - 1];
      CountPositive(p, u);
      if 0 < Count(p, u) {
        var i :| 0 <= i < |p| && p[i].uuid == u;
        assert log[i].uuid == u;
      }
      if i :| 0 <= i < |log| && log[i].uuid == u && i < |p| {
        assert p[i].uuid == u;
      }
    }
  }

  /** Reading the last id off the executed set is what `EndTxn` does. */
  lemma EndTxnIsTxnId(log: seq<Txn>, u: NodeId)
    ensures TxnId(Executed(log), u) == EndTxn(log, u)
  {
    CountPositive(log, u);
    assert u in Executed(log) <==> exists i :: 0 <= i < |log| && log[i].uuid == u;
  }

  lemma NumberedPrefix(p: seq<Txn>, log: seq<Txn>)
    requires Numbered(log) && p <= log
    ensures Numbered(p)
  {
    forall i | 0 <= i < |p| ensures p[i].id == Count(p[..i], p[i].uuid) + 1 {
      assert p[..i] == log[..i];
    }
  }

  /** A numbered log holds exactly the GTIDs of its executed set: no gaps, nothing else. */
  lemma {:induction false} NumberedIsExecuted(log: seq<Txn>, u: NodeId, id: nat)
    requires Numbered(log)
    ensures Txn(u, id) in log <==> 1 <= id <= Count(log, u)
    decreases |log|
  {
    if log != [] {
      var p := log[..|log| - 1];
      NumberedPrefix(p, log);
      NumberedIsExecuted(p, u, id);
      assert log == p + [log[|log| - 1]];
    }
  }

  lemma HoldsOne(start: nat, stop: nat, id: nat)
    ensures Holds([Interval(start, stop)], id) <==> start <= id < stop
  {
    if start <= id < stop {
      assert [Interval(start, stop)][0].start <= id < [Interval(start, stop)][0].stop;
    }
  }

  /** ... which is what the executed set says. */
  lemma ExecutedHolds(log: seq<Txn>, u: NodeId, id: nat)
    requires Numbered(log)
    ensures Txn(u, id) in log <==> u in Executed(log) && Holds(Executed(log)[u], id)
  {
    NumberedIsExecuted(log, u, id);
    CountPositive(log, u);
    assert u in Executed(log) <==> exists i :: 0 <= i < |log| && log[i].uuid == u;
    HoldsOne(1, Count(log, u) + 1, id);
  }

  lemma AppendNumbered(log: seq<Txn>, u: NodeId)
    requires Numbered(log)
    ensures Numbered(Append(log, u))
  {
    var more := Append(log, u);
    forall i | 0 <= i < |more| ensures more[i].id == Count(more[..i], more[i].uuid) + 1 {
      if i < |log| {
        assert more[..i] == log[..i];
      } else {
        assert more[..i] == log;
      }
    }
  }
}
