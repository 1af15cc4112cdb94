/**
 The planned switch: close the master, wait until every listed slave has caught up,
 make the master give up its leadership, and reopen it when that does not work out.
 */
module Switch {

  import opened Prelude
  import opened Gtid

  // ---------- are the slaves level with the master? ----------

  /** A binary log coordinate. */
  datatype Coord = Coord(file: nat, pos: nat)

  /** No two lengths of the master's log share a coordinate. */
  ghost predicate Injective(at: nat -> Coord)
  {
    forall i: nat, j: nat :: at(i) == at(j) ==> i == j
  }

  /** A slave with log `f` reports the coordinates and the position of the master `u` with log `m`. */
  predicate Level(at: nat -> Coord, u: NodeId, m: seq<Txn>, f: seq<Txn>)
  {
    at(|f|) == at(|m|) && Published(m, u) - Published(f, u) == 0
  }

  /**
   The check over the listed slaves, in order; a slave is absent when it cannot be
   reached.  It stops at the first one that is behind or absent.
   */
  method CheckConsistency(at: nat -> Coord, u: NodeId, m: seq<Txn>, slaves: seq<Option<seq<Txn>>>)
    returns (r: Option<bool>)
    ensures r == Consistency(at, u, m, slaves)
  {
    for i := 0 to |slaves|
      invariant Consistency(at, u, m, slaves) == Consistency(at, u, m, slaves[i..])
    {
      assert slaves[i..][1..] == slaves[i + 1..];
      if slaves[i].None? {
        return None;
      }
      if !Level(at, u, m, slaves[i].value) {
        return Some(false);
      }
    }
    return Some(true);
  }

  function Consistency(at: nat -> Coord, u: NodeId, m: seq<Txn>, slaves: seq<Option<seq<Txn>>>): Option<bool>
  {
    if slaves == [] then Some(true)
    else if slaves[0].None? then None
    else if !Level(at, u, m, slaves[0].value) then Some(false)
    else Consistency(at, u, m, slaves[1..])
  }

  /** Level is: as long a log, with as many of the master's own transactions. */
  lemma LevelExactly(at: nat -> Coord, u: NodeId, m: seq<Txn>, f: seq<Txn>)
    requires Injective(at)
    ensures Level(at, u, m, f) <==> |f| == |m| && Count(f, u) == Count(m, u)
  {
  }

  /** For slaves that replicate the master, the check succeeds exactly when all of them hold all of its log. */
  lemma {:induction false} ConsistentExactly(at: nat -> Coord, u: NodeId, m: seq<Txn>, slaves: seq<Option<seq<Txn>>>)
    requires Injective(at)
    requires forall f :: f in slaves && f.Some? ==> f.value <= m
    ensures Consistency(at, u, m, slaves) == Some(true) <==> forall f :: f in slaves ==> f == Some(m)
  {
    if slaves != [] {
      ConsistentExactly(at, u, m, slaves[1..]);
      var f := slaves[0];
      assert f in slaves;
      assert forall g :: g in slaves <==> g == f || g in slaves[1..];
      assert f.Some? ==> (Level(at, u, m, f.value) <==> f.value == m);
    }
  }

  // ---------- the driver ----------

  /** How a request to the agent ends; without an answer the tool stops then and there. */
  datatype Answer = Yes | No | Lost

  datatype Request = ChangeMaster(answer: Answer) | SetReadWrite(answer: Answer)

  /**
   What one turn of the loop meets: the slaves at the check, each given by how many
   transactions it is behind; what clients write between the check and the request
   and during the pause, if the master lets them; and how the requests end.
   */
  datatype Turn = Turn(reachable: bool, behind: seq<Option<nat>>, late: nat, change: Answer, reopen: Answer, pause: nat)

  function Behind(m: seq<Txn>, k: Option<nat>): Option<seq<Txn>>
  {
    match k
    case None => None
    case Some(n) => Some(if n <= |m| then m[..|m| - n] else [])
  }

  function Slaves(m: seq<Txn>, behind: seq<Option<nat>>): seq<Option<seq<Txn>>>
  {
    seq(|behind|, i requires 0 <= i < |behind| => Behind(m, behind[i]))
  }

  function Written(m: seq<Txn>, u: NodeId, n: nat): seq<Txn>
  {
    if n == 0 then m else Append(Written(m, u, n - 1), u)
  }

  function Verdict(at: nat -> Coord, u: NodeId, m: seq<Txn>, t: Turn): Option<bool>
  {
    if t.reachable then Consistency(at, u, m, Slaves(m, t.behind)) else None
  }

  /** How a run ends: its requests, and the slaves and the master when leadership is given up. */
  datatype Outcome = Outcome(requests: seq<Request>, slaves: seq<Option<seq<Txn>>>, master: seq<Txn>)

  predicate Switched(o: Outcome)
  {
    |o.requests| > 0 && o.requests[|o.requests| - 1] == ChangeMaster(Yes)
  }

  /** The switch went through, and some listed slave does not hold the master's log. */
  ghost predicate Loses(o: Outcome)
  {
    Switched(o) && exists f :: f in o.slaves && f != Some(o.master)
  }

  /** The master as its clients see it. */
  datatype Db = Db(log: seq<Txn>, open: bool)

  function Serve(db: Db, u: NodeId, n: nat): Db
  {
    if db.open then db.(log := Written(db.log, u, n)) else db
  }

  function Reopen(db: Db, ok: bool): Db
  {
    db.(open := db.open || ok)
  }

  /** The turn does not end the loop. */
  predicate GoesOn(at: nat -> Coord, u: NodeId, db: Db, t: Turn)
  {
    var v := Verdict(at, u, db.log, t);
    v == Some(false) || (v == Some(true) && t.change.No? && !t.reopen.Lost?)
  }

  /** The requests of a turn that does not end the loop, and the master after it. */
  function After(at: nat -> Coord, u: NodeId, db: Db, t: Turn): (Db, seq<Request>)
  {
    if Verdict(at, u, db.log, t) == Some(true) then
      (Serve(Reopen(Serve(db, u, t.late), t.reopen.Yes?), u, t.pause), [ChangeMaster(No), SetReadWrite(t.reopen)])
    else (Serve(db, u, t.pause), [])
  }

  function Prepend(requests: seq<Request>, o: Outcome): Outcome
  {
    o.(requests := requests + o.requests)
  }

  lemma PrependTwice(a: seq<Request>, b: seq<Request>, o: Outcome)
    ensures Prepend(a, Prepend(b, o)) == Prepend(a + b, o)
  {
    assert a + (b + o.requests) == (a + b) + o.requests;
  }

  /** What the loop does with the given turns; `last` is how its final request to reopen ends. */
  function Run(at: nat -> Coord, u: NodeId, db: Db, turns: seq<Turn>, last: Answer): Outcome
    decreases |turns|
  {
    if turns == [] then Outcome([SetReadWrite(last)], [], db.log)
    else
      var t := turns[0];
      if GoesOn(at, u, db, t) then
        var (next, requests) := After(at, u, db, t);
        Prepend(requests, Run(at, u, next, turns[1..], last))
      else if Verdict(at, u, db.log, t).None? then Outcome([SetReadWrite(t.reopen)], [], db.log)
      else if t.change.No? then Outcome([ChangeMaster(No), SetReadWrite(Lost)], [], Serve(db, u, t.late).log)
      else Outcome([ChangeMaster(t.change)], Slaves(db.log, t.behind), Serve(db, u, t.late).log)
  }

  // ---------- what the tool does, from the turns alone ----------

  /** A slave `k` transactions behind a master with log `m` holds all of it. */
  predicate IsLevel(m: seq<Txn>, k: Option<nat>)
  {
    k.Some? && (k.value == 0 || m == [])
  }

  predicate LevelBefore(m: seq<Txn>, behind: seq<Option<nat>>, i: nat)
    requires i <= |behind|
  {
    forall j :: 0 <= j < i ==> IsLevel(m, behind[j])
  }

  /** The first slave that is not level cannot be reached; or the master cannot. */
  predicate OutOfReach(m: seq<Txn>, t: Turn)
  {
    !t.reachable || exists i :: 0 <= i < |t.behind| && t.behind[i].None? && LevelBefore(m, t.behind, i)
  }

  /** The first slave that is not level is behind. */
  predicate Lags(m: seq<Txn>, t: Turn)
  {
    t.reachable && exists i :: 0 <= i < |t.behind| && t.behind[i].Some? && !IsLevel(m, t.behind[i]) && LevelBefore(m, t.behind, i)
  }

  predicate AllLevel(m: seq<Txn>, t: Turn)
  {
    t.reachable && LevelBefore(m, t.behind, |t.behind|)
  }

  lemma SlaveLevel(at: nat -> Coord, u: NodeId, m: seq<Txn>, k: nat)
    requires Injective(at)
    ensures Level(at, u, m, Behind(m, Some(k)).value) <==> IsLevel(m, Some(k))
    ensures IsLevel(m, Some(k)) ==> Behind(m, Some(k)) == Some(m)
  {
    var f := Behind(m, Some(k)).value;
    assert f <= m;
    if IsLevel(m, Some(k)) {
      assert f == m;
    } else {
      assert |f| < |m| && (at(|f|) == at(|m|) ==> |f| == |m|);
    }
  }

  /** The verdict on the slaves is that on the first one that is not level. */
  lemma {:induction false} FirstDecides(at: nat -> Coord, u: NodeId, m: seq<Txn>, behind: seq<Option<nat>>, i: nat)
    requires Injective(at) && i <= |behind| && LevelBefore(m, behind, i)
    requires i < |behind| ==> !IsLevel(m, behind[i])
    ensures Consistency(at, u, m, Slaves(m, behind)) ==
            if i == |behind| then Some(true) else if behind[i].None? then None else Some(false)
    decreases |behind|
  {
    if behind != [] {
      assert Slaves(m, behind)[0] == Behind(m, behind[0]);
      assert Slaves(m, behind)[1..] == Slaves(m, behind[1..]);
      if behind[0].Some? {
        SlaveLevel(at, u, m, behind[0].value);
      }
      if i > 0 {
        assert IsLevel(m, behind[0]);
        assert forall j :: 0 <= j < i - 1 ==> behind[1..][j] == behind[j + 1];
        FirstDecides(at, u, m, behind[1..], i - 1);
      }
    }
  }

  lemma FirstNotLevel(m: seq<Txn>, behind: seq<Option<nat>>) returns (i: nat)
    ensures i <= |behind| && LevelBefore(m, behind, i) && (i < |behind| ==> !IsLevel(m, behind[i]))
  {
    i := 0;
    while i < |behind| && IsLevel(m, behind[i])
      invariant i <= |behind| && LevelBefore(m, behind, i)
    {
      i := i + 1;
    }
  }

  /** A turn is exactly one of the three, and the verdict says which. */
  lemma VerdictExactly(at: nat -> Coord, u: NodeId, m: seq<Txn>, t: Turn)
    requires Injective(at)
    ensures Verdict(at, u, m, t) == None <==> OutOfReach(m, t)
    ensures Verdict(at, u, m, t) == Some(false) <==> Lags(m, t)
    ensures Verdict(at, u, m, t) == Some(true) <==> AllLevel(m, t)
    ensures AllLevel(m, t) ==> forall f :: f in Slaves(m, t.behind) ==> f == Some(m)
  {
    var i := FirstNotLevel(m, t.behind);
    FirstDecides(at, u, m, t.behind, i);
    if t.reachable && i < |t.behind| {
      FirstIsOnly(m, t.behind, i);
    }
    if AllLevel(m, t) {
      forall j | 0 <= j < |t.behind| ensures Slaves(m, t.behind)[j] == Some(m) {
        assert IsLevel(m, t.behind[j]);
        SlaveLevel(at, u, m, t.behind[j].value);
      }
    }
  }

  lemma FirstIsOnly(m: seq<Txn>, behind: seq<Option<nat>>, i: nat)
    requires i < |behind| && LevelBefore(m, behind, i) && !IsLevel(m, behind[i])
    ensures forall j :: 0 <= j < |behind| && !IsLevel(m, behind[j]) && LevelBefore(m, behind, j) ==> j == i
    ensures !LevelBefore(m, behind, |behind|)
  {
  }

  predicate LagsUntil(m: seq<Txn>, turns: seq<Turn>, k: nat)
    requires k <= |turns|
  {
    forall j :: 0 <= j < k ==> Lags(m, turns[j])
  }

  lemma WaitsOnce(at: nat -> Coord, u: NodeId, db: Db, turns: seq<Turn>, last: Answer)
    requires Injective(at) && !db.open && turns != [] && Lags(db.log, turns[0])
    ensures Run(at, u, db, turns, last) == Run(at, u, db, turns[1..], last)
  {
    VerdictExactly(at, u, db.log, turns[0]);
    assert After(at, u, db, turns[0]) == (db, []);
    var rest := Run(at, u, db, turns[1..], last);
    assert Prepend([], rest) == rest;
  }

  /** On a closed master the tool makes no request while a slave lags: it waits, and checks again. */
  lemma {:induction false} WaitsForSlaves(at: nat -> Coord, u: NodeId, db: Db, turns: seq<Turn>, last: Answer, k: nat)
    requires Injective(at) && !db.open && k <= |turns| && LagsUntil(db.log, turns, k)
    ensures Run(at, u, db, turns, last) == Run(at, u, db, turns[k..], last)
    decreases k
  {
    if k == 0 {
      assert turns[0..] == turns;
    } else {
      assert Lags(db.log, turns[0]);
      WaitsOnce(at, u, db, turns, last);
      assert LagsUntil(db.log, turns[1..], k - 1) by {
        forall j | 0 <= j < k - 1 ensures Lags(db.log, turns[1..][j]) {
          assert Lags(db.log, turns[j + 1]);
        }
      }
      WaitsForSlaves(at, u, db, turns[1..], last, k - 1);
      assert turns[1..][k - 1..] == turns[k..];
    }
  }

  /** It switches at the first turn that finds the slaves level, and then each of them holds the master's log. */
  lemma SwitchesWhenLevel(at: nat -> Coord, u: NodeId, db: Db, turns: seq<Turn>, last: Answer, k: nat)
    requires Injective(at) && !db.open && k < |turns| && LagsUntil(db.log, turns, k)
    requires AllLevel(db.log, turns[k]) && !turns[k].change.No?
    ensures var o := Run(at, u, db, turns, last);
            && o.requests == [ChangeMaster(turns[k].change)] && o.master == db.log
            && |o.slaves| == |turns[k].behind| && forall f :: f in o.slaves ==> f == Some(db.log)
  {
    WaitsForSlaves(at, u, db, turns, last, k);
    VerdictExactly(at, u, db.log, turns[k]);
    assert turns[k..][0] == turns[k];
  }

  /** If that is refused, it asks to reopen the master, and goes on with the next turn. */
  lemma GoesOnWhenRefused(at: nat -> Coord, u: NodeId, db: Db, turns: seq<Turn>, last: Answer, k: nat)
    requires Injective(at) && !db.open && k < |turns| && LagsUntil(db.log, turns, k)
    requires AllLevel(db.log, turns[k]) && turns[k].change.No? && !turns[k].reopen.Lost?
    ensures var next := if turns[k].reopen.Yes? then Serve(db.(open := true), u, turns[k].pause) else db;
            Run(at, u, db, turns, last) ==
            Prepend([ChangeMaster(No), SetReadWrite(turns[k].reopen)], Run(at, u, next, turns[k + 1..], last))
  {
    WaitsForSlaves(at, u, db, turns, last, k);
    VerdictExactly(at, u, db.log, turns[k]);
    assert turns[k..][0] == turns[k] && turns[k..][1..] == turns[k + 1..];
  }

  /** It reopens the master and stops when somebody is out of reach. */
  lemma StopsOutOfReach(at: nat -> Coord, u: NodeId, db: Db, turns: seq<Turn>, last: Answer, k: nat)
    requires Injective(at) && !db.open && k < |turns| && LagsUntil(db.log, turns, k) && OutOfReach(db.log, turns[k])
    ensures Run(at, u, db, turns, last).requests == [SetReadWrite(turns[k].reopen)]
  {
    WaitsForSlaves(at, u, db, turns, last, k);
    VerdictExactly(at, u, db.log, turns[k]);
    assert turns[k..][0] == turns[k];
  }

  /** It reopens the master when the slaves lag to the end. */
  lemma GivesUp(at: nat -> Coord, u: NodeId, db: Db, turns: seq<Turn>, last: Answer)
    requires Injective(at) && !db.open && LagsUntil(db.log, turns, |turns|)
    ensures Run(at, u, db, turns, last).requests == [SetReadWrite(last)]
  {
    WaitsForSlaves(at, u, db, turns, last, |turns|);
  }

  // ---------- how a run ends ----------

  /** Turn `k` is reached, finds the slaves level, and its changeMaster request ends in `answer`. */
  predicate AsksAt(at: nat -> Coord, u: NodeId, db: Db, turns: seq<Turn>, k: nat, answer: Answer)
    decreases |turns|
  {
    && k < |turns|
    && if k == 0 then Verdict(at, u, db.log, turns[0]) == Some(true) && turns[0].change == answer
       else GoesOn(at, u, db, turns[0]) && AsksAt(at, u, After(at, u, db, turns[0]).0, turns[1..], k - 1, answer)
  }

  ghost predicate Abandons(at: nat -> Coord, u: NodeId, db: Db, turns: seq<Turn>)
  {
    exists k :: AsksAt(at, u, db, turns, k, Lost)
  }

  lemma AbandonsLater(at: nat -> Coord, u: NodeId, db: Db, turns: seq<Turn>)
    requires turns != [] && GoesOn(at, u, db, turns[0])
    ensures Abandons(at, u, db, turns) <==> Abandons(at, u, After(at, u, db, turns[0]).0, turns[1..])
  {
    var next, later := After(at, u, db, turns[0]).0, turns[1..];
    if k: nat :| AsksAt(at, u, db, turns, k, Lost) {
      assert k > 0 && AsksAt(at, u, next, later, k - 1, Lost);
    }
    if k: nat :| AsksAt(at, u, next, later, k, Lost) {
      assert AsksAt(at, u, db, turns, k + 1, Lost);
    }
  }

  predicate EndsWell(r: Request)
  {
    r == ChangeMaster(Yes) || r.SetReadWrite?
  }

  /** The last request is a successful switch or a request to reopen, unless a changeMaster request gets no answer. */
  lemma {:induction false} NeverLeftClosed(at: nat -> Coord, u: NodeId, db: Db, turns: seq<Turn>, last: Answer)
    ensures var requests := Run(at, u, db, turns, last).requests;
            |requests| > 0 && (EndsWell(requests[|requests| - 1]) <==> !Abandons(at, u, db, turns))
    decreases |turns|
  {
    if turns != [] {
      if GoesOn(at, u, db, turns[0]) {
        NeverLeftClosed(at, u, After(at, u, db, turns[0]).0, turns[1..], last);
        AbandonsLater(at, u, db, turns);
      } else {
        assert forall k: nat :: AsksAt(at, u, db, turns, k, Lost) ==> k == 0;
        assert Abandons(at, u, db, turns) <==> AsksAt(at, u, db, turns, 0, Lost);
        var v, requests := Verdict(at, u, db.log, turns[0]), Run(at, u, db, turns, last).requests;
        if v.None? {
          assert requests == [SetReadWrite(turns[0].reopen)];
        } else if v.value && turns[0].change.No? {
          assert v == Some(true) && requests == [ChangeMaster(No), SetReadWrite(Lost)];
        } else {
          assert v == Some(v.value) && requests == [ChangeMaster(turns[0].change)];
        }
      }
    }
  }

  /** Turn `k` is the one that switches. */
  predicate SwitchesAt(at: nat -> Coord, u: NodeId, db: Db, turns: seq<Turn>, k: nat)
  {
    AsksAt(at, u, db, turns, k, Yes)
  }

  /** Clients write `w` transactions between the check and the request of turn `k`. */
  function Rushed(turns: seq<Turn>, k: nat, w: nat): seq<Turn>
    requires k < |turns|
  {
    turns[k := turns[k].(late := w)]
  }

  ghost predicate LosesWith(at: nat -> Coord, u: NodeId, db: Db, turns: seq<Turn>, last: Answer, k: nat, w: nat)
    requires k < |turns|
  {
    Loses(Run(at, u, db, Rushed(turns, k, w), last))
  }

  lemma WrittenGrows(m: seq<Txn>, u: NodeId, n: nat)
    ensures |Written(m, u, n)| == |m| + n
  {
  }

  /** The switching turn itself. */
  lemma LastTurn(at: nat -> Coord, u: NodeId, db: Db, turns: seq<Turn>, last: Answer)
    requires Injective(at) && SwitchesAt(at, u, db, turns, 0)
    ensures LosesNothing(at, u, db, turns, last, 0) <==> (turns[0].behind == [] || !db.open)
  {
    var t := turns[0];
    var slaves := Slaves(db.log, t.behind);
    ConsistentExactly(at, u, db.log, slaves);
    forall w: nat
      ensures var o := Run(at, u, db, Rushed(turns, 0, w), last);
              Switched(o) && o.slaves == slaves && o.master == Serve(db, u, w).log
    {
      assert Verdict(at, u, db.log, Rushed(turns, 0, w)[0]) == Some(true);
    }
    if t.behind != [] && db.open {
      WrittenGrows(db.log, u, 1);
      var o := Run(at, u, db, Rushed(turns, 0, 1), last);
      assert slaves[0] in o.slaves && slaves[0] == Some(db.log) != Some(o.master);
      assert LosesWith(at, u, db, turns, last, 0, 1);
    }
  }

  /** The master is open after a turn exactly if it was open before or a request to reopen it was accepted. */
  lemma AfterOpen(at: nat -> Coord, u: NodeId, db: Db, t: Turn)
    ensures var (next, requests) := After(at, u, db, t);
            next.open <==> db.open || SetReadWrite(Yes) in requests
  {
  }

  /** A later turn loses what it loses, whatever came before. */
  lemma LaterTurn(at: nat -> Coord, u: NodeId, db: Db, turns: seq<Turn>, last: Answer, k: nat, w: nat)
    requires 0 < k < |turns| && GoesOn(at, u, db, turns[0])
    ensures LosesWith(at, u, db, turns, last, k, w)
       <==> LosesWith(at, u, After(at, u, db, turns[0]).0, turns[1..], last, k - 1, w)
  {
    var (next, requests) := After(at, u, db, turns[0]);
    assert Rushed(turns, k, w)[1..] == Rushed(turns[1..], k - 1, w);
    NeverLeftClosed(at, u, next, Rushed(turns[1..], k - 1, w), last);
  }

  /** A switch cannot lose a transaction, however clients time their writes before it. */
  ghost predicate LosesNothing(at: nat -> Coord, u: NodeId, db: Db, turns: seq<Turn>, last: Answer, k: nat)
    requires k < |turns|
  {
    forall w :: !LosesWith(at, u, db, turns, last, k, w)
  }

  /** Turn `j` finds the slaves level with the master's log `m`, and reopens the master when it refuses. */
  predicate Reopens(at: nat -> Coord, u: NodeId, m: seq<Txn>, t: Turn)
  {
    Verdict(at, u, m, t) == Some(true) && t.reopen.Yes?
  }

  ghost predicate ReopensBefore(at: nat -> Coord, u: NodeId, m: seq<Txn>, turns: seq<Turn>, k: nat)
    requires k <= |turns|
  {
    exists j :: 0 <= j < k && Reopens(at, u, m, turns[j])
  }

  lemma ReopensLater(at: nat -> Coord, u: NodeId, m: seq<Txn>, turns: seq<Turn>, k: nat)
    requires 0 < k <= |turns|
    ensures ReopensBefore(at, u, m, turns, k) <==>
            Reopens(at, u, m, turns[0]) || ReopensBefore(at, u, m, turns[1..], k - 1)
  {
    var later, i := turns[1..], k - 1;
    if j :| 0 <= j < k && Reopens(at, u, m, turns[j]) {
      assert j == 0 || Reopens(at, u, m, later[j - 1]);
    }
    if j :| 0 <= j < i && Reopens(at, u, m, later[j]) {
      assert Reopens(at, u, m, turns[j + 1]);
    }
  }

  /** As long as the master is closed its log stands still, so the given turns tell whether it is reopened. */
  lemma {:induction false} OpenAtSwitch(at: nat -> Coord, u: NodeId, db: Db, turns: seq<Turn>, last: Answer, k: nat)
    requires SwitchesAt(at, u, db, turns, k) && !db.open
    ensures SetReadWrite(Yes) in Run(at, u, db, turns, last).requests <==> ReopensBefore(at, u, db.log, turns, k)
    decreases k
  {
    if k > 0 {
      var (next, requests) := After(at, u, db, turns[0]);
      AfterOpen(at, u, db, turns[0]);
      ReopensLater(at, u, db.log, turns, k);
      if !Reopens(at, u, db.log, turns[0]) {
        assert next == db;
        OpenAtSwitch(at, u, next, turns[1..], last, k - 1);
      }
    }
  }

  /**
   That is so exactly when there is no slave to lose it, or the master was closed at the
   start and no earlier turn reopens it.  The loop goes on after a reopening without
   closing the master again.
   */
  lemma SwitchExact(at: nat -> Coord, u: NodeId, db: Db, turns: seq<Turn>, last: Answer, k: nat)
    requires Injective(at) && SwitchesAt(at, u, db, turns, k)
    ensures Switched(Run(at, u, db, turns, last))
    ensures LosesNothing(at, u, db, turns, last, k)
       <==> (turns[k].behind == [] || (!db.open && !ReopensBefore(at, u, db.log, turns, k)))
  {
    LosesUnlessClosed(at, u, db, turns, last, k);
    if !db.open {
      OpenAtSwitch(at, u, db, turns, last, k);
    }
  }

  lemma {:induction false} LosesUnlessClosed(at: nat -> Coord, u: NodeId, db: Db, turns: seq<Turn>, last: Answer, k: nat)
    requires Injective(at) && SwitchesAt(at, u, db, turns, k)
    ensures Switched(Run(at, u, db, turns, last))
    ensures LosesNothing(at, u, db, turns, last, k)
       <==> (turns[k].behind == [] || (!db.open && SetReadWrite(Yes) !in Run(at, u, db, turns, last).requests))
    decreases k
  {
    if k == 0 {
      LastTurn(at, u, db, turns, last);
    } else {
      var (next, requests) := After(at, u, db, turns[0]);
      LosesUnlessClosed(at, u, next, turns[1..], last, k - 1);
      AfterOpen(at, u, db, turns[0]);
      LaterTurns(at, u, db, turns, last, k);
    }
  }

  lemma LaterTurns(at: nat -> Coord, u: NodeId, db: Db, turns: seq<Turn>, last: Answer, k: nat)
    requires 0 < k < |turns| && GoesOn(at, u, db, turns[0])
    ensures LosesNothing(at, u, db, turns, last, k)
       <==> LosesNothing(at, u, After(at, u, db, turns[0]).0, turns[1..], last, k - 1)
  {
    var next, later, j := After(at, u, db, turns[0]).0, turns[1..], k - 1;
    if w :| LosesWith(at, u, db, turns, last, k, w) {
      LaterTurn(at, u, db, turns, last, k, w);
      assert LosesWith(at, u, next, later, last, j, w);
    }
    if w :| LosesWith(at, u, next, later, last, j, w) {
      LaterTurn(at, u, db, turns, last, k, w);
      assert LosesWith(at, u, db, turns, last, k, w);
    }
  }

  /**
   Such a run: the master refuses to give up and is reopened; at the next turn its one
   slave is level, a client writes, and the master gives up.
   */
  lemma LosesAfterReopening(at: nat -> Coord, u: NodeId, m: seq<Txn>)
    requires Injective(at)
    ensures var turns := [Turn(true, [Some(0)], 0, No, Yes, 0), Turn(true, [Some(0)], 1, Yes, No, 0)];
            Loses(Run(at, u, Db(m, false), turns, Yes))
  {
    var refused, accepted := Turn(true, [Some(0)], 0, No, Yes, 0), Turn(true, [Some(0)], 1, Yes, No, 0);
    var turns := [refused, accepted];
    assert m[..|m|] == m && Behind(m, Some(0)) == Some(m);
    assert Slaves(m, [Some(0)]) == [Some(m)];
    ConsistentExactly(at, u, m, [Some(m)]);
    assert Serve(Db(m, true), u, 0) == Db(m, true);
    assert After(at, u, Db(m, false), refused).0 == Db(m, true);
    assert turns[1..] == [accepted];
    LaterTurn(at, u, Db(m, false), turns, Yes, 1, 1);
    WrittenGrows(m, u, 1);
    var o := Run(at, u, Db(m, true), [accepted], Yes);
    assert o.slaves[0] in o.slaves && o.slaves[0] == Some(m) != Some(o.master);
    assert Loses(o);
    assert Rushed(turns, 1, 1) == turns && Rushed([accepted], 0, 1) == [accepted];
  }

  // ---------- the loop itself ----------

  const TURNS: nat := 10

  class Master {
    const uuid: NodeId
    var db: Db

    constructor (uuid: NodeId, db: Db)
      ensures this.uuid == uuid && this.db == db
    {
      this.uuid, this.db := uuid, db;
    }

    /** Clients try to commit `n` transactions. */
    method Clients(n: nat)
      modifies this
      ensures db == Serve(old(db), uuid, n)
    {
      if db.open {
        for i := 0 to n
          invariant db == Serve(old(db), uuid, i)
        {
          db := db.(log := Append(db.log, uuid));
        }
      }
    }
  }

  /**
   The loop after a successful request to close the master: one turn a second, until
   an error or a success ends it; otherwise a last request to reopen.
   */
  method Drive(at: nat -> Coord, master: Master, turns: seq<Turn>, last: Answer) returns (o: Outcome)
    requires |turns| == TURNS
    modifies master
    ensures o == Run(at, master.uuid, old(master.db), turns, last)
  {
    var requests: seq<Request> := [];
    var over: Option<Outcome>;
    for i := 0 to |turns|
      invariant Prepend(requests, Run(at, master.uuid, master.db, turns[i..], last)) ==
                Run(at, master.uuid, old(master.db), turns, last)
    {
      over, requests := NextTurn(at, master, turns, i, requests, last);
      if over.Some? {
        return over.value;
      }
    }
    o := Outcome(requests + [SetReadWrite(last)], [], master.db.log);
  }

  /** Turn `i` after the requests made so far: how the run is over, or the requests made before the next turn. */
  method NextTurn(at: nat -> Coord, master: Master, turns: seq<Turn>, i: nat, sofar: seq<Request>, ghost last: Answer)
    returns (over: Option<Outcome>, requests: seq<Request>)
    requires i < |turns|
    modifies master
    ensures Prepend(sofar, Run(at, master.uuid, old(master.db), turns[i..], last)) ==
            if over.Some? then over.value
            else Prepend(requests, Run(at, master.uuid, master.db, turns[i + 1..], last))
  {
    var made: seq<Request>;
    over, made := OneTurn(at, master, turns[i], turns[i..], last);
    assert turns[i..][1..] == turns[i + 1..];
    if over.Some? {
      return Some(Prepend(sofar, over.value)), [];
    }
    PrependTwice(sofar, made, Run(at, master.uuid, master.db, turns[i + 1..], last));
    requests := sofar + made;
  }

  /** One turn of the loop: how the run is over, or the requests made before the next turn. */
  method OneTurn(at: nat -> Coord, master: Master, t: Turn, ghost turns: seq<Turn>, ghost last: Answer)
    returns (over: Option<Outcome>, requests: seq<Request>)
    requires turns != [] && turns[0] == t
    modifies master
    ensures var all := Run(at, master.uuid, old(master.db), turns, last);
            all == if over.Some? then over.value
                   else Prepend(requests, Run(at, master.uuid, master.db, turns[1..], last))
  {
    var slaves := Slaves(master.db.log, t.behind);
    var verdict: Option<bool> := None;
    if t.reachable {
      verdict := CheckConsistency(at, master.uuid, master.db.log, slaves);
    }
    if verdict.None? {
      return Some(Outcome([SetReadWrite(t.reopen)], [], master.db.log)), [];
    }
    requests := [];
    if verdict.value {
      master.Clients(t.late);
      if !t.change.No? {
        return Some(Outcome([ChangeMaster(t.change)], slaves, master.db.log)), [];
      }
      if t.reopen.Lost? {
        return Some(Outcome([ChangeMaster(No), SetReadWrite(Lost)], [], master.db.log)), [];
      }
      requests := [ChangeMaster(No), SetReadWrite(t.reopen)];
      master.db := Reopen(master.db, t.reopen.Yes?);
    }
    master.Clients(t.pause);
    return None, requests;
  }
}
