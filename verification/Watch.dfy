/** Watching the leader key until it is deleted. */
module Watch {

  import opened Prelude
  import opened Cluster
  import opened KeyHistory
  import opened Terms

  /** How a watch channel ends once it has delivered its last event. */
  datatype Ending = Closed | Failed | Canceled

  /**
   One established watch: how long the key's history was when it was established,
   how many events it delivered, and how it ended.
   */
  datatype Channel = Channel(at: nat, delivered: nat, ending: Ending)

  /** Revision `r` is entry `r - 1` of the history; revision 0 asks for new events only. */
  function From(revision: nat, ch: Channel): nat
  {
    if revision == 0 then ch.at else revision - 1
  }

  /** The entries a channel delivered end here. */
  function Upto(history: seq<KeyEvent>, revision: nat, ch: Channel): nat
  {
    var end := From(revision, ch) + ch.delivered;
    if end < |history| then end else |history|
  }

  ghost predicate NoDelete(history: seq<KeyEvent>, lo: nat, hi: nat)
  {
    forall k :: lo <= k < hi && k < |history| ==> history[k].Put?
  }

  /** Entry `i` is the first deletion at or after `lo`. */
  ghost predicate FirstDelete(history: seq<KeyEvent>, lo: nat, i: nat)
  {
    lo <= i < |history| && history[i].Delete? && NoDelete(history, lo, i)
  }

  datatype Outcome = Deleted(index: nat) | Error | Ended | Waiting

  /**
   The watch loop over the channels it is given one after the other: it returns at
   the first deletion delivered, at an error or at a cancellation, and opens the
   next channel, from the same revision, when one closes.
   */
  method WatchLeader(history: seq<KeyEvent>, revision: nat, channels: seq<Channel>)
    returns (outcome: Outcome, used: nat)
    ensures used <= |channels|
    ensures forall j :: 0 <= j < used ==> NoDelete(history, From(revision, channels[j]), Upto(history, revision, channels[j]))
    ensures forall j :: 0 <= j < used - 1 ==> channels[j].ending.Closed?
    ensures outcome.Waiting? ==> used == |channels| && (0 < used ==> channels[used - 1].ending.Closed?)
    ensures outcome.Error? ==> 0 < used && channels[used - 1].ending.Failed?
    ensures outcome.Ended? ==> 0 < used && channels[used - 1].ending.Canceled?
    ensures outcome.Deleted? ==>
              && used < |channels| && (0 < used ==> channels[used - 1].ending.Closed?)
              && FirstDelete(history, From(revision, channels[used]), outcome.index)
              && outcome.index < Upto(history, revision, channels[used])
  {
    used := 0;
    while used < |channels|
      invariant used <= |channels|
      invariant forall j :: 0 <= j < used ==> channels[j].ending.Closed?
      invariant forall j :: 0 <= j < used ==> NoDelete(history, From(revision, channels[j]), Upto(history, revision, channels[j]))
    {
      var ch := channels[used];
      var k := From(revision, ch);
      while k < Upto(history, revision, ch)
        invariant From(revision, ch) <= k
        invariant NoDelete(history, From(revision, ch), k)
      {
        if history[k].Delete? {
          return Deleted(k), used;
        }
        k := k + 1;
      }
      used := used + 1;
      if ch.ending.Failed? {
        return Error, used;
      }
      if ch.ending.Canceled? {
        return Ended, used;
      }
    }
    return Waiting, used;
  }

  lemma FirstDeleteUnique(history: seq<KeyEvent>, lo: nat, i: nat, j: nat)
    requires FirstDelete(history, lo, i) && FirstDelete(history, lo, j)
    ensures i == j
  {
  }

  /** Channel `j` delivers the event at `end`, after channels that merely closed. */
  ghost predicate DeliversIn(history: seq<KeyEvent>, revision: nat, channels: seq<Channel>, end: nat, j: nat)
  {
    && j < |channels| && end < Upto(history, revision, channels[j])
    && forall i :: 0 <= i < j ==> channels[i].ending.Closed?
  }

  ghost predicate Delivers(history: seq<KeyEvent>, revision: nat, channels: seq<Channel>, end: nat)
  {
    exists j :: DeliversIn(history, revision, channels, end, j)
  }

  /** A channel from a revision delivers an event if and only if it delivers that many from there on. */
  lemma DeliveredExactly(history: seq<KeyEvent>, revision: nat, ch: Channel, end: nat)
    requires 0 < revision <= end + 1 && end < |history|
    ensures end < Upto(history, revision, ch) <==> end - (revision - 1) < ch.delivered
  {
  }

  /**
   A watch from the revision the leader was read at finds exactly the end of that
   reign, whatever the number and the fate of the channels, and finds it whenever one
   of them delivers it before an error or a cancellation.
   */
  method WatchReign(history: seq<KeyEvent>, revision: nat, channels: seq<Channel>, end: nat)
    returns (outcome: Outcome)
    requires 0 < revision && FirstDelete(history, revision - 1, end)
    ensures outcome.Deleted? ==> outcome.index == end
    ensures outcome.Deleted? <==> Delivers(history, revision, channels, end)
  {
    var used: nat;
    outcome, used := WatchLeader(history, revision, channels);
    if outcome.Deleted? {
      FirstDeleteUnique(history, revision - 1, outcome.index, end);
      assert DeliversIn(history, revision, channels, end, used);
    }
  }

  /**
   After an error the agent watches again without a revision, which reports only
   new events: it finds the end of the reign it validated if and only if that end
   has not happened yet when the watch is established.
   */
  lemma LatestWatchExact(history: seq<KeyEvent>, revision: nat, at: nat, end: nat, found: nat)
    requires 0 < revision <= at + 1
    requires FirstDelete(history, revision - 1, end) && FirstDelete(history, at, found)
    ensures found == end <==> at <= end
  {
    if at <= end {
      assert FirstDelete(history, at, end);
      FirstDeleteUnique(history, at, found, end);
    }
  }

  /**
   It happens: `x` is deleted and `y` elected before the watch is established, the end of
   the reign of `x` at entry 1 is missed, and only that of `y` at entry 3 is returned.
   */
  method MissesEnd(x: NodeId, y: NodeId) returns (outcome: Outcome)
    ensures FirstDelete([Put(x), Delete, Put(y), Delete], 0, 1)
    ensures outcome == Deleted(3)
  {
    var history, ch := [Put(x), Delete, Put(y), Delete], Channel(2, 2, Closed);
    assert From(0, ch) == 2 && Upto(history, 0, ch) == 4;
    assert history[3].Delete? && FirstDelete(history, 2, 3) && !NoDelete(history, 2, 4);
    var used: nat;
    outcome, used := WatchLeader(history, 0, [ch]);
    if used == 0 {
      FirstDeleteUnique(history, 2, outcome.index, 3);
    }
  }

  // ---------- the watch of an admitted agent ----------

  /** Entry `end` of the history ends the reign that the view was read in. */
  ghost predicate EndsReign(history: seq<KeyEvent>, v: View, end: nat)
  {
    && v.leader.Some? && 0 < v.rev && FirstDelete(history, v.rev - 1, end)
    && forall k :: v.rev - 1 <= k < end ==> history[k] == Put(v.leader.value)
  }

  /** The first deletion after the revision read ends the reign of the leader read, and of no other. */
  lemma FirstDeleteEndsReign(c: Config, steps: seq<Step>, n: NodeId, end: nat)
    requires Legal(c, Init(c), steps)
    requires var s := Exec(c, Init(c), steps); n in s.agents && s.agents[n].phase.Watching?
    ensures var s := Exec(c, Init(c), steps);
            var v := s.agents[n].phase.view;
            && v.leader.Some? && 1 <= v.rev <= |s.store.events|
            && (FirstDelete(s.store.events, v.rev - 1, end) ==> EndsReign(s.store.events, v, end))
            && (NoDelete(s.store.events, v.rev - 1, |s.store.events|) ==> Owns(s.store, v.leader.value))
  {
    RunKey(c, Init(c), steps);
    var s := Exec(c, Init(c), steps);
    var v := s.agents[n].phase.view;
    assert ViewKnown(s.store.events, s.agents[n]) && ViewOf(s.agents[n].phase) == Some(v);
    if FirstDelete(s.store.events, v.rev - 1, end) {
      forall k | v.rev - 1 <= k < end ensures s.store.events[k] == Put(v.leader.value) {
        WatchFromView(c, steps, n, k);
      }
    }
    if NoDelete(s.store.events, v.rev - 1, |s.store.events|) {
      WatchFromView(c, steps, n, |s.store.events| - 1);
    }
  }

  /**
   In every run: an agent that watches from the view it was admitted with stops at the end
   of that leader's reign and at no other deletion, and does stop there whenever a channel
   delivers it.  While there is no such end, that leader holds the key.
   */
  method WatchAdmitted(ghost c: Config, ghost steps: seq<Step>, ghost n: NodeId,
                       events: seq<KeyEvent>, v: View, channels: seq<Channel>)
    returns (outcome: Outcome)
    requires Legal(c, Init(c), steps)
    requires var s := Exec(c, Init(c), steps);
             n in s.agents && s.agents[n].phase == Watching(v) && events == s.store.events
    ensures outcome.Deleted? ==> EndsReign(events, v, outcome.index)
    ensures outcome.Deleted? <==> exists end :: EndsReign(events, v, end) && Delivers(events, v.rev, channels, end)
    ensures v.leader.Some?
    ensures (forall end :: !EndsReign(events, v, end)) ==> Owns(Exec(c, Init(c), steps).store, v.leader.value)
  {
    FirstDeleteEndsReign(c, steps, n, 0);
    var used: nat;
    outcome, used := WatchLeader(events, v.rev, channels);
    if outcome.Deleted? {
      FirstDeleteEndsReign(c, steps, n, outcome.index);
      assert DeliversIn(events, v.rev, channels, outcome.index, used);
    }
    FirstDeleteOrNone(c, steps, n);
  }

  lemma FirstDeleteOrNone(c: Config, steps: seq<Step>, n: NodeId)
    requires Legal(c, Init(c), steps)
    requires var s := Exec(c, Init(c), steps); n in s.agents && s.agents[n].phase.Watching?
    ensures var s := Exec(c, Init(c), steps);
            var v := s.agents[n].phase.view;
            v.leader.Some? && ((forall end :: !EndsReign(s.store.events, v, end)) ==> Owns(s.store, v.leader.value))
  {
    FirstDeleteEndsReign(c, steps, n, 0);
    var s := Exec(c, Init(c), steps);
    var v := s.agents[n].phase.view;
    if !NoDelete(s.store.events, v.rev - 1, |s.store.events|) {
      var end := FindDelete(s.store.events, v.rev - 1);
      FirstDeleteEndsReign(c, steps, n, end);
    }
  }

  lemma FindDelete(history: seq<KeyEvent>, lo: nat) returns (i: nat)
    requires !NoDelete(history, lo, |history|)
    ensures FirstDelete(history, lo, i)
  {
    i := lo;
    while i < |history| && history[i].Put?
      invariant lo <= i && NoDelete(history, lo, i)
    {
      i := i + 1;
    }
  }
}
