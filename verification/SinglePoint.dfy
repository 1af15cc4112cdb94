/**
 How a single point master finds out that it is no longer alone: it polls the
 registry twice, one registration lifetime apart.

 Times are in milliseconds.  Every registration is put under a fresh lease of `ttl`
 seconds, the same for all agents; it is there until that lease ends, and gone at most
 `late` milliseconds after.
 */
module SinglePoint {

  import opened Prelude

  /** The times at which each agent registered. */
  type Registry = map<NodeId, set<nat>>

  /** A registration made at `r` and kept for `life` is there at `t`. */
  predicate Holds(life: nat, r: nat, t: nat)
  {
    r <= t < r + life
  }

  predicate Registered(life: nat, times: set<nat>, t: nat)
  {
    exists r :: r in times && Holds(life, r, t)
  }

  /** The agents with a registration that is there at `t`, if registrations are kept for `life`. */
  function AgentsAt(life: nat, registry: Registry, t: nat): set<NodeId>
  {
    set n | n in registry && Registered(life, registry[n], t)
  }

  /** What a poll at time `t` may find: everyone whose lease runs, and nobody whose lease is gone for good. */
  predicate Plausible(ttl: nat, late: nat, registry: Registry, t: nat, agents: set<NodeId>)
  {
    AgentsAt(ttl * 1000, registry, t) <= agents <= AgentsAt(ttl * 1000 + late, registry, t)
  }

  /** Everyone the poll at `t` found has registered after `since`, or less than `late` before. */
  ghost predicate FreshEvidence(late: nat, registry: Registry, t: nat, agents: set<NodeId>, since: nat)
  {
    forall n :: n in agents ==> n in registry && exists r :: r in registry[n] && since < r + late && r <= t
  }

  /** A poll a whole lifetime later finds nobody on older evidence. */
  lemma PollIsFresh(ttl: nat, late: nat, registry: Registry, t: nat, agents: set<NodeId>, since: nat)
    requires Plausible(ttl, late, registry, t, agents) && since + ttl * 1000 <= t
    ensures FreshEvidence(late, registry, t, agents, since)
  {
    forall n | n in agents ensures n in registry && exists r :: r in registry[n] && since < r + late && r <= t {
      assert n in AgentsAt(ttl * 1000 + late, registry, t);
      var r :| r in registry[n] && Holds(ttl * 1000 + late, r, t);
      assert since < r + late && r <= t;
    }
  }

  /** With punctual leases the evidence is newer than `since`; with late ones it need not be. */
  lemma LatenessExact(ttl: nat, late: nat, since: nat)
    requires 0 < since
    ensures (forall registry, t, agents ::
               Plausible(ttl, late, registry, t, agents) && since + ttl * 1000 <= t ==>
                 FreshEvidence(0, registry, t, agents, since))
       <==> late == 0
  {
    if late == 0 {
      forall registry, t, agents | Plausible(ttl, late, registry, t, agents) && since + ttl * 1000 <= t
        ensures FreshEvidence(0, registry, t, agents, since)
      {
        PollIsFresh(ttl, 0, registry, t, agents, since);
      }
    } else {
      var registry: Registry := map[0 := {since}];
      var t := since + ttl * 1000;
      assert Holds(ttl * 1000 + late, since, t) && since in registry[0];
      var agents := AgentsAt(ttl * 1000 + late, registry, t);
      assert 0 in agents && AgentsAt(ttl * 1000, registry, t) <= agents;
      assert !FreshEvidence(0, registry, t, agents, since);
    }
  }

  /** At least two agents are registered at every time from `since` on. */
  ghost predicate Company(ttl: nat, registry: Registry, since: nat)
  {
    forall t :: since <= t ==> |AgentsAt(ttl * 1000, registry, t)| > 1
  }

  /** One poll: how much later than its sleep it runs, and whether etcd answers. */
  datatype Poll = Poll(slack: nat, ok: bool)

  const RETRY: nat := 5000

  /** Poll `j`, made at `times[j]`, was answered and counted more than one agent. */
  predicate Found(seen: nat -> set<NodeId>, polls: seq<Poll>, times: seq<nat>, j: nat)
    requires |times| <= |polls|
  {
    j < |times| && polls[j].ok && |seen(times[j])| > 1
  }

  /**
   The sleep after poll `j`: a lifetime when it found company that is to be confirmed, none
   when it was to confirm and was not answered, and otherwise the usual one.
   */
  function SleepAfter(ttl: nat, seen: nat -> set<NodeId>, polls: seq<Poll>, times: seq<nat>, j: nat): nat
    requires j < |times| <= |polls|
  {
    if Found(seen, polls, times, j) then ttl * 1000
    else if 0 < j && Found(seen, polls, times, j - 1) && !polls[j].ok then 0
    else RETRY
  }

  /** Poll `j` is made when the sleep after the one before is over, plus its own slack. */
  predicate Spaced(ttl: nat, seen: nat -> set<NodeId>, polls: seq<Poll>, times: seq<nat>, j: nat)
    requires 0 < j < |times| <= |polls|
  {
    times[j] == times[j - 1] + SleepAfter(ttl, seen, polls, times, j - 1) + polls[j].slack
  }

  ghost predicate InTime(ttl: nat, seen: nat -> set<NodeId>, start: nat, polls: seq<Poll>, times: seq<nat>)
    requires |times| <= |polls|
  {
    && (times != [] ==> times[0] == start + ttl * 1000 + polls[0].slack)
    && forall j :: 0 < j < |times| ==> Spaced(ttl, seen, polls, times, j)
  }

  predicate FoundBoth(seen: nat -> set<NodeId>, polls: seq<Poll>, times: seq<nat>, j: nat)
    requires |times| <= |polls|
  {
    Found(seen, polls, times, j) && Found(seen, polls, times, j + 1)
  }

  /** Two polls in a row have found company. */
  ghost predicate FoundTwice(seen: nat -> set<NodeId>, polls: seq<Poll>, times: seq<nat>)
    requires |times| <= |polls|
  {
    exists j :: FoundBoth(seen, polls, times, j)
  }

  lemma NextPoll(ttl: nat, start: nat, seen: nat -> set<NodeId>, polls: seq<Poll>, times: seq<nat>, now: nat)
    requires |times| < |polls| && InTime(ttl, seen, start, polls, times)
    requires times == [] ==> now == start + ttl * 1000
    requires times != [] ==> now == times[|times| - 1] + SleepAfter(ttl, seen, polls, times, |times| - 1)
    ensures InTime(ttl, seen, start, polls, times + [now + polls[|times|].slack])
    ensures var more := times + [now + polls[|times|].slack];
            forall j: nat :: j < |times| ==> Found(seen, polls, more, j) == Found(seen, polls, times, j)
    ensures var more := times + [now + polls[|times|].slack];
            FoundTwice(seen, polls, more) <==>
            FoundTwice(seen, polls, times) || (0 < |times| && FoundBoth(seen, polls, more, |times| - 1))
  {
    var more := times + [now + polls[|times|].slack];
    forall j | 0 < j < |more| ensures Spaced(ttl, seen, polls, more, j) {
      assert j < |times| ==> Spaced(ttl, seen, polls, times, j);
    }
    if j: nat :| FoundBoth(seen, polls, more, j) {
      assert j == |times| - 1 || FoundBoth(seen, polls, times, j);
    }
    if j: nat :| FoundBoth(seen, polls, times, j) {
      assert FoundBoth(seen, polls, more, j);
    }
  }

  /** Polls are five seconds or a lifetime apart, unless a confirming poll was not answered. */
  lemma PollsApart(ttl: nat, seen: nat -> set<NodeId>, start: nat, polls: seq<Poll>, times: seq<nat>, j: nat)
    requires |times| <= |polls| && InTime(ttl, seen, start, polls, times) && 0 < j < |times|
    requires polls[j - 1].ok || j == 1 || !Found(seen, polls, times, j - 2)
    ensures times[j] >= times[j - 1] + if Found(seen, polls, times, j - 1) then ttl * 1000 else 5000
  {
    assert Spaced(ttl, seen, polls, times, j);
  }

  /** Company from `since` on is found by any two polls in a row that are answered. */
  lemma CompanyFound(ttl: nat, late: nat, registry: Registry, seen: nat -> set<NodeId>, start: nat,
                     polls: seq<Poll>, times: seq<nat>, since: nat, j: nat)
    requires forall t :: Plausible(ttl, late, registry, t, seen(t))
    requires |times| <= |polls| && InTime(ttl, seen, start, polls, times) && j + 1 < |times|
    requires Company(ttl, registry, since) && since <= times[j] && polls[j].ok && polls[j + 1].ok
    ensures FoundTwice(seen, polls, times)
  {
    assert Spaced(ttl, seen, polls, times, j + 1);
    CompanySeen(ttl, late, registry, times[j], seen(times[j]), since);
    CompanySeen(ttl, late, registry, times[j + 1], seen(times[j + 1]), since);
    assert FoundBoth(seen, polls, times, j);
  }

  /**
   Waits, from time `start`, for the given polls; `seen` is what a poll finds at a time, and
   `times` says when the polls were made.  It returns with `done` exactly when two polls in
   a row, the second a lifetime after the first, have each counted more than one agent; until
   then it goes on polling.  The first of the two counts registrations made since the waiting
   began and the second registrations made since the first, up to the lateness of etcd.
   */
  method WaitUntilSlaveAppears(ttl: nat, late: nat, registry: Registry, seen: nat -> set<NodeId>, start: nat, polls: seq<Poll>)
    returns (done: bool, times: seq<nat>)
    requires forall t :: Plausible(ttl, late, registry, t, seen(t))
    ensures |times| <= |polls| && InTime(ttl, seen, start, polls, times)
    ensures !done ==> |times| == |polls|
    ensures done <==> FoundTwice(seen, polls, times)
    ensures done ==>
              var n := |times|;
              && 2 <= n && FoundBoth(seen, polls, times, n - 2)
              && start + ttl * 1000 <= times[n - 2] && times[n - 2] + ttl * 1000 <= times[n - 1]
              && FreshEvidence(late, registry, times[n - 2], seen(times[n - 2]), start)
              && FreshEvidence(late, registry, times[n - 1], seen(times[n - 1]), times[n - 2])
  {
    done, times := false, [];
    var now := start + ttl * 1000;
    var confirming := false;
    while |times| < |polls|
      invariant |times| <= |polls| && InTime(ttl, seen, start, polls, times) && !FoundTwice(seen, polls, times)
      invariant times == [] ==> now == start + ttl * 1000
      invariant times != [] ==> start + ttl * 1000 <= times[|times| - 1]
      invariant times != [] ==> now == times[|times| - 1] + SleepAfter(ttl, seen, polls, times, |times| - 1)
      invariant confirming <==> times != [] && Found(seen, polls, times, |times| - 1)
    {
      var i := |times|;
      NextPoll(ttl, start, seen, polls, times, now);
      now := now + polls[i].slack;
      times := times + [now];
      var found := polls[i].ok && |seen(now)| > 1;
      if confirming && found {
        PollIsFresh(ttl, late, registry, times[i - 1], seen(times[i - 1]), start);
        PollIsFresh(ttl, late, registry, now, seen(now), times[i - 1]);
        assert FoundBoth(seen, polls, times, i - 1);
        done := true;
        return;
      }
      if confirming && !polls[i].ok {
        confirming := false;              // the confirming poll failed: poll again at once
      } else if found {
        confirming, now := true, now + ttl * 1000;
      } else {
        confirming, now := false, now + RETRY;
      }
    }
  }

  lemma {:induction false} Larger(a: set<NodeId>, b: set<NodeId>)
    requires a <= b
    ensures |a| <= |b|
    decreases |a|
  {
    if a != {} {
      var x :| x in a;
      Larger(a - {x}, b - {x});
    }
  }

  lemma CompanySeen(ttl: nat, late: nat, registry: Registry, t: nat, agents: set<NodeId>, since: nat)
    requires Plausible(ttl, late, registry, t, agents) && since <= t
    ensures Company(ttl, registry, since) ==> |agents| > 1
  {
    Larger(AgentsAt(ttl * 1000, registry, t), agents);
  }

  // ---------- staying registered ----------

  /** The agent's ticker re-registers it every so many milliseconds. */
  function Period(ttl: nat): nat
  {
    (ttl / 3 + 1) * 1000
  }

  /** Registration times, one per tick, each at most `lag` late. */
  ghost predicate Prompt(ttl: nat, lag: nat, times: seq<nat>)
  {
    forall i :: 0 <= i < |times| - 1 ==> times[i] <= times[i + 1] <= times[i] + Period(ttl) + lag
  }

  function AsSet(times: seq<nat>): set<nat>
  {
    set t | t in times
  }

  ghost predicate AlwaysRegistered(ttl: nat, times: seq<nat>)
  {
    forall t :: times != [] && times[0] <= t < times[|times| - 1] ==> Registered(ttl * 1000, AsSet(times), t)
  }

  /** Between two ticks the earlier registration is still there, if the ticks are no further apart than its lifetime. */
  lemma {:induction false} NoGap(ttl: nat, lag: nat, times: seq<nat>, t: nat)
    requires Prompt(ttl, lag, times) && Period(ttl) + lag <= ttl * 1000
    requires times != [] && times[0] <= t < times[|times| - 1]
    ensures Registered(ttl * 1000, AsSet(times), t)
  {
    var n := |times| - 1;
    if times[n - 1] <= t {
      assert times[n - 1] in AsSet(times) && Holds(ttl * 1000, times[n - 1], t);
    } else {
      var before := times[..n];
      NoGap(ttl, lag, before, t);
      var r :| r in AsSet(before) && Holds(ttl * 1000, r, t);
      assert r in AsSet(times);
    }
  }

  /**
   Every agent that re-registers with at most `lag` delay stays registered, if and
   only if the lag is within what the period leaves of the lifetime.  For lifetimes of
   2 seconds and more that is at least a second; for a lifetime of 1 second nothing.
   */
  lemma StaysRegisteredExactly(ttl: nat, lag: nat)
    requires 0 < ttl
    ensures (forall times :: Prompt(ttl, lag, times) ==> AlwaysRegistered(ttl, times)) <==> lag <= (ttl - ttl / 3 - 1) * 1000
    ensures 2 <= ttl ==> 1000 <= (ttl - ttl / 3 - 1) * 1000
  {
    if lag <= (ttl - ttl / 3 - 1) * 1000 {
      forall times | Prompt(ttl, lag, times) ensures AlwaysRegistered(ttl, times) {
        forall t | times != [] && times[0] <= t < times[|times| - 1] ensures Registered(ttl * 1000, AsSet(times), t) {
          NoGap(ttl, lag, times, t);
        }
      }
    } else {
      var times := [0, Period(ttl) + lag];
      assert Prompt(ttl, lag, times);
      var t := ttl * 1000;
      assert times[0] <= t < times[|times| - 1];
      assert !Registered(ttl * 1000, AsSet(times), t);
    }
  }
}
