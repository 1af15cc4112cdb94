/**
 The event descriptor between the agent and its supervisor.  The agent adds 1 for
 every heartbeat, a booting service adds its process id shifted into the upper half,
 and the kernel hands the supervisor only the sum of what was added since it last read.
 */
module EventFd {

  import opened Prelude

  const HALF: nat := 0x1_0000_0000

  /** The largest value the kernel lets the counter reach. */
  const CAPACITY: nat := 0xFFFF_FFFF_FFFF_FFFE

  /** A process id is what fork returned: a non-negative C `int`, 0 when it failed. */
  type Pid = p: nat | p < 0x8000_0000

  datatype Message = Beat | Boot(pid: Pid)

  function Value(m: Message): nat
  {
    match m
    case Beat => 1
    case Boot(pid) => pid * HALF
  }

  /** The conversion of an unsigned value to a C `int`. */
  function ToInt(x: nat): int
  {
    if x % HALF < HALF / 2 then x % HALF else x % HALF - HALF
  }

  function Sum(ms: seq<Message>): nat
  {
    if ms == [] then 0 else Sum(ms[..|ms| - 1]) + Value(ms[|ms| - 1])
  }

  function Beats(ms: seq<Message>): nat
  {
    if ms == [] then 0 else Beats(ms[..|ms| - 1]) + if ms[|ms| - 1].Beat? then 1 else 0
  }

  /** How many of the messages carry a process id. */
  function Boots(ms: seq<Message>): nat
  {
    if ms == [] then 0 else Boots(ms[..|ms| - 1]) + if Value(ms[|ms| - 1]) > 1 then 1 else 0
  }

  /** What the supervisor should know: the last process id written, or the one it had. */
  function Latest(pid: Pid, ms: seq<Message>): Pid
  {
    if ms == [] then pid
    else if Value(ms[|ms| - 1]) > 1 then ms[|ms| - 1].pid
    else Latest(pid, ms[..|ms| - 1])
  }

  /** What it does know after reading the sum of the messages. */
  function Deliver(pid: Pid, ms: seq<Message>): Pid
  {
    var val := Sum(ms);
    if val > 1 && ToInt(val / HALF) > 0 then ToInt(val / HALF) else pid
  }

  // ---------- what the sum keeps ----------

  /** The sum is one word whose upper half holds the process ids added up, if the heartbeats do not run over. */
  lemma {:induction false} SumSplits(ms: seq<Message>) returns (pids: nat)
    ensures Sum(ms) == pids * HALF + Beats(ms)
    ensures Boots(ms) == 0 ==> pids == 0 && forall pid :: Latest(pid, ms) == pid
    ensures Boots(ms) > 0 ==> forall pid :: 0 < Latest(pid, ms) == Latest(0, ms) <= pids
    ensures Boots(ms) == 1 ==> pids == Latest(0, ms)
    ensures Boots(ms) > 1 ==> pids > Latest(0, ms)
  {
    if ms == [] {
      pids := 0;
    } else {
      pids := SumSplits(ms[..|ms| - 1]);
      if ms[|ms| - 1].Boot? {
        pids := pids + ms[|ms| - 1].pid;
      }
    }
  }

  /** When a batch of messages reads back right: one process id at most, and heartbeats that stay in their half. */
  predicate Clear(ms: seq<Message>)
  {
    || (Boots(ms) <= 1 && Beats(ms) < HALF)
    || (Boots(ms) == 0 && Beats(ms) >= HALF * HALF / 2)   // reads as a negative process id
  }

  /** Whatever the supervisor knew, it is right after the read if and only if the batch is clear. */
  lemma DeliversExactly(ms: seq<Message>)
    requires Sum(ms) <= CAPACITY
    ensures (forall pid :: Deliver(pid, ms) == Latest(pid, ms)) <==> Clear(ms)
  {
    var pids := SumSplits(ms);
    var upper := pids + Beats(ms) / HALF;
    assert Sum(ms) / HALF == upper;
    if Boots(ms) == 0 {
      QuietBatch(ms, upper);
    } else {
      var p := Latest(0, ms);
      assert upper == p <==> Boots(ms) == 1 && Beats(ms) < HALF;
      if upper != p {
        assert ToInt(upper) != p && Latest(0, ms) == p;
        assert Deliver(0, ms) != p;
      }
    }
  }

  /** A batch without a process id. */
  lemma QuietBatch(ms: seq<Message>, upper: nat)
    requires Boots(ms) == 0 && Sum(ms) == Beats(ms) <= CAPACITY && upper == Sum(ms) / HALF
    requires forall pid :: Latest(pid, ms) == pid
    ensures (forall pid :: Deliver(pid, ms) == Latest(pid, ms)) <==> Clear(ms)
  {
    if !Clear(ms) {
      assert 0 < upper < HALF / 2;
      assert Deliver(0, ms) == upper != Latest(0, ms);
    }
  }

  // ---------- any number of reads ----------

  function Flatten(batches: seq<seq<Message>>): seq<Message>
  {
    if batches == [] then [] else Flatten(batches[..|batches| - 1]) + batches[|batches| - 1]
  }

  function DeliverAll(pid: Pid, batches: seq<seq<Message>>): Pid
  {
    if batches == [] then pid
    else Deliver(DeliverAll(pid, batches[..|batches| - 1]), batches[|batches| - 1])
  }

  lemma {:induction false} LatestSplits(pid: Pid, a: seq<Message>, b: seq<Message>)
    ensures Latest(pid, a + b) == Latest(Latest(pid, a), b)
  {
    if b == [] {
      assert a + b == a;
    } else {
      assert (a + b)[..|a + b| - 1] == a + b[..|b| - 1];
      LatestSplits(pid, a, b[..|b| - 1]);
    }
  }

  /** Over any run of writes and reads with clear batches, every read leaves the latest process id. */
  lemma {:induction false} RunDelivers(pid: Pid, batches: seq<seq<Message>>)
    requires forall b :: b in batches ==> Sum(b) <= CAPACITY && Clear(b)
    ensures DeliverAll(pid, batches) == Latest(pid, Flatten(batches))
  {
    if batches != [] {
      var before, last := batches[..|batches| - 1], batches[|batches| - 1];
      RunDelivers(pid, before);
      assert last in batches;
      DeliversExactly(last);
      assert Deliver(Latest(pid, Flatten(before)), last) == Latest(Latest(pid, Flatten(before)), last);
      LatestSplits(pid, Flatten(before), last);
    }
  }

  // ---------- the descriptor and the supervisor ----------

  class Descriptor {
    var counter: nat
    ghost var pending: seq<Message>

    ghost predicate Valid()
      reads this
    {
      counter == Sum(pending) <= CAPACITY
    }

    constructor ()
      ensures Valid() && pending == []
    {
      counter, pending := 0, [];
    }

    /** A write that would overflow the counter blocks, so it is not made. */
    method Write(m: Message)
      requires Valid() && counter + Value(m) <= CAPACITY
      modifies this
      ensures Valid() && pending == old(pending) + [m]
    {
      counter, pending := counter + Value(m), pending + [m];
      assert pending[..|pending| - 1] == old(pending);
    }

    method Read() returns (val: nat)
      requires Valid()
      modifies this
      ensures Valid() && pending == [] && val == Sum(old(pending))
    {
      val := counter;
      counter, pending := 0, [];
    }
  }

  /** One `epoll_wait`: what was written meanwhile, the time it took, and whether a signal or an error ended it. */
  datatype Wait = Wait(arrivals: seq<Message>, elapsed: nat, interrupted: bool, fault: bool)

  /** The messages pending when the first `n` of the waits are over. */
  function Heard(pending: seq<Message>, waits: seq<Wait>, n: nat): seq<Message>
    requires n <= |waits|
    decreases n
  {
    if n == 0 then pending else Heard(pending + waits[0].arrivals, waits[1..], n - 1)
  }

  lemma {:induction false} SumGrows(a: seq<Message>, b: seq<Message>)
    ensures Sum(a) <= Sum(a + b)
  {
    if b == [] {
      assert a + b == a;
    } else {
      assert (a + b)[..|a + b| - 1] == a + b[..|b| - 1];
      SumGrows(a, b[..|b| - 1]);
    }
  }

  lemma {:induction false} HeardGrows(pending: seq<Message>, waits: seq<Wait>)
    ensures Sum(pending) <= Sum(Heard(pending, waits, |waits|))
    decreases |waits|
  {
    if waits != [] {
      SumGrows(pending, waits[0].arrivals);
      HeardGrows(pending + waits[0].arrivals, waits[1..]);
    }
  }

  /** The timeout of wait `i`: half the one before, plus 1. */
  function TimeoutAt(timeout: nat, i: nat): nat
    decreases i
  {
    if i == 0 then timeout else TimeoutAt(timeout, i - 1) / 2 + 1
  }

  /** The time the first `n` waits take, each cut off at its own timeout. */
  function Waited(timeout: nat, waits: seq<Wait>, n: nat): nat
    requires n <= |waits|
    decreases n
  {
    if n == 0 then 0
    else Waited(timeout, waits, n - 1) + if waits[n - 1].elapsed < TimeoutAt(timeout, n - 1) then waits[n - 1].elapsed
                                         else TimeoutAt(timeout, n - 1)
  }

  lemma {:induction false} TimeoutLater(timeout: nat, i: nat)
    ensures TimeoutAt(timeout, i + 1) == TimeoutAt(timeout / 2 + 1, i)
    ensures TimeoutAt(timeout, i + 1) >= 1
    decreases i
  {
    if i > 0 {
      TimeoutLater(timeout, i - 1);
    } else {
      assert TimeoutAt(timeout, 1) == TimeoutAt(timeout, 0) / 2 + 1;
    }
  }

  lemma {:induction false} WaitedLater(timeout: nat, waits: seq<Wait>, n: nat)
    requires 0 < n <= |waits|
    ensures Waited(timeout, waits, n) ==
            (if waits[0].elapsed < timeout then waits[0].elapsed else timeout) + Waited(timeout / 2 + 1, waits[1..], n - 1)
    decreases n
  {
    if n == 1 {
      assert Waited(timeout, waits, 0) == 0;
    } else {
      WaitedLater(timeout, waits, n - 1);
      TimeoutLater(timeout, n - 2);
    }
  }

  lemma FirstWait(timeout: nat, half: nat, waits: seq<Wait>, n: nat)
    requires waits != [] && n < |waits| && half == timeout / 2 + 1
    ensures Waited(timeout, waits, n + 1) ==
            (if waits[0].elapsed < timeout then waits[0].elapsed else timeout) + Waited(half, waits[1..], n)
  {
    WaitedLater(timeout, waits, n + 1);
  }

  /** Interruptions cannot stretch the wait by more than 2 ms each beyond twice the first timeout. */
  lemma {:induction false} WaitedBounded(timeout: nat, waits: seq<Wait>, k: nat)
    requires k <= |waits|
    ensures Waited(timeout, waits, k) <= 2 * timeout + 2 * k
    ensures k < |waits| ==> Waited(timeout, waits, k + 1) <= 2 * timeout + 2 * k
    decreases k
  {
    if k < |waits| {
      WaitedLater(timeout, waits, k + 1);
    }
    if k > 0 {
      WaitedLater(timeout, waits, k);
      WaitedBounded(timeout / 2 + 1, waits[1..], k - 1);
    }
  }

  /** The result of waiting, and what it leaves: the process id known and the messages still pending. */
  predicate After(r: Option<int>, fault: bool, heard: seq<Message>, known: Pid, pid: Pid, pending: seq<Message>)
  {
    && (r.Some? ==> r == Some(if fault then -2 else if Sum(heard) == 0 then 0 else 1))
    && pid == (if r == Some(1) then Deliver(known, heard) else known)
    && pending == if r == Some(1) then [] else heard
  }

  /** How many waits were used, when `k` of them were interrupted. */
  function Used(r: Option<int>, k: nat): nat
  {
    if r.Some? then k + 1 else k
  }

  class Supervisor {
    const events: Descriptor
    var servicePid: Pid

    constructor (events: Descriptor)
      ensures this.events == events && servicePid == 0
    {
      this.events, servicePid := events, 0;
    }

    method Receive(ms: seq<Message>)
      requires events.Valid() && Sum(events.pending + ms) <= CAPACITY
      modifies events
      ensures events.Valid() && events.pending == old(events.pending) + ms
    {
      for i := 0 to |ms|
        invariant events.Valid() && events.pending == old(events.pending) + ms[..i]
      {
        var sofar, next := old(events.pending) + ms[..i], old(events.pending) + ms[..i + 1];
        assert next == sofar + [ms[i]] && next[..|next| - 1] == sofar;
        assert next + ms[i + 1..] == old(events.pending) + ms;
        SumGrows(next, ms[i + 1..]);
        events.Write(ms[i]);
      }
      assert ms[..|ms|] == ms;
    }

    method ReadPid()
      requires events.Valid()
      modifies `servicePid, events
      ensures events.Valid() && events.pending == []
      ensures servicePid == Deliver(old(servicePid), old(events.pending))
    {
      var val := events.Read();
      if val > 1 {
        var spid := ToInt(val / HALF);
        if spid > 0 {
          servicePid := spid;
        }
      }
    }

    /** One wait, and the read that follows if something was written; no result when interrupted. */
    method Poll(w: Wait) returns (r: Option<int>)
      requires events.Valid() && Sum(events.pending + w.arrivals) <= CAPACITY
      modifies `servicePid, events
      ensures events.Valid() && r.None? == w.interrupted
      ensures var heard := old(events.pending) + w.arrivals;
              After(r, w.fault, heard, old(servicePid), servicePid, events.pending)
    {
      Receive(w.arrivals);
      if w.interrupted {
        r := None;
      } else if w.fault {
        r := Some(-2);
      } else if events.counter == 0 {
        r := Some(0);
      } else {
        ReadPid();
        r := Some(1);
      }
    }

    /**
     Waits for the agent to be heard of: 1 when it is, 0 on a timeout, -2 on an error,
     nothing while the waits given are all interrupted.  `k` interruptions were survived:
     they lose no message, and cost at most 2 ms each beyond twice the timeout.
     */
    method DetectChildAlive(timeout: nat, waits: seq<Wait>) returns (r: Option<int>, k: nat, elapsed: nat)
      requires events.Valid() && Sum(Heard(events.pending, waits, |waits|)) <= CAPACITY
      modifies `servicePid, events
      ensures events.Valid() && elapsed <= 2 * timeout + 2 * k
      ensures k <= |waits| && (forall i :: 0 <= i < k ==> waits[i].interrupted)
      ensures if r.None? then k == |waits| else k < |waits| && !waits[k].interrupted
      ensures elapsed == Waited(timeout, waits, Used(r, k))
      ensures After(r, r.Some? && waits[k].fault, Heard(old(events.pending), waits, Used(r, k)),
                    old(servicePid), servicePid, events.pending)
    {
      r, k, elapsed := Detect(timeout, waits);
      WaitedBounded(timeout, waits, k);
    }

    method Detect(timeout: nat, waits: seq<Wait>) returns (r: Option<int>, k: nat, elapsed: nat)
      requires events.Valid() && Sum(Heard(events.pending, waits, |waits|)) <= CAPACITY
      modifies `servicePid, events
      ensures events.Valid()
      ensures k <= |waits| && (forall i :: 0 <= i < k ==> waits[i].interrupted)
      ensures if r.None? then k == |waits| else k < |waits| && !waits[k].interrupted
      ensures elapsed == Waited(timeout, waits, Used(r, k))
      ensures After(r, r.Some? && waits[k].fault, Heard(old(events.pending), waits, Used(r, k)),
                    old(servicePid), servicePid, events.pending)
      decreases |waits|
    {
      if waits == [] {
        return None, 0, 0;
      }
      var w := waits[0];
      HeardGrows(events.pending + w.arrivals, waits[1..]);
      r := Poll(w);
      k, elapsed := 0, if w.elapsed < timeout then w.elapsed else timeout;
      if r.None? {
        var half := timeout / 2 + 1;
        var more: nat;
        r, k, more := Detect(half, waits[1..]);
        FirstWait(timeout, half, waits, Used(r, k));
        k, elapsed := k + 1, elapsed + more;
      } else {
        FirstWait(timeout, timeout / 2 + 1, waits, 0);
      }
    }
  }
}
