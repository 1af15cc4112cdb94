/**
 The goroutines that begin and end a reign, step by step: the leader loop, which opens the
 database and, if that fails, closes it again and stops the reign; any number of calls of
 `Close`; the changeMaster handler; the keep-alive loop; and requests by hand.  A failed
 call that closes the database ends the process, except in the leader loop of a resumed
 reign, which ignores it.
 */
module Shutdown {

  /** Where a call of `Close` stands. */
  datatype Closer = Called | Locking | Locked | Detached | Left

  datatype Handler = Resting | Answering | Stopping | Answered

  datatype Keeper = Renewing | Leaving | Closing | Returned

  /** The leader loop: opening the database, done with that, or failed and undoing it; `closed` tells whether that worked. */
  datatype Loop = Opening | Serving | Undoing | Undone(closed: bool) | Dropped(closed: bool)

  /**
   - `resume`: the leadership was resumed, not won by a campaign;
   - `writable`: the database takes writes; `handle`: the connection to it is open;
   - `cancelled`: the server's context is; `stopped`: the reign's stop channel is closed;
   - `bodies` counts the calls of `Close` that got past their test.
   */
  datatype Process = Process(resume: bool, writable: bool, handle: bool,
                             isClosed: bool, cancelled: bool, stopped: bool, exited: bool,
                             closers: map<nat, Closer>, handler: Handler, keeper: Keeper, loop: Loop, bodies: nat)

  datatype Move =
    | Call(i: nat) | Test(i: nat) | Lock(i: nat, ok: bool) | Detach(i: nat) | Cancel(i: nat)   // Close
    | Ask | Answer(ok: bool) | Stop                                                            // changeMaster
    | Wake | Look | Finish(ok: bool)                                                           // keep-alive loop
    | Succeed | Fail(landed: bool) | Undo(ok: bool) | Drop                                     // leader loop
    | ByHand                                                                                   // SetReadWrite, asked for

  predicate At(p: Process, i: nat, where: Closer)
  {
    i in p.closers && p.closers[i] == where
  }

  /** A call to the database succeeds only on an open connection. */
  predicate Can(p: Process, m: Move)
  {
    && !p.exited
    && match m
       case Call(i) => i !in p.closers
       case Test(i) => At(p, i, Called)
       case Lock(i, ok) => At(p, i, Locking) && (ok ==> p.handle)
       case Detach(i) => At(p, i, Locked)
       case Cancel(i) => At(p, i, Detached)
       case Ask => p.handler.Resting?
       case Answer(ok) => p.handler.Answering? && (ok ==> p.handle)
       case Stop => p.handler.Stopping?
       case Wake => p.keeper.Renewing? && (p.cancelled || p.stopped)
       case Look => p.keeper.Leaving?
       case Finish(ok) => p.keeper.Closing? && (ok ==> p.handle)
       case Succeed => p.loop.Opening? && p.handle
       case Fail(landed) => p.loop.Opening? && (landed ==> p.handle)
       case Undo(ok) => p.loop.Undoing? && (ok ==> p.handle)
       case Drop => p.loop.Undone?
       case ByHand => p.handle
  }

  function Go(p: Process, i: nat, where: Closer): Process
  {
    p.(closers := p.closers[i := where])
  }

  function Close(p: Process, ok: bool): Process
  {
    if ok then p.(writable := false) else p.(exited := true)
  }

  function Next(p: Process, m: Move): Process
    requires Can(p, m)
  {
    match m
    case Call(i) => Go(p, i, Called)
    case Test(i) => if p.isClosed then Go(p, i, Left) else Go(p, i, Locking).(isClosed := true, bodies := p.bodies + 1)
    case Lock(i, ok) => Close(Go(p, i, Locked), ok)
    case Detach(i) => Go(p, i, Detached).(handle := false)
    case Cancel(i) => Go(p, i, Left).(cancelled := true)
    case Ask => p.(handler := Answering)
    case Answer(ok) => Close(p.(handler := Stopping), ok)
    case Stop => p.(handler := Answered, stopped := true)
    case Wake => p.(keeper := Leaving)
    case Look => p.(keeper := if p.isClosed then Returned else Closing)
    case Finish(ok) => Close(p.(keeper := Returned), ok)
    case Succeed => p.(loop := Serving, writable := true)
    case Fail(landed) => p.(loop := Undoing, writable := p.writable || landed)
    case Undo(ok) => if ok || !p.resume then Close(p.(loop := Undone(ok)), ok) else p.(loop := Undone(false))
    case Drop => p.(loop := Dropped(p.loop.closed), stopped := true)
    case ByHand => p.(writable := true)
  }

  /** The leader transaction is done, and the keep-alive loop is running. */
  function Begin(resume: bool): Process
  {
    Process(resume, false, true, false, false, false, false, map[], Resting, Renewing, Opening, 0)
  }

  predicate Possible(p: Process, moves: seq<Move>)
    decreases |moves|
  {
    moves == [] || (Can(p, moves[0]) && Possible(Next(p, moves[0]), moves[1..]))
  }

  function Then(p: Process, moves: seq<Move>): Process
    requires Possible(p, moves)
    decreases |moves|
  {
    if moves == [] then p else Then(Next(p, moves[0]), moves[1..])
  }

  // ---------- the body of Close runs at most once ----------

  predicate InBody(where: Closer)
  {
    where.Locking? || where.Locked? || where.Detached?
  }

  /** No two calls are in the body, and none is once one has been through it. */
  ghost predicate OneBody(p: Process)
  {
    && p.bodies == (if p.isClosed then 1 else 0)
    && (!p.isClosed ==> forall i :: i in p.closers ==> p.closers[i].Called?)
    && (forall i, j :: i in p.closers && j in p.closers && InBody(p.closers[i]) && InBody(p.closers[j]) ==> i == j)
  }

  predicate OfClose(m: Move)
  {
    m.Call? || m.Test? || m.Lock? || m.Detach? || m.Cancel?
  }

  lemma OthersLeaveClosers(p: Process, m: Move)
    requires Can(p, m) && !OfClose(m)
    ensures Next(p, m).closers == p.closers
    ensures Next(p, m).isClosed == p.isClosed && Next(p, m).bodies == p.bodies
  {
    match m
    case Ask => case Answer(_) => case Stop =>
    case Wake => case Look => case Finish(_) =>
    case Succeed => case Fail(_) => case Undo(_) => case Drop =>
    case ByHand =>
  }

  lemma StepOnce(p: Process, m: Move)
    requires OneBody(p) && Can(p, m)
    ensures OneBody(Next(p, m))
  {
    if !OfClose(m) {
      OthersLeaveClosers(p, m);
    }
  }

  /** Whatever the interleaving, at most one call of `Close` gets past its test. */
  lemma {:induction false} CloseOnce(p: Process, moves: seq<Move>)
    requires OneBody(p) && Possible(p, moves)
    ensures OneBody(Then(p, moves)) && Then(p, moves).bodies <= 1
    decreases |moves|
  {
    if moves != [] {
      StepOnce(p, moves[0]);
      CloseOnce(Next(p, moves[0]), moves[1..]);
    }
  }

  // ---------- once the keep-alive loop has returned ----------

  ghost predicate SomeCloser(p: Process, where: Closer)
  {
    exists i :: At(p, i, where)
  }

  /** Something has closed the database on the way to the end of the reign. */
  ghost predicate Ending(p: Process)
  {
    || p.handler.Stopping? || p.handler.Answered? || p.keeper.Returned? || p.cancelled
    || SomeCloser(p, Locked) || SomeCloser(p, Detached)
    || p.loop == Undone(true) || p.loop == Dropped(true)
  }

  /** The leader loop of a resumed reign may still stop the reign, or has, without having closed the database. */
  predicate Unguarded(p: Process)
  {
    p.resume && (p.loop.Opening? || p.loop.Undoing? || p.loop == Undone(false) || p.loop == Dropped(false))
  }

  /** Nothing on the way to the return of the keep-alive loop has to close the database any more. */
  ghost predicate TooLate(p: Process)
  {
    !p.keeper.Closing? && (Ending(p) || Unguarded(p))
  }

  /** How the steps of one goroutine show in what the others see. */
  ghost predicate Wired(p: Process)
  {
    && (p.stopped <==> p.handler.Answered? || p.loop.Dropped?)
    && (!p.keeper.Renewing? ==> p.cancelled || p.stopped)
    && (!p.exited && (p.loop == Undone(false) || p.loop == Dropped(false)) ==> p.resume)
  }

  /** Whatever is too late to be closed is closed. */
  ghost predicate Orderly(p: Process)
  {
    OneBody(p) && Wired(p) && (!p.exited && TooLate(p) ==> !p.writable)
  }

  /** The move opens the database. */
  predicate Opens(m: Move)
  {
    m.Succeed? || m.ByHand? || (m.Fail? && m.landed)
  }

  /** Some call of `Close` has closed the database and is still in its body. */
  ghost predicate CloserPast(p: Process)
  {
    SomeCloser(p, Locked) || SomeCloser(p, Detached)
  }

  lemma CloserMoves(p: Process, m: Move)
    requires Can(p, m) && CloserPast(Next(p, m))
    ensures CloserPast(p) || (m.Lock? && m.ok) || Next(p, m).exited
  {
    var q := Next(p, m);
    if !OfClose(m) {
      OthersLeaveClosers(p, m);
    }
    if i :| At(q, i, Locked) {
      assert At(p, i, Locked) || (m.Lock? && m.i == i);
    } else if i :| At(q, i, Detached) {
      assert At(p, i, Detached) || (m.Detach? && m.i == i && At(p, i, Locked));
    }
  }

  /** Only the calls that close the database, and the steps after them, make it too late. */
  lemma BecomesLate(p: Process, m: Move)
    requires Wired(p) && Can(p, m) && !Next(p, m).exited && TooLate(Next(p, m))
    ensures TooLate(p) || (m.Lock? && m.ok) || (m.Answer? && m.ok) || (m.Finish? && m.ok) || (m.Undo? && m.ok)
  {
    if CloserPast(Next(p, m)) {
      CloserMoves(p, m);
    } else if m.Cancel? {
      assert At(p, m.i, Detached);
    }
  }

  /** A move that does not open the database leaves it closed, and the calls that close it do. */
  lemma StaysClosed(p: Process, m: Move)
    requires Can(p, m) && !Opens(m) && !Next(p, m).exited
    ensures Next(p, m).writable ==> p.writable
    ensures (m.Lock? && m.ok) || (m.Answer? && m.ok) || (m.Finish? && m.ok) || (m.Undo? && m.ok) ==> !Next(p, m).writable
  {
  }

  lemma StepOrderly(p: Process, m: Move)
    requires Orderly(p) && Can(p, m) && (Opens(m) ==> !TooLate(Next(p, m)))
    ensures Orderly(Next(p, m))
  {
    var q := Next(p, m);
    StepOnce(p, m);
    KeepsWired(p, m);
    if !q.exited && TooLate(q) {
      BecomesLate(p, m);
      StaysClosed(p, m);
    }
  }

  // ---------- exactly when an open database stays open ----------

  predicate NoOpening(moves: seq<Move>)
  {
    forall m :: m in moves ==> !Opens(m)
  }

  ghost predicate LeftWritable(p: Process)
  {
    p.keeper.Returned? && p.writable && !p.exited
  }

  /** Without another opening, the moves lead to a returned keep-alive loop and a writable database. */
  ghost predicate Leads(p: Process, moves: seq<Move>)
  {
    NoOpening(moves) && Possible(p, moves) && LeftWritable(Then(p, moves))
  }

  ghost predicate CanStay(p: Process)
  {
    exists moves :: Leads(p, moves)
  }

  lemma {:induction false} NoOpeningOrderly(p: Process, moves: seq<Move>)
    requires Orderly(p) && Possible(p, moves) && NoOpening(moves)
    ensures Orderly(Then(p, moves))
    decreases |moves|
  {
    if moves != [] {
      assert moves[0] in moves;
      StepOrderly(p, moves[0]);
      NoOpeningOrderly(Next(p, moves[0]), moves[1..]);
    }
  }

  lemma Steps(p: Process, m: Move, moves: seq<Move>)
    requires Can(p, m) && Possible(Next(p, m), moves)
    ensures Possible(p, [m] + moves) && Then(p, [m] + moves) == Then(Next(p, m), moves)
    ensures !Opens(m) && Leads(Next(p, m), moves) ==> Leads(p, [m] + moves)
  {
    assert ([m] + moves)[1..] == moves;
  }

  lemma {:induction false} UnusedIndex(used: set<nat>) returns (i: nat)
    ensures i !in used && forall j :: j in used ==> j < i
    decreases |used|
  {
    if used == {} {
      i := 0;
    } else {
      var j :| j in used;
      var rest := used - {j};
      var k := UnusedIndex(rest);
      i := if k <= j then j + 1 else k;
      assert forall l :: l in used ==> l == j || l in rest;
    }
  }

  /** A leaving keep-alive loop skips its call once the server is closing. */
  lemma LeavesOpen(p: Process) returns (moves: seq<Move>)
    requires !p.exited && p.writable && p.keeper.Leaving?
    ensures Leads(p, moves)
  {
    if p.isClosed {
      Steps(p, Look, []);
      moves := [Look] + [];
    } else {
      var i := UnusedIndex(p.closers.Keys);
      var called := Next(p, Call(i));
      var closing := Next(called, Test(i));
      Steps(closing, Look, []);
      Steps(called, Test(i), [Look] + []);
      Steps(p, Call(i), [Test(i)] + ([Look] + []));
      moves := [Call(i)] + ([Test(i)] + ([Look] + []));
    }
  }

  lemma WakesAndLeaves(p: Process) returns (moves: seq<Move>)
    requires !p.exited && p.writable && p.keeper.Renewing? && (p.cancelled || p.stopped)
    ensures Leads(p, moves)
  {
    var rest := LeavesOpen(Next(p, Wake));
    Steps(p, Wake, rest);
    moves := [Wake] + rest;
  }

  lemma AfterHandler(p: Process) returns (moves: seq<Move>)
    requires !p.exited && p.writable && p.keeper.Renewing? && p.handler.Stopping?
    ensures Leads(p, moves)
  {
    var rest := WakesAndLeaves(Next(p, Stop));
    Steps(p, Stop, rest);
    moves := [Stop] + rest;
  }

  lemma AfterDetach(p: Process, i: nat) returns (moves: seq<Move>)
    requires !p.exited && p.writable && p.keeper.Renewing? && At(p, i, Detached)
    ensures Leads(p, moves)
  {
    var rest := WakesAndLeaves(Next(p, Cancel(i)));
    Steps(p, Cancel(i), rest);
    moves := [Cancel(i)] + rest;
  }

  lemma AfterLock(p: Process, i: nat) returns (moves: seq<Move>)
    requires !p.exited && p.writable && p.keeper.Renewing? && At(p, i, Locked)
    ensures Leads(p, moves)
  {
    var rest := AfterDetach(Next(p, Detach(i)), i);
    Steps(p, Detach(i), rest);
    moves := [Detach(i)] + rest;
  }

  lemma AfterUndo(p: Process) returns (moves: seq<Move>)
    requires !p.exited && p.writable && p.keeper.Renewing? && p.loop.Undone?
    ensures Leads(p, moves)
  {
    var rest := WakesAndLeaves(Next(p, Drop));
    Steps(p, Drop, rest);
    moves := [Drop] + rest;
  }

  lemma UndoFails(p: Process) returns (moves: seq<Move>)
    requires !p.exited && p.writable && p.keeper.Renewing? && p.resume && p.loop.Undoing?
    ensures Leads(p, moves)
  {
    var rest := AfterUndo(Next(p, Undo(false)));
    Steps(p, Undo(false), rest);
    moves := [Undo(false)] + rest;
  }

  lemma OpeningFails(p: Process) returns (moves: seq<Move>)
    requires !p.exited && p.writable && p.keeper.Renewing? && p.resume && p.loop.Opening?
    ensures Leads(p, moves)
  {
    var rest := UndoFails(Next(p, Fail(false)));
    Steps(p, Fail(false), rest);
    moves := [Fail(false)] + rest;
  }

  lemma LateStays(p: Process) returns (moves: seq<Move>)
    requires Wired(p) && !p.exited && p.writable && TooLate(p)
    ensures Leads(p, moves)
  {
    if p.keeper.Returned? {
      moves := [];
    } else if p.keeper.Leaving? {
      moves := LeavesOpen(p);
    } else if p.cancelled || p.stopped {
      moves := WakesAndLeaves(p);
    } else if p.handler.Stopping? {
      moves := AfterHandler(p);
    } else if p.loop.Undone? {
      moves := AfterUndo(p);
    } else if i :| At(p, i, Locked) {
      moves := AfterLock(p, i);
    } else if i :| At(p, i, Detached) {
      moves := AfterDetach(p, i);
    } else if p.loop.Undoing? {
      moves := UndoFails(p);
    } else {
      moves := OpeningFails(p);
    }
  }

  lemma EarlyIsClosed(p: Process, moves: seq<Move>)
    requires OneBody(p) && Wired(p) && !TooLate(p)
    ensures !Leads(p, moves)
  {
    if Leads(p, moves) {
      NoOpeningOrderly(p, moves);
    }
  }

  /**
   In any state of a reign, a writable database can still be writable when the keep-alive
   loop has returned, without being opened again, if and only if it is too late: that loop
   is not about to close it, and something has closed it before or the leader loop of a
   resumed reign has yet to get through its opening or has failed to undo it.
   */
  lemma LateOpenExact(p: Process)
    requires OneBody(p) && Wired(p) && !p.exited && p.writable
    ensures CanStay(p) <==> TooLate(p)
  {
    if TooLate(p) {
      var moves := LateStays(p);
    } else {
      forall moves ensures !Leads(p, moves) {
        EarlyIsClosed(p, moves);
      }
    }
  }

  // ---------- whole runs ----------

  /** No opening of the run lands too late. */
  ghost predicate InOrder(p: Process, moves: seq<Move>)
    requires Possible(p, moves)
    decreases |moves|
  {
    moves == [] ||
    ((Opens(moves[0]) ==> !TooLate(Next(p, moves[0]))) && InOrder(Next(p, moves[0]), moves[1..]))
  }

  /** No opening of the run can be left standing, whatever happens after it. */
  ghost predicate NoneStays(p: Process, moves: seq<Move>)
    requires Possible(p, moves)
    decreases |moves|
  {
    moves == [] ||
    ((Opens(moves[0]) ==> !CanStay(Next(p, moves[0]))) && NoneStays(Next(p, moves[0]), moves[1..]))
  }

  lemma KeepsWired(p: Process, m: Move)
    requires Wired(p) && Can(p, m)
    ensures Wired(Next(p, m))
  {
  }

  lemma {:induction false} RunOrderly(p: Process, moves: seq<Move>)
    requires Orderly(p) && Possible(p, moves)
    ensures InOrder(p, moves) <==> NoneStays(p, moves)
    ensures InOrder(p, moves) ==> Orderly(Then(p, moves))
    decreases |moves|
  {
    if moves != [] {
      var q := Next(p, moves[0]);
      StepOnce(p, moves[0]);
      KeepsWired(p, moves[0]);
      if Opens(moves[0]) {
        LateOpenExact(q);
      }
      if Opens(moves[0]) ==> !TooLate(q) {
        StepOrderly(p, moves[0]);
        RunOrderly(q, moves[1..]);
      }
    }
  }

  /**
   Of the interleavings of a reign, exactly those whose openings are in order leave none of
   them standing: a returned keep-alive loop then means a read-only database or an exited
   process, also when the loop's own call was skipped because the server is closing.
   */
  lemma ReturnedReadOnly(resume: bool, moves: seq<Move>)
    requires Possible(Begin(resume), moves)
    ensures InOrder(Begin(resume), moves) <==> NoneStays(Begin(resume), moves)
    ensures InOrder(Begin(resume), moves) ==> !LeftWritable(Then(Begin(resume), moves))
    ensures Then(Begin(resume), moves).bodies <= 1
  {
    CloseOnce(Begin(resume), moves);
    RunOrderly(Begin(resume), moves);
  }

  // ---------- what undoes a stray opening, and what rules it out ----------

  /** The keep-alive loop is on its way out, and the server is not closing. */
  predicate OnItsWay(p: Process)
  {
    !p.isClosed && (p.keeper.Leaving? || p.keeper.Closing? || (p.keeper.Returned? && (p.exited || !p.writable)))
  }

  /** As long as the server is not closing, the loop closes on its way out whatever was opened before. */
  lemma {:induction false} StrayOpeningClosed(p: Process, moves: seq<Move>)
    requires OnItsWay(p) && Possible(p, moves)
    requires forall m :: m in moves ==> !m.Test? && !Opens(m)
    ensures OnItsWay(Then(p, moves)) && !LeftWritable(Then(p, moves))
    decreases |moves|
  {
    if moves != [] {
      StaysOnItsWay(p, moves[0]);
      StrayOpeningClosed(Next(p, moves[0]), moves[1..]);
    }
  }

  lemma StaysOnItsWay(p: Process, m: Move)
    requires OnItsWay(p) && Can(p, m) && !m.Test? && !Opens(m)
    ensures OnItsWay(Next(p, m))
  {
    if !OfClose(m) {
      OthersLeaveClosers(p, m);
    }
  }

  /** Once a call of `Close` has dropped the connection, it stays dropped. */
  ghost predicate Severed(p: Process)
  {
    p.cancelled || SomeCloser(p, Detached) ==> !p.handle
  }

  lemma StepSevered(p: Process, m: Move)
    requires Severed(p) && Can(p, m)
    ensures Severed(Next(p, m)) && (!p.handle ==> !Next(p, m).handle && !Opens(m))
  {
    var q := Next(p, m);
    if !OfClose(m) {
      OthersLeaveClosers(p, m);
    }
    if i :| At(q, i, Detached) {
      assert At(p, i, Detached) || m == Detach(i);
    }
    if m.Cancel? {
      assert At(p, m.i, Detached);
    }
  }

  lemma {:induction false} RunSevered(p: Process, moves: seq<Move>)
    requires Severed(p) && Possible(p, moves)
    ensures Severed(Then(p, moves))
    ensures !p.handle ==> NoOpening(moves)
    decreases |moves|
  {
    if moves != [] {
      StepSevered(p, moves[0]);
      RunSevered(Next(p, moves[0]), moves[1..]);
    }
  }

  /** In every interleaving: after the connection is dropped or the context cancelled, nothing opens the database. */
  lemma ClosedForGood(resume: bool, first: seq<Move>, second: seq<Move>)
    requires Possible(Begin(resume), first) && Possible(Then(Begin(resume), first), second)
    requires var p := Then(Begin(resume), first); p.cancelled || SomeCloser(p, Detached)
    ensures NoOpening(second)
  {
    RunSevered(Begin(resume), first);
    RunSevered(Then(Begin(resume), first), second);
  }

  // ---------- ways to be too late ----------

  /** The flag alone does not say so: a closing server may still have a writable database. */
  lemma ClosedButWritable(resume: bool)
    ensures var p, moves := Begin(resume), [Succeed, Call(0), Test(0)];
            Possible(p, moves) && var q := Then(p, moves); q.isClosed && q.writable && !q.exited
  {
  }

  /** The database has been closed, the connection is still there, and the keep-alive loop knows of nothing. */
  ghost predicate Window(p: Process)
  {
    Can(p, ByHand) && Ending(p) && p.keeper.Renewing?
  }

  /** `Close` has closed the database, not yet its connection. */
  lemma CloseWindow(resume: bool)
    ensures var moves := [Succeed, Call(0), Test(0), Lock(0, true)];
            Possible(Begin(resume), moves) && Window(Then(Begin(resume), moves))
  {
    var p := Next(Begin(resume), Succeed);
    var called := Next(p, Call(0));
    var closing := Next(called, Test(0));
    var locked := Next(closing, Lock(0, true));
    assert At(locked, 0, Locked) && Window(locked);
    Steps(closing, Lock(0, true), []);
    Steps(called, Test(0), [Lock(0, true)]);
    Steps(p, Call(0), [Test(0), Lock(0, true)]);
    Steps(Begin(resume), Succeed, [Call(0), Test(0), Lock(0, true)]);
  }

  /** The changeMaster handler has closed it. */
  lemma HandlerWindow(resume: bool)
    ensures var moves := [Succeed, Ask, Answer(true)];
            Possible(Begin(resume), moves) && Window(Then(Begin(resume), moves))
  {
    var p := Next(Begin(resume), Succeed);
    Steps(Next(p, Ask), Answer(true), []);
    Steps(p, Ask, [Answer(true)]);
    Steps(Begin(resume), Succeed, [Ask, Answer(true)]);
  }

  lemma {:induction false} Joined(p: Process, first: seq<Move>, second: seq<Move>)
    requires Possible(p, first) && Possible(Then(p, first), second)
    ensures Possible(p, first + second) && Then(p, first + second) == Then(Then(p, first), second)
    decreases |first|
  {
    if first == [] {
      assert first + second == second;
    } else {
      Joined(Next(p, first[0]), first[1..], second);
      assert first + second == [first[0]] + (first[1..] + second);
      Steps(p, first[0], first[1..] + second);
    }
  }

  lemma {:induction false} RunWired(p: Process, moves: seq<Move>)
    requires Wired(p) && Possible(p, moves)
    ensures Wired(Then(p, moves))
    decreases |moves|
  {
    if moves != [] {
      KeepsWired(p, moves[0]);
      RunWired(Next(p, moves[0]), moves[1..]);
    }
  }

  lemma HandedOpen(p: Process)
    requires Window(p) && Wired(p)
    ensures Wired(Next(p, ByHand)) && TooLate(Next(p, ByHand)) && Next(p, ByHand).writable && !Next(p, ByHand).exited
  {
    if i :| At(p, i, Locked) {
      assert At(Next(p, ByHand), i, Locked);
    }
    if i :| At(p, i, Detached) {
      assert At(Next(p, ByHand), i, Detached);
    }
  }

  /** From the start of a reign, through either window, to a returned loop and a writable database. */
  lemma OpenedTooLate(resume: bool, first: seq<Move>) returns (moves: seq<Move>)
    requires first == [Succeed, Call(0), Test(0), Lock(0, true)] || first == [Succeed, Ask, Answer(true)]
    ensures first <= moves && Possible(Begin(resume), moves) && LeftWritable(Then(Begin(resume), moves))
  {
    CloseWindow(resume);
    HandlerWindow(resume);
    RunWired(Begin(resume), first);
    var window := Then(Begin(resume), first);
    HandedOpen(window);
    var rest := LateStays(Next(window, ByHand));
    Steps(window, ByHand, rest);
    Joined(Begin(resume), first, [ByHand] + rest);
    moves := first + ([ByHand] + rest);
  }

  /**
   In a resumed reign nothing need have closed the database before: its opening fails half
   way, the undo fails and is ignored, the reign is stopped, and the keep-alive loop skips
   its call because the server is closing.
   */
  lemma ResumeLeftOpen() returns (moves: seq<Move>)
    ensures !Ending(Next(Begin(true), Fail(true)))
    ensures moves != [] && moves[0] == Fail(true) && NoOpening(moves[1..])
    ensures Possible(Begin(true), moves) && LeftWritable(Then(Begin(true), moves))
  {
    var rest := UndoFails(Next(Begin(true), Fail(true)));
    Steps(Begin(true), Fail(true), rest);
    moves := [Fail(true)] + rest;
    assert moves[1..] == rest;
  }
}
