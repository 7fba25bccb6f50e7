/**
 What holds of all runs of server_uring.cpp, and exactly when: which
 connections the server drops, and what refused flushes of the submission
 queue cost.
 */
module UringRuns {
  import opened EchoSpec
  import opened Net
  import opened Runs
  import opened Counters
  import opened UringModel
  import opened UringProgress
  import opened UringSteps
  import opened UringMachine

  /** What refused flushes have cost, and may still cost: connections dropped, a connection about to be given up,
      an entry that cannot be had, the accept lost. */
  ghost function Cost(x: State): nat {
    |Dropped(x.r.net.conns)| + Pending(x)
  }

  ghost function Pending(x: State): nat {
    (if GivenUp(x.pc) then 1 else 0)
    + (if x.flushed && IsFull(x.r) then 1 else 0)
    + (if x.w.accepting then 0 else 1)
  }

  /** A connection is to be closed because there is no entry for its next operation. */
  predicate GivenUp(pc: Pc) {
    pc.Closing? && pc.why.NoRoom?
  }

  /** A connection is to be closed because its recv has delivered nothing. */
  predicate AtItsEnd(pc: Pc) {
    pc.Closing? && pc.why.Ended?
  }

  /** A close of a connection that the server is not finished with. */
  ghost predicate Drops(n: nat, x: State, l: Label) {
    && l.Close? && Enabled(n, x, l)
    && !Finished(x.r.net.conns[IdOf(x.r, x.w, x.pc.conn)])
  }

  predicate Refuses(l: Label) {
    l.Flush? && l.n == 0
  }

  /** A step drops the connection it closes, if it closes one that is not finished with, and no other step drops
      any.  The server drops a connection only because there was no entry for its next operation even after a
      flush, or because its buffer is empty. */
  lemma StepDrops(n: nat, x: State, l: Label, x': State)
    requires MachineInv(n, x) && Step(n, x, l, x')
    ensures |Dropped(x'.r.net.conns)| == |Dropped(x.r.net.conns)| + (if Drops(n, x, l) then 1 else 0)
    ensures Drops(n, x, l) ==> l.Close? && (GivenUp(x.pc) || (AtItsEnd(x.pc) && n == 0))
  {
    hide MachineInv, Tick, Dropped, Finished, CompleteEnabled, LookEnabled, AfterComplete, AfterLook, AfterQueue;
    match l
    case Outside(r') =>
      TickIsPeers(x.r, r');
      PeersDropNobody(x.r.net, r'.net);
    case Complete(_, _, _, _) => CompleteDropsNobody(n, x, l);
    case Close =>
      ClosingIsNotDropped(n, x);
      CloseDrops(x.r.net, x.w.mem[x.pc.conn].fd);
    case _ => OtherStepsKeepNet(n, x, l);
  }

  lemma TickIsPeers(r: Ring, r': Ring)
    requires Tick(r, r')
    ensures Peers(r.net, r'.net)
  {
  }

  lemma OtherStepsKeepNet(n: nat, x: State, l: Label)
    requires Enabled(n, x, l) && !l.Outside? && !l.Complete? && !l.Close?
    ensures After(n, x, l).r.net == x.r.net
  {
    hide CompleteEnabled;
  }

  lemma CompleteDropsNobody(n: nat, x: State, l: Label)
    requires Enabled(n, x, l) && l.Complete?
    ensures Dropped(After(n, x, l).r.net.conns) == Dropped(x.r.net.conns)
  {
    hide Dropped, Accepts, Reads, Writes, SendBytes, Filled;
    CompletionShape(x.r, l.i, l.net, Result(l.a));
    var j := x.r.ker[l.i];
    match j.op
    case RecvOp(c) => ReadsDropNobody(x.r.net, l.net, j.fd, j.len, l.a, l.data);
    case SendOp(c) => WritesDropNobody(x.r.net, l.net, j.fd, SendBytes(x.r, x.w, l.i), l.a);
    case AcceptOp => AcceptsDropNobody(x.r.net, l.net, l.a);
    case SignalOp =>
  }

  lemma ClosingIsNotDropped(n: nat, x: State)
    requires x.pc.Closing? && Known(x, x.pc.conn) && MachineInv(n, x)
    ensures var c := x.r.net.conns[IdOf(x.r, x.w, x.pc.conn)];
            && !c.dropped
            && (!Finished(c) ==> GivenUp(x.pc) || (AtItsEnd(x.pc) && n == 0))
  {
    hide Owned, Jobs, Law, Tables, TableInv, Sized, SoundInv;
    assert Tables(x.r, x.w) && NetInv(x.r.net, x.w.held);
    HandIsKnown(x, x.pc.conn);
    SizeOf(x.w.mem, x.pc.conn, n);
  }

  lemma SizeOf(mem: Memory, c: UringModel.Conn, n: nat)
    requires Sized(mem, n) && c in mem
    ensures |mem[c].data| == n
  {
  }

  /** With buffers of at least one byte only a refused flush costs anything, and it costs at most one connection
      or the accept. */
  lemma StepCosts(n: nat, x: State, l: Label, x': State)
    requires n > 0 && MachineInv(n, x) && Step(n, x, l, x')
    ensures Cost(x') <= Cost(x) + (if Refuses(l) then 1 else 0)
    ensures x'.w.tally.refused == x.w.tally.refused + (if Refuses(l) then 1 else 0)
  {
    hide MachineInv, Step, Dropped, Drops;
    StepDrops(n, x, l, x');
    StepPends(n, x, l, x');
  }

  lemma StepPends(n: nat, x: State, l: Label, x': State)
    requires Step(n, x, l, x') && MachineInv(n, x)
    ensures Pending(x') + (if l.Close? && GivenUp(x.pc) then 1 else 0) <= Pending(x) + (if Refuses(l) then 1 else 0)
    ensures x'.w.tally.refused == x.w.tally.refused + (if Refuses(l) then 1 else 0)
  {
    hide MachineInv, Tick, CompleteEnabled, LookEnabled, AfterComplete, AfterLook, AfterQueue, AfterNoEntry, Pending,
         ClosedRing, Freed, Known;
    FlushIsForEntry(n, x);
    match l
    case Outside(r') =>
      TickShape(x.r, r');
      SamePending(x, x');
    case Complete(i, net', a, data) =>
      CompletedShape(n, x, l);
      SamePending(x, x');
    case Look => LookPends(x);
    case Queue => QueuePends(x);
    case NoEntry => NoEntryPends(x);
    case Flush(k) => FlushPends(x, k);
    case Close => ClosePends(x);
    case Wait(k, rc) => WaitPends(x, k, rc);
    case Adopt(c, data) => SamePending(x, x');
  }

  /** Nothing that the costs depend on has changed. */
  lemma SamePending(x: State, x': State)
    requires GivenUp(x'.pc) == GivenUp(x.pc) && x'.w.accepting == x.w.accepting
    requires x'.flushed == x.flushed && (x.flushed ==> |x'.r.sq| == |x.r.sq|)
    ensures Pending(x') == Pending(x)
  {
  }

  lemma LookPends(x: State)
    requires LookEnabled(x)
    ensures Pending(AfterLook(x)) == Pending(x) && AfterLook(x).w.tally == x.w.tally
  {
    hide Shifted;
  }

  lemma QueuePends(x: State)
    requires NeedsEntry(x.pc) && (x.pc.Receiving? || x.pc.Sending? ==> Known(x, x.pc.conn))
    ensures Pending(AfterQueue(x)) <= Pending(x) && AfterQueue(x).w.tally.refused == x.w.tally.refused
  {
    hide Known;
  }

  lemma NoEntryPends(x: State)
    requires NeedsEntry(x.pc) && x.flushed && IsFull(x.r)
    ensures Pending(AfterNoEntry(x)) <= Pending(x) && AfterNoEntry(x).w.tally == x.w.tally
  {
  }

  lemma FlushPends(x: State, k: nat)
    requires NeedsEntry(x.pc) && IsFull(x.r) && !x.flushed && k <= |x.r.sq|
    ensures Pending(AfterFlush(x, k)) == Pending(x) + (if k == 0 then 1 else 0)
    ensures AfterFlush(x, k).w.tally.refused == x.w.tally.refused + (if k == 0 then 1 else 0)
  {
  }

  lemma ClosePends(x: State)
    requires x.pc.Closing? && Known(x, x.pc.conn) && !x.flushed
    ensures Pending(AfterClose(x)) + (if GivenUp(x.pc) then 1 else 0) == Pending(x)
    ensures AfterClose(x).w.tally == x.w.tally
  {
  }

  lemma WaitPends(x: State, k: nat, rc: Answer)
    requires k <= |x.r.sq| && !x.flushed && x.pc == Pc.Waiting
    ensures Pending(AfterWait(x, k, rc)) == Pending(x) && AfterWait(x, k, rc).w.tally.refused == x.w.tally.refused
  {
  }

  lemma FlushIsForEntry(n: nat, x: State)
    requires MachineInv(n, x)
    ensures x.flushed ==> NeedsEntry(x.pc)
  {
  }

  lemma CompletedShape(n: nat, x: State, l: Label)
    requires Enabled(n, x, l) && l.Complete?
    ensures var x' := After(n, x, l);
            && x'.r.sq == x.r.sq && x'.pc == x.pc && x'.flushed == x.flushed
            && x'.w.accepting == x.w.accepting && x'.w.tally == x.w.tally
  {
    hide Recvs, Sends, AcceptsNow, SignalsNow;
  }

  /** With buffers of at least one byte the server never drops more connections than flushes were refused, and the
      accept is lost only to one of those. */
  lemma {:induction false} DropsAreRefusals(n: nat, t: Trace)
    requires n > 0 && IsRun(n, t)
    ensures Cost(Now(t)) <= Now(t).w.tally.refused
    ensures |Dropped(Now(t).r.net.conns)| + (if Now(t).w.accepting then 0 else 1) <= Now(t).w.tally.refused
    decreases |t.labels|
  {
    hide MachineInv, Step, Dropped;
    if t.labels == [] {
      NobodyDropped();
    } else {
      BeforeIsRun(n, t);
      DropsAreRefusals(n, Before(t));
      RunKeepsMachine(n, Before(t));
      StepCosts(n, Now(Before(t)), t.labels[|t.labels| - 1], Now(t));
    }
  }

  /** The law of kernel entries in every run: they are the waits, the closes and the forced flushes; and if every
      forced flush has emptied the queue, 256 times the flushes and what is queued are at most all the entries ever
      queued, and between two completions exactly one accept is outstanding. */
  lemma KernelEntriesOfRuns(n: nat, t: Trace)
    requires IsRun(n, t)
    ensures var x := Now(t);
            && x.s.syscalls == x.s.waitCalls + x.s.closed + x.w.tally.flushes
            && 256 * x.w.tally.full <= x.w.tally.submitted
            && (x.w.tally.full == x.w.tally.flushes ==>
                  && 256 * (x.s.syscalls - x.s.waitCalls - x.s.closed) + |x.r.sq| <= x.w.tally.queued
                  && (EmptyHanded(x.w) ==>
                        AcceptCount(x.r.sq) + AcceptCount(x.r.ker) + AcceptCount(x.r.cq) == 1))
  {
    hide IsRun, Inv, Law, EmptyHanded;
    RunKeepsMachine(n, t);
    LawOfEntries(Now(t).r, Now(t).w, Now(t).s);
    if Now(t).w.tally.full == Now(t).w.tally.flushes {
      KernelEntriesAreAmortised(Now(t).r, Now(t).w, Now(t).s);
    }
  }

  lemma LawOfEntries(r: Ring, w: World, s: Stats)
    requires Law(r, w, s)
    ensures s.syscalls == s.waitCalls + s.closed + w.tally.flushes && QUEUE_DEPTH * w.tally.full <= w.tally.submitted
  {
  }

  lemma NobodyDropped()
    ensures Dropped(Initial.r.net.conns) == {}
  {
  }

  /** If no flush is refused, no connection is dropped in any run, if and only if the buffers can hold a byte.
      `c` is any object the server may allocate for its first connection. */
  lemma DropsNobodyExactly(n: nat, c: UringModel.Conn)
    ensures (forall t | IsRun(n, t) && Now(t).w.tally.refused == 0 :: Dropped(Now(t).r.net.conns) == {}) <==> n > 0
  {
    hide IsRun, Dropped;
    if n > 0 {
      forall t | IsRun(n, t) && Now(t).w.tally.refused == 0 ensures Dropped(Now(t).r.net.conns) == {} {
        DropsAreRefusals(n, t);
      }
    } else {
      var t := EmptyBufferDrops(c);
    }
  }

  lemma Took(n: nat, t: Trace, l: Label) returns (t': Trace)
    requires IsRun(n, t) && Enabled(n, Now(t), l)
    ensures IsRun(n, t') && Now(t') == After(n, Now(t), l)
  {
    hide Enabled, After;
    t' := Then(n, t, l);
    ThenIsRun(n, t, l);
  }

  // ---------------------------------------------------------------- a run with one connection

  const FD: Fd := 5

  const AcceptJob := Sqe(AcceptOp, LISTENER, 0)

  const SignalJob := Sqe(SignalOp, SIGNALS, 0)

  function OneConn(at: Place): EchoSpec.Conn {
    Conn([65], [], [], false, false, false, at)
  }

  const OneQueued := Sockets(map[0 := OneConn(Queued)], [0], map[])

  const OneOpen := Sockets(map[0 := OneConn(Open(FD))], [], map[FD := 0])

  /** Nothing but the tally has changed since the boot. */
  predicate Idle(w: World) {
    w == NoWorld.(due := false, tally := w.tally) && w.tally.refused == 0
  }

  /** The server is started and has handed its first two operations to the kernel. */
  lemma Started(n: nat) returns (t: Trace)
    ensures IsRun(n, t)
    ensures var x := Now(t);
            && x.r == Ring(NoSockets, [], [AcceptJob, SignalJob], [], 0) && Idle(x.w)
            && x.running && x.pc == Looking && !x.flushed
  {
    hide IsRun;
    BegunIsRun(n);
    t := Took(n, Begun, Queue);
    t := Took(n, t, Queue);
    assert Now(t).r.sq == [AcceptJob, SignalJob];
    t := Took(n, t, Wait(2, Ok(2)));
    assert Now(t).r.ker == [AcceptJob, SignalJob];
  }

  /** A connection with one byte to echo arrives, and its accept completes. */
  lemma OneAccepted(n: nat) returns (t: Trace)
    ensures IsRun(n, t)
    ensures var x := Now(t);
            && x.r == Ring(OneOpen, [AcceptJob], [SignalJob], [], 0)
            && x.w == NoWorld.(due := false, loose := {FD}, tally := x.w.tally) && x.w.tally.refused == 0
            && x.running && x.pc == Adopting(FD) && !x.flushed
  {
    hide IsRun;
    t := OneCompleted(n);
    t := Took(n, t, Look);
    assert Now(t).r == Ring(OneOpen, [], [SignalJob], [], 0);
    t := Took(n, t, Queue);
  }

  lemma OneCompleted(n: nat) returns (t: Trace)
    ensures IsRun(n, t)
    ensures var x := Now(t);
            && x.r == Ring(OneOpen, [], [SignalJob], [Cqe(AcceptOp, FD)], 0) && Idle(x.w)
            && x.running && x.pc == Looking && !x.flushed
  {
    hide IsRun;
    t := Started(n);
    var r1 := Now(t).r.(net := OneQueued);
    t := Took(n, t, Outside(r1));
    assert Accepts(OneQueued, OneOpen, Ok(FD));
    t := Took(n, t, Complete(0, OneOpen, Ok(FD), []));
  }

  /** The connection has its object and its first recv is in the kernel. */
  lemma OneReceiving(n: nat, c: UringModel.Conn, data: seq<Byte>) returns (t: Trace)
    requires |data| == n
    ensures IsRun(n, t)
    ensures var x := Now(t);
            && x.r == Ring(OneOpen, [], [SignalJob, AcceptJob, Sqe(RecvOp(c), FD, n)], [], 0)
            && x.w == World(map[c := Slot(FD, data, 0)], map[FD := c], map[], {}, {}, false, true, x.w.tally)
            && x.w.tally.refused == 0 && x.running && x.pc == Looking && !x.flushed
  {
    hide IsRun;
    t := OneAccepted(n);
    t := Took(n, t, Adopt(c, data));
    t := Took(n, t, Queue);
    assert Now(t).r.sq == [AcceptJob, Sqe(RecvOp(c), FD, n)];
    t := Took(n, t, Look);
    t := Took(n, t, Wait(2, Ok(2)));
    assert Now(t).r.ker == [SignalJob, AcceptJob, Sqe(RecvOp(c), FD, n)];
  }

  /** With an empty buffer every recv completes with 0, and the server takes that for the end of the stream: it
      closes a healthy connection of which it has not echoed a byte. */
  lemma EmptyBufferDrops(c: UringModel.Conn) returns (t: Trace)
    ensures IsRun(0, t) && Now(t).w.tally.refused == 0
    ensures Now(t).r.net.conns == map[0 := OneConn(Closed).(dropped := true)]
    ensures 0 in Dropped(Now(t).r.net.conns)
  {
    hide IsRun;
    t := OneReceiving(0, c, []);
    var k := OneConn(Open(FD));
    assert k == k.(given := k.given + []);
    assert Reads(OneOpen, OneOpen, FD, 0, Ok(0), []);
    t := Took(0, t, Complete(2, OneOpen, Ok(0), []));
    assert Now(t).r.cq == [Cqe(RecvOp(c), 0)];
    t := Took(0, t, Look);
    t := Took(0, t, Close);
  }

  // ---------------------------------------------------------------- a refused flush

  /** The server needs an entry for the next operation of `c`, and the submission queue is full. */
  ghost predicate Cornered(x: State, c: UringModel.Conn) {
    (x.pc == Receiving(c) || exists length: nat :: x.pc == Sending(c, length)) && IsFull(x.r) && !x.flushed
  }

  /** The forced flush decides: the operation is queued if the kernel has taken any entry, and can only be given
      up if it has taken none. */
  lemma FlushDecides(n: nat, t: Trace, c: UringModel.Conn, k: nat) returns (t': Trace)
    requires IsRun(n, t) && Cornered(Now(t), c) && k <= QUEUE_DEPTH
    ensures IsRun(n, t') && t'.labels == t.labels + [Flush(k)]
    ensures Enabled(n, Now(t), Flush(k)) && Now(t') == After(n, Now(t), Flush(k))
    ensures Enabled(n, Now(t'), Queue) <==> k > 0
    ensures Enabled(n, Now(t'), NoEntry) <==> k == 0
    ensures !Enabled(n, Now(t'), Close)
    ensures Now(t').pc == Now(t).pc && Now(t').r.net == Now(t).r.net
  {
    hide IsRun, Tables, NetInv, Jobs, Owned, Law, Sized, JobOk;
    RunKeepsMachine(n, t);
    HandIsKnown(Now(t), c);
    t' := Then(n, t, Flush(k));
    ThenIsRun(n, t, Flush(k));
  }

  /** A refused flush costs a healthy connection all that it is still owed: the server closes it. */
  lemma RefusedFlushDrops(n: nat, t: Trace, c: UringModel.Conn) returns (t': Trace)
    requires IsRun(n, t) && Cornered(Now(t), c)
    ensures Known(Now(t), c)
    ensures IsRun(n, t') && t'.labels == t.labels + [Flush(0), NoEntry, Close]
    ensures Now(t').w.tally.refused == Now(t).w.tally.refused + 1
    ensures var x := Now(t); var id := IdOf(x.r, x.w, c);
            && id in Now(t').r.net.conns
            && Now(t').r.net.conns[id] == x.r.net.conns[id].(at := Closed, dropped := !Finished(x.r.net.conns[id]))
  {
    hide IsRun, Finished, MachineInv, Enabled, After;
    CorneredIsKnown(n, t, c);
    var t1 := FlushDecides(n, t, c, 0);
    t' := Then(n, t1, NoEntry);
    ThenIsRun(n, t1, NoEntry);
    GivesUp(n, Now(t), Now(t1), Now(t'), c);
    var t2 := t';
    t' := Then(n, t2, Close);
    ThenIsRun(n, t2, Close);
    ClosesIt(n, Now(t2), c);
  }

  lemma CorneredIsKnown(n: nat, t: Trace, c: UringModel.Conn)
    requires IsRun(n, t) && Cornered(Now(t), c)
    ensures Known(Now(t), c)
  {
    hide IsRun, Tables, NetInv, Jobs, Owned, Law, Sized, JobOk;
    RunKeepsMachine(n, t);
    HandIsKnown(Now(t), c);
  }

  lemma GivesUp(n: nat, x: State, x1: State, x2: State, c: UringModel.Conn)
    requires Cornered(x, c) && Known(x, c) && Enabled(n, x, Flush(0)) && x1 == After(n, x, Flush(0))
    requires Enabled(n, x1, NoEntry) && x2 == After(n, x1, NoEntry)
    ensures x2.pc == Closing(c, NoRoom) && Known(x2, c) && x2.r.net == x.r.net && x2.w.mem == x.w.mem
    ensures x2.w.tally.refused == x.w.tally.refused + 1 && Enabled(n, x2, Close)
  {
  }

  lemma ClosesIt(n: nat, x: State, c: UringModel.Conn)
    requires x.pc == Closing(c, NoRoom) && Known(x, c) && Enabled(n, x, Close)
    ensures var x', id := After(n, x, Close), IdOf(x.r, x.w, c);
            && x'.w.tally == x.w.tally && id in x'.r.net.conns
            && x'.r.net.conns[id] == x.r.net.conns[id].(at := Closed, dropped := !Finished(x.r.net.conns[id]))
  {
    hide Finished;
  }

  // ---------------------------------------------------------------- progress

  /** The loop has ended, or the wait would block: nothing is queued or completed, and every operation in the
      kernel waits for a peer. */
  ghost predicate Settled(x: State) {
    x.pc.Stopped? || (x.pc.Waiting? && Quiet(x.r, x.w))
  }

  /** A step of the server, or of the kernel on one of its operations, that gets something done: a wait submits an
      entry, finds a completion or fails for good, a flush frees an entry, and an accept completes with a
      connection. */
  predicate Granted(x: State, l: Label) {
    match l
    case Outside(_) => false
    case Complete(i, _, a, _) => i < |x.r.ker| && (x.r.ker[i].op.AcceptOp? ==> a.Ok?)
    case Wait(k, rc) => k > 0 || x.r.cq != [] || (rc.Err? && rc.errno != EINTR)
    case Flush(k) => k > 0
    case _ => true
  }

  /** A step that is granted and in which nothing fails that has not failed before: submit_and_wait succeeds, and an
      operation completes with an error only on a connection that is broken. */
  predicate Kind(x: State, l: Label) {
    match l
    case Outside(_) => false
    case Complete(i, _, a, _) => i < |x.r.ker| && (a.Ok? || (a == Err(EOTHER) && ReceivesFromBroken(x.r, x.r.ker[i])))
    case Wait(k, rc) => rc.Ok? && (k > 0 || x.r.cq != [])
    case Flush(k) => k > 0
    case _ => true
  }

  predicate ReceivesFromBroken(r: Ring, j: Job) {
    && j.Sqe? && j.op.RecvOp? && j.fd in r.net.fds && r.net.fds[j.fd] in r.net.conns
    && r.net.conns[r.net.fds[j.fd]].broken
  }

  lemma KindIsGranted(x: State, l: Label)
    requires Kind(x, l)
    ensures Granted(x, l)
  {
  }

  /** A server that is not settled has a step of its own to make, or the kernel can complete an operation, and nothing
      need fail in it.  `c` is an object that is not in use. */
  lemma UnsettledCanMove(n: nat, x: State, c: UringModel.Conn) returns (l: Label)
    requires MachineInv(n, x) && !Settled(x) && c !in x.w.mem
    ensures Enabled(n, x, l) && Kind(x, l) && (l.Adopt? ==> l.conn == c)
  {
    hide *;
    MachineParts(n, x);
    SafeParts(x.r, x.w, x.s);
    InvParts(x.r, x.w);
    UnsettledIs(x);
    if NeedsEntry(x.pc) || x.pc.Closing? {
      l := ConnectionCanMove(n, x);
    } else if x.pc.Looking? {
      LookIsEnabled(n, x);
      l := Look;
      LookIsKind(n, x);
    } else if x.pc.Adopting? {
      l := Adopt(c, seq(n, _ => 0));
      AdoptIsKind(n, x, c, l.data);
    } else {
      l := KernelCanMove(n, x);
    }
  }

  lemma UnsettledIs(x: State)
    requires PcInv(x) && !Settled(x)
    ensures NeedsEntry(x.pc) || x.pc.Closing? || x.pc.Looking? || x.pc.Adopting? || x.pc.Waiting?
    ensures x.pc.Waiting? ==> !Quiet(x.r, x.w) && EmptyHanded(x.w)
  {
    hide JobOk;
  }

  lemma LookIsKind(n: nat, x: State)
    requires LookEnabled(x)
    ensures Enabled(n, x, Look) && Kind(x, Look)
  {
  }

  lemma AdoptIsKind(n: nat, x: State, c: UringModel.Conn, data: seq<Byte>)
    requires x.pc.Adopting? && c !in x.w.mem && |data| == n
    ensures Enabled(n, x, Adopt(c, data)) && Kind(x, Adopt(c, data))
  {
  }

  lemma ConnectionCanMove(n: nat, x: State) returns (l: Label)
    requires PcInv(x) && Tables(x.r, x.w) && Jobs(x.r, x.w) && NetInv(x.r.net, x.w.held)
    requires NeedsEntry(x.pc) || x.pc.Closing?
    ensures Enabled(n, x, l) && Kind(x, l) && !l.Adopt?
  {
    hide JobOk, Tables, NetInv;
    assert |x.r.sq| <= QUEUE_DEPTH;
    if x.pc.Closing? {
      return Close;
    }
    if x.pc.Receiving? || x.pc.Sending? {
      assert x.pc.conn in x.w.hand;
      HandIsKnown(x, x.pc.conn);
    }
    hide PcInv, Jobs, Known;
    l := if |x.r.sq| < QUEUE_DEPTH then Queue else if x.flushed then NoEntry else Flush(|x.r.sq|);
  }

  lemma LookIsEnabled(n: nat, x: State)
    requires x.pc.Looking? && Jobs(x.r, x.w)
    ensures LookEnabled(x)
  {
    if x.r.cq != [] {
      assert x.r.cq[0] in x.r.cq;
    }
  }

  lemma KernelCanMove(n: nat, x: State) returns (l: Label)
    requires x.pc.Waiting? && !Quiet(x.r, x.w) && EmptyHanded(x.w)
    requires Jobs(x.r, x.w) && NetInv(x.r.net, x.w.held)
    ensures Enabled(n, x, l) && Kind(x, l) && !l.Adopt?
  {
    hide JobOk, NetInv, CompleteEnabled, Blocked;
    if x.r.sq != [] || x.r.cq != [] {
      return Wait(|x.r.sq|, Ok(|x.r.sq|));
    }
    var j :| j in x.r.ker && !(j.Sqe? && Blocked(x.r, j));
    var i :| 0 <= i < |x.r.ker| && x.r.ker[i] == j;
    l := CanComplete(x, i);
  }

  lemma CanComplete(x: State, i: nat) returns (l: Label)
    requires i < |x.r.ker| && x.r.ker[i].Sqe? && JobOk(x.r, x.w, x.r.ker[i]) && !Blocked(x.r, x.r.ker[i])
    requires NetInv(x.r.net, x.w.held)
    ensures l.Complete? && l.i == i && CompleteEnabled(x, l.i, l.net, l.a, l.data) && Kind(x, l)
  {
    var j, net := x.r.ker[i], x.r.net;
    match j.op
    case RecvOp(c) => l := CanRecv(x, i, c);
    case SendOp(c) =>
      var id := net.fds[j.fd];
      var bytes := SendBytes(x.r, x.w, i);
      var k := net.conns[id];
      l := Complete(i, net.(conns := net.conns[id := k.(out := k.out + bytes[..j.len])]), Ok(j.len), []);
    case AcceptOp =>
      var id := net.backlog[0];
      assert id in net.backlog;
      var fd := FreshFd(net.fds.Keys, 5);
      var conns := net.conns[id := net.conns[id].(at := Open(fd))];
      l := Complete(i, Sockets(conns, net.backlog[1..], net.fds[fd := id]), Ok(fd), []);
    case SignalOp => l := Complete(i, net, Ok(1), []);
  }

  lemma CanRecv(x: State, i: nat, c: UringModel.Conn) returns (l: Label)
    requires i < |x.r.ker| && x.r.ker[i].Sqe? && x.r.ker[i].op == RecvOp(c)
    requires JobOk(x.r, x.w, x.r.ker[i]) && !Blocked(x.r, x.r.ker[i]) && NetInv(x.r.net, x.w.held)
    ensures l.Complete? && l.i == i && CompleteEnabled(x, l.i, l.net, l.a, l.data) && Kind(x, l)
  {
    var j, net := x.r.ker[i], x.r.net;
    var id := net.fds[j.fd];
    var k := net.conns[id];
    assert Sound(k, Held(x.w.held, id));
    var n := if |Unread(k)| < j.len then |Unread(k)| else j.len;
    var data := Unread(k)[..n];
    if n > 0 || k.fin || j.len == 0 {
      l := Complete(i, net.(conns := net.conns[id := k.(given := k.given + data)]), Ok(n), data);
    } else {
      l := Complete(i, net.(conns := net.conns[id := k.(broken := true)]), Err(EOTHER), []);
    }
  }

  /** Where it is settled there is no such step: every operation in the kernel waits for a peer. */
  lemma SettledCannotMove(n: nat, x: State, l: Label)
    requires x.pc.Waiting? && Quiet(x.r, x.w) && Enabled(n, x, l)
    ensures !Kind(x, l)
  {
    hide CompleteEnabled, Blocked, Tick;
    if l.Complete? && l.i < |x.r.ker| {
      assert x.r.ker[l.i] in x.r.ker;
      BlockedDoesNotComplete(x, l.i, l.net, l.a, l.data);
    }
  }

  lemma BlockedDoesNotComplete(x: State, i: nat, net': Sockets, a: Answer, data: seq<Byte>)
    requires i < |x.r.ker| && x.r.ker[i].Sqe? && Blocked(x.r, x.r.ker[i]) && CompleteEnabled(x, i, net', a, data)
    ensures !a.Ok? && !(a == Err(EOTHER) && ReceivesFromBroken(x.r, x.r.ker[i]))
  {
  }

  /** A server that has not ended is settled exactly if neither it nor the kernel has a step left in which nothing
      fails. */
  lemma SettledExactly(n: nat, x: State, c: UringModel.Conn)
    requires MachineInv(n, x) && !x.pc.Stopped? && c !in x.w.mem
    ensures Settled(x) <==> forall l | Enabled(n, x, l) :: !Kind(x, l)
  {
    hide MachineInv, Enabled, Kind, Quiet;
    if Settled(x) {
      forall l | Enabled(n, x, l) ensures !Kind(x, l) {
        SettledCannotMove(n, x, l);
      }
    } else {
      var l := UnsettledCanMove(n, x, c);
    }
  }

  /** Whenever the wait would block, every open connection has been sent everything it sent, and so has every
      healthy one that was not dropped; and while the accept is outstanding no connection waits in the backlog. */
  lemma QuietRunIsEchoed(n: nat, t: Trace, id: Id)
    requires IsRun(n, t) && Quiet(Now(t).r, Now(t).w) && id in Now(t).r.net.conns
    ensures var c := Now(t).r.net.conns[id];
            && (c.at.Open? ==> c.out == c.given == c.sent)
            && (c.at.Closed? && !c.broken && !c.dropped ==> c.out == c.sent)
    ensures Now(t).w.accepting ==> Now(t).r.net.backlog == []
  {
    hide IsRun, Quiet, Inv, Law, PcInv, Sized;
    RunKeepsMachine(n, t);
    QuietMeansEchoed(Now(t).r, Now(t).w, id);
  }

  // ---------------------------------------------------------------- counters

  predicate IsWait(x: State, l: Label) {
    l.Wait?
  }

  predicate IsFlush(x: State, l: Label) {
    l.Flush?
  }

  predicate IsClose(x: State, l: Label) {
    l.Close?
  }

  predicate IsAdopt(x: State, l: Label) {
    l.Adopt?
  }

  predicate QueuesRecv(x: State, l: Label) {
    l.Queue? && x.pc.Receiving?
  }

  predicate QueuesSend(x: State, l: Label) {
    l.Queue? && x.pc.Sending?
  }

  /** A look that finds a recv with bytes. */
  predicate FindsBytes(x: State, l: Label) {
    l.Look? && x.r.cq != [] && x.r.cq[0].Cqe? && x.r.cq[0].op.RecvOp? && x.r.cq[0].res > 0
  }

  /** The counters of the ring server count what they are named after; a read or a write is a queue entry, and a
      system call a wait, a forced flush or a close. */
  lemma {:induction false} CallsOfRuns(n: nat, t: Trace)
    requires IsRun(n, t)
    ensures var s := Now(t).s;
            && s.waitCalls == Count(t, IsWait) && s.closed == Count(t, IsClose) && s.accepted == Count(t, IsAdopt)
            && s.syscalls == s.waitCalls + s.closed + Count(t, IsFlush)
            && s.readCalls == Count(t, QueuesRecv) && s.writeCalls == Count(t, QueuesSend)
            && s.requests == Count(t, FindsBytes) && s.threadsSpawned == 0
    decreases |t.labels|
  {
    hide Step, IsWait, IsFlush, IsClose, IsAdopt, QueuesRecv, QueuesSend, FindsBytes;
    if t.labels != [] {
      BeforeIsRun(n, t);
      CallsOfRuns(n, Before(t));
      CallsMove(n, Now(Before(t)), t.labels[|t.labels| - 1], Now(t));
    }
  }

  lemma CallsMove(n: nat, x: State, l: Label, x': State)
    requires Step(n, x, l, x')
    ensures var s, s' := x.s, x'.s;
            && s'.waitCalls == s.waitCalls + (if IsWait(x, l) then 1 else 0)
            && s'.closed == s.closed + (if IsClose(x, l) then 1 else 0)
            && s'.accepted == s.accepted + (if IsAdopt(x, l) then 1 else 0)
            && s'.syscalls == s.syscalls + (if IsWait(x, l) then 1 else 0) + (if IsClose(x, l) then 1 else 0)
                              + (if IsFlush(x, l) then 1 else 0)
            && s'.readCalls == s.readCalls + (if QueuesRecv(x, l) then 1 else 0)
            && s'.writeCalls == s.writeCalls + (if QueuesSend(x, l) then 1 else 0)
            && s'.requests == s.requests + (if FindsBytes(x, l) then 1 else 0)
            && s'.threadsSpawned == s.threadsSpawned
  {
    hide Tick, Recvs, Sends, AcceptsNow, SignalsNow, SendBytes, Filled, Shifted, TakenWorld, Taken, Submitted, Enqueued,
         Freed, ClosedRing, Adopted, Completed, Known, UringSteps.Counted, UringSteps.Flushed;
  }
}
