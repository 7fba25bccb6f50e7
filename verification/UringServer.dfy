/**
 server_uring.cpp: the completion-driven echo server.

 The ring is a value handed from one step to the next; user memory is the
 heap: one Conn object with its buffer per connection, which the kernel writes
 while a recv is outstanding.  The kernel completes any operations, in any
 order, whenever the server enters it or looks at the completion queue.
 `horizon` bounds how many waits and looks at the queue are observed, so a
 contract that holds for every horizon holds throughout every run.

 Every method is given the run of `UringMachine` that has led to its call and
 hands back a continuation of it, as long as the waits and looks it has used
 up.  What `UringRuns` proves of all runs is therefore true of this class.
 */
module UringServer {
  import opened EchoSpec
  import opened Net
  import opened Counters
  import opened UringModel
  import opened UringProgress
  import opened UringSteps
  import opened UringMachine
  import opened UringCalls

  ghost function Foot(mem: Memory): set<object> {
    (set c | c in mem :: c as object) + Buffers(mem)
  }

  ghost function Buffers(mem: Memory): set<object> {
    set c | c in mem :: c.buffer as object
  }

  lemma InFoot(mem: Memory, c: UringModel.Conn)
    requires c in mem
    ensures c in Foot(mem)
  {
  }

  lemma BuffersInFoot(mem: Memory)
    ensures Buffers(mem) <= Foot(mem)
  {
  }

  lemma FootShrinks(mem: Memory, mem': Memory)
    requires mem'.Keys <= mem.Keys
    ensures Foot(mem') <= Foot(mem)
  {
  }

  lemma AdoptedFoot(mem: Memory, c: UringModel.Conn, slot: Slot)
    ensures Foot(mem[c := slot]) == Foot(mem) + {c, c.buffer}
  {
  }

  lemma SameBuffers(mem: Memory, mem': Memory)
    requires mem'.Keys == mem.Keys
    ensures Buffers(mem') == Buffers(mem) && Foot(mem') == Foot(mem)
  {
  }

  /** The heap holds what `mem` says, and no two connections share a buffer. */
  ghost predicate Backs(mem: Memory)
    reads Foot(mem)
  {
    && (forall c | c in mem :: c.fd == mem[c].fd && c.pending == mem[c].pending && c.buffer[..] == mem[c].data)
    && (forall c, d | c in mem && d in mem && c != d :: c.buffer != d.buffer)
  }

  lemma NothingToBack()
    ensures Backs(map[]) && Foot(map[]) == {}
  {
  }

  // ---------------------------------------------------------------- the kernel

  /** Peers, network and signals move. */
  method Advance(n: nat, r: Ring, ghost t: Trace, ghost s: Stats, ghost running: bool)
    returns (r': Ring, ghost t': Trace)
    requires Drives(n, t, r, s, running)
    ensures Drives(n, t', r', s, running) && Awaits(t, t') && Mem(t') == Mem(t)
  {
    hide *;
    r', t' := *, t;
    AwaitsItself(t);
    if Tick(r, r') {
      t' := OutsideHappens(n, t, r, s, running, r');
    } else {
      r' := r;
    }
  }

  /** The kernel completes one operation, or none; a recv fills its buffer. */
  method Complete(n: nat, r: Ring, ghost t: Trace, ghost s: Stats, ghost running: bool)
    returns (r': Ring, ghost t': Trace)
    requires Drives(n, t, r, s, running) && Backs(Mem(t))
    modifies Buffers(Mem(t))
    ensures Drives(n, t', r', s, running) && Awaits(t, t') && Backs(Mem(t'))
  {
    hide Drives, Awaits, Mem, Recvs, Sends, AcceptsNow, SignalsNow, Result, Completed, SendBytes, Reads, Inv,
         MachineInv, CompleteEnabled;
    var i: nat, a: Answer, net': Sockets, data: seq<Byte> := *, *, *, *;
    AwaitsItself(t);
    r', t' := r, t;
    if i >= |r.ker| {
      return;
    }
    RunInvariant(n, t, r, s, running);
    MemIs(t);
    match r.ker[i].op
    case RecvOp(c) =>
      if Recvs(r, i, net', a, data) {
        RecvFacts(r, Now(t).w, i, net', a, data);
        RecvIsEnabled(Now(t), i, net', a, data);
        t' := CompleteHappens(n, t, r, s, running, i, net', a, data);
        FilledFacts(Mem(t)[c], data);
        forall k | 0 <= k < |data| {
          c.buffer[k] := data[k];
        }
        r' := Completed(r, i, net', Result(a));
      }
    case SendOp(c) =>
      SendFacts(r, Now(t).w, i);
      SendBytesAre(r, Now(t).w, i);
      var bytes := c.buffer[..r.ker[i].len];
      if Sends(r, i, net', a, bytes) {
        SendIsEnabled(Now(t), i, net', a);
        t' := CompleteHappens(n, t, r, s, running, i, net', a, []);
        r' := Completed(r, i, net', Result(a));
      }
    case AcceptOp =>
      if AcceptsNow(r, i, net', a) {
        OtherIsEnabled(Now(t), i, net', a);
        t' := CompleteHappens(n, t, r, s, running, i, net', a, []);
        r' := Completed(r, i, net', Result(a));
      }
    case SignalOp =>
      if SignalsNow(r, i) {
        OtherIsEnabled(Now(t), i, r.net, Ok(1));
        t' := CompleteHappens(n, t, r, s, running, i, r.net, Ok(1), []);
        r' := Completed(r, i, r.net, Result(Ok(1)));
      }
  }

  lemma MemIs(t: Trace)
    ensures Mem(t) == Now(t).w.mem && Table(t) == Now(t).w.table
  {
  }

  lemma RecvIsEnabled(x: State, i: nat, net': Sockets, a: Answer, data: seq<Byte>)
    requires i < |x.r.ker| && x.r.ker[i].Sqe? && x.r.ker[i].op.RecvOp? && x.r.ker[i].op.conn in x.w.mem
    requires x.r.ker[i].fd in x.r.net.fds && |data| <= |x.w.mem[x.r.ker[i].op.conn].data|
    requires Recvs(x.r, i, net', a, data)
    ensures CompleteEnabled(x, i, net', a, data)
  {
  }

  lemma SendIsEnabled(x: State, i: nat, net': Sockets, a: Answer)
    requires i < |x.r.ker| && x.r.ker[i].Sqe? && x.r.ker[i].op.SendOp? && x.r.ker[i].op.conn in x.w.mem
    requires x.r.ker[i].fd in x.r.net.fds && x.r.ker[i].len <= |x.w.mem[x.r.ker[i].op.conn].data|
    requires Sends(x.r, i, net', a, SendBytes(x.r, x.w, i))
    ensures CompleteEnabled(x, i, net', a, [])
  {
  }

  lemma OtherIsEnabled(x: State, i: nat, net': Sockets, a: Answer)
    requires i < |x.r.ker|
    requires (x.r.ker[i].op.AcceptOp? && AcceptsNow(x.r, i, net', a))
             || (x.r.ker[i].op.SignalOp? && SignalsNow(x.r, i) && net' == x.r.net && a == Ok(1))
    ensures CompleteEnabled(x, i, net', a, [])
  {
  }

  lemma SendBytesAre(r: Ring, w: World, i: nat)
    requires i < |r.ker| && r.ker[i].Sqe? && r.ker[i].op.SendOp? && r.ker[i].op.conn in w.mem
    requires r.ker[i].len <= |w.mem[r.ker[i].op.conn].data|
    ensures SendBytes(r, w, i) == w.mem[r.ker[i].op.conn].data[..r.ker[i].len]
  {
  }

  /** Any number of moves of peers and kernel. */
  method Progress(n: nat, r: Ring, ghost t: Trace, ghost s: Stats, ghost running: bool)
    returns (r': Ring, ghost t': Trace)
    requires Drives(n, t, r, s, running) && Backs(Mem(t))
    modifies Buffers(Mem(t))
    ensures Drives(n, t', r', s, running) && Awaits(t, t') && Backs(Mem(t'))
    ensures Mem(t').Keys == Mem(t).Keys && r'.sq == r.sq && r.cq <= r'.cq
  {
    hide Drives, Awaits, Continues;
    var moves: nat := *;
    r', t' := r, t;
    AwaitsItself(t);
    while moves > 0
      invariant Drives(n, t', r', s, running) && Awaits(t, t') && Backs(Mem(t'))
    {
      AwaitsFacts(t, t');
      SameBuffers(Mem(t), Mem(t'));
      var r1, t1 := Advance(n, r', t', s, running);
      AwaitsOn(t, t', t1);
      var r2, t2 := Complete(n, r1, t1, s, running);
      AwaitsOn(t, t1, t2);
      r', t' := r2, t2;
      moves := moves - 1;
    }
    AwaitsFacts(t, t');
    DrivesFacts(n, t, r, s, running);
    DrivesFacts(n, t', r', s, running);
  }

  /** How many of the queued entries the kernel accepts in one entry is up to the kernel. */
  method KernelTakes(queued: nat) returns (k: nat)
    ensures k <= queued
  {
    k := *;
    if k > queued {
      k := queued;
    }
  }

  method NewConn(fd: Fd, bufferSize: nat, ghost mem: Memory) returns (c: UringModel.Conn)
    requires Backs(mem)
    ensures c !in mem && c.buffer.Length == bufferSize
    ensures Backs(mem[c := Slot(fd, c.buffer[..], 0)])
    ensures fresh(Foot(mem[c := Slot(fd, c.buffer[..], 0)]) - Foot(mem))
  {
    c := new UringModel.Conn(fd, bufferSize);
    AdoptedFoot(mem, c, Slot(fd, c.buffer[..], 0));
  }

  method SetPending(c: UringModel.Conn, length: nat, ghost mem: Memory)
    requires Backs(mem) && c in mem
    modifies c`pending
    ensures Backs(mem[c := mem[c].(pending := length)]) && c.pending == length
  {
    c.pending := length;
  }

  class UringServer {
    const bufferSize: nat
    var connections: map<Fd, UringModel.Conn>
    var running: bool
    var stats: Stats

    /** The run has led to this state of the server, the ring, the table and the heap behind it. */
    ghost predicate Valid(r: Ring, t: Trace)
      reads this, Foot(Mem(t))
    {
      Drives(bufferSize, t, r, stats, running) && connections == Table(t) && Backs(Mem(t))
    }

    constructor (bufferSize: nat)
      ensures this.bufferSize == bufferSize && running && stats == Zero
      ensures Valid(Boot, Begun) && At(Begun, Accepting(-1, true)) && Foot(Mem(Begun)) == {}
    {
      this.bufferSize := bufferSize;
      connections, running, stats := map[], true, Zero;
      new;
      hide Drives, Backs, Foot, Buffers, Mem, Table, At;
      Begins(bufferSize);
      NothingToBack();
    }

    /** start: one accept and the poll on the signal descriptor are queued. */
    method Start(r: Ring, ghost t: Trace) returns (r': Ring, ghost t': Trace)
      requires Valid(r, t) && At(t, Accepting(-1, true))
      modifies this`stats, Buffers(Mem(t))
      ensures Valid(r', t') && Continues(t, t', 0) && At(t', Pc.Waiting) && Mem(t').Keys == Mem(t).Keys
    {
      hide Drives, Continues, Awaits, At, Mem, Table;
      r', t' := SubmitAccept(r, t, -1, true);
      SameBuffers(Mem(t), Mem(t'));
      ghost var t1 := t';
      r', t' := SubmitSignalPoll(r', t1);
      ContinuesOn(t, t1, t', 0, 0);
    }

    /** A free submission entry; a full queue is flushed first, which leaves no entry only if it is refused. */
    method NextSqe(r: Ring, ghost t: Trace) returns (ok: bool, r': Ring, ghost t': Trace)
      requires Valid(r, t) && NeedsEntry(Now(t).pc) && !Now(t).flushed
      modifies this`stats, Buffers(Mem(t))
      ensures Valid(r', t') && Continues(t, t', 0) && Now(t').pc == Now(t).pc
      ensures Mem(t').Keys == Mem(t).Keys && Table(t') == Table(t)
      ensures ok ==> |r'.sq| < QUEUE_DEPTH && Refusals(t') == Refusals(t)
      ensures !ok ==> |r'.sq| == QUEUE_DEPTH && Now(t').flushed && Refusals(t') == Refusals(t) + 1
      ensures stats == old(stats).(syscalls := stats.syscalls)
    {
      hide Drives, Continues, Awaits, Table, Refusals, MachineInv, Inv, Submitted;
      RunInvariant(bufferSize, t, r, stats, running);
      ContinuesItself(t);
      ok, r', t' := true, r, t;
      if |r.sq| == QUEUE_DEPTH {
        var k := KernelTakes(|r.sq|);
        ghost var t1 := FlushHappens(bufferSize, t, r, stats, running, k);
        stats := stats.(syscalls := stats.syscalls + 1);
        r', t' := Progress(bufferSize, Submitted(r, k), t1, stats, running);
        AwaitsFacts(t1, t');
        ContinuesOn(t, t1, t', 0, 0);
        ok := |r'.sq| < QUEUE_DEPTH;
      }
    }

    /** Keeps one accept outstanding; it is lost for good if there is no room even after a flush. */
    method SubmitAccept(r: Ring, ghost t: Trace, ghost res: int, ghost starting: bool)
      returns (r': Ring, ghost t': Trace)
      requires Valid(r, t) && At(t, Accepting(res, starting))
      modifies this`stats, Buffers(Mem(t))
      ensures Valid(r', t') && Continues(t, t', 0) && At(t', AcceptDone(res, starting))
      ensures Mem(t').Keys == Mem(t).Keys && Table(t') == Table(t)
      ensures if Refusals(t') == Refusals(t) then |r'.sq| > 0 && r'.sq[|r'.sq| - 1] == Sqe(AcceptOp, LISTENER, 0)
              else Refusals(t') == Refusals(t) + 1 && !Now(t').w.accepting
      ensures stats == old(stats).(syscalls := stats.syscalls)
    {
      hide Drives, Continues, Awaits, Mem, Table, Refusals;
      var ok;
      ghost var t1;
      ok, r', t1 := NextSqe(r, t);
      SameBuffers(Mem(t), Mem(t1));
      if !ok {
        t' := NoEntryHappens(bufferSize, t1, r', stats, running);
        ContinuesOn(t, t1, t', 0, 0);
        return;
      }
      t' := QueueHappens(bufferSize, t1, r', stats, running, 0, 0);
      ContinuesOn(t, t1, t', 0, 0);
      r' := Enqueued(r', Sqe(AcceptOp, LISTENER, 0));
    }

    method SubmitSignalPoll(r: Ring, ghost t: Trace) returns (r': Ring, ghost t': Trace)
      requires Valid(r, t) && At(t, Polling)
      modifies this`stats, Buffers(Mem(t))
      ensures Valid(r', t') && Continues(t, t', 0) && At(t', Pc.Waiting) && Mem(t').Keys == Mem(t).Keys
      ensures Refusals(t') == Refusals(t) ==> |r'.sq| > 0 && r'.sq[|r'.sq| - 1] == Sqe(SignalOp, SIGNALS, 0)
    {
      hide Drives, Continues, Awaits, Mem, Table, Refusals;
      var ok;
      ghost var t1;
      ok, r', t1 := NextSqe(r, t);
      SameBuffers(Mem(t), Mem(t1));
      if !ok {
        t' := NoEntryHappens(bufferSize, t1, r', stats, running);
        ContinuesOn(t, t1, t', 0, 0);
        return;
      }
      t' := QueueHappens(bufferSize, t1, r', stats, running, 0, 0);
      ContinuesOn(t, t1, t', 0, 0);
      r' := Enqueued(r', Sqe(SignalOp, SIGNALS, 0));
    }

    /** Hands the whole buffer to the kernel, or closes the connection when there is no entry for it. */
    method SubmitRecv(r: Ring, ghost t: Trace, c: UringModel.Conn) returns (r': Ring, ghost t': Trace)
      requires Valid(r, t) && At(t, Receiving(c))
      modifies this, Foot(Mem(t))
      ensures Valid(r', t') && Continues(t, t', 0) && At(t', Looking) && running == old(running)
      ensures if Refusals(t') == Refusals(t) then
                && Mem(t').Keys == Mem(t).Keys && c in Mem(t')
                && |r'.sq| > 0 && r'.sq[|r'.sq| - 1] == Sqe(RecvOp(c), Mem(t')[c].fd, bufferSize)
                && stats == old(stats).(readCalls := old(stats).readCalls + 1, syscalls := stats.syscalls)
              else
                && Refusals(t') == Refusals(t) + 1 && Mem(t').Keys == Mem(t).Keys - {c}
                && stats == old(stats).(closed := old(stats).closed + 1, syscalls := stats.syscalls)
    {
      hide Drives, Continues, Awaits, Mem, Table, Refusals, At, Known, NeedsEntry;
      AtFacts(t, Receiving(c));
      EntryFor(c, 0);
      BuffersInFoot(Mem(t));
      var ok;
      ghost var t1;
      ok, r', t1 := NextSqe(r, t);
      SameBuffers(Mem(t), Mem(t1));
      HandInvariant(bufferSize, t1, r', stats, running, c);
      if !ok {
        ghost var t2 := NoEntryHappens(bufferSize, t1, r', stats, running);
        ContinuesOn(t, t1, t2, 0, 0);
        r', t' := CloseConnection(r', t2, c, NoRoom);
        ContinuesOn(t, t2, t', 0, 0);
        return;
      }
      r', t' := PrepRecv(r', t1, c);
      ContinuesOn(t, t1, t', 0, 0);
    }

    /** Fills in the free entry with a recv into the whole buffer. */
    method PrepRecv(r: Ring, ghost t: Trace, c: UringModel.Conn) returns (r': Ring, ghost t': Trace)
      requires Valid(r, t) && Now(t).pc == Receiving(c) && Known(Now(t), c) && |r.sq| < QUEUE_DEPTH
      requires c in Mem(t) && |Mem(t)[c].data| == bufferSize
      modifies this`stats
      ensures Valid(r', t') && Continues(t, t', 0) && At(t', Looking) && Refusals(t') == Refusals(t)
      ensures Mem(t').Keys == Mem(t).Keys && c in Mem(t')
      ensures r'.sq == r.sq + [Sqe(RecvOp(c), Mem(t')[c].fd, bufferSize)]
      ensures stats == old(stats).(readCalls := old(stats).readCalls + 1)
    {
      hide Drives, Continues, Mem, Table, Refusals, At, Known, NeedsEntry, Enqueued;
      KnownOpen(Now(t), c);
      MemIs(t);
      BackedFields(Mem(t), c);
      EntryIs(Now(t), c, 0);
      var j := Sqe(RecvOp(c), c.fd, c.buffer.Length);
      t' := QueueHappens(bufferSize, t, r, stats, running, 1, 0);
      stats := stats.(readCalls := stats.readCalls + 1); // a queue entry, not a kernel entry
      EnqueuedLast(r, j);
      r' := Enqueued(r, j);
    }

    /** Hands the first `length` bytes of the buffer to the kernel, or closes the connection when there is no
        entry for that. */
    method SubmitSend(r: Ring, ghost t: Trace, c: UringModel.Conn, length: nat) returns (r': Ring, ghost t': Trace)
      requires Valid(r, t) && At(t, Sending(c, length))
      modifies this, Foot(Mem(t))
      ensures Valid(r', t') && Continues(t, t', 0) && At(t', Looking) && running == old(running)
      ensures if Refusals(t') == Refusals(t) then
                && Mem(t').Keys == Mem(t).Keys && c in Mem(t') && Mem(t')[c].pending == length
                && |r'.sq| > 0 && r'.sq[|r'.sq| - 1] == Sqe(SendOp(c), Mem(t')[c].fd, length)
                && stats == old(stats).(writeCalls := old(stats).writeCalls + 1, syscalls := stats.syscalls)
              else
                && Refusals(t') == Refusals(t) + 1 && Mem(t').Keys == Mem(t).Keys - {c}
                && stats == old(stats).(closed := old(stats).closed + 1, syscalls := stats.syscalls)
    {
      hide Drives, Continues, Awaits, Mem, Table, Refusals, At, Known, NeedsEntry;
      AtFacts(t, Sending(c, length));
      EntryFor(c, length);
      BuffersInFoot(Mem(t));
      var ok;
      ghost var t1;
      ok, r', t1 := NextSqe(r, t);
      SameBuffers(Mem(t), Mem(t1));
      HandInvariant(bufferSize, t1, r', stats, running, c);
      InFoot(Mem(t), c);
      if !ok {
        ghost var t2 := NoEntryHappens(bufferSize, t1, r', stats, running);
        ContinuesOn(t, t1, t2, 0, 0);
        r', t' := CloseConnection(r', t2, c, NoRoom);
        ContinuesOn(t, t2, t', 0, 0);
        return;
      }
      r', t' := PrepSend(r', t1, c, length);
      ContinuesOn(t, t1, t', 0, 0);
    }

    /** Fills in the free entry with a send of the first `length` bytes. */
    method PrepSend(r: Ring, ghost t: Trace, c: UringModel.Conn, length: nat) returns (r': Ring, ghost t': Trace)
      requires Valid(r, t) && Now(t).pc == Sending(c, length) && Known(Now(t), c) && |r.sq| < QUEUE_DEPTH
      modifies this`stats, c`pending
      ensures Valid(r', t') && Continues(t, t', 0) && At(t', Looking) && Refusals(t') == Refusals(t)
      ensures Mem(t').Keys == Mem(t).Keys && c in Mem(t') && Mem(t')[c].pending == length == c.pending
      ensures r'.sq == r.sq + [Sqe(SendOp(c), Mem(t')[c].fd, length)]
      ensures stats == old(stats).(writeCalls := old(stats).writeCalls + 1)
    {
      hide Drives, Continues, Mem, Table, Refusals, At, Known, NeedsEntry, Enqueued;
      KnownOpen(Now(t), c);
      MemIs(t);
      BackedFields(Mem(t), c);
      EntryIs(Now(t), c, length);
      var j := Sqe(SendOp(c), c.fd, length);
      t' := QueueHappens(bufferSize, t, r, stats, running, 0, 1);
      SetPending(c, length, Mem(t));
      stats := stats.(writeCalls := stats.writeCalls + 1);
      EnqueuedLast(r, j);
      r' := Enqueued(r, j);
    }

    /** close_connection: nothing outstanding refers to `c`, so its descriptor and its buffer may go. */
    method CloseConnection(r: Ring, ghost t: Trace, c: UringModel.Conn, ghost why: Why)
      returns (r': Ring, ghost t': Trace)
      requires Valid(r, t) && At(t, Closing(c, why))
      modifies this, Foot(Mem(t))
      ensures Valid(r', t') && Continues(t, t', 0) && At(t', Looking) && Refusals(t') == Refusals(t)
      ensures Mem(t').Keys == Mem(t).Keys - {c} && c.fd == -1
      ensures connections == old(connections) - {old(c.fd)} && running == old(running)
      ensures stats == old(stats).(closed := old(stats).closed + 1, syscalls := old(stats).syscalls + 1)
    {
      hide Drives, Continues, Mem, Table, Refusals, At, Known, ClosedRing;
      AtFacts(t, Closing(c, why));
      HandInvariant(bufferSize, t, r, stats, running, c);
      InFoot(Mem(t), c);
      t' := CloseHappens(bufferSize, t, r, stats, running, c, why);
      KnownOpen(Now(t), c);
      MemIs(t);
      DrivesFacts(bufferSize, t, r, stats, running);
      var fd := c.fd;
      c.fd := -1;
      r' := ClosedRing(r, fd);
      stats := stats.(closed := stats.closed + 1, syscalls := stats.syscalls + 1);
      connections := connections - {fd};
    }

    /** An accept completed: the next one is submitted before anything else. */
    method Accepted(r: Ring, ghost t: Trace, result: int) returns (r': Ring, ghost t': Trace)
      requires Valid(r, t) && At(t, Accepting(result, false))
      modifies this, Foot(Mem(t))
      ensures Valid(r', t') && Continues(t, t', 0) && At(t', Looking) && fresh(Foot(Mem(t')) - Foot(Mem(t)))
      ensures stats.accepted == old(stats).accepted + (if result >= 0 then 1 else 0)
      ensures stats.requests == old(stats).requests && running == old(running)
    {
      hide Drives, Continues, Awaits, Table, Refusals, At, AcceptDone;
      BuffersInFoot(Mem(t));
      ghost var t1;
      r', t1 := SubmitAccept(r, t, result, false);
      SameBuffers(Mem(t), Mem(t1));
      AcceptDoneIs(result);
      t' := t1;
      if result >= 0 {
        r', t' := Welcome(r', t1, result);
        ContinuesOn(t, t1, t', 0, 0);
      }
    }

    /** An accepted descriptor gets its Conn, its place in the table, and its first recv. */
    method Welcome(r: Ring, ghost t: Trace, fd: Fd) returns (r': Ring, ghost t': Trace)
      requires Valid(r, t) && At(t, Adopting(fd))
      modifies this, Foot(Mem(t))
      ensures Valid(r', t') && Continues(t, t', 0) && At(t', Looking) && fresh(Foot(Mem(t')) - Foot(Mem(t)))
      ensures stats.accepted == old(stats).accepted + 1 && stats.requests == old(stats).requests
      ensures running == old(running)
    {
      hide Drives, Continues, Table, Refusals, At, Foot, Buffers;
      var c, t1 := Adopt(r, t, fd);
      r', t' := SubmitRecv(r, t1, c);
      ContinuesOn(t, t1, t', 0, 0);
      FootShrinks(Mem(t1), Mem(t'));
    }

    /** connections_[fd] = conn: no live entry is overwritten. */
    method Adopt(r: Ring, ghost t: Trace, fd: Fd) returns (c: UringModel.Conn, ghost t': Trace)
      requires Valid(r, t) && At(t, Adopting(fd))
      modifies this
      ensures Valid(r, t') && Continues(t, t', 0) && At(t', Receiving(c)) && fresh(Foot(Mem(t')) - Foot(Mem(t)))
      ensures fd !in old(connections) && connections == old(connections)[fd := c]
      ensures stats == old(stats).(accepted := old(stats).accepted + 1) && running == old(running)
    {
      hide Drives, Continues, Table, Refusals, At, Backs, Foot, Buffers;
      NotInFoot(Mem(t));
      c := NewConn(fd, bufferSize, Mem(t));
      t' := AdoptHappens(bufferSize, t, r, stats, running, fd, c, c.buffer[..]);
      NotInFoot(Mem(t'));
      connections := connections[fd := c];
      stats := stats.(accepted := stats.accepted + 1);
    }

    /** The completion of a recv has been taken: the bytes are counted and sent back, or the connection is closed. */
    method Reply(r: Ring, ghost t: Trace, c: UringModel.Conn, result: int) returns (r': Ring, ghost t': Trace)
      requires connections == Table(t) && Backs(Mem(t))
      requires Drives(bufferSize, t, r, Credited(stats, result), running)
      requires At(t, if result > 0 then Sending(c, result) else Closing(c, if result == 0 then Ended else Failed))
      modifies this, Foot(Mem(t))
      ensures Valid(r', t') && Continues(t, t', 0) && At(t', Looking) && Mem(t').Keys <= Mem(t).Keys
      ensures running == old(running) && stats.accepted == old(stats).accepted
      ensures stats.requests == old(stats).requests + (if result > 0 then 1 else 0)
    {
      hide Drives, Continues, Table, Refusals, At, Mem, Backs;
      if result > 0 {
        stats := stats.(requests := stats.requests + 1);
        stats := stats.(bytes := stats.bytes + result);
        r', t' := SubmitSend(r, t, c, result);
      } else {
        r', t' := CloseConnection(r, t, c, if result == 0 then Ended else Failed); // 0 = peer closed, < 0 = error
      }
    }

    /** The completion of a send has been taken: of a short one the remainder is moved to the front of the buffer
        and sent before anything is read. */
    method Resume(r: Ring, ghost t0: Trace, ghost t: Trace, c: UringModel.Conn, result: int)
      returns (r': Ring, ghost t': Trace)
      requires Drives(bufferSize, t, r, stats, running) && connections == Table(t) && Backs(Mem(t0)) && c in Mem(t0)
      requires Mem(t0)[c].pending <= |Mem(t0)[c].data|
      requires if 0 < result < Mem(t0)[c].pending then
                 && At(t, Sending(c, Mem(t0)[c].pending - result))
                 && Mem(t) == Mem(t0)[c := Shifted(Mem(t0)[c], result)]
               else
                 && Mem(t) == Mem(t0)
                 && At(t, if result >= 0 then Receiving(c) else Closing(c, Failed))
      modifies this, Foot(Mem(t0))
      ensures Valid(r', t') && Continues(t, t', 0) && At(t', Looking) && Mem(t').Keys <= Mem(t0).Keys
      ensures running == old(running) && stats.accepted == old(stats).accepted
      ensures stats.requests == old(stats).requests
    {
      hide Drives, Continues, Table, Refusals, At;
      if 0 < result < c.pending {
        ghost var before := Mem(t0)[c];
        var left := c.pending - result;
        forall k | 0 <= k < left {
          c.buffer[k] := c.buffer[result + k];
        }
        assert c.buffer[..] == Shifted(before, result).data;
        SameBuffers(Mem(t0), Mem(t));
        r', t' := SubmitSend(r, t, c, left);
      } else if result >= 0 {
        r', t' := SubmitRecv(r, t, c);
      } else {
        r', t' := CloseConnection(r, t, c, Failed);
      }
    }

    lemma NotInFoot(mem: Memory)
      ensures this !in Foot(mem)
    {
    }

    /** Dispatches the completion at the head of the queue. */
    method HandleCompletion(r: Ring, ghost t: Trace) returns (r': Ring, ghost t': Trace)
      requires Valid(r, t) && At(t, Looking) && r.cq != []
      modifies this, Foot(Mem(t))
      ensures Valid(r', t') && Continues(t, t', 1) && At(t', Looking) && fresh(Foot(Mem(t')) - Foot(Mem(t)))
      ensures running == (old(running) && !r.cq[0].op.SignalOp?)
      ensures stats.accepted == old(stats).accepted + (if r.cq[0].op.AcceptOp? && Arrived(r.cq[0]) then 1 else 0)
      ensures stats.requests == old(stats).requests + (if r.cq[0].op.RecvOp? && BytesOf(r.cq[0]) > 0 then 1 else 0)
    {
      hide Drives, Continues, Table, Refusals, At, Taken, Foot, Buffers, Looked, Backs, Shifted;
      var cqe := r.cq[0];
      BuffersInFoot(Mem(t));
      NotInFoot(Mem(t));
      ghost var t1 := LookHappens(bufferSize, t, r, stats, running);
      LookedIs(bufferSize, t, r, stats, running, t1, cqe);
      r' := Taken(r);
      match cqe.op {
      case SignalOp =>
        running := false;
        t' := t1;
        return;
      case AcceptOp =>
        r', t' := Accepted(r', t1, cqe.res);
      case RecvOp(c) =>
        r', t' := Reply(r', t1, c, cqe.res);
        FootShrinks(Mem(t), Mem(t'));
      case SendOp(c) =>
        r', t' := Resume(r', t, t1, c, cqe.res);
        FootShrinks(Mem(t), Mem(t'));
      }
      ContinuesOn(t, t1, t', 1, 0);
    }

    /** The event loop, observed for `horizon` waits and looks at the completion queue.  The run it has been given
        goes on for exactly as many of them; if the observation is not over, the loop has come to its end. */
    method Run(r: Ring, ghost t: Trace, horizon: nat) returns (left: nat, r': Ring, ghost t': Trace)
      requires Valid(r, t) && At(t, Pc.Waiting) && running
      modifies this, Foot(Mem(t))
      ensures Valid(r', t') && left <= horizon && Continues(t, t', horizon - left)
      ensures left > 0 ==> At(t', Stopped)
    {
      hide Drives, Continues, Awaits, Table, At;
      r', t' := r, t;
      left := horizon;
      ContinuesItself(t);
      while running && left > 0
        invariant Valid(r', t') && left <= horizon && Continues(t, t', horizon - left)
        invariant fresh(Foot(Mem(t')) - Foot(Mem(t)))
        invariant left > 0 ==> At(t', if running then Pc.Waiting else Stopped)
        decreases left
      {
        left := left - 1;
        ghost var mem := Mem(t');
        BuffersInFoot(mem);
        var rc;
        ghost var t1;
        rc, r', t1 := SubmitAndWait(r', t');
        SameBuffers(mem, Mem(t1));
        ContinuesOn(t, t', t1, horizon - left - 1, 1);
        t' := t1;
        if rc.Err? && rc.errno != EINTR {
          return;
        }
        ghost var before := left;
        ghost var t2;
        left, r', t2 := Drain(r', t', left);
        ContinuesOn(t, t', t2, horizon - before, before - left);
        t' := t2;
      }
    }

    /** Handles completions until a look at the queue finds none. */
    method Drain(r: Ring, ghost t: Trace, horizon: nat) returns (left: nat, r': Ring, ghost t': Trace)
      requires Valid(r, t) && At(t, Looking)
      modifies this, Foot(Mem(t))
      ensures Valid(r', t') && fresh(Foot(Mem(t')) - Foot(Mem(t)))
      ensures left <= horizon && Continues(t, t', horizon - left)
      ensures left > 0 ==> At(t', if running then Pc.Waiting else Stopped)
    {
      hide Drives, Continues, Awaits, Table, At;
      r', t' := r, t;
      left := horizon;
      ContinuesItself(t);
      while left > 0
        invariant Valid(r', t') && At(t', Looking) && fresh(Foot(Mem(t')) - Foot(Mem(t)))
        invariant left <= horizon && Continues(t, t', horizon - left)
        decreases left
      {
        ghost var mem := Mem(t');
        BuffersInFoot(mem);
        ghost var t1;
        r', t1 := Look(r', t');
        SameBuffers(mem, Mem(t1));
        ContinuesOn(t, t', t1, horizon - left, 0);
        ghost var t2;
        left := left - 1;
        if r'.cq == [] {
          t2 := LookHappens(bufferSize, t1, r', stats, running);
          ContinuesOn(t, t1, t2, horizon - left - 1, 1);
          t' := t2;
          return;
        }
        r', t2 := HandleCompletion(r', t1);
        ContinuesOn(t, t1, t2, horizon - left - 1, 1);
        t' := t2;
      }
    }

    /** io_uring_submit_and_wait: one kernel entry submits what is queued and waits. */
    method SubmitAndWait(r: Ring, ghost t: Trace) returns (rc: Answer, r': Ring, ghost t': Trace)
      requires Valid(r, t) && At(t, Pc.Waiting)
      modifies this`stats, Buffers(Mem(t))
      ensures Valid(r', t') && Continues(t, t', 1) && Mem(t').Keys == Mem(t).Keys
      ensures At(t', if rc.Err? && rc.errno != EINTR then Stopped else Looking)
      ensures stats == old(stats).(waitCalls := old(stats).waitCalls + 1, syscalls := old(stats).syscalls + 1)
    {
      hide Drives, Continues, Awaits, Table, Submitted, MachineInv, Inv;
      rc := *;
      RunInvariant(bufferSize, t, r, stats, running);
      var k := KernelTakes(|r.sq|);
      ghost var t1 := WaitHappens(bufferSize, t, r, stats, running, k, rc);
      stats := stats.(waitCalls := stats.waitCalls + 1);
      stats := stats.(syscalls := stats.syscalls + 1);
      r', t' := Progress(bufferSize, Submitted(r, k), t1, stats, running);
      AwaitsFacts(t1, t');
      ContinuesOn(t, t1, t', 1, 0);
    }

    /** A look at the shared completion queue, which the kernel may have filled further. */
    method Look(r: Ring, ghost t: Trace) returns (r': Ring, ghost t': Trace)
      requires Valid(r, t) && At(t, Looking)
      modifies Buffers(Mem(t))
      ensures Valid(r', t') && Continues(t, t', 0) && At(t', Looking) && Mem(t').Keys == Mem(t).Keys && r.cq <= r'.cq
    {
      hide Drives, Continues, Awaits, Table;
      r', t' := Progress(bufferSize, r, t, stats, running);
      AwaitsFacts(t, t');
    }
  }

  lemma KnownOpen(x: State, c: UringModel.Conn)
    requires Known(x, c)
    ensures c in x.w.mem && x.w.mem[c].fd in x.r.net.fds && x.r.net.fds[x.w.mem[c].fd] in x.r.net.conns
  {
  }

  lemma EntryFor(c: UringModel.Conn, length: nat)
    ensures NeedsEntry(Receiving(c)) && NeedsEntry(Sending(c, length))
  {
  }

  lemma EntryIs(x: State, c: UringModel.Conn, length: nat)
    requires (x.pc == Receiving(c) || x.pc == Sending(c, length)) && c in x.w.mem
    ensures NeedsEntry(x.pc) && Onward(x.pc) == Looking
    ensures Entry(x) == if x.pc.Receiving? then Sqe(RecvOp(c), x.w.mem[c].fd, |x.w.mem[c].data|)
                        else Sqe(SendOp(c), x.w.mem[c].fd, length)
  {
  }

  lemma BackedFields(mem: Memory, c: UringModel.Conn)
    requires Backs(mem) && c in mem
    ensures c.fd == mem[c].fd && c.pending == mem[c].pending && c.buffer.Length == |mem[c].data|
  {
  }

  lemma EnqueuedLast(r: Ring, j: Job)
    ensures Enqueued(r, j).sq == r.sq + [j]
  {
  }

  /** A completed accept that carries a descriptor. */
  predicate Arrived(cqe: Job) {
    cqe.Cqe? && cqe.res >= 0
  }

  lemma AcceptDoneIs(res: int)
    ensures AcceptDone(res, false) == if res >= 0 then Adopting(res) else Looking
  {
  }

  lemma LookedIs(n: nat, t: Trace, r: Ring, s: Stats, running: bool, t': Trace, j: Job)
    requires Looked(n, t, r, s, running, t', j)
    ensures j.Cqe? && r.cq != []
    ensures match j.op
            case SignalOp => Drives(n, t', Taken(r), s, false) && At(t', Looking) && Mem(t') == Mem(t)
            case AcceptOp => Drives(n, t', Taken(r), s, running) && At(t', Accepting(j.res, false)) && Mem(t') == Mem(t)
            case RecvOp(c) =>
              && Mem(t') == Mem(t)
              && (if j.res > 0 then
                    && Drives(n, t', Taken(r), s.(requests := s.requests + 1, bytes := s.bytes + j.res), running)
                    && At(t', Sending(c, j.res))
                  else
                    && Drives(n, t', Taken(r), s, running)
                    && At(t', Closing(c, if j.res == 0 then Ended else Failed)))
            case SendOp(c) =>
              && c in Mem(t) && Drives(n, t', Taken(r), s, running)
              && Mem(t)[c].pending <= |Mem(t)[c].data|
              && (if 0 < j.res < Mem(t)[c].pending then
                    && At(t', Sending(c, Mem(t)[c].pending - j.res))
                    && Mem(t') == Mem(t)[c := Shifted(Mem(t)[c], j.res)]
                  else
                    && Mem(t') == Mem(t)
                    && At(t', if j.res >= 0 then Receiving(c) else Closing(c, Failed)))
  {
  }

  /** The counters once a recv with this result has been taken. */
  function Credited(s: Stats, result: int): Stats {
    if result > 0 then s.(requests := s.requests + 1, bytes := s.bytes + result) else s
  }
}
