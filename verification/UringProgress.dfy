/**
 What the kernel may do to an io_uring server while the server is not looking,
 and the conservation laws of the server's counters.
 */
module UringProgress {
  import opened EchoSpec
  import opened Net
  import opened Counters
  import opened UringModel

  // ---------------------------------------------------------------- counters

  /** Bytes received by completions that have not been handled yet. */
  ghost function Waiting(cq: seq<Job>): nat {
    if cq == [] then 0
    else (if cq[0].Cqe? && cq[0].op.RecvOp? && cq[0].res > 0 then cq[0].res else 0) + Waiting(cq[1..])
  }

  lemma {:induction false} WaitingConcat(a: seq<Job>, b: seq<Job>)
    ensures Waiting(a + b) == Waiting(a) + Waiting(b)
  {
    if a == [] {
      assert a + b == b;
    } else {
      WaitingConcat(a[1..], b);
      assert (a + b)[0] == a[0] && (a + b)[1..] == a[1..] + b;
    }
  }

  lemma WaitingSingle(j: Job)
    ensures Waiting([j]) == if j.Cqe? && j.op.RecvOp? && j.res > 0 then j.res else 0
  {
    assert [j][1..] == [];
  }

  /** Kernel entries are waits, closes and forced flushes and nothing else; a forced flush that empties the
      queue carries 256 operations; bytes are counted when their completion is handled; the accept is lost
      only to a flush that freed no entry. */
  ghost predicate Law(r: Ring, w: World, s: Stats) {
    && s.accepted == s.closed + |w.table|
    && s.syscalls == s.waitCalls + s.closed + w.tally.flushes
    && w.tally.queued == w.tally.submitted + |r.sq|
    && QUEUE_DEPTH * w.tally.full <= w.tally.submitted
    && w.tally.full + w.tally.refused <= w.tally.flushes
    && (w.accepting || w.tally.refused > 0)
    && s.bytes + Waiting(r.cq) == TotalGiven(r.net.conns)
  }

  /** When every forced flush succeeds the number of kernel entries is amortised over the operations queued,
      and between two completions exactly one accept is outstanding. */
  lemma KernelEntriesAreAmortised(r: Ring, w: World, s: Stats)
    requires Law(r, w, s) && Inv(r, w) && w.tally.full == w.tally.flushes
    ensures 256 * (s.syscalls - s.waitCalls - s.closed) + |r.sq| <= w.tally.queued
    ensures EmptyHanded(w) ==>
              AcceptCount(r.sq) + AcceptCount(r.ker) + AcceptCount(r.cq) == 1
  {
  }

  // ---------------------------------------------------------------- progress of the kernel

  /** What the server has in hand is as it was. */
  ghost predicate SameHand(r: Ring, w: World, r': Ring, w': World) {
    && w'.table == w.table && w'.hand == w.hand && w'.loose == w.loose
    && w'.due == w.due && w'.accepting == w.accepting
    && w'.mem.Keys == w.mem.Keys
    && (forall c | c in w.hand :: Kept(r, w, r', w', c))
  }

  /** Only the peer of `c` has moved. */
  ghost predicate Kept(r: Ring, w: World, r': Ring, w': World, c: UringModel.Conn) {
    && c in w.mem && c in w'.mem && w'.mem[c] == w.mem[c]
    && var fd := w.mem[c].fd;
       && fd in r.net.fds && fd in r'.net.fds && r'.net.fds[fd] == r.net.fds[fd]
       && var id := r.net.fds[fd];
          && id in r.net.conns && id in r'.net.conns && PeerStep(r.net.conns[id], r'.net.conns[id])
          && Held(w'.held, id) == Held(w.held, id)
  }

  lemma KeptIsTransitive(r: Ring, w: World, r1: Ring, w1: World, r2: Ring, w2: World, c: UringModel.Conn)
    requires Kept(r, w, r1, w1, c) && Kept(r1, w1, r2, w2, c)
    ensures Kept(r, w, r2, w2, c)
  {
  }

  /** What an operation on the connection in hand says stays true. */
  lemma KeptKeepsJob(r: Ring, w: World, r': Ring, w': World, c: UringModel.Conn, j: Job)
    requires Kept(r, w, r', w', c) && RefOf(j.op) == multiset{c} && JobOk(r, w, j)
    ensures JobOk(r', w', j)
  {
    assert c in RefOf(j.op);
  }

  /** Only peers and kernel have acted: completions have been added. */
  ghost predicate Progressed(r: Ring, w: World, r': Ring, w': World) {
    && SameHand(r, w, r', w') && w'.tally == w.tally
    && r.cq <= r'.cq && r'.sq == r.sq
    && TotalGiven(r'.net.conns) + Waiting(r.cq) == TotalGiven(r.net.conns) + Waiting(r'.cq)
  }

  lemma KeptIsReflexive(r: Ring, w: World)
    requires Inv(r, w)
    ensures forall c | c in w.hand :: Kept(r, w, r, w, c)
  {
    hide Owned, Jobs, SoundInv;
    forall c | c in w.hand ensures Kept(r, w, r, w, c) {
      assert c in w.mem;
    }
  }

  lemma ProgressIsTransitive(r: Ring, w: World, r1: Ring, w1: World, r2: Ring, w2: World)
    requires Progressed(r, w, r1, w1) && Progressed(r1, w1, r2, w2)
    ensures Progressed(r, w, r2, w2)
  {
    SameHandIsTransitive(r, w, r1, w1, r2, w2);
    hide SameHand;
  }

  lemma SameHandIsTransitive(r: Ring, w: World, r1: Ring, w1: World, r2: Ring, w2: World)
    requires SameHand(r, w, r1, w1) && SameHand(r1, w1, r2, w2)
    ensures SameHand(r, w, r2, w2)
  {
    hide Kept;
    forall c | c in w.hand ensures Kept(r, w, r2, w2, c) {
      KeptIsTransitive(r, w, r1, w1, r2, w2, c);
    }
  }

  lemma ProgressKeepsLaw(r: Ring, w: World, r': Ring, w': World, s: Stats)
    requires Law(r, w, s) && Progressed(r, w, r', w')
    ensures Law(r', w', s)
  {
    hide Kept;
  }

  lemma TickProgresses(r: Ring, w: World, r': Ring)
    requires Inv(r, w) && Tick(r, r')
    ensures Inv(r', w) && Progressed(r, w, r', w) && Refines(r.net, w.held, r'.net, w.held)
  {
    hide *;
    TickKeeps(r, r', w);
    KeptIsReflexive(r, w);
    forall c | c in w.hand ensures Kept(r, w, r', w, c) {
      TickKeepsConn(r, w, r', c);
    }
    TickShape(r, r');
    ProgressFolds(r, w, r', w);
  }

  lemma TickShape(r: Ring, r': Ring)
    requires Tick(r, r')
    ensures r'.sq == r.sq && r'.cq == r.cq && r'.ker == r.ker
  {
  }

  lemma TickKeepsConn(r: Ring, w: World, r': Ring, c: UringModel.Conn)
    requires Tick(r, r') && Kept(r, w, r, w, c)
    ensures Kept(r, w, r', w, c)
  {
  }

  lemma ProgressFolds(r: Ring, w: World, r': Ring, w': World)
    requires w'.table == w.table && w'.hand == w.hand && w'.loose == w.loose && w'.tally == w.tally
    requires w'.due == w.due && w'.accepting == w.accepting && w'.mem.Keys == w.mem.Keys
    requires forall c | c in w.hand :: Kept(r, w, r', w', c)
    requires r'.sq == r.sq && r.cq <= r'.cq
    requires TotalGiven(r'.net.conns) + Waiting(r.cq) == TotalGiven(r.net.conns) + Waiting(r'.cq)
    ensures Progressed(r, w, r', w')
  {
  }

  lemma WaitingCompleted(r: Ring, i: nat, net': Sockets, res: int)
    requires i < |r.ker|
    ensures Completed(r, i, net', res).sq == r.sq && r.cq <= Completed(r, i, net', res).cq
    ensures Completed(r, i, net', res).net == net'
    ensures Waiting(Completed(r, i, net', res).cq) ==
            Waiting(r.cq) + (if r.ker[i].op.RecvOp? && res > 0 then res else 0)
  {
    var j := Cqe(r.ker[i].op, res);
    WaitingConcat(r.cq, [j]);
    WaitingSingle(j);
  }

  /** A connection other than the one an operation has completed for. */
  lemma OthersAreKept(r: Ring, w: World, r': Ring, w': World, c: UringModel.Conn, d: UringModel.Conn)
    requires TableInv(r.net) && Tables(r, w) && OnlyAt(r, w, r', w', c) && d in w.hand && d != c
    requires Kept(r, w, r, w, d)
    ensures Kept(r, w, r', w', d)
  {
    FdsAreInjective(r.net, w.mem[d].fd, w.mem[c].fd);
  }

  /** A completion that only concerns a connection not in hand is progress. */
  lemma LocalProgress(r: Ring, w: World, i: nat, net': Sockets, res: int, w': World, c: UringModel.Conn)
    requires Inv(r, w) && i < |r.ker| && c !in w.hand
    requires OnlyAt(r, w, Completed(r, i, net', res), w', c)
    requires w' == w.(mem := w'.mem, held := w'.held)
    requires TotalGiven(net'.conns) + Waiting(r.cq) == TotalGiven(r.net.conns) + Waiting(Completed(r, i, net', res).cq)
    ensures Progressed(r, w, Completed(r, i, net', res), w')
  {
    hide *;
    var r' := Completed(r, i, net', res);
    InvParts(r, w);
    KeptIsReflexive(r, w);
    forall d | d in w.hand ensures Kept(r, w, r', w', d) {
      OthersAreKept(r, w, r', w', c, d);
    }
    OnlyAtKeys(r, w, r', w', c);
    WaitingCompleted(r, i, net', res);
    ProgressFolds(r, w, r', w');
  }

  lemma OnlyAtKeys(r: Ring, w: World, r': Ring, w': World, c: UringModel.Conn)
    requires OnlyAt(r, w, r', w', c)
    ensures w'.mem.Keys == w.mem.Keys
  {
  }

  lemma RecvProgresses(r: Ring, w: World, i: nat, net': Sockets, a: Answer, data: seq<Byte>) returns (w': World)
    requires Inv(r, w) && i < |r.ker| && Recvs(r, i, net', a, data)
    ensures r.ker[i].op.RecvOp? && r.ker[i].op.conn in w.mem && |data| <= |w.mem[r.ker[i].op.conn].data|
    ensures w' == w.(mem := w.mem[r.ker[i].op.conn := Filled(w.mem[r.ker[i].op.conn], data)],
                     held := w.held[r.net.fds[r.ker[i].fd] := data])
    ensures Inv(Completed(r, i, net', Result(a)), w') && Refines(r.net, w.held, net', w'.held)
    ensures Progressed(r, w, Completed(r, i, net', Result(a)), w')
  {
    hide *;
    RecvFacts(r, w, i, net', a, data);
    w' := RecvKeeps(r, w, i, net', a, data);
    RecvIsLocal(r, w, i, net', a, data, w');
    WaitingCompleted(r, i, net', Result(a));
    ResultOfRead(r.net, net', r.ker[i].fd, r.ker[i].len, a, data);
    LocalProgress(r, w, i, net', Result(a), w', r.ker[i].op.conn);
  }

  lemma ResultOfRead(net: Sockets, net': Sockets, fd: Fd, cap: nat, a: Answer, data: seq<Byte>)
    requires fd in net.fds && net.fds[fd] in net.conns && Reads(net, net', fd, cap, a, data)
    ensures |data| == if Result(a) > 0 then Result(a) else 0
  {
  }

  lemma SendProgresses(r: Ring, w: World, i: nat, net': Sockets, a: Answer) returns (w': World)
    requires Inv(r, w) && i < |r.ker| && r.ker[i].Sqe? && r.ker[i].op.SendOp? && r.ker[i].op.conn in w.mem
    requires r.ker[i].len <= |w.mem[r.ker[i].op.conn].data|
    requires Sends(r, i, net', a, SendBytes(r, w, i))
    ensures Written(a) <= r.ker[i].len
    ensures w' == w.(held := w.held[r.net.fds[r.ker[i].fd] := SendBytes(r, w, i)[Written(a)..]])
    ensures Inv(Completed(r, i, net', Result(a)), w') && Refines(r.net, w.held, net', w'.held)
    ensures Progressed(r, w, Completed(r, i, net', Result(a)), w')
  {
    hide *;
    SendFacts(r, w, i);
    w' := SendKeeps(r, w, i, net', a);
    SendIsLocal(r, w, i, net', a, w');
    WaitingCompleted(r, i, net', Result(a));
    SendNotInHand(r, w, i);
    LocalProgress(r, w, i, net', Result(a), w', r.ker[i].op.conn);
  }

  lemma SendNotInHand(r: Ring, w: World, i: nat)
    requires Inv(r, w) && i < |r.ker| && r.ker[i].op.SendOp?
    ensures r.ker[i].op.conn !in w.hand
  {
    hide *;
    InvParts(r, w);
    RecvCounts(r.ker[i].op.conn);
    CompletionKeepsOwned(r, w, i, r.net, 0, w);
  }

  lemma AcceptProgresses(r: Ring, w: World, i: nat, net': Sockets, a: Answer)
    requires Inv(r, w) && i < |r.ker| && AcceptsNow(r, i, net', a)
    ensures Inv(Completed(r, i, net', Result(a)), w) && Refines(r.net, w.held, net', w.held)
    ensures Progressed(r, w, Completed(r, i, net', Result(a)), w)
  {
    hide *;
    InvParts(r, w);
    UringModel.AcceptKeeps(r, w, i, net', a);
    AcceptNet(r, w, i, net', a);
    NotARecv(r, i);
    WaitingCompleted(r, i, net', Result(a));
    KeptIsReflexive(r, w);
    forall c | c in w.hand ensures Kept(r, w, Completed(r, i, net', Result(a)), w, c) {
      AcceptKeepsConn(r, w, i, net', a, c);
    }
    ProgressFolds(r, w, Completed(r, i, net', Result(a)), w);
  }

  lemma AcceptKeepsConn(r: Ring, w: World, i: nat, net': Sockets, a: Answer, c: UringModel.Conn)
    requires NetInv(r.net, w.held) && i < |r.ker| && AcceptsNow(r, i, net', a) && Kept(r, w, r, w, c)
    ensures Kept(r, w, Completed(r, i, net', Result(a)), w, c)
  {
    hide NetInv, Refines, TotalGiven, AcceptsNow;
    AcceptNet(r, w, i, net', a);
  }

  lemma SignalProgresses(r: Ring, w: World, i: nat)
    requires Inv(r, w) && i < |r.ker| && SignalsNow(r, i)
    ensures Inv(Completed(r, i, r.net, 1), w)
    ensures Progressed(r, w, Completed(r, i, r.net, 1), w)
  {
    hide *;
    SignalKeeps(r, w, i);
    WaitingCompleted(r, i, r.net, 1);
    NotARecv(r, i);
    KeptIsReflexive(r, w);
    forall c | c in w.hand ensures Kept(r, w, Completed(r, i, r.net, 1), w, c) {
      SameNetKeepsConn(r, w, Completed(r, i, r.net, 1), c);
    }
    ProgressFolds(r, w, Completed(r, i, r.net, 1), w);
  }

  lemma NotARecv(r: Ring, i: nat)
    requires i < |r.ker|
    ensures r.ker[i].op.AcceptOp? || SignalsNow(r, i) ==> !r.ker[i].op.RecvOp?
  {
  }

  lemma SameNetKeepsConn(r: Ring, w: World, r': Ring, c: UringModel.Conn)
    requires Kept(r, w, r, w, c) && r'.net == r.net
    ensures Kept(r, w, r', w, c)
  {
  }
}
