/**
 A refused flush is not out of reach: a run of server_uring.cpp in which the
 kernel refuses nothing until 257 clients have each sent one byte, the
 submission queue is full of answers to 256 of them, and the flush for the
 last one is refused.
 */
module UringFlush {
  import opened EchoSpec
  import opened Net
  import opened Runs
  import opened UringModel
  import opened UringProgress
  import opened UringSteps
  import opened UringMachine
  import opened UringRuns

  /** The connection of `c` has sent one byte, which the server has not read. */
  ghost predicate Ripe(x: State, c: UringModel.Conn) {
    Known(x, c) && x.r.net.conns[IdOf(x.r, x.w, c)] == OneConn(Open(x.w.mem[c].fd))
  }

  ghost predicate Outstanding(r: Ring, c: UringModel.Conn) {
    exists j :: j in r.sq + r.ker && j.op == RecvOp(c)
  }

  /** A recv is outstanding for every one of `cs`, and there is something to receive. */
  ghost predicate Fed(x: State, cs: set<UringModel.Conn>) {
    forall c | c in cs :: Ripe(x, c) && Outstanding(x.r, c)
  }

  /** Nothing has been refused or completed, and nobody waits to be accepted. */
  ghost predicate Calm(x: State) {
    x.running && !x.flushed && x.r.cq == [] && x.r.net.backlog == [] && x.w.accepting && x.w.tally.refused == 0
  }

  lemma FedStays(x: State, x': State, cs: set<UringModel.Conn>)
    requires Fed(x, cs)
    requires forall c | c in cs :: c in x.w.mem ==> c in x'.w.mem && x'.w.mem[c] == x.w.mem[c]
    requires forall fd | fd in x.r.net.fds :: fd in x'.r.net.fds && x'.r.net.fds[fd] == x.r.net.fds[fd]
    requires forall id | id in x.r.net.conns && x.r.net.conns[id].at.Open? ::
               id in x'.r.net.conns && x'.r.net.conns[id] == x.r.net.conns[id]
    requires forall j | j in x.r.sq + x.r.ker && j.op.RecvOp? :: j in x'.r.sq + x'.r.ker
    ensures Fed(x', cs)
  {
    forall c | c in cs ensures Ripe(x', c) && Outstanding(x'.r, c) {
      assert Ripe(x, c) && Outstanding(x.r, c);
      var j :| j in x.r.sq + x.r.ker && j.op == RecvOp(c);
      assert j in x'.r.sq + x'.r.ker;
    }
  }

  // ---------------------------------------------------------------- one more client

  /** Everything queued goes to the kernel. */
  lemma WaitAll(n: nat, t: Trace) returns (t': Trace)
    requires IsRun(n, t) && Calm(Now(t)) && Now(t).pc == Pc.Waiting && Fed(Now(t), Now(t).w.mem.Keys)
    ensures IsRun(n, t') && Calm(Now(t')) && Now(t').pc.Looking? && Fed(Now(t'), Now(t').w.mem.Keys)
    ensures Now(t').w.mem == Now(t).w.mem && Now(t').r.sq == []
  {
    hide IsRun, Fed;
    var k := |Now(t).r.sq|;
    t' := Took(n, t, Wait(k, Ok(k)));
    FedStays(Now(t), Now(t'), Now(t).w.mem.Keys);
  }

  /** A client connects and sends its byte. */
  lemma OneMoreComes(n: nat, t: Trace) returns (t': Trace, id: Id)
    requires IsRun(n, t) && Calm(Now(t)) && Now(t).pc.Looking? && Fed(Now(t), Now(t).w.mem.Keys)
    ensures IsRun(n, t') && Now(t').pc.Looking? && Fed(Now(t'), Now(t').w.mem.Keys)
    ensures Now(t').w == Now(t).w && Now(t').r == Now(t).r.(net := Now(t').r.net)
    ensures Now(t').running && !Now(t').flushed
    ensures Now(t').r.net.backlog == [id] && id in Now(t').r.net.conns
    ensures Now(t').r.net.conns[id] == OneConn(Queued)
  {
    hide IsRun, Fed;
    var net := Now(t).r.net;
    id := FreshFd(net.conns.Keys, 0);
    var net' := Sockets(net.conns[id := OneConn(Queued)], [id], net.fds);
    NewcomerIsPeers(net, net', id);
    t' := Took(n, t, Outside(Now(t).r.(net := net')));
    FedStays(Now(t), Now(t'), Now(t).w.mem.Keys);
  }

  lemma NewcomerIsPeers(net: Sockets, net': Sockets, id: Id)
    requires id !in net.conns && net.backlog == []
    requires net' == Sockets(net.conns[id := OneConn(Queued)], [id], net.fds)
    ensures Peers(net, net')
  {
  }

  /** The accept completes. */
  lemma ItIsAccepted(n: nat, t: Trace, id: Id) returns (t': Trace, fd: Fd)
    requires IsRun(n, t) && Now(t).pc.Looking? && Fed(Now(t), Now(t).w.mem.Keys)
    requires Now(t).r.sq == [] && Now(t).r.cq == [] && Now(t).w.accepting && Now(t).running && !Now(t).flushed
    requires Now(t).r.net.backlog == [id] && id in Now(t).r.net.conns && Now(t).r.net.conns[id] == OneConn(Queued)
    ensures IsRun(n, t') && Now(t').pc.Looking? && Fed(Now(t'), Now(t').w.mem.Keys)
    ensures Now(t').w == Now(t).w && Now(t').running && !Now(t').flushed
    ensures Now(t').r.sq == [] && Now(t').r.cq == [Cqe(AcceptOp, fd)] && Now(t').r.net.backlog == []
    ensures fd in Now(t').r.net.fds && Now(t').r.net.fds[fd] in Now(t').r.net.conns
    ensures Now(t').r.net.conns[Now(t').r.net.fds[fd]] == OneConn(Open(fd))
  {
    hide IsRun, Fed, MachineInv;
    var x := Now(t);
    var net := x.r.net;
    RunKeepsMachine(n, t);
    var i := AcceptEntry(n, x);
    fd := FreshFd(net.fds.Keys, 5);
    var net' := Sockets(net.conns[id := OneConn(Open(fd))], [], net.fds[fd := id]);
    t' := AcceptCompletes(n, t, i, net', fd, id);
    OthersRemain(x.r.ker, i);
    hide OneConn;
    FedStays(x, Now(t'), x.w.mem.Keys);
  }

  lemma AcceptCompletes(n: nat, t: Trace, i: nat, net': Sockets, fd: Fd, id: Id) returns (t': Trace)
    requires IsRun(n, t) && i < |Now(t).r.ker| && Now(t).r.ker[i].op.AcceptOp? && Now(t).r.ker[i].Sqe?
    requires Now(t).r.net.backlog == [id] && id in Now(t).r.net.conns && Now(t).r.net.conns[id] == OneConn(Queued)
    requires fd !in Now(t).r.net.fds && fd >= 5
    requires net' == Sockets(Now(t).r.net.conns[id := OneConn(Open(fd))], [], Now(t).r.net.fds[fd := id])
    ensures IsRun(n, t') && Now(t') == Now(t).(r := Completed(Now(t).r, i, net', fd))
  {
    hide IsRun;
    assert Accepts(Now(t).r.net, net', Ok(fd));
    t' := Took(n, t, Complete(i, net', Ok(fd), []));
  }

  lemma AcceptEntry(n: nat, x: State) returns (i: nat)
    requires MachineInv(n, x) && x.pc.Looking? && x.r.sq == [] && x.r.cq == [] && x.w.accepting
    ensures i < |x.r.ker| && x.r.ker[i].op.AcceptOp? && x.r.ker[i].Sqe?
  {
    hide JobOk, NetInv, Tables, Law, Sized, Refs;
    AcceptIsThere(x.r.ker);
    var j :| j in x.r.ker && j.op.AcceptOp?;
    i :| 0 <= i < |x.r.ker| && x.r.ker[i] == j;
  }

  lemma OthersRemain(jobs: seq<Job>, i: nat)
    requires i < |jobs|
    ensures forall j | j in jobs && j != jobs[i] :: j in Without(jobs, i)
  {
    forall j | j in jobs && j != jobs[i] ensures j in Without(jobs, i) {
      var k :| 0 <= k < |jobs| && jobs[k] == j;
      if k < i {
        assert Without(jobs, i)[k] == j;
      } else {
        assert Without(jobs, i)[k - 1] == j;
      }
    }
  }

  /** The server takes it in and hands its buffer to the kernel. */
  lemma ItIsWelcomed(n: nat, t: Trace, c: UringModel.Conn, fd: Fd) returns (t': Trace)
    requires IsRun(n, t) && Now(t).pc.Looking? && Fed(Now(t), Now(t).w.mem.Keys) && c !in Now(t).w.mem
    requires Now(t).r.sq == [] && Now(t).r.cq == [Cqe(AcceptOp, fd)] && Now(t).r.net.backlog == []
    requires Now(t).w.accepting && Now(t).running && !Now(t).flushed && Now(t).w.tally.refused == 0
    requires fd in Now(t).r.net.fds && Now(t).r.net.fds[fd] in Now(t).r.net.conns
    requires Now(t).r.net.conns[Now(t).r.net.fds[fd]] == OneConn(Open(fd))
    ensures IsRun(n, t') && Calm(Now(t')) && Now(t').pc == Pc.Waiting
    ensures Now(t').w.mem.Keys == Now(t).w.mem.Keys + {c} && Fed(Now(t'), Now(t').w.mem.Keys)
  {
    hide IsRun, Fed;
    var x := Now(t);
    var t1 := ItIsTaken(n, t, fd);
    t' := ItIsReceiving(n, t1, c, fd);
    var x' := Now(t');
    FedStays(x, x', x.w.mem.Keys);
    NewOneIsFed(x', x.w.mem.Keys, c);
  }

  /** The next accept is submitted. */
  lemma ItIsTaken(n: nat, t: Trace, fd: Fd) returns (t': Trace)
    requires IsRun(n, t) && Now(t).pc.Looking? && !Now(t).flushed
    requires Now(t).r.sq == [] && Now(t).r.cq == [Cqe(AcceptOp, fd)]
    ensures IsRun(n, t') && Now(t').r == Now(t).r.(sq := [AcceptJob], cq := [])
    ensures Now(t').w == Now(t).w.(due := false, loose := {fd}, tally := Now(t').w.tally)
    ensures Now(t').w.tally.refused == Now(t).w.tally.refused
    ensures Now(t').pc == Adopting(fd) && !Now(t').flushed && Now(t').running == Now(t).running
  {
    hide IsRun;
    var t1 := Took(n, t, Look);
    t' := Took(n, t1, Queue);
  }

  lemma ItIsReceiving(n: nat, t: Trace, c: UringModel.Conn, fd: Fd) returns (t': Trace)
    requires IsRun(n, t) && Now(t).pc == Adopting(fd) && !Now(t).flushed && Now(t).running
    requires Now(t).r.sq == [AcceptJob] && Now(t).r.cq == [] && c !in Now(t).w.mem
    requires fd in Now(t).r.net.fds && Now(t).r.net.fds[fd] in Now(t).r.net.conns
    ensures IsRun(n, t') && Now(t').r == Now(t).r.(sq := [AcceptJob, Sqe(RecvOp(c), fd, n)])
    ensures Now(t').w.mem == Now(t).w.mem[c := Slot(fd, seq(n, _ => 0), 0)]
    ensures Now(t').w.accepting == Now(t).w.accepting && Now(t').w.tally.refused == Now(t).w.tally.refused
    ensures Now(t').pc == Pc.Waiting && !Now(t').flushed && Now(t').running
  {
    hide IsRun;
    var t1 := Took(n, t, Adopt(c, seq(n, _ => 0)));
    var t2 := Took(n, t1, Queue);
    assert Now(t2).r.sq == [AcceptJob, Sqe(RecvOp(c), fd, n)];
    t' := Took(n, t2, Look);
  }

  lemma NewOneIsFed(x: State, cs: set<UringModel.Conn>, c: UringModel.Conn)
    requires Fed(x, cs) && Ripe(x, c) && |x.r.sq| == 2 && x.r.sq[1].op == RecvOp(c)
    ensures Fed(x, cs + {c})
  {
    assert x.r.sq[1] in x.r.sq + x.r.ker;
  }

  lemma Round(n: nat, t: Trace, c: UringModel.Conn) returns (t': Trace)
    requires IsRun(n, t) && Calm(Now(t)) && Now(t).pc == Pc.Waiting && Fed(Now(t), Now(t).w.mem.Keys)
    requires c !in Now(t).w.mem
    ensures IsRun(n, t') && Calm(Now(t')) && Now(t').pc == Pc.Waiting && Fed(Now(t'), Now(t').w.mem.Keys)
    ensures Now(t').w.mem.Keys == Now(t).w.mem.Keys + {c}
  {
    hide IsRun, Fed;
    var t1 := WaitAll(n, t);
    var t2, id := OneMoreComes(n, t1);
    var t3, fd := ItIsAccepted(n, t2, id);
    t' := ItIsWelcomed(n, t3, c, fd);
  }

  lemma Opened(n: nat) returns (t: Trace)
    ensures IsRun(n, t) && Calm(Now(t)) && Now(t).pc == Pc.Waiting && Now(t).w.mem == map[]
  {
    hide IsRun;
    BegunIsRun(n);
    t := Took(n, Begun, Queue);
    t := Took(n, t, Queue);
  }

  /** All of `cs` have connected. */
  lemma {:induction false} ManyCome(n: nat, cs: seq<UringModel.Conn>) returns (t: Trace)
    requires forall i, j | 0 <= i < j < |cs| :: cs[i] != cs[j]
    ensures IsRun(n, t) && Calm(Now(t)) && Now(t).pc == Pc.Waiting && Fed(Now(t), Now(t).w.mem.Keys)
    ensures Now(t).w.mem.Keys == (set c | c in cs) && |Now(t).w.mem.Keys| == |cs|
    decreases |cs|
  {
    hide IsRun, Calm;
    if cs == [] {
      t := Opened(n);
    } else {
      var k := |cs| - 1;
      assert cs == cs[..k] + [cs[k]];
      var t1 := ManyCome(n, cs[..k]);
      hide Fed;
      t := Round(n, t1, cs[k]);
    }
  }

  // ---------------------------------------------------------------- the queue fills with answers

  /** Between two completions, with answers queued and nothing submitted: the kernel still has a recv with something
      to receive for each of `cs`. */
  ghost predicate Filling(x: State, cs: set<UringModel.Conn>) {
    && x.pc.Looking? && !x.flushed && x.r.cq == [] && x.w.tally.refused == 0
    && |x.r.sq| <= QUEUE_DEPTH && |x.r.sq| + |cs| == QUEUE_DEPTH + 1
    && (forall j | j in x.r.sq :: !j.op.RecvOp?)
    && Fed(x, cs)
  }

  /** The byte of `c` is received and nothing of it sent back. */
  ghost predicate Owing(x: State, c: UringModel.Conn) {
    && Known(x, c)
    && x.r.net.conns[IdOf(x.r, x.w, c)] == Conn([65], [65], [], false, false, false, Open(x.w.mem[c].fd))
  }

  /** The entry in the kernel that receives for `c`. */
  lemma RecvEntry(n: nat, x: State, cs: set<UringModel.Conn>, c: UringModel.Conn) returns (i: nat)
    requires MachineInv(n, x) && Filling(x, cs) && c in cs
    ensures i < |x.r.ker| && Ripe(x, c) && x.r.ker[i] == Sqe(RecvOp(c), x.w.mem[c].fd, n)
  {
    hide Owned, NetInv, Law, Tables;
    var j :| j in x.r.sq + x.r.ker && j.op == RecvOp(c);
    i :| 0 <= i < |x.r.ker| && x.r.ker[i] == j;
    assert JobOk(x.r, x.w, j);
  }

  lemma ByteArrives(n: nat, t: Trace, i: nat, c: UringModel.Conn) returns (t': Trace)
    requires n > 0 && IsRun(n, t) && Ripe(Now(t), c) && Now(t).pc.Looking? && Now(t).r.cq == []
    requires i < |Now(t).r.ker| && Now(t).r.ker[i] == Sqe(RecvOp(c), Now(t).w.mem[c].fd, n)
    requires |Now(t).w.mem[c].data| == n
    ensures IsRun(n, t') && Owing(Now(t'), c)
    ensures var x, x' := Now(t), Now(t');
            && x'.pc == Sending(c, 1) && x'.flushed == x.flushed && x'.w.tally == x.w.tally
            && x'.r.sq == x.r.sq && x'.r.cq == [] && x'.r.ker == Without(x.r.ker, i) && x'.r.net.fds == x.r.net.fds
            && IdOf(x.r, x.w, c) in x'.r.net.conns
            && x'.r.net.conns == x.r.net.conns[IdOf(x.r, x.w, c) := x'.r.net.conns[IdOf(x.r, x.w, c)]]
            && x'.w.mem == x.w.mem[c := x'.w.mem[c]] && x'.w.mem[c].fd == x.w.mem[c].fd
  {
    hide IsRun;
    var x := Now(t);
    var id, fd := IdOf(x.r, x.w, c), x.w.mem[c].fd;
    var k := OneConn(Open(fd));
    var net' := x.r.net.(conns := x.r.net.conns[id := Conn([65], [65], [], false, false, false, Open(fd))]);
    ByteIsRead(x.r.net, net', fd, n);
    t' := Took(n, t, Complete(i, net', Ok(1), [65]));
    assert Now(t').r.cq == [Cqe(RecvOp(c), 1)];
    t' := Took(n, t', Look);
  }

  lemma ByteIsRead(net: Sockets, net': Sockets, fd: Fd, n: nat)
    requires n > 0 && fd in net.fds && net.fds[fd] in net.conns && net.conns[net.fds[fd]] == OneConn(Open(fd))
    requires net' == net.(conns := net.conns[net.fds[fd] := Conn([65], [65], [], false, false, false, Open(fd))])
    ensures Reads(net, net', fd, n, Ok(1), [65])
  {
    var k := net.conns[net.fds[fd]];
    assert [] + [65] == [65] && Unread(k) == [65];
    assert k.(given := k.given + [65]) == net'.conns[net.fds[fd]];
  }

  /** The recvs of the others stay where they are. */
  lemma OthersStayFed(n: nat, x: State, x': State, cs: set<UringModel.Conn>, i: nat, c: UringModel.Conn)
    requires MachineInv(n, x) && Fed(x, cs) && c in cs
    requires i < |x.r.ker| && x.r.ker[i].op == RecvOp(c)
    requires x'.r.sq == x.r.sq && x'.r.ker == Without(x.r.ker, i) && x'.r.net.fds == x.r.net.fds
    requires Known(x, c) && IdOf(x.r, x.w, c) in x'.r.net.conns
    requires x'.r.net.conns == x.r.net.conns[IdOf(x.r, x.w, c) := x'.r.net.conns[IdOf(x.r, x.w, c)]]
    requires c in x'.w.mem && x'.w.mem == x.w.mem[c := x'.w.mem[c]]
    ensures Fed(x', cs - {c})
  {
    hide MachineInv, Ripe, Outstanding, Known, Without;
    forall d | d in cs - {c} ensures Ripe(x', d) && Outstanding(x'.r, d) {
      assert Ripe(x, d) && Outstanding(x.r, d);
      RipeIsKnown(n, x, d);
      OtherConnIs(n, x, c, d);
      OtherStaysRipe(x, x', c, d);
      OtherStaysOutstanding(x.r, x'.r, i, c, d);
    }
  }

  lemma OtherConnIs(n: nat, x: State, c: UringModel.Conn, d: UringModel.Conn)
    requires MachineInv(n, x) && Known(x, c) && Known(x, d) && c != d
    ensures IdOf(x.r, x.w, c) != IdOf(x.r, x.w, d)
  {
    hide *;
    MachineParts(n, x);
    InvParts(x.r, x.w);
    KnownFacts(x, c);
    KnownFacts(x, d);
    SameFdSameConn(x.r, x.w, c, d);
    FdsAreInjective(x.r.net, x.w.mem[c].fd, x.w.mem[d].fd);
  }

  lemma KnownFacts(x: State, c: UringModel.Conn)
    requires Known(x, c)
    ensures c in x.w.mem && x.w.mem[c].fd in x.r.net.fds && IdOf(x.r, x.w, c) == x.r.net.fds[x.w.mem[c].fd]
  {
  }

  lemma OtherStaysRipe(x: State, x': State, c: UringModel.Conn, d: UringModel.Conn)
    requires Ripe(x, d) && Known(x, c) && c != d && IdOf(x.r, x.w, c) != IdOf(x.r, x.w, d)
    requires x'.r.net.fds == x.r.net.fds && IdOf(x.r, x.w, c) in x'.r.net.conns
    requires x'.r.net.conns == x.r.net.conns[IdOf(x.r, x.w, c) := x'.r.net.conns[IdOf(x.r, x.w, c)]]
    requires c in x'.w.mem && x'.w.mem == x.w.mem[c := x'.w.mem[c]]
    ensures Ripe(x', d)
  {
  }

  lemma OtherStaysOutstanding(r: Ring, r': Ring, i: nat, c: UringModel.Conn, d: UringModel.Conn)
    requires i < |r.ker| && r.ker[i].op == RecvOp(c) && c != d && Outstanding(r, d)
    requires r'.sq == r.sq && r'.ker == Without(r.ker, i)
    ensures Outstanding(r', d)
  {
    OthersRemain(r.ker, i);
    var j :| j in r.sq + r.ker && j.op == RecvOp(d);
    assert j in r'.sq + r'.ker;
  }

  lemma OneMoreAnswer(n: nat, t: Trace, cs: set<UringModel.Conn>, c: UringModel.Conn) returns (t': Trace)
    requires n > 0 && IsRun(n, t) && Filling(Now(t), cs) && c in cs
    ensures IsRun(n, t') && Owing(Now(t'), c) && Fed(Now(t'), cs - {c})
    ensures Now(t').pc == Sending(c, 1) && !Now(t').flushed && Now(t').w.tally.refused == 0
    ensures Now(t').r.sq == Now(t).r.sq && Now(t').r.cq == []
  {
    hide IsRun, MachineInv, Ripe, Owing, Fed, Outstanding;
    RunKeepsMachine(n, t);
    var i := RecvEntry(n, Now(t), cs, c);
    RipeIsKnown(n, Now(t), c);
    t' := ByteArrives(n, t, i, c);
    OthersStayFed(n, Now(t), Now(t'), cs, i, c);
  }

  lemma RipeIsKnown(n: nat, x: State, c: UringModel.Conn)
    requires MachineInv(n, x) && Ripe(x, c)
    ensures Known(x, c) && |x.w.mem[c].data| == n
  {
    hide Safe, PcInv;
  }

  /** Answer after answer is queued, until there is no room for the last one. */
  lemma {:induction false} QueueFills(n: nat, t: Trace, cs: set<UringModel.Conn>)
    returns (t': Trace, c: UringModel.Conn)
    requires n > 0 && IsRun(n, t) && Filling(Now(t), cs)
    ensures IsRun(n, t') && Cornered(Now(t'), c) && Owing(Now(t'), c) && Now(t').w.tally.refused == 0
    decreases |cs|
  {
    hide IsRun, Owing, Fed;
    c :| c in cs;
    t' := OneMoreAnswer(n, t, cs, c);
    if |Now(t').r.sq| < QUEUE_DEPTH {
      var t1 := AnswerIsQueued(n, t', cs - {c}, c);
      t', c := QueueFills(n, t1, cs - {c});
    }
  }

  lemma AnswerIsQueued(n: nat, t: Trace, cs: set<UringModel.Conn>, c: UringModel.Conn) returns (t': Trace)
    requires IsRun(n, t) && Now(t).pc == Sending(c, 1) && Owing(Now(t), c) && Fed(Now(t), cs) && c !in cs
    requires !Now(t).flushed && Now(t).r.cq == [] && Now(t).w.tally.refused == 0
    requires |Now(t).r.sq| < QUEUE_DEPTH && |Now(t).r.sq| + |cs| == QUEUE_DEPTH
    requires forall j | j in Now(t).r.sq :: !j.op.RecvOp?
    ensures IsRun(n, t') && Filling(Now(t'), cs)
  {
    hide IsRun, Fed;
    t' := Took(n, t, Queue);
    FedStays(Now(t), Now(t'), cs);
  }

  /** With 257 clients a submission queue that is full, nothing having been refused, is reachable, and the server
      owes an answer that it has no entry for; `cs` are the objects the server allocates. */
  lemma CorneredIsReachable(n: nat, cs: seq<UringModel.Conn>) returns (t: Trace, c: UringModel.Conn)
    requires n > 0 && |cs| == QUEUE_DEPTH + 1 && forall i, j | 0 <= i < j < |cs| :: cs[i] != cs[j]
    ensures IsRun(n, t) && Cornered(Now(t), c) && Owing(Now(t), c) && Now(t).w.tally.refused == 0
  {
    hide IsRun, Fed, Owing;
    var t1 := ManyCome(n, cs);
    var t2 := WaitAll(n, t1);
    t, c := QueueFills(n, t2, Now(t2).w.mem.Keys);
  }

  /** So a run exists in which one refused flush makes the server close a healthy connection that it owes a byte. */
  lemma ARefusedFlushDrops(n: nat, cs: seq<UringModel.Conn>) returns (t: Trace, id: Id)
    requires n > 0 && |cs| == QUEUE_DEPTH + 1 && forall i, j | 0 <= i < j < |cs| :: cs[i] != cs[j]
    ensures IsRun(n, t) && Now(t).w.tally.refused == 1
    ensures id in Now(t).r.net.conns
    ensures var k := Now(t).r.net.conns[id]; k.dropped && !k.broken && k.at.Closed? && k.sent == [65] && k.out == []
  {
    hide IsRun;
    var t1, c := CorneredIsReachable(n, cs);
    id := IdOf(Now(t1).r, Now(t1).w, c);
    t := RefusedFlushDrops(n, t1, c);
  }
}
