/**
 io_uring as server_uring.cpp uses it: a submission queue of 256 entries, the
 operations the kernel has taken, and a completion queue, together with the
 user memory that recv and send operations point into.
 */
module UringModel {
  import opened EchoSpec
  import opened Net
  import opened Counters

  const QUEUE_DEPTH: nat := 256

  /** One connection's state machine; the kernel reads and writes `buffer` while an operation is outstanding. */
  class Conn {
    var fd: int
    const buffer: array<Byte>
    var pending: nat // bytes still to send back

    constructor (fd: Fd, bufferSize: nat)
      ensures this.fd == fd && pending == 0
      ensures buffer.Length == bufferSize && fresh(buffer)
    {
      this.fd, pending := fd, 0;
      buffer := new Byte[bufferSize];
    }
  }

  /** What an entry's user_data points to. */
  datatype Op = AcceptOp | SignalOp | RecvOp(conn: Conn) | SendOp(conn: Conn)

  /** A submission, or a completion with its result (negative for an error). */
  datatype Job = Sqe(op: Op, fd: Fd, len: nat) | Cqe(op: Op, res: int)

  /** `sq`: queued and not yet submitted, `ker`: in the kernel, `cq`: completed and not yet handled. */
  datatype Ring = Ring(net: Sockets, sq: seq<Job>, ker: seq<Job>, cq: seq<Job>, signals: nat)

  /** The contents of a live Conn. */
  datatype Slot = Slot(fd: Fd, data: seq<Byte>, pending: nat)

  /** User memory: one slot for every Conn that has not been freed. */
  type Memory = map<Conn, Slot>

  /** `table`: the map from descriptors to connections; `held`: bytes received and not yet sent back;
      `hand`: the connection whose completion is being handled, if any; `loose`: a descriptor taken from an
      accept completion and not yet in the table; `due`: an accept completion whose successor is still to be
      submitted; `accepting`: no accept submission has ever found the queue full; `tally`: entries queued and
      submitted so far, forced flushes, those of them that emptied the queue, and those that freed no entry. */
  datatype World = World(mem: Memory, table: map<Fd, Conn>, held: Holdings, hand: set<Conn>,
                         loose: set<Fd>, due: bool, accepting: bool, tally: Tally)

  datatype Tally = Tally(queued: nat, submitted: nat, flushes: nat, full: nat, refused: nat)

  // ---------------------------------------------------------------- counting references

  function RefOf(op: Op): multiset<Conn> {
    match op
    case RecvOp(c) => multiset{c}
    case SendOp(c) => multiset{c}
    case _ => multiset{}
  }

  ghost function Refs(jobs: seq<Job>): multiset<Conn> {
    if jobs == [] then multiset{} else RefOf(jobs[0].op) + Refs(jobs[1..])
  }

  ghost function AcceptCount(jobs: seq<Job>): nat {
    if jobs == [] then 0 else (if jobs[0].op.AcceptOp? then 1 else 0) + AcceptCount(jobs[1..])
  }

  lemma {:induction false} RefsConcat(a: seq<Job>, b: seq<Job>)
    ensures Refs(a + b) == Refs(a) + Refs(b)
  {
    hide RefOf;
    if a == [] {
      assert a + b == b;
    } else {
      RefsConcat(a[1..], b);
      assert (a + b)[0] == a[0] && (a + b)[1..] == a[1..] + b;
      SumIsAssociative(RefOf(a[0].op), Refs(a[1..]), Refs(b));
    }
  }

  lemma SumIsAssociative<T>(a: multiset<T>, b: multiset<T>, c: multiset<T>)
    ensures a + (b + c) == (a + b) + c
  {
  }

  lemma {:induction false} AcceptsConcat(a: seq<Job>, b: seq<Job>)
    ensures AcceptCount(a + b) == AcceptCount(a) + AcceptCount(b)
  {
    if a == [] {
      assert a + b == b;
    } else {
      AcceptsConcat(a[1..], b);
      assert (a + b)[0] == a[0] && (a + b)[1..] == a[1..] + b;
    }
  }

  lemma RefsSingle(j: Job)
    ensures Refs([j]) == RefOf(j.op)
    ensures AcceptCount([j]) == if j.op.AcceptOp? then 1 else 0
  {
    assert [j][1..] == [];
  }

  lemma {:induction false} RefsMember(jobs: seq<Job>, j: Job)
    requires j in jobs
    ensures RefOf(j.op) <= Refs(jobs)
    ensures j.op.AcceptOp? ==> AcceptCount(jobs) >= 1
  {
    if jobs[0] != j {
      RefsMember(jobs[1..], j);
    }
  }

  /** Taking one entry out takes out exactly its reference. */
  lemma RefsRemove(jobs: seq<Job>, i: nat)
    requires i < |jobs|
    ensures Refs(jobs) == Refs(jobs[..i] + jobs[i+1..]) + RefOf(jobs[i].op)
    ensures AcceptCount(jobs) == AcceptCount(jobs[..i] + jobs[i+1..]) + (if jobs[i].op.AcceptOp? then 1 else 0)
  {
    hide Refs, AcceptCount, RefOf;
    var l, m, r := jobs[..i], [jobs[i]], jobs[i+1..];
    assert jobs == l + (m + r);
    RefsConcat(l, m + r);
    RefsConcat(m, r);
    RefsConcat(l, r);
    AcceptsConcat(l, m + r);
    AcceptsConcat(m, r);
    AcceptsConcat(l, r);
    RefsSingle(jobs[i]);
    assert Refs(l) + (Refs(m) + Refs(r)) == (Refs(l) + Refs(r)) + Refs(m);
  }

  // ---------------------------------------------------------------- the invariant

  /** Ownership: each live Conn is referred to by exactly one outstanding operation, queued, in the kernel or
      completed, except the one whose completion is being handled, to which nothing refers; and nothing refers
      to a Conn that has been freed. */
  ghost predicate Owned(r: Ring, w: World) {
    && Refs(r.sq) + Refs(r.ker) + Refs(r.cq) + multiset(w.hand) == multiset(w.mem.Keys)
    && AcceptCount(r.sq) + AcceptCount(r.ker) + AcceptCount(r.cq) == (if w.accepting && !w.due then 1 else 0)
    && (w.due ==> w.accepting)
  }

  /** The server's table and the kernel's descriptor table agree; the only open descriptors the table does not
      know are in an accept completion or just taken from one. */
  ghost predicate Tables(r: Ring, w: World) {
    && (forall fd | fd in w.table :: w.table[fd] in w.mem && w.mem[w.table[fd]].fd == fd && fd in r.net.fds)
    && (forall c | c in w.mem :: w.mem[c].fd in w.table && w.table[w.mem[c].fd] == c)
    && (forall fd | fd in w.loose :: fd in r.net.fds && fd !in w.table && Held(w.held, r.net.fds[fd]) == [])
    && (forall fd | fd in r.net.fds :: fd in w.table || fd in w.loose || Announced(r.cq, fd))
    && w.hand <= w.mem.Keys
    && (forall id | id in w.held :: id in r.net.conns)
  }

  ghost predicate Announced(cq: seq<Job>, fd: Fd) {
    exists j :: j in cq && j.op.AcceptOp? && j.Cqe? && j.res == fd
  }

  function IdOf(r: Ring, w: World, c: Conn): Id
    requires c in w.mem && w.mem[c].fd in r.net.fds
  {
    r.net.fds[w.mem[c].fd]
  }

  /** What an outstanding operation on `c` says about the bytes owed to its connection. */
  ghost predicate JobOk(r: Ring, w: World, j: Job) {
    match j.op
    case AcceptOp =>
      j.Cqe? && j.res >= 0 ==>
        && j.res in r.net.fds && j.res !in w.table && j.res !in w.loose
        && Held(w.held, r.net.fds[j.res]) == []
    case SignalOp => true
    case RecvOp(c) =>
      && c in w.mem && w.mem[c].fd in r.net.fds && IdOf(r, w, c) in r.net.conns
      && var slot, id := w.mem[c], IdOf(r, w, c);
         if j.Sqe? then j.fd == slot.fd && j.len == |slot.data| && Held(w.held, id) == []
         else Received(r.net.conns[id], slot, j.res, Held(w.held, id))
    case SendOp(c) =>
      && c in w.mem && w.mem[c].fd in r.net.fds && IdOf(r, w, c) in r.net.conns
      && var slot, id := w.mem[c], IdOf(r, w, c);
         if j.Sqe? then j.fd == slot.fd && j.len == slot.pending && Sending(slot, Held(w.held, id))
         else Sent(r.net.conns[id], slot, j.res, Held(w.held, id))
  }

  /** A completed recv: the bytes received are at the front of the buffer. */
  ghost predicate Received(c: EchoSpec.Conn, slot: Slot, res: int, owed: seq<Byte>) {
    if res > 0 then res <= |slot.data| && owed == slot.data[..res]
    else owed == [] && (c.broken || (res == 0 && (slot.data == [] || (c.fin && c.given == c.sent))))
  }

  /** A send in progress: everything owed is the pending front of the buffer. */
  ghost predicate Sending(slot: Slot, owed: seq<Byte>) {
    1 <= slot.pending <= |slot.data| && owed == slot.data[..slot.pending]
  }

  /** A completed send: what is still owed follows the bytes sent. */
  ghost predicate Sent(c: EchoSpec.Conn, slot: Slot, res: int, owed: seq<Byte>) {
    && slot.pending <= |slot.data|
    && if res < 0 then c.broken else 1 <= res <= slot.pending && owed == slot.data[res..slot.pending]
  }

  ghost predicate Jobs(r: Ring, w: World) {
    && (forall j | j in r.sq :: j.Sqe? && JobOk(r, w, j))
    && (forall j | j in r.ker :: j.Sqe? && JobOk(r, w, j))
    && (forall j | j in r.cq :: j.Cqe? && JobOk(r, w, j))
    && |r.sq| <= QUEUE_DEPTH
  }

  ghost predicate Inv(r: Ring, w: World) {
    NetInv(r.net, w.held) && Owned(r, w) && Tables(r, w) && Jobs(r, w)
  }

  // ---------------------------------------------------------------- locality

  /** `r', w'` differ from `r, w` only in what concerns connection `c`. */
  ghost predicate OnlyAt(r: Ring, w: World, r': Ring, w': World, c: Conn) {
    && c in w.mem && c in w'.mem && w.mem[c].fd in r.net.fds
    && r'.net.fds == r.net.fds && r'.net.conns.Keys == r.net.conns.Keys && r'.net.backlog == r.net.backlog
    && w'.table == w.table && w'.loose == w.loose && w'.mem.Keys == w.mem.Keys && w'.mem[c].fd == w.mem[c].fd
    && |w'.mem[c].data| == |w.mem[c].data|
    && (forall d | d in w.mem && d != c :: w'.mem[d] == w.mem[d])
    && (forall id | id in r.net.conns && id != IdOf(r, w, c) ::
          r'.net.conns[id] == r.net.conns[id] && Held(w'.held, id) == Held(w.held, id))
    && (forall id | id in w'.held :: id in r.net.conns)
  }

  /** Different descriptors are different connections. */
  lemma FdsAreInjective(net: Sockets, f: Fd, g: Fd)
    requires TableInv(net) && f in net.fds && g in net.fds && f != g
    ensures net.fds[f] != net.fds[g]
  {
  }

  lemma OthersStayOk(r: Ring, w: World, r': Ring, w': World, c: Conn, j: Job)
    requires TableInv(r.net) && Tables(r, w) && OnlyAt(r, w, r', w', c)
    requires JobOk(r, w, j) && c !in RefOf(j.op)
    ensures JobOk(r', w', j)
  {
    hide *;
    match j.op
    case AcceptOp => OtherAcceptStaysOk(r, w, r', w', c, j);
    case SignalOp => SignalIsOk(r', w', j);
    case RecvOp(d) => OtherOpStaysOk(r, w, r', w', c, j, d);
    case SendOp(d) => OtherOpStaysOk(r, w, r', w', c, j, d);
  }

  lemma SignalIsOk(r: Ring, w: World, j: Job)
    requires j.op.SignalOp?
    ensures JobOk(r, w, j)
  {
  }

  lemma OtherAcceptStaysOk(r: Ring, w: World, r': Ring, w': World, c: Conn, j: Job)
    requires TableInv(r.net) && Tables(r, w) && OnlyAt(r, w, r', w', c) && JobOk(r, w, j) && j.op.AcceptOp?
    ensures JobOk(r', w', j)
  {
    if j.Cqe? && j.res >= 0 {
      assert w.mem[c].fd in w.table;
      FdsAreInjective(r.net, j.res, w.mem[c].fd);
      HasConn(r.net, j.res);
    }
    hide TableInv, Tables, Received, Sending, Sent;
  }

  lemma HasConn(net: Sockets, fd: Fd)
    requires TableInv(net) && fd in net.fds
    ensures net.fds[fd] in net.conns
  {
  }

  lemma OtherOpStaysOk(r: Ring, w: World, r': Ring, w': World, c: Conn, j: Job, d: Conn)
    requires TableInv(r.net) && Tables(r, w) && OnlyAt(r, w, r', w', c) && JobOk(r, w, j) && c !in RefOf(j.op)
    requires j.op == RecvOp(d) || j.op == SendOp(d)
    ensures JobOk(r', w', j)
  {
    hide TableInv, Received, Sending, Sent;
    SameFdSameConn(r, w, c, d);
    FdsAreInjective(r.net, w.mem[d].fd, w.mem[c].fd);
    hide Tables;
  }

  lemma SameFdSameConn(r: Ring, w: World, c: Conn, d: Conn)
    requires Tables(r, w) && c in w.mem && d in w.mem && c != d
    ensures w.mem[c].fd != w.mem[d].fd
  {
  }

  lemma TablesStay(r: Ring, w: World, r': Ring, w': World, c: Conn)
    requires TableInv(r.net) && Tables(r, w) && OnlyAt(r, w, r', w', c)
    requires w'.hand <= w'.mem.Keys
    requires forall fd | Announced(r.cq, fd) :: Announced(r'.cq, fd)
    ensures Tables(r', w')
  {
    forall fd | fd in w'.loose ensures Held(w'.held, r'.net.fds[fd]) == [] {
      FdsAreInjective(r.net, fd, w.mem[c].fd);
    }
  }

  /** No other outstanding operation refers to a connection that one of them refers to. */
  lemma NobodyElse(r: Ring, w: World, jobs: seq<Job>, j: Job, c: Conn)
    requires j in jobs && c !in Refs(jobs)
    ensures c !in RefOf(j.op)
  {
    RefsMember(jobs, j);
  }

  // ---------------------------------------------------------------- the kernel completes an operation

  function Without(jobs: seq<Job>, i: nat): seq<Job>
    requires i < |jobs|
  {
    jobs[..i] + jobs[i+1..]
  }

  function Completed(r: Ring, i: nat, net': Sockets, res: int): Ring
    requires i < |r.ker|
  {
    r.(net := net', ker := Without(r.ker, i), cq := r.cq + [Cqe(r.ker[i].op, res)])
  }

  /** The reference moves from the kernel's entry to the completion. */
  lemma CompletionKeepsOwned(r: Ring, w: World, i: nat, net': Sockets, res: int, w': World)
    requires Owned(r, w) && i < |r.ker|
    requires w'.mem.Keys == w.mem.Keys && w'.hand == w.hand && w'.due == w.due && w'.accepting == w.accepting
    ensures Owned(Completed(r, i, net', res), w')
    ensures forall c | c in RefOf(r.ker[i].op) ::
              c !in Refs(r.sq) && c !in Refs(Without(r.ker, i)) && c !in Refs(r.cq) && c !in w.hand && c in w.mem
  {
    var op := r.ker[i].op;
    RefsRemove(r.ker, i);
    RefsConcat(r.cq, [Cqe(op, res)]);
    AcceptsConcat(r.cq, [Cqe(op, res)]);
    RefsSingle(Cqe(op, res));
    forall c | c in RefOf(op)
      ensures c !in Refs(r.sq) && c !in Refs(Without(r.ker, i)) && c !in Refs(r.cq) && c !in w.hand && c in w.mem
    {
      assert multiset(w.mem.Keys)[c] <= 1;
      assert RefOf(op)[c] == 1;
      assert Refs(r.ker)[c] == Refs(Without(r.ker, i))[c] + 1;
    }
  }

  /** All other entries are still in order after the operation on `c` has completed. */
  lemma CompletionKeepsJobs(r: Ring, w: World, i: nat, net': Sockets, res: int, w': World, c: Conn)
    requires TableInv(r.net) && Tables(r, w) && Jobs(r, w) && i < |r.ker|
    requires c !in Refs(r.sq) && c !in Refs(Without(r.ker, i)) && c !in Refs(r.cq)
    requires OnlyAt(r, w, Completed(r, i, net', res), w', c)
    requires JobOk(Completed(r, i, net', res), w', Cqe(r.ker[i].op, res))
    ensures Jobs(Completed(r, i, net', res), w')
  {
    hide JobOk, OnlyAt, Tables, TableInv, Refs;
    var r' := Completed(r, i, net', res);
    forall j | j in r'.sq ensures j.Sqe? && JobOk(r', w', j) {
      RefsMember(r.sq, j);
      OthersStayOk(r, w, r', w', c, j);
    }
    forall j | j in r'.ker ensures j.Sqe? && JobOk(r', w', j) {
      RefsMember(Without(r.ker, i), j);
      assert j in r.ker;
      OthersStayOk(r, w, r', w', c, j);
    }
    forall j | j in r'.cq ensures j.Cqe? && JobOk(r', w', j) {
      if j in r.cq {
        RefsMember(r.cq, j);
        OthersStayOk(r, w, r', w', c, j);
      }
    }
  }

  lemma AnnouncedStays(cq: seq<Job>, more: seq<Job>)
    ensures forall fd | Announced(cq, fd) :: Announced(cq + more, fd)
  {
    forall fd | Announced(cq, fd) ensures Announced(cq + more, fd) {
      var j :| j in cq && j.op.AcceptOp? && j.Cqe? && j.res == fd;
      assert j in cq + more;
    }
  }

  function Result(a: Answer): int {
    if a.Ok? then a.n else -1
  }

  /** The memory after the kernel has put `data` at the front of a buffer. */
  function Filled(slot: Slot, data: seq<Byte>): Slot
    requires |data| <= |slot.data|
  {
    slot.(data := data + slot.data[|data|..])
  }

  // ---- recv

  predicate Recvs(r: Ring, i: nat, net': Sockets, a: Answer, data: seq<Byte>)
    requires i < |r.ker|
  {
    && r.ker[i].Sqe? && r.ker[i].op.RecvOp?
    && r.ker[i].fd in r.net.fds && r.net.fds[r.ker[i].fd] in r.net.conns
    && (a.Ok? || a == Err(EOTHER))
    && Reads(r.net, net', r.ker[i].fd, r.ker[i].len, a, data)
  }

  /** The bytes received are owed from now on, and they are at the front of the buffer. */
  lemma RecvKeeps(r: Ring, w: World, i: nat, net': Sockets, a: Answer, data: seq<Byte>) returns (w': World)
    requires Inv(r, w) && i < |r.ker| && Recvs(r, i, net', a, data)
    ensures r.ker[i].op.conn in w.mem && |data| <= |w.mem[r.ker[i].op.conn].data|
    ensures var c := r.ker[i].op.conn;
            w' == w.(mem := w.mem[c := Filled(w.mem[c], data)], held := w.held[r.net.fds[r.ker[i].fd] := data])
    ensures r.ker[i].op.conn !in w.hand
    ensures Inv(Completed(r, i, net', Result(a)), w')
    ensures Refines(r.net, w.held, net', w'.held)
    ensures TotalGiven(net'.conns) == TotalGiven(r.net.conns) + |data|
  {
    hide *;
    InvParts(r, w);
    RecvFacts(r, w, i, net', a, data);
    var j := r.ker[i];
    var c := j.op.conn;
    w' := w.(mem := w.mem[c := Filled(w.mem[c], data)], held := w.held[r.net.fds[j.fd] := data]);
    RecvCounts(c);
    CompletionKeepsOwned(r, w, i, net', Result(a), w');
    RecvNet(r, w, i, net', a, data);
    RecvIsLocal(r, w, i, net', a, data, w');
    RecvJob(r, w, i, net', a, data, w');
    AnnouncedStays(r.cq, [Cqe(j.op, Result(a))]);
    CompletionShape(r, i, net', Result(a));
    TablesStay(r, w, Completed(r, i, net', Result(a)), w', c);
    CompletionKeepsJobs(r, w, i, net', Result(a), w', c);
    InvFromParts(Completed(r, i, net', Result(a)), w');
  }

  lemma InvParts(r: Ring, w: World)
    requires Inv(r, w)
    ensures TableInv(r.net) && NetInv(r.net, w.held) && Owned(r, w) && Tables(r, w) && Jobs(r, w)
    ensures w.hand <= w.mem.Keys
  {
  }

  lemma InvFromParts(r: Ring, w: World)
    requires NetInv(r.net, w.held) && Owned(r, w) && Tables(r, w) && Jobs(r, w)
    ensures Inv(r, w)
  {
  }

  lemma CompletionShape(r: Ring, i: nat, net': Sockets, res: int)
    requires i < |r.ker|
    ensures var r' := Completed(r, i, net', res);
            && r'.net == net' && r'.sq == r.sq && r'.ker == Without(r.ker, i)
            && r'.cq == r.cq + [Cqe(r.ker[i].op, res)] && r'.signals == r.signals
  {
  }

  lemma RecvCounts(c: Conn)
    ensures c in RefOf(RecvOp(c)) && c in RefOf(SendOp(c))
  {
  }

  lemma RecvFacts(r: Ring, w: World, i: nat, net': Sockets, a: Answer, data: seq<Byte>)
    requires Inv(r, w) && i < |r.ker| && Recvs(r, i, net', a, data)
    ensures r.ker[i].Sqe? && r.ker[i].op.RecvOp? && r.ker[i].op.conn in w.mem
    ensures var slot := w.mem[r.ker[i].op.conn]; |data| <= |slot.data| == r.ker[i].len && r.ker[i].fd == slot.fd
    ensures r.ker[i].fd in r.net.fds && r.net.fds[r.ker[i].fd] in r.net.conns
    ensures Held(w.held, r.net.fds[r.ker[i].fd]) == []
    ensures Reads(r.net, net', r.ker[i].fd, r.ker[i].len, a, data) && (a.Ok? || a == Err(EOTHER))
  {
    assert JobOk(r, w, r.ker[i]);
  }

  lemma RecvNet(r: Ring, w: World, i: nat, net': Sockets, a: Answer, data: seq<Byte>)
    requires Inv(r, w) && i < |r.ker| && Recvs(r, i, net', a, data)
    ensures NetInv(net', w.held[r.net.fds[r.ker[i].fd] := data])
    ensures Refines(r.net, w.held, net', w.held[r.net.fds[r.ker[i].fd] := data])
    ensures TotalGiven(net'.conns) == TotalGiven(r.net.conns) + |data|
  {
    hide *;
    var j := r.ker[i];
    InvParts(r, w);
    RecvFacts(r, w, i, net', a, data);
    ReadShape(r.net, net', j.fd, j.len, a, data);
    ReadKeeps(r.net, net', j.fd, j.len, a, data, w.held);
  }

  lemma RecvIsLocal(r: Ring, w: World, i: nat, net': Sockets, a: Answer, data: seq<Byte>, w': World)
    requires Inv(r, w) && i < |r.ker| && Recvs(r, i, net', a, data)
    requires r.ker[i].op.conn in w.mem && |data| <= |w.mem[r.ker[i].op.conn].data|
    requires var c := r.ker[i].op.conn;
             w' == w.(mem := w.mem[c := Filled(w.mem[c], data)], held := w.held[r.net.fds[r.ker[i].fd] := data])
    ensures OnlyAt(r, w, Completed(r, i, net', Result(a)), w', r.ker[i].op.conn)
  {
    hide Inv, NetInv, TableInv, SoundInv, Owned, Tables, Jobs, JobOk, Reads, Filled, TotalGiven;
    var j := r.ker[i];
    InvParts(r, w);
    HeldIds(r, w);
    RecvFacts(r, w, i, net', a, data);
    FilledFacts(w.mem[j.op.conn], data);
    ReadShape(r.net, net', j.fd, j.len, a, data);
  }

  lemma HeldIds(r: Ring, w: World)
    requires Tables(r, w)
    ensures forall id | id in w.held :: id in r.net.conns
  {
  }

  lemma FilledFacts(slot: Slot, data: seq<Byte>)
    requires |data| <= |slot.data|
    ensures var slot' := Filled(slot, data);
            && slot'.fd == slot.fd && slot'.pending == slot.pending && |slot'.data| == |slot.data|
            && slot'.data[..|data|] == data
  {
  }

  lemma RecvJob(r: Ring, w: World, i: nat, net': Sockets, a: Answer, data: seq<Byte>, w': World)
    requires Inv(r, w) && i < |r.ker| && Recvs(r, i, net', a, data)
    requires r.ker[i].op.conn in w.mem && |data| <= |w.mem[r.ker[i].op.conn].data|
    requires var c := r.ker[i].op.conn;
             w' == w.(mem := w.mem[c := Filled(w.mem[c], data)], held := w.held[r.net.fds[r.ker[i].fd] := data])
    ensures JobOk(Completed(r, i, net', Result(a)), w', Cqe(r.ker[i].op, Result(a)))
  {
    hide Inv, NetInv, Owned, Jobs, Tables;
    var j := r.ker[i];
    var c := j.op.conn;
    RecvFacts(r, w, i, net', a, data);
    ReadShape(r.net, net', j.fd, j.len, a, data);
    var slot := w'.mem[c];
    assert slot.data[..|data|] == data;
    if a == Ok(0) {
      assert data == [];
      var id := r.net.fds[j.fd];
      assert r.net.conns[id].given + data == r.net.conns[id].given;
    }
  }

  // ---- send

  predicate Sends(r: Ring, i: nat, net': Sockets, a: Answer, bytes: seq<Byte>)
    requires i < |r.ker|
  {
    && r.ker[i].Sqe? && r.ker[i].op.SendOp?
    && r.ker[i].fd in r.net.fds && r.net.fds[r.ker[i].fd] in r.net.conns
    && (a.Ok? || a == Err(EOTHER))
    && Writes(r.net, net', r.ker[i].fd, bytes, a)
  }

  /** The kernel sends the front of the buffer as it is when the operation completes. */
  function SendBytes(r: Ring, w: World, i: nat): seq<Byte>
    requires i < |r.ker| && r.ker[i].Sqe? && r.ker[i].op.SendOp? && r.ker[i].op.conn in w.mem
    requires r.ker[i].len <= |w.mem[r.ker[i].op.conn].data|
  {
    w.mem[r.ker[i].op.conn].data[..r.ker[i].len]
  }

  lemma SendFacts(r: Ring, w: World, i: nat)
    requires Inv(r, w) && i < |r.ker| && r.ker[i].op.SendOp?
    ensures r.ker[i].Sqe? && r.ker[i].op.conn in w.mem && 1 <= r.ker[i].len <= |w.mem[r.ker[i].op.conn].data|
    ensures r.ker[i].fd in r.net.fds && r.net.fds[r.ker[i].fd] in r.net.conns
    ensures r.ker[i].fd == w.mem[r.ker[i].op.conn].fd && r.ker[i].len == w.mem[r.ker[i].op.conn].pending
    ensures Held(w.held, r.net.fds[r.ker[i].fd]) == SendBytes(r, w, i)
  {
    assert JobOk(r, w, r.ker[i]);
  }

  lemma SendKeeps(r: Ring, w: World, i: nat, net': Sockets, a: Answer) returns (w': World)
    requires Inv(r, w) && i < |r.ker| && r.ker[i].Sqe? && r.ker[i].op.SendOp? && r.ker[i].op.conn in w.mem
    requires r.ker[i].len <= |w.mem[r.ker[i].op.conn].data|
    requires Sends(r, i, net', a, SendBytes(r, w, i))
    ensures Written(a) <= r.ker[i].len
    ensures w' == w.(held := w.held[r.net.fds[r.ker[i].fd] := SendBytes(r, w, i)[Written(a)..]])
    ensures Inv(Completed(r, i, net', Result(a)), w')
    ensures Refines(r.net, w.held, net', w'.held)
    ensures TotalGiven(net'.conns) == TotalGiven(r.net.conns)
  {
    hide *;
    InvParts(r, w);
    var j := r.ker[i];
    var c := j.op.conn;
    SendFacts(r, w, i);
    SendNet(r, w, i, net', a);
    w' := w.(held := w.held[r.net.fds[j.fd] := SendBytes(r, w, i)[Written(a)..]]);
    RecvCounts(c);
    CompletionKeepsOwned(r, w, i, net', Result(a), w');
    SendIsLocal(r, w, i, net', a, w');
    SendJob(r, w, i, net', a, w');
    AnnouncedStays(r.cq, [Cqe(j.op, Result(a))]);
    CompletionShape(r, i, net', Result(a));
    TablesStay(r, w, Completed(r, i, net', Result(a)), w', c);
    CompletionKeepsJobs(r, w, i, net', Result(a), w', c);
    InvFromParts(Completed(r, i, net', Result(a)), w');
  }

  lemma SendNet(r: Ring, w: World, i: nat, net': Sockets, a: Answer)
    requires Inv(r, w) && i < |r.ker| && r.ker[i].Sqe? && r.ker[i].op.SendOp? && r.ker[i].op.conn in w.mem
    requires r.ker[i].len <= |w.mem[r.ker[i].op.conn].data|
    requires Sends(r, i, net', a, SendBytes(r, w, i))
    ensures Written(a) <= |SendBytes(r, w, i)| == r.ker[i].len
    ensures var held' := w.held[r.net.fds[r.ker[i].fd] := SendBytes(r, w, i)[Written(a)..]];
            NetInv(net', held') && Refines(r.net, w.held, net', held')
    ensures TotalGiven(net'.conns) == TotalGiven(r.net.conns)
  {
    var j := r.ker[i];
    var bytes := SendBytes(r, w, i);
    SendFacts(r, w, i);
    WriteShape(r.net, net', j.fd, bytes, a);
    assert |bytes| == j.len;
    hide *;
    InvParts(r, w);
    WriteKeeps(r.net, net', j.fd, bytes, a, w.held);
  }

  lemma SendIsLocal(r: Ring, w: World, i: nat, net': Sockets, a: Answer, w': World)
    requires Inv(r, w) && i < |r.ker| && r.ker[i].Sqe? && r.ker[i].op.SendOp? && r.ker[i].op.conn in w.mem
    requires r.ker[i].len <= |w.mem[r.ker[i].op.conn].data|
    requires Sends(r, i, net', a, SendBytes(r, w, i)) && Written(a) <= r.ker[i].len
    requires w' == w.(held := w.held[r.net.fds[r.ker[i].fd] := SendBytes(r, w, i)[Written(a)..]])
    ensures OnlyAt(r, w, Completed(r, i, net', Result(a)), w', r.ker[i].op.conn)
  {
    hide Inv, NetInv, TableInv, SoundInv, Owned, Tables, Jobs, JobOk, Writes, SendBytes, Written, TotalGiven;
    InvParts(r, w);
    HeldIds(r, w);
    SendFacts(r, w, i);
    WriteShape(r.net, net', r.ker[i].fd, SendBytes(r, w, i), a);
  }

  lemma SendJob(r: Ring, w: World, i: nat, net': Sockets, a: Answer, w': World)
    requires Inv(r, w) && i < |r.ker| && r.ker[i].Sqe? && r.ker[i].op.SendOp? && r.ker[i].op.conn in w.mem
    requires r.ker[i].len <= |w.mem[r.ker[i].op.conn].data|
    requires Sends(r, i, net', a, SendBytes(r, w, i)) && Written(a) <= r.ker[i].len
    requires w' == w.(held := w.held[r.net.fds[r.ker[i].fd] := SendBytes(r, w, i)[Written(a)..]])
    ensures JobOk(Completed(r, i, net', Result(a)), w', Cqe(r.ker[i].op, Result(a)))
  {
    SendFacts(r, w, i);
    WriteShape(r.net, net', r.ker[i].fd, SendBytes(r, w, i), a);
    var slot := w.mem[r.ker[i].op.conn];
    if a.Ok? {
      assert slot.data[..slot.pending][a.n..] == slot.data[a.n..slot.pending];
    }
  }

  // ---- accept and signal

  predicate AcceptsNow(r: Ring, i: nat, net': Sockets, a: Answer)
    requires i < |r.ker|
  {
    r.ker[i].Sqe? && r.ker[i].op.AcceptOp? && (a.Ok? || a == Err(EOTHER)) && Net.Accepts(r.net, net', a)
  }

  lemma AcceptKeeps(r: Ring, w: World, i: nat, net': Sockets, a: Answer)
    requires Inv(r, w) && i < |r.ker| && AcceptsNow(r, i, net', a)
    ensures Inv(Completed(r, i, net', Result(a)), w)
    ensures Refines(r.net, w.held, net', w.held)
    ensures TotalGiven(net'.conns) == TotalGiven(r.net.conns)
  {
    hide *;
    InvParts(r, w);
    AcceptNet(r, w, i, net', a);
    CompletionKeepsOwned(r, w, i, net', Result(a), w);
    CompletionShape(r, i, net', Result(a));
    AcceptKeepsTables(r, w, i, net', a);
    AcceptKeepsJobs(r, w, i, net', a);
    InvFromParts(Completed(r, i, net', Result(a)), w);
  }

  lemma AcceptNet(r: Ring, w: World, i: nat, net': Sockets, a: Answer)
    requires NetInv(r.net, w.held) && i < |r.ker| && AcceptsNow(r, i, net', a)
    ensures NetInv(net', w.held) && Refines(r.net, w.held, net', w.held)
    ensures TotalGiven(net'.conns) == TotalGiven(r.net.conns)
    ensures net'.conns.Keys == r.net.conns.Keys && r.ker[i].op.AcceptOp?
    ensures a.Ok? ==> a.n in net'.fds && Held(w.held, net'.fds[a.n]) == []
                      && net'.fds == r.net.fds[a.n := net'.fds[a.n]]
    ensures a.Ok? ==> a.n !in r.net.fds && forall fd | fd in r.net.fds :: r.net.fds[fd] != net'.fds[a.n]
    ensures forall id | id in r.net.conns && (a.Ok? ==> id != net'.fds[a.n]) :: net'.conns[id] == r.net.conns[id]
    ensures !a.Ok? ==> net' == r.net
  {
    hide *;
    AcceptIsAccept(r, i, net', a);
    Net.AcceptKeeps(r.net, net', a, w.held);
    AcceptShape(r.net, net', a, w.held);
    AcceptGivesNothing(r.net, net', a);
  }

  lemma AcceptIsAccept(r: Ring, i: nat, net': Sockets, a: Answer)
    requires i < |r.ker| && AcceptsNow(r, i, net', a)
    ensures Net.Accepts(r.net, net', a) && r.ker[i].op.AcceptOp?
  {
  }

  lemma AcceptGivesNothing(net: Sockets, net': Sockets, a: Answer)
    requires Net.Accepts(net, net', a) && net'.conns.Keys == net.conns.Keys
    ensures TotalGiven(net'.conns) == TotalGiven(net.conns)
  {
    hide TotalGiven;
    TotalGivenFrame(net.conns, net'.conns);
  }

  lemma AcceptShape(net: Sockets, net': Sockets, a: Answer, held: Holdings)
    requires NetInv(net, held) && Net.Accepts(net, net', a)
    ensures a.Ok? ==> a.n in net'.fds && Held(held, net'.fds[a.n]) == [] && net'.fds == net.fds[a.n := net'.fds[a.n]]
    ensures a.Ok? ==> a.n !in net.fds && forall fd | fd in net.fds :: net.fds[fd] != net'.fds[a.n]
    ensures forall id | id in net.conns && (a.Ok? ==> id != net'.fds[a.n]) ::
              id in net'.conns && net'.conns[id] == net.conns[id]
    ensures !a.Ok? ==> net' == net
  {
    if a.Ok? {
      var id := net.backlog[0];
      assert id in net.backlog && Sound(net.conns[id], Held(held, id));
    }
  }

  lemma AcceptKeepsTables(r: Ring, w: World, i: nat, net': Sockets, a: Answer)
    requires Tables(r, w) && TableInv(r.net) && i < |r.ker| && AcceptsNow(r, i, net', a)
    requires NetInv(r.net, w.held)
    ensures Tables(Completed(r, i, net', Result(a)), w)
  {
    hide AcceptsNow, NetInv, TableInv, Refines, TotalGiven;
    AcceptNet(r, w, i, net', a);
    var done := Cqe(r.ker[i].op, Result(a));
    var r' := Completed(r, i, net', Result(a));
    AnnouncedStays(r.cq, [done]);
    assert done in r'.cq;
    if a.Ok? {
      assert Announced(r'.cq, a.n);
    }
  }

  lemma AcceptKeepsJobs(r: Ring, w: World, i: nat, net': Sockets, a: Answer)
    requires NetInv(r.net, w.held) && Tables(r, w) && Jobs(r, w) && i < |r.ker| && AcceptsNow(r, i, net', a)
    ensures Jobs(Completed(r, i, net', Result(a)), w)
  {
    hide AcceptsNow, NetInv, Refines, TotalGiven, JobOk, Tables;
    var r' := Completed(r, i, net', Result(a));
    forall j | j in r.sq + r.ker + r.cq && JobOk(r, w, j) ensures JobOk(r', w, j) {
      AcceptKeepsJob(r, w, i, net', a, j);
    }
    forall j | j in r'.ker ensures j in r.ker {
    }
    AcceptedJob(r, w, i, net', a);
  }

  lemma AcceptedJob(r: Ring, w: World, i: nat, net': Sockets, a: Answer)
    requires NetInv(r.net, w.held) && Tables(r, w) && i < |r.ker| && AcceptsNow(r, i, net', a)
    ensures JobOk(Completed(r, i, net', Result(a)), w, Cqe(r.ker[i].op, Result(a)))
  {
    AcceptNet(r, w, i, net', a);
  }

  lemma AcceptKeepsJob(r: Ring, w: World, i: nat, net': Sockets, a: Answer, j: Job)
    requires NetInv(r.net, w.held) && i < |r.ker| && AcceptsNow(r, i, net', a) && JobOk(r, w, j)
    ensures JobOk(Completed(r, i, net', Result(a)), w, j)
  {
    hide NetInv, Refines, TotalGiven, AcceptsNow, Received, Sending, Sent;
    AcceptNet(r, w, i, net', a);
  }

  predicate SignalsNow(r: Ring, i: nat)
    requires i < |r.ker|
  {
    r.ker[i].Sqe? && r.ker[i].op.SignalOp? && r.signals > 0
  }

  lemma SignalKeeps(r: Ring, w: World, i: nat)
    requires Inv(r, w) && i < |r.ker| && SignalsNow(r, i)
    ensures Inv(Completed(r, i, r.net, 1), w)
  {
    hide *;
    InvParts(r, w);
    CompletionKeepsOwned(r, w, i, r.net, 1, w);
    SignalKeepsTables(r, w, i);
    SignalKeepsJobs(r, w, i);
    InvFromParts(Completed(r, i, r.net, 1), w);
  }

  lemma SignalKeepsTables(r: Ring, w: World, i: nat)
    requires NetInv(r.net, w.held) && Tables(r, w) && i < |r.ker| && SignalsNow(r, i)
    ensures NetInv(Completed(r, i, r.net, 1).net, w.held) && Tables(Completed(r, i, r.net, 1), w)
  {
    AnnouncedStays(r.cq, [Cqe(r.ker[i].op, 1)]);
  }

  lemma SignalKeepsJobs(r: Ring, w: World, i: nat)
    requires Jobs(r, w) && i < |r.ker| && SignalsNow(r, i)
    ensures Jobs(Completed(r, i, r.net, 1), w)
  {
    SameNetKeepsJobs(r, Completed(r, i, r.net, 1), w);
  }

  /** Entries move between the queues; nothing they speak of changes. */
  lemma SameNetKeepsJobs(r: Ring, r': Ring, w: World)
    requires r'.net == r.net
    ensures forall j | JobOk(r, w, j) :: JobOk(r', w, j)
  {
  }

  // ---------------------------------------------------------------- environment and submission

  predicate Tick(r: Ring, r': Ring) {
    Peers(r.net, r'.net) && r.signals <= r'.signals && r' == r.(net := r'.net, signals := r'.signals)
  }

  lemma TickKeeps(r: Ring, r': Ring, w: World)
    requires Inv(r, w) && Tick(r, r')
    ensures Inv(r', w) && Refines(r.net, w.held, r'.net, w.held)
    ensures TotalGiven(r'.net.conns) == TotalGiven(r.net.conns)
  {
    hide *;
    InvParts(r, w);
    TickNet(r, r', w);
    TickKeepsTables(r, r', w);
    TickKeepsJobs(r, r', w);
    TickKeepsOwned(r, r', w);
    InvFromParts(r', w);
  }

  lemma TickNet(r: Ring, r': Ring, w: World)
    requires NetInv(r.net, w.held) && Tables(r, w) && Tick(r, r')
    ensures NetInv(r'.net, w.held) && Refines(r.net, w.held, r'.net, w.held)
    ensures TotalGiven(r'.net.conns) == TotalGiven(r.net.conns)
  {
    PeersKeep(r.net, r'.net, w.held);
    TotalGivenFrame(r.net.conns, r'.net.conns);
  }

  lemma TickKeepsTables(r: Ring, r': Ring, w: World)
    requires Tables(r, w) && Tick(r, r')
    ensures Tables(r', w)
  {
  }

  lemma TickKeepsOwned(r: Ring, r': Ring, w: World)
    requires Owned(r, w) && Tick(r, r')
    ensures Owned(r', w)
  {
  }

  lemma TickKeepsJobs(r: Ring, r': Ring, w: World)
    requires Jobs(r, w) && Tick(r, r')
    ensures Jobs(r', w)
  {
    hide JobOk;
    forall j | JobOk(r, w, j) ensures JobOk(r', w, j) {
      TickKeepsJob(r, r', w, j);
    }
  }

  lemma TickKeepsJob(r: Ring, r': Ring, w: World, j: Job)
    requires Tick(r, r') && JobOk(r, w, j)
    ensures JobOk(r', w, j)
  {
  }

  /** The kernel takes the first `n` entries of the submission queue. */
  function Submitted(r: Ring, n: nat): Ring
    requires n <= |r.sq|
  {
    r.(sq := r.sq[n..], ker := r.ker + r.sq[..n])
  }

  lemma SubmitKeeps(r: Ring, w: World, n: nat)
    requires Inv(r, w) && n <= |r.sq|
    ensures Inv(Submitted(r, n), w)
  {
    hide *;
    InvParts(r, w);
    SubmitKeepsOwned(r, w, n);
    SubmitKeepsTables(r, w, n);
    SubmitKeepsJobs(r, w, n);
    InvFromParts(Submitted(r, n), w);
  }

  lemma SubmitKeepsTables(r: Ring, w: World, n: nat)
    requires NetInv(r.net, w.held) && Tables(r, w) && n <= |r.sq|
    ensures NetInv(Submitted(r, n).net, w.held) && Tables(Submitted(r, n), w)
  {
  }

  lemma SubmitKeepsJobs(r: Ring, w: World, n: nat)
    requires Jobs(r, w) && n <= |r.sq|
    ensures Jobs(Submitted(r, n), w)
  {
    hide JobOk;
    SameNetKeepsJobs(r, Submitted(r, n), w);
  }

  lemma SubmitKeepsOwned(r: Ring, w: World, n: nat)
    requires Owned(r, w) && n <= |r.sq|
    ensures Owned(Submitted(r, n), w)
  {
    hide Refs, AcceptCount;
    assert r.sq == r.sq[..n] + r.sq[n..];
    RefsConcat(r.sq[..n], r.sq[n..]);
    RefsConcat(r.ker, r.sq[..n]);
    AcceptsConcat(r.sq[..n], r.sq[n..]);
    AcceptsConcat(r.ker, r.sq[..n]);
  }

  // ---------------------------------------------------------------- the server handles a completion

  /** The completion at the head of the queue is taken: its connection is now in the server's hands alone. */
  function Taken(r: Ring): Ring
    requires r.cq != []
  {
    r.(cq := r.cq[1..])
  }

  function TakenWorld(r: Ring, w: World): World
    requires r.cq != [] && r.cq[0].Cqe?
  {
    match r.cq[0].op
    case RecvOp(c) => w.(hand := {c})
    case SendOp(c) => w.(hand := {c})
    case AcceptOp => w.(due := true, loose := if r.cq[0].res >= 0 then {r.cq[0].res as Fd} else {})
    case SignalOp => w
  }

  ghost predicate EmptyHanded(w: World) {
    w.hand == {} && w.loose == {} && !w.due
  }

  lemma TakeKeeps(r: Ring, w: World)
    requires Inv(r, w) && EmptyHanded(w) && r.cq != []
    ensures r.cq[0].Cqe? && JobOk(r, w, r.cq[0])
    ensures Inv(Taken(r), TakenWorld(r, w))
  {
    hide *;
    InvParts(r, w);
    HeadOk(r, w);
    TakeKeepsOwned(r, w);
    TakeKeepsTables(r, w);
    TakeKeepsJobs(r, w);
    InvFromParts(Taken(r), TakenWorld(r, w));
  }

  lemma HeadOk(r: Ring, w: World)
    requires Jobs(r, w) && r.cq != []
    ensures r.cq[0].Cqe? && JobOk(r, w, r.cq[0])
  {
    assert r.cq[0] in r.cq;
  }

  lemma TakeKeepsOwned(r: Ring, w: World)
    requires Owned(r, w) && EmptyHanded(w) && r.cq != [] && r.cq[0].Cqe?
    ensures Owned(Taken(r), TakenWorld(r, w))
    ensures r.cq[0].op.AcceptOp? ==> AcceptCount(r.cq[1..]) == 0
  {
    assert r.cq == [r.cq[0]] + r.cq[1..];
  }

  lemma TakeKeepsTables(r: Ring, w: World)
    requires NetInv(r.net, w.held) && Owned(r, w) && Tables(r, w) && EmptyHanded(w)
    requires r.cq != [] && r.cq[0].Cqe? && JobOk(r, w, r.cq[0])
    ensures NetInv(Taken(r).net, TakenWorld(r, w).held) && Tables(Taken(r), TakenWorld(r, w))
  {
    var j := r.cq[0];
    forall fd | Announced(r.cq, fd) && !(j.op.AcceptOp? && j.res == fd) ensures Announced(r.cq[1..], fd) {
      var x :| x in r.cq && x.op.AcceptOp? && x.Cqe? && x.res == fd;
      assert x in r.cq[1..];
    }
  }

  lemma TakeKeepsJobs(r: Ring, w: World)
    requires Owned(r, w) && Jobs(r, w) && EmptyHanded(w) && r.cq != [] && r.cq[0].Cqe?
    ensures Jobs(Taken(r), TakenWorld(r, w))
  {
    var r', w' := Taken(r), TakenWorld(r, w);
    TakeKeepsOwned(r, w);
    forall j | j in r.sq + r.ker + r.cq[1..] && JobOk(r, w, j) ensures JobOk(r', w', j) {
      if r.cq[0].op.AcceptOp? {
        OnlyOneAccept(r, w, j);
      }
    }
  }

  /** When an accept has completed no other one is queued, running or completed. */
  lemma OnlyOneAccept(r: Ring, w: World, j: Job)
    requires Owned(r, w) && r.cq != [] && r.cq[0].op.AcceptOp? && j in r.sq + r.ker + r.cq[1..]
    ensures !j.op.AcceptOp?
  {
    hide Refs, RefOf;
    assert AcceptCount(r.sq) + AcceptCount(r.ker) + AcceptCount(r.cq[1..]) == 0;
    if j in r.sq {
      RefsMember(r.sq, j);
    } else if j in r.ker {
      RefsMember(r.ker, j);
    } else {
      RefsMember(r.cq[1..], j);
    }
  }

  /** Nothing outstanding refers to a connection in hand: its buffer may be touched and it may be closed. */
  lemma InHandIsUnreferenced(r: Ring, w: World, c: Conn)
    requires Owned(r, w) && c in w.hand
    ensures c in w.mem && c !in Refs(r.sq) && c !in Refs(r.ker) && c !in Refs(r.cq)
  {
    assert multiset(w.mem.Keys)[c] <= 1 && multiset(w.hand)[c] == 1;
    assert (Refs(r.sq) + Refs(r.ker) + Refs(r.cq) + multiset(w.hand))[c] == multiset(w.mem.Keys)[c];
  }

  lemma InHandTouchKeepsJobs(r: Ring, w: World, w': World, c: Conn)
    requires TableInv(r.net) && Owned(r, w) && Tables(r, w) && Jobs(r, w) && c in w.hand && OnlyAt(r, w, r, w', c)
    ensures Jobs(r, w')
  {
    hide Owned, JobOk, Tables, OnlyAt, TableInv, Refs;
    InHandIsUnreferenced(r, w, c);
    forall j | j in r.sq ensures JobOk(r, w', j) {
      NobodyElse(r, w, r.sq, j, c);
      OthersStayOk(r, w, r, w', c, j);
    }
    forall j | j in r.ker ensures JobOk(r, w', j) {
      NobodyElse(r, w, r.ker, j, c);
      OthersStayOk(r, w, r, w', c, j);
    }
    forall j | j in r.cq ensures JobOk(r, w', j) {
      NobodyElse(r, w, r.cq, j, c);
      OthersStayOk(r, w, r, w', c, j);
    }
  }

  /** User code changes the buffer or the pending count of the connection in hand. */
  lemma TouchKeeps(r: Ring, w: World, c: Conn, slot: Slot) returns (w': World)
    requires Inv(r, w) && c in w.hand && c in w.mem
    requires slot.fd == w.mem[c].fd && |slot.data| == |w.mem[c].data|
    ensures w' == w.(mem := w.mem[c := slot])
    ensures Inv(r, w')
  {
    hide *;
    w' := w.(mem := w.mem[c := slot]);
    InvParts(r, w);
    TouchIsLocal(r, w, c, slot, w');
    InHandTouchKeepsJobs(r, w, w', c);
    TouchKeepsOwned(r, w, c, slot);
    TablesStay(r, w, r, w', c);
    InvFromParts(r, w');
  }

  lemma TouchIsLocal(r: Ring, w: World, c: Conn, slot: Slot, w': World)
    requires Tables(r, w) && c in w.mem && slot.fd == w.mem[c].fd && |slot.data| == |w.mem[c].data|
    requires w' == w.(mem := w.mem[c := slot])
    ensures OnlyAt(r, w, r, w', c) && w'.hand <= w'.mem.Keys
  {
  }

  lemma TouchKeepsOwned(r: Ring, w: World, c: Conn, slot: Slot)
    requires Owned(r, w) && c in w.mem
    ensures Owned(r, w.(mem := w.mem[c := slot]))
  {
    assert w.mem[c := slot].Keys == w.mem.Keys;
  }

  // ---- queueing

  function Enqueued(r: Ring, j: Job): Ring {
    r.(sq := r.sq + [j])
  }

  /** Queueing an operation hands the connection over: from here on the kernel owns its buffer. */
  lemma QueueKeeps(r: Ring, w: World, c: Conn, j: Job)
    requires Inv(r, w) && w.hand == {c} && |r.sq| < QUEUE_DEPTH
    requires j.Sqe? && RefOf(j.op) == multiset{c} && JobOk(r, w, j)
    ensures Inv(Enqueued(r, j), w.(hand := {}))
  {
    hide *;
    InvParts(r, w);
    QueueKeepsOwned(r, w, c, j);
    QueueKeepsRest(r, w, c, j);
    InvFromParts(Enqueued(r, j), w.(hand := {}));
  }

  lemma QueueKeepsOwned(r: Ring, w: World, c: Conn, j: Job)
    requires Owned(r, w) && w.hand == {c} && RefOf(j.op) == multiset{c}
    ensures Owned(Enqueued(r, j), w.(hand := {}))
  {
    hide Refs, AcceptCount;
    RefsConcat(r.sq, [j]);
    AcceptsConcat(r.sq, [j]);
    RefsSingle(j);
    assert multiset(w.hand) == multiset{c};
  }

  lemma QueueKeepsRest(r: Ring, w: World, c: Conn, j: Job)
    requires NetInv(r.net, w.held) && Tables(r, w) && Jobs(r, w) && |r.sq| < QUEUE_DEPTH && j.Sqe? && JobOk(r, w, j)
    ensures var r', w' := Enqueued(r, j), w.(hand := {});
            NetInv(r'.net, w'.held) && Tables(r', w') && Jobs(r', w')
  {
    hide NetInv, JobOk;
    HandIsNotSpokenOf(r, w);
    SameNetKeepsJobs(r, Enqueued(r, j), w.(hand := {}));
  }

  lemma HandIsNotSpokenOf(r: Ring, w: World)
    ensures forall x | JobOk(r, w, x) :: JobOk(r, w.(hand := {}), x)
  {
    hide Received, Sending, Sent;
  }

  /** The next accept is queued. */
  lemma QueueAcceptKeeps(r: Ring, w: World, fd: Fd)
    requires Inv(r, w) && w.due && |r.sq| < QUEUE_DEPTH
    ensures Inv(Enqueued(r, Sqe(AcceptOp, fd, 0)), w.(due := false))
  {
    hide *;
    var j := Sqe(AcceptOp, fd, 0);
    InvParts(r, w);
    QueueAcceptKeepsOwned(r, w, j);
    QueueAcceptKeepsRest(r, w, j);
    InvFromParts(Enqueued(r, j), w.(due := false));
  }

  lemma QueueAcceptKeepsOwned(r: Ring, w: World, j: Job)
    requires Owned(r, w) && w.due && j.op.AcceptOp?
    ensures Owned(Enqueued(r, j), w.(due := false))
  {
    hide Refs, AcceptCount;
    RefsConcat(r.sq, [j]);
    AcceptsConcat(r.sq, [j]);
    RefsSingle(j);
  }

  lemma QueueAcceptKeepsRest(r: Ring, w: World, j: Job)
    requires NetInv(r.net, w.held) && Tables(r, w) && Jobs(r, w) && j.op.AcceptOp? && j.Sqe? && |r.sq| < QUEUE_DEPTH
    ensures var r', w' := Enqueued(r, j), w.(due := false);
            NetInv(r'.net, w'.held) && Tables(r', w') && Jobs(r', w')
  {
    hide NetInv;
    forall x | JobOk(r, w, x) ensures JobOk(Enqueued(r, j), w.(due := false), x) {
    }
  }

  /** There is no room for the next accept: it is lost for good. */
  lemma LoseAcceptKeeps(r: Ring, w: World)
    requires Inv(r, w) && w.due
    ensures Inv(r, w.(due := false, accepting := false))
  {
    hide *;
    InvParts(r, w);
    LoseAcceptKeepsParts(r, w);
    InvFromParts(r, w.(due := false, accepting := false));
  }

  lemma LoseAcceptKeepsParts(r: Ring, w: World)
    requires NetInv(r.net, w.held) && Owned(r, w) && Tables(r, w) && Jobs(r, w) && w.due
    ensures var w' := w.(due := false, accepting := false);
            NetInv(r.net, w'.held) && Owned(r, w') && Tables(r, w') && Jobs(r, w')
  {
    hide NetInv;
    forall x | JobOk(r, w, x) ensures JobOk(r, w.(due := false, accepting := false), x) {
    }
  }

  // ---- a new connection

  function Adopted(w: World, fd: Fd, c: Conn, data: seq<Byte>): World {
    w.(mem := w.mem[c := Slot(fd, data, 0)], table := w.table[fd := c], hand := {c}, loose := {})
  }

  /** A new Conn is entered in the table; the descriptor was not there, so no live entry is overwritten. */
  lemma AdoptKeeps(r: Ring, w: World, fd: Fd, c: Conn, data: seq<Byte>)
    requires Inv(r, w) && w.loose == {fd} && w.hand == {} && c !in w.mem
    ensures fd !in w.table && fd in r.net.fds && r.net.fds[fd] in r.net.conns
    ensures Inv(r, Adopted(w, fd, c, data))
    ensures Held(w.held, r.net.fds[fd]) == []
  {
    hide *;
    InvParts(r, w);
    AdoptFacts(r, w, fd);
    AdoptKeepsOwned(r, w, fd, c, data);
    AdoptKeepsTables(r, w, fd, c, data);
    AdoptKeepsJobs(r, w, fd, c, data);
    InvFromParts(r, Adopted(w, fd, c, data));
  }

  lemma AdoptFacts(r: Ring, w: World, fd: Fd)
    requires TableInv(r.net) && Tables(r, w) && w.loose == {fd}
    ensures fd !in w.table && fd in r.net.fds && r.net.fds[fd] in r.net.conns
    ensures Held(w.held, r.net.fds[fd]) == []
  {
  }

  lemma AdoptKeepsOwned(r: Ring, w: World, fd: Fd, c: Conn, data: seq<Byte>)
    requires Owned(r, w) && w.hand == {} && c !in w.mem
    ensures Owned(r, Adopted(w, fd, c, data))
  {
    hide Refs, AcceptCount;
    var w' := Adopted(w, fd, c, data);
    assert w'.mem.Keys == w.mem.Keys + {c};
    assert multiset(w'.mem.Keys) == multiset(w.mem.Keys) + multiset{c};
    assert multiset(w'.hand) == multiset{c};
  }

  lemma AdoptKeepsTables(r: Ring, w: World, fd: Fd, c: Conn, data: seq<Byte>)
    requires NetInv(r.net, w.held) && Tables(r, w) && w.loose == {fd} && c !in w.mem
    ensures NetInv(r.net, Adopted(w, fd, c, data).held) && Tables(r, Adopted(w, fd, c, data))
  {
    hide NetInv;
  }

  lemma AdoptKeepsJobs(r: Ring, w: World, fd: Fd, c: Conn, data: seq<Byte>)
    requires Tables(r, w) && Jobs(r, w) && w.loose == {fd} && c !in w.mem
    ensures Jobs(r, Adopted(w, fd, c, data))
  {
    hide Tables;
    forall x | JobOk(r, w, x) ensures JobOk(r, Adopted(w, fd, c, data), x) {
    }
  }

  // ---- closing

  function ClosedRing(r: Ring, fd: Fd): Ring
    requires fd in r.net.fds && r.net.fds[fd] in r.net.conns
  {
    r.(net := Close(r.net, fd))
  }

  function Freed(r: Ring, w: World, c: Conn): World
    requires c in w.mem && w.mem[c].fd in r.net.fds
  {
    w.(mem := w.mem - {c}, table := w.table - {w.mem[c].fd}, held := w.held - {IdOf(r, w, c)}, hand := w.hand - {c})
  }

  /** close_connection: the descriptor is closed and the Conn freed, and no outstanding operation refers to it. */
  lemma CloseKeeps(r: Ring, w: World, c: Conn)
    requires Inv(r, w) && c in w.hand
    ensures c in w.mem && w.mem[c].fd in r.net.fds && IdOf(r, w, c) in r.net.conns
    ensures IdOf(r, w, c) == r.net.fds[w.mem[c].fd]
    ensures Inv(ClosedRing(r, w.mem[c].fd), Freed(r, w, c))
    ensures Refines(r.net, w.held, ClosedRing(r, w.mem[c].fd).net, Freed(r, w, c).held)
    ensures TotalGiven(ClosedRing(r, w.mem[c].fd).net.conns) == TotalGiven(r.net.conns)
    ensures w.mem[c].fd in w.table && w.table[w.mem[c].fd] == c
  {
    hide *;
    InvParts(r, w);
    CloseNet(r, w, c);
    InHandIsUnreferenced(r, w, c);
    CloseKeepsOwned(r, w, c);
    CloseKeepsTables(r, w, c);
    CloseKeepsJobs(r, w, c);
    InvFromParts(ClosedRing(r, w.mem[c].fd), Freed(r, w, c));
  }

  lemma CloseNet(r: Ring, w: World, c: Conn)
    requires NetInv(r.net, w.held) && Tables(r, w) && c in w.hand
    ensures c in w.mem && w.mem[c].fd in r.net.fds && IdOf(r, w, c) in r.net.conns
    ensures IdOf(r, w, c) == r.net.fds[w.mem[c].fd]
    ensures w.mem[c].fd in w.table && w.table[w.mem[c].fd] == c
    ensures var r', w' := ClosedRing(r, w.mem[c].fd), Freed(r, w, c);
            && NetInv(r'.net, w'.held) && Refines(r.net, w.held, r'.net, w'.held)
            && TotalGiven(r'.net.conns) == TotalGiven(r.net.conns)
  {
    hide TableInv, SoundInv, Refines, TotalGiven;
    Net.CloseKeeps(r.net, w.mem[c].fd, w.held);
    TotalGivenFrame(r.net.conns, Close(r.net, w.mem[c].fd).conns);
  }

  lemma CloseKeepsOwned(r: Ring, w: World, c: Conn)
    requires Owned(r, w) && c in w.hand && c in w.mem && w.mem[c].fd in r.net.fds && IdOf(r, w, c) in r.net.conns
    ensures Owned(ClosedRing(r, w.mem[c].fd), Freed(r, w, c))
  {
    hide Refs, AcceptCount;
    var w' := Freed(r, w, c);
    assert w'.mem.Keys == w.mem.Keys - {c};
    assert multiset(w.mem.Keys) == multiset(w'.mem.Keys) + multiset{c};
    assert multiset(w.hand) == multiset(w'.hand) + multiset{c};
    var refs := Refs(r.sq) + Refs(r.ker) + Refs(r.cq);
    SumIsAssociative(refs, multiset(w'.hand), multiset{c});
    SumCancels(refs + multiset(w'.hand), multiset(w'.mem.Keys), multiset{c});
  }

  lemma SumCancels<T>(a: multiset<T>, b: multiset<T>, c: multiset<T>)
    requires a + c == b + c
    ensures a == b
  {
    assert (a + c) - c == a && (b + c) - c == b;
  }

  lemma CloseKeepsTables(r: Ring, w: World, c: Conn)
    requires TableInv(r.net) && Tables(r, w)
    requires c in w.mem && w.mem[c].fd in r.net.fds && IdOf(r, w, c) in r.net.conns
    ensures Tables(ClosedRing(r, w.mem[c].fd), Freed(r, w, c))
  {
    hide Announced, TableInv;
    var r', w', fd := ClosedRing(r, w.mem[c].fd), Freed(r, w, c), w.mem[c].fd;
    CloseKeepsLoose(r, w, c);
    CloseKeepsTable(r, w, c);
    assert forall g | g in r'.net.fds :: g in r.net.fds && g != fd;
  }

  lemma CloseKeepsLoose(r: Ring, w: World, c: Conn)
    requires TableInv(r.net) && Tables(r, w)
    requires c in w.mem && w.mem[c].fd in r.net.fds && IdOf(r, w, c) in r.net.conns
    ensures var r', w' := ClosedRing(r, w.mem[c].fd), Freed(r, w, c);
            forall g | g in w'.loose :: g in r'.net.fds && g !in w'.table && Held(w'.held, r'.net.fds[g]) == []
  {
    hide Announced;
    var r', w', fd := ClosedRing(r, w.mem[c].fd), Freed(r, w, c), w.mem[c].fd;
    forall g | g in w'.loose
      ensures g in r'.net.fds && g !in w'.table && Held(w'.held, r'.net.fds[g]) == []
    {
      assert g != fd;
    }
  }

  lemma CloseKeepsTable(r: Ring, w: World, c: Conn)
    requires TableInv(r.net) && Tables(r, w)
    requires c in w.mem && w.mem[c].fd in r.net.fds && IdOf(r, w, c) in r.net.conns
    ensures var r', w' := ClosedRing(r, w.mem[c].fd), Freed(r, w, c);
            && (forall g | g in w'.table :: w'.table[g] in w'.mem && w'.mem[w'.table[g]].fd == g && g in r'.net.fds)
            && (forall d | d in w'.mem ::
                  w'.mem[d].fd in w'.table && w'.table[w'.mem[d].fd] == d)
  {
    hide Announced, TableInv;
    var w', fd := Freed(r, w, c), w.mem[c].fd;
    assert ClosedRing(r, fd).net.fds == r.net.fds - {fd};
    hide ClosedRing;
    assert w.table[fd] == c;
    assert w'.table == w.table - {fd} && w'.mem == w.mem - {c};
    hide Freed;
  }

  lemma CloseKeepsJobs(r: Ring, w: World, c: Conn)
    requires TableInv(r.net) && Tables(r, w) && Jobs(r, w)
    requires c in w.mem && w.mem[c].fd in r.net.fds && IdOf(r, w, c) in r.net.conns
    requires c !in Refs(r.sq) && c !in Refs(r.ker) && c !in Refs(r.cq)
    ensures Jobs(ClosedRing(r, w.mem[c].fd), Freed(r, w, c))
  {
    hide Tables, TableInv, JobOk, Refs;
    var r', w' := ClosedRing(r, w.mem[c].fd), Freed(r, w, c);
    forall j | j in r.sq ensures JobOk(r', w', j) {
      NobodyElse(r, w, r.sq, j, c);
      OtherJobSurvivesClose(r, w, c, j);
    }
    forall j | j in r.ker ensures JobOk(r', w', j) {
      NobodyElse(r, w, r.ker, j, c);
      OtherJobSurvivesClose(r, w, c, j);
    }
    forall j | j in r.cq ensures JobOk(r', w', j) {
      NobodyElse(r, w, r.cq, j, c);
      OtherJobSurvivesClose(r, w, c, j);
    }
  }

  lemma OtherJobSurvivesClose(r: Ring, w: World, c: Conn, j: Job)
    requires TableInv(r.net) && Tables(r, w) && JobOk(r, w, j) && c !in RefOf(j.op)
    requires c in w.mem && w.mem[c].fd in r.net.fds && IdOf(r, w, c) in r.net.conns
    ensures JobOk(ClosedRing(r, w.mem[c].fd), Freed(r, w, c), j)
  {
    hide JobOk, TableInv, Tables;
    match j.op
    case AcceptOp => OtherAcceptSurvivesClose(r, w, c, j);
    case SignalOp => SignalIsOk(ClosedRing(r, w.mem[c].fd), Freed(r, w, c), j);
    case RecvOp(d) => OtherOpSurvivesClose(r, w, c, j, d);
    case SendOp(d) => OtherOpSurvivesClose(r, w, c, j, d);
  }

  lemma OtherAcceptSurvivesClose(r: Ring, w: World, c: Conn, j: Job)
    requires TableInv(r.net) && Tables(r, w) && JobOk(r, w, j) && j.op.AcceptOp?
    requires c in w.mem && w.mem[c].fd in r.net.fds && IdOf(r, w, c) in r.net.conns
    ensures JobOk(ClosedRing(r, w.mem[c].fd), Freed(r, w, c), j)
  {
    hide TableInv, Received, Sending, Sent;
    if j.Cqe? && j.res >= 0 {
      FdsAreInjective(r.net, j.res, w.mem[c].fd);
    }
  }

  lemma OtherOpSurvivesClose(r: Ring, w: World, c: Conn, j: Job, d: Conn)
    requires TableInv(r.net) && Tables(r, w) && JobOk(r, w, j) && c !in RefOf(j.op)
    requires j.op == RecvOp(d) || j.op == SendOp(d)
    requires c in w.mem && w.mem[c].fd in r.net.fds && IdOf(r, w, c) in r.net.conns
    ensures JobOk(ClosedRing(r, w.mem[c].fd), Freed(r, w, c), j)
  {
    hide TableInv, Tables, Received, Sending, Sent;
    SameFdSameConn(r, w, c, d);
    FdsAreInjective(r.net, w.mem[d].fd, w.mem[c].fd);
  }
}
