/**
 The steps of the io_uring server: each keeps the ownership invariant and the
 laws of the counters, for any state and any answer of the kernel.
 */
module UringSteps {
  import opened EchoSpec
  import opened Net
  import opened Counters
  import opened UringModel
  import opened UringProgress

  ghost predicate Safe(r: Ring, w: World, s: Stats) {
    Inv(r, w) && Law(r, w, s)
  }

  lemma SafeParts(r: Ring, w: World, s: Stats)
    requires Safe(r, w, s)
    ensures Inv(r, w) && Law(r, w, s)
  {
  }

  lemma SafeFolds(r: Ring, w: World, s: Stats)
    requires Inv(r, w) && Law(r, w, s)
    ensures Safe(r, w, s)
  {
  }

  lemma ProgressKeepsSafe(r: Ring, w: World, r': Ring, w': World, s: Stats)
    requires Safe(r, w, s) && Inv(r', w') && Progressed(r, w, r', w')
    ensures Safe(r', w', s) && SameHand(r, w, r', w') && |r'.sq| == |r.sq|
  {
    hide Inv, Law, SameHand, TotalGiven, Waiting;
    ProgressKeepsLaw(r, w, r', w', s);
  }

  /** The bookkeeping of submissions is not part of the ownership invariant. */
  lemma TallyIsFree(r: Ring, w: World, t: Tally)
    requires Inv(r, w)
    ensures Inv(r, w.(tally := t))
  {
    hide *;
    InvParts(r, w);
    TallyIsFreeForTables(r, w, t);
    TallyIsFreeForJobs(r, w, t);
    TallyIsFreeForOwned(r, w, t);
    InvFromParts(r, w.(tally := t));
  }

  lemma TallyIsFreeForOwned(r: Ring, w: World, t: Tally)
    requires Owned(r, w)
    ensures Owned(r, w.(tally := t))
  {
  }

  lemma TallyIsFreeForTables(r: Ring, w: World, t: Tally)
    requires Tables(r, w)
    ensures Tables(r, w.(tally := t))
  {
  }

  lemma TallyIsFreeForJobs(r: Ring, w: World, t: Tally)
    requires Jobs(r, w)
    ensures Jobs(r, w.(tally := t))
  {
    forall j | JobOk(r, w, j) ensures JobOk(r, w.(tally := t), j) {
    }
    hide JobOk;
  }

  /** Counters the laws do not mention. */
  lemma OtherCounters(r: Ring, w: World, s: Stats, requests: nat, recvs: nat, sends: nat)
    requires Safe(r, w, s)
    ensures Safe(r, w, s.(requests := requests, readCalls := recvs, writeCalls := sends))
  {
  }

  // ---------------------------------------------------------------- submission

  function Flushed(t: Tally, n: nat): Tally {
    t.(submitted := t.submitted + n, flushes := t.flushes + 1,
       full := t.full + (if n == QUEUE_DEPTH then 1 else 0),
       refused := t.refused + (if n == 0 then 1 else 0))
  }

  /** A forced flush of the full queue, of which the kernel takes the first `n` entries. */
  lemma FlushKeeps(r: Ring, w: World, s: Stats, n: nat)
    requires Safe(r, w, s) && |r.sq| == QUEUE_DEPTH && n <= |r.sq|
    ensures Safe(Submitted(r, n), w.(tally := Flushed(w.tally, n)), s.(syscalls := s.syscalls + 1))
    ensures SameHand(r, w, Submitted(r, n), w.(tally := Flushed(w.tally, n)))
    ensures |Submitted(r, n).sq| == QUEUE_DEPTH - n
    ensures n == 0 ==> Flushed(w.tally, n).refused > 0
  {
    hide *;
    var r', w', s' := Submitted(r, n), w.(tally := Flushed(w.tally, n)), s.(syscalls := s.syscalls + 1);
    SafeParts(r, w, s);
    SubmitKeeps(r, w, n);
    TallyIsFree(r', w, w'.tally);
    SubmitKeepsHand(r, w, n, w'.tally);
    FlushLaw(r, w, s, n);
    SafeFolds(r', w', s');
  }

  lemma FlushLaw(r: Ring, w: World, s: Stats, n: nat)
    requires Law(r, w, s) && |r.sq| == QUEUE_DEPTH && n <= |r.sq|
    ensures Law(Submitted(r, n), w.(tally := Flushed(w.tally, n)), s.(syscalls := s.syscalls + 1))
    ensures |Submitted(r, n).sq| == QUEUE_DEPTH - n
    ensures n == 0 ==> Flushed(w.tally, n).refused > 0
  {
  }

  lemma SubmitKeepsHand(r: Ring, w: World, n: nat, t: Tally)
    requires Inv(r, w) && n <= |r.sq|
    ensures SameHand(r, w, Submitted(r, n), w.(tally := t))
  {
    hide Inv;
    KeptIsReflexive(r, w);
  }

  /** io_uring_submit_and_wait takes the first `n` entries. */
  lemma WaitKeeps(r: Ring, w: World, s: Stats, n: nat)
    requires Safe(r, w, s) && n <= |r.sq| && EmptyHanded(w)
    ensures var w' := w.(tally := w.tally.(submitted := w.tally.submitted + n));
            && Safe(Submitted(r, n), w', s.(waitCalls := s.waitCalls + 1, syscalls := s.syscalls + 1))
            && EmptyHanded(w')
  {
    hide *;
    var r', w' := Submitted(r, n), w.(tally := w.tally.(submitted := w.tally.submitted + n));
    SafeParts(r, w, s);
    SubmitKeeps(r, w, n);
    TallyIsFree(r', w, w'.tally);
    WaitLaw(r, w, s, n);
    SafeFolds(r', w', s.(waitCalls := s.waitCalls + 1, syscalls := s.syscalls + 1));
  }

  lemma WaitLaw(r: Ring, w: World, s: Stats, n: nat)
    requires Law(r, w, s) && n <= |r.sq| && EmptyHanded(w)
    ensures var w' := w.(tally := w.tally.(submitted := w.tally.submitted + n));
            && Law(Submitted(r, n), w', s.(waitCalls := s.waitCalls + 1, syscalls := s.syscalls + 1))
            && EmptyHanded(w')
  {
  }

  function Counted(w: World): World {
    w.(tally := w.tally.(queued := w.tally.queued + 1))
  }

  lemma CountedLaw(r: Ring, w: World, s: Stats, j: Job)
    requires Law(r, w, s)
    ensures Law(Enqueued(r, j), Counted(w), s)
  {
  }

  /** A recv or send on the connection in hand is queued. */
  lemma QueueCallKeeps(r: Ring, w: World, s: Stats, c: UringModel.Conn, j: Job)
    requires Safe(r, w, s) && w.hand == {c} && w.loose == {} && !w.due && |r.sq| < QUEUE_DEPTH
    requires j.Sqe? && RefOf(j.op) == multiset{c} && JobOk(r, w, j)
    ensures Safe(Enqueued(r, j), Counted(w.(hand := {})), s)
    ensures EmptyHanded(Counted(w.(hand := {})))
    ensures Counted(w.(hand := {})).mem == w.mem && Counted(w.(hand := {})).table == w.table
  {
    hide *;
    var w1 := w.(hand := {});
    SafeParts(r, w, s);
    UringModel.QueueKeeps(r, w, c, j);
    HandIsNotCounted(r, w, s);
    CountedLaw(r, w1, s, j);
    CountedShape(w1);
    TallyIsFree(Enqueued(r, j), w1, Counted(w1).tally);
    SafeFolds(Enqueued(r, j), Counted(w1), s);
  }

  lemma CountedShape(w: World)
    ensures Counted(w) == w.(tally := Counted(w).tally)
    ensures w.hand == {} && w.loose == {} && !w.due ==> EmptyHanded(Counted(w))
  {
  }

  lemma HandIsNotCounted(r: Ring, w: World, s: Stats)
    requires Law(r, w, s)
    ensures Law(r, w.(hand := {}), s) && Law(r, w.(due := false), s)
  {
  }

  /** The next accept is queued. */
  lemma QueueAcceptCallKeeps(r: Ring, w: World, s: Stats, fd: Fd)
    requires Safe(r, w, s) && w.due && |r.sq| < QUEUE_DEPTH
    ensures Safe(Enqueued(r, Sqe(AcceptOp, fd, 0)), Counted(w.(due := false)), s)
    ensures Counted(w.(due := false)).mem == w.mem && Counted(w.(due := false)).table == w.table
    ensures Counted(w.(due := false)).hand == w.hand && Counted(w.(due := false)).loose == w.loose
    ensures !Counted(w.(due := false)).due
  {
    hide *;
    var w1, j := w.(due := false), Sqe(AcceptOp, fd, 0);
    SafeParts(r, w, s);
    QueueAcceptKeeps(r, w, fd);
    HandIsNotCounted(r, w, s);
    CountedLaw(r, w1, s, j);
    CountedShape(w1);
    TallyIsFree(Enqueued(r, j), w1, Counted(w1).tally);
    SafeFolds(Enqueued(r, j), Counted(w1), s);
  }

  lemma LoseAcceptCallKeeps(r: Ring, w: World, s: Stats)
    requires Safe(r, w, s) && w.due && w.tally.refused > 0
    ensures Safe(r, w.(due := false, accepting := false), s)
  {
    hide *;
    SafeParts(r, w, s);
    LoseAcceptKeeps(r, w);
    LoseAcceptLaw(r, w, s);
    SafeFolds(r, w.(due := false, accepting := false), s);
  }

  lemma LoseAcceptLaw(r: Ring, w: World, s: Stats)
    requires Law(r, w, s) && w.tally.refused > 0
    ensures Law(r, w.(due := false, accepting := false), s)
  {
  }

  /** The poll on the signal descriptor concerns no connection. */
  lemma QueueSignalCallKeeps(r: Ring, w: World, s: Stats, fd: Fd)
    requires Safe(r, w, s) && |r.sq| < QUEUE_DEPTH
    ensures Safe(Enqueued(r, Sqe(SignalOp, fd, 0)), Counted(w), s)
    ensures Counted(w).mem == w.mem && Counted(w).table == w.table && Counted(w).hand == w.hand
    ensures Counted(w).loose == w.loose && Counted(w).due == w.due
  {
    hide *;
    var j := Sqe(SignalOp, fd, 0);
    SafeParts(r, w, s);
    InvParts(r, w);
    QueueSignalKeepsOwned(r, w, j);
    QueueSignalKeepsRest(r, w, j);
    InvFromParts(Enqueued(r, j), w);
    CountedLaw(r, w, s, j);
    CountedShape(w);
    TallyIsFree(Enqueued(r, j), w, Counted(w).tally);
    SafeFolds(Enqueued(r, j), Counted(w), s);
  }

  lemma QueueSignalKeepsOwned(r: Ring, w: World, j: Job)
    requires Owned(r, w) && j.op.SignalOp?
    ensures Owned(Enqueued(r, j), w)
  {
    hide Refs, AcceptCount;
    RefsConcat(r.sq, [j]);
    AcceptsConcat(r.sq, [j]);
    RefsSingle(j);
  }

  lemma QueueSignalKeepsRest(r: Ring, w: World, j: Job)
    requires NetInv(r.net, w.held) && Tables(r, w) && Jobs(r, w) && j.op.SignalOp? && j.Sqe? && |r.sq| < QUEUE_DEPTH
    ensures NetInv(Enqueued(r, j).net, w.held) && Tables(Enqueued(r, j), w) && Jobs(Enqueued(r, j), w)
  {
    hide NetInv;
    forall x | JobOk(r, w, x) ensures JobOk(Enqueued(r, j), w, x) {
    }
  }

  // ---------------------------------------------------------------- completions

  function BytesOf(j: Job): nat {
    if j.Cqe? && j.op.RecvOp? && j.res > 0 then j.res else 0
  }

  /** The head of the completion queue is taken; the bytes of a recv are counted. */
  lemma TakeCallKeeps(r: Ring, w: World, s: Stats)
    requires Safe(r, w, s) && EmptyHanded(w) && r.cq != []
    ensures r.cq[0].Cqe?
    ensures Safe(Taken(r), TakenWorld(r, w), s.(bytes := s.bytes + BytesOf(r.cq[0])))
    ensures TakenWorld(r, w).mem == w.mem && TakenWorld(r, w).table == w.table
    ensures r.cq[0].op.RecvOp? || r.cq[0].op.SendOp? ==>
              JobOk(Taken(r), TakenWorld(r, w), r.cq[0]) && TakenWorld(r, w) == w.(hand := {r.cq[0].op.conn})
    ensures r.cq[0].op.SignalOp? ==> TakenWorld(r, w) == w
    ensures r.cq[0].op.AcceptOp? ==>
              TakenWorld(r, w) == w.(due := true, loose := if r.cq[0].res >= 0 then {r.cq[0].res as Fd} else {})
    ensures w.hand == {} && w.loose == {} && !w.due
  {
    hide *;
    SafeParts(r, w, s);
    TakeKeeps(r, w);
    TakeFacts(r, w);
    TakeLaw(r, w, s);
    SafeFolds(Taken(r), TakenWorld(r, w), s.(bytes := s.bytes + BytesOf(r.cq[0])));
  }

  lemma TakeFacts(r: Ring, w: World)
    requires EmptyHanded(w) && r.cq != [] && r.cq[0].Cqe? && JobOk(r, w, r.cq[0])
    ensures TakenWorld(r, w).mem == w.mem && TakenWorld(r, w).table == w.table
    ensures r.cq[0].op.RecvOp? || r.cq[0].op.SendOp? ==>
              JobOk(Taken(r), TakenWorld(r, w), r.cq[0]) && TakenWorld(r, w) == w.(hand := {r.cq[0].op.conn})
    ensures r.cq[0].op.SignalOp? ==> TakenWorld(r, w) == w
    ensures r.cq[0].op.AcceptOp? ==>
              TakenWorld(r, w) == w.(due := true, loose := if r.cq[0].res >= 0 then {r.cq[0].res as Fd} else {})
    ensures w.hand == {} && w.loose == {} && !w.due
  {
  }

  lemma TakeLaw(r: Ring, w: World, s: Stats)
    requires Law(r, w, s) && r.cq != [] && r.cq[0].Cqe?
    ensures Law(Taken(r), TakenWorld(r, w), s.(bytes := s.bytes + BytesOf(r.cq[0])))
  {
    hide TotalGiven;
  }

  lemma AdoptCallKeeps(r: Ring, w: World, s: Stats, fd: Fd, c: UringModel.Conn, data: seq<Byte>)
    requires Safe(r, w, s) && w.loose == {fd} && w.hand == {} && c !in w.mem
    ensures Safe(r, Adopted(w, fd, c, data), s.(accepted := s.accepted + 1))
    ensures fd !in w.table
    ensures JobOk(r, Adopted(w, fd, c, data), Sqe(RecvOp(c), fd, |data|))
    ensures Adopted(w, fd, c, data) ==
            w.(mem := w.mem[c := Slot(fd, data, 0)], table := w.table[fd := c], hand := {c}, loose := {})
  {
    hide *;
    SafeParts(r, w, s);
    UringModel.AdoptKeeps(r, w, fd, c, data);
    AdoptLaw(r, w, s, fd, c, data);
    AdoptedJob(r, w, fd, c, data);
    SafeFolds(r, Adopted(w, fd, c, data), s.(accepted := s.accepted + 1));
  }

  lemma AdoptLaw(r: Ring, w: World, s: Stats, fd: Fd, c: UringModel.Conn, data: seq<Byte>)
    requires Law(r, w, s) && fd !in w.table
    ensures Law(r, Adopted(w, fd, c, data), s.(accepted := s.accepted + 1))
    ensures Adopted(w, fd, c, data) ==
            w.(mem := w.mem[c := Slot(fd, data, 0)], table := w.table[fd := c], hand := {c}, loose := {})
  {
  }

  lemma AdoptedJob(r: Ring, w: World, fd: Fd, c: UringModel.Conn, data: seq<Byte>)
    requires fd in r.net.fds && r.net.fds[fd] in r.net.conns && Held(w.held, r.net.fds[fd]) == []
    ensures JobOk(r, Adopted(w, fd, c, data), Sqe(RecvOp(c), fd, |data|))
  {
  }

  // ---------------------------------------------------------------- the connection in hand

  function Shifted(slot: Slot, n: nat): Slot
    requires n <= slot.pending <= |slot.data|
  {
    slot.(data := slot.data[n..slot.pending] + slot.data[slot.pending - n..])
  }

  /** Short write: after the shift the bytes still owed are again the front of the buffer. */
  lemma ShiftKeeps(r: Ring, w: World, s: Stats, c: UringModel.Conn, res: nat)
    requires Safe(r, w, s) && w.hand == {c} && JobOk(r, w, Cqe(SendOp(c), res))
    requires c in w.mem && res < w.mem[c].pending <= |w.mem[c].data|
    ensures Safe(r, w.(mem := w.mem[c := Shifted(w.mem[c], res)]), s)
    ensures JobOk(r, w.(mem := w.mem[c := Shifted(w.mem[c], res)]), Cqe(RecvOp(c), w.mem[c].pending - res))
    ensures Shifted(w.mem[c], res).pending == w.mem[c].pending && Shifted(w.mem[c], res).fd == w.mem[c].fd
    ensures w.mem[c := Shifted(w.mem[c], res)].Keys == w.mem.Keys
  {
    hide *;
    SafeParts(r, w, s);
    ShiftFacts(w.mem[c], res);
    assert w.hand == {c};
    var w' := TouchKeeps(r, w, c, Shifted(w.mem[c], res));
    ShiftedJob(r, w, c, res);
    MemIsNotCounted(r, w, s, w'.mem);
    SafeFolds(r, w', s);
  }

  lemma ShiftFacts(slot: Slot, n: nat)
    requires n <= slot.pending <= |slot.data|
    ensures Shifted(slot, n).fd == slot.fd && Shifted(slot, n).pending == slot.pending
    ensures |Shifted(slot, n).data| == |slot.data|
  {
  }

  lemma ShiftedJob(r: Ring, w: World, c: UringModel.Conn, res: nat)
    requires c in w.mem && JobOk(r, w, Cqe(SendOp(c), res)) && res < w.mem[c].pending <= |w.mem[c].data|
    ensures JobOk(r, w.(mem := w.mem[c := Shifted(w.mem[c], res)]), Cqe(RecvOp(c), w.mem[c].pending - res))
  {
    var slot, left := w.mem[c], w.mem[c].pending - res;
    assert Shifted(slot, res).data[..left] == slot.data[res..slot.pending];
  }

  lemma MemIsNotCounted(r: Ring, w: World, s: Stats, mem: Memory)
    requires Law(r, w, s)
    ensures Law(r, w.(mem := mem), s)
  {
  }

  /** The pending count is set to what is owed; then a send of exactly that much may be queued. */
  lemma PendingKeeps(r: Ring, w: World, s: Stats, c: UringModel.Conn, n: nat)
    requires Safe(r, w, s) && w.hand == {c} && n > 0 && JobOk(r, w, Cqe(RecvOp(c), n)) && c in w.mem
    ensures var w' := w.(mem := w.mem[c := w.mem[c].(pending := n)]);
            && Safe(r, w', s) && JobOk(r, w', Sqe(SendOp(c), w.mem[c].fd, n))
            && w'.mem.Keys == w.mem.Keys
  {
    hide *;
    SafeParts(r, w, s);
    assert w.hand == {c};
    var w' := TouchKeeps(r, w, c, w.mem[c].(pending := n));
    PendingJob(r, w, c, n);
    MemIsNotCounted(r, w, s, w'.mem);
    SafeFolds(r, w', s);
  }

  lemma PendingJob(r: Ring, w: World, c: UringModel.Conn, n: nat)
    requires c in w.mem && n > 0 && JobOk(r, w, Cqe(RecvOp(c), n))
    ensures JobOk(r, w.(mem := w.mem[c := w.mem[c].(pending := n)]), Sqe(SendOp(c), w.mem[c].fd, n))
  {
  }

  // ---------------------------------------------------------------- closing

  lemma CloseCallKeeps(r: Ring, w: World, s: Stats, c: UringModel.Conn)
    requires Safe(r, w, s) && w.hand == {c} && w.loose == {} && !w.due
    ensures c in w.mem && w.mem[c].fd in r.net.fds && IdOf(r, w, c) in r.net.conns
    ensures w.mem[c].fd in w.table && w.table[w.mem[c].fd] == c
    ensures Safe(ClosedRing(r, w.mem[c].fd), Freed(r, w, c),
                 s.(closed := s.closed + 1, syscalls := s.syscalls + 1))
    ensures EmptyHanded(Freed(r, w, c))
    ensures Freed(r, w, c).mem == w.mem - {c} && Freed(r, w, c).table == w.table - {w.mem[c].fd}
  {
    hide *;
    SafeParts(r, w, s);
    assert w.hand == {c};
    UringModel.CloseKeeps(r, w, c);
    CloseLaw(r, w, s, c);
    SafeFolds(ClosedRing(r, w.mem[c].fd), Freed(r, w, c), s.(closed := s.closed + 1, syscalls := s.syscalls + 1));
  }

  lemma CloseLaw(r: Ring, w: World, s: Stats, c: UringModel.Conn)
    requires Law(r, w, s) && w.hand == {c} && w.loose == {} && !w.due
    requires c in w.mem && w.mem[c].fd in r.net.fds && IdOf(r, w, c) in r.net.conns && w.mem[c].fd in w.table
    requires TotalGiven(ClosedRing(r, w.mem[c].fd).net.conns) == TotalGiven(r.net.conns)
    ensures Law(ClosedRing(r, w.mem[c].fd), Freed(r, w, c), s.(closed := s.closed + 1, syscalls := s.syscalls + 1))
    ensures EmptyHanded(Freed(r, w, c))
    ensures Freed(r, w, c).mem == w.mem - {c} && Freed(r, w, c).table == w.table - {w.mem[c].fd}
  {
    hide TotalGiven, Waiting;
    RemovedSize(w.table, w.mem[c].fd);
    ClosedShape(r, w, c);
    hide ClosedRing, Freed;
  }

  lemma ClosedShape(r: Ring, w: World, c: UringModel.Conn)
    requires c in w.mem && w.mem[c].fd in r.net.fds && IdOf(r, w, c) in r.net.conns
    ensures var r', w' := ClosedRing(r, w.mem[c].fd), Freed(r, w, c);
            && r'.sq == r.sq && r'.cq == r.cq
            && w'.mem == w.mem - {c} && w'.table == w.table - {w.mem[c].fd} && w'.hand == w.hand - {c}
            && w'.loose == w.loose && w'.due == w.due && w'.accepting == w.accepting && w'.tally == w.tally
  {
  }

  lemma RemovedSize<K, V>(m: map<K, V>, k: K)
    requires k in m
    ensures |m| == |m - {k}| + 1
  {
    assert m.Keys == (m - {k}).Keys + {k};
    assert |m.Keys| == |m| && |(m - {k}).Keys| == |m - {k}|;
  }

  // ---------------------------------------------------------------- the stream of one connection

  /** Wherever the one operation of a connection is: while a send is outstanding, what was received is what was
      sent back followed by the pending front of the buffer; while a recv is, it is what was sent back. */
  lemma StreamOfOperation(r: Ring, w: World, j: Job)
    requires Inv(r, w) && (j in r.sq || j in r.ker)
    ensures j.op.RecvOp? || j.op.SendOp? ==>
              j.op.conn in w.mem && w.mem[j.op.conn].fd in r.net.fds && IdOf(r, w, j.op.conn) in r.net.conns
    ensures j.op.RecvOp? ==>
              var k := r.net.conns[IdOf(r, w, j.op.conn)]; k.given == k.out
    ensures j.op.SendOp? ==>
              var k, slot := r.net.conns[IdOf(r, w, j.op.conn)], w.mem[j.op.conn];
              1 <= slot.pending <= |slot.data| && k.given == k.out + slot.data[..slot.pending]
  {
    hide Owned, Refs, AcceptCount;
    assert JobOk(r, w, j);
    if j.op.RecvOp? || j.op.SendOp? {
      var id := IdOf(r, w, j.op.conn);
      assert Sound(r.net.conns[id], Held(w.held, id));
      assert r.net.conns[id].at.Open?;
    }
  }

  // ---------------------------------------------------------------- nothing left to do

  /** The kernel cannot complete `j` until a peer moves. */
  ghost predicate Blocked(r: Ring, j: Job)
    requires j.Sqe?
  {
    match j.op
    case AcceptOp => r.net.backlog == []
    case SignalOp => r.signals == 0
    case SendOp(_) => false
    case RecvOp(_) =>
      && j.len > 0 && j.fd in r.net.fds && r.net.fds[j.fd] in r.net.conns
      && var c := r.net.conns[r.net.fds[j.fd]]; c.given <= c.sent && Unread(c) == [] && !c.fin && !c.broken
  }

  /** Nothing queued, nothing completed, and every operation in the kernel waits for a peer. */
  ghost predicate Quiet(r: Ring, w: World) {
    && EmptyHanded(w) && r.sq == [] && r.cq == []
    && forall j | j in r.ker :: j.Sqe? && Blocked(r, j)
  }

  /** Whenever the wait would block, every open connection has been sent everything it sent; and while the
      accept is outstanding no connection waits in the backlog. */
  lemma QuietMeansEchoed(r: Ring, w: World, id: Id)
    requires Inv(r, w) && Quiet(r, w) && id in r.net.conns
    ensures r.net.conns[id].at.Open? ==> r.net.conns[id].out == r.net.conns[id].given == r.net.conns[id].sent
    ensures r.net.conns[id].at.Closed? && !r.net.conns[id].broken && !r.net.conns[id].dropped ==>
              r.net.conns[id].out == r.net.conns[id].sent
    ensures w.accepting ==> r.net.backlog == []
  {
    hide JobOk, Refs;
    QuietCounts(r, w);
    assert Sound(r.net.conns[id], Held(w.held, id));
    if r.net.conns[id].at.Open? {
      var fd := r.net.conns[id].at.fd;
      assert fd in r.net.fds && r.net.fds[fd] == id;
      QuietConn(r, w, fd);
    }
    if w.accepting {
      AcceptIsThere(r.ker);
    }
  }

  lemma QuietCounts(r: Ring, w: World)
    requires Owned(r, w) && Quiet(r, w)
    ensures Refs(r.ker) == multiset(w.mem.Keys)
    ensures w.accepting ==> AcceptCount(r.ker) == 1
  {
    assert Refs(r.sq) == multiset{} && Refs(r.cq) == multiset{} && multiset(w.hand) == multiset{};
  }

  lemma QuietConn(r: Ring, w: World, fd: Fd)
    requires Inv(r, w) && Quiet(r, w) && fd in r.net.fds && Refs(r.ker) == multiset(w.mem.Keys)
    ensures r.net.fds[fd] in r.net.conns && Held(w.held, r.net.fds[fd]) == []
    ensures var c := r.net.conns[r.net.fds[fd]]; c.given == c.sent
  {
    hide Refs, Owned, NetInv;
    assert !Announced(r.cq, fd);
    assert fd in w.table;
    var c := w.table[fd];
    assert c in multiset(w.mem.Keys);
    var j := ReferredToBy(r.ker, c);
    assert JobOk(r, w, j) && Blocked(r, j);
  }

  lemma {:induction false} ReferredToBy(jobs: seq<Job>, c: UringModel.Conn) returns (j: Job)
    requires c in Refs(jobs)
    ensures j in jobs && (j.op == RecvOp(c) || j.op == SendOp(c))
  {
    if c in RefOf(jobs[0].op) {
      j := jobs[0];
    } else {
      j := ReferredToBy(jobs[1..], c);
    }
  }

  lemma {:induction false} AcceptIsThere(jobs: seq<Job>)
    requires AcceptCount(jobs) >= 1
    ensures exists j :: j in jobs && j.op.AcceptOp?
  {
    if jobs[0].op.AcceptOp? {
      assert jobs[0] in jobs;
    } else {
      AcceptIsThere(jobs[1..]);
      var j :| j in jobs[1..] && j.op.AcceptOp?;
      assert j in jobs;
    }
  }
}
