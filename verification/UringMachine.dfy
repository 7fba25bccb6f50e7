/**
 The control flow of server_uring.cpp as a state machine: what the server has
 in hand, and what each step makes of it.  Peers move and the kernel completes
 operations between any two steps, in any order.  `UringServer` shows that its
 methods produce exactly such runs; here the runs are shown to be runs of the
 echo service.
 */
module UringMachine {
  import opened EchoSpec
  import opened Net
  import opened Runs
  import opened History
  import opened Counters
  import opened UringModel
  import opened UringProgress
  import opened UringSteps

  /** Why a connection is closed; `NoRoom`: there is no entry for its next operation even after a flush. */
  datatype Why = Ended | Failed | NoRoom

  /** What the server does next.  `Accepting`, `Polling`, `Receiving` and `Sending` need a submission entry. */
  datatype Pc =
    | Accepting(res: int, starting: bool)
    | Polling
    | Waiting
    | Looking
    | Adopting(fd: Fd)
    | Receiving(conn: UringModel.Conn)
    | Sending(conn: UringModel.Conn, length: nat)
    | Closing(conn: UringModel.Conn, why: Why)
    | Stopped

  /** `flushed`: the full queue has been flushed for the entry that is needed now.  `calls`: the waits and the
      looks at the completion queue made so far. */
  datatype State = State(r: Ring, w: World, s: Stats, running: bool, pc: Pc, flushed: bool, calls: nat)

  datatype Label =
    | Outside(r: Ring)
    | Complete(i: nat, net: Sockets, a: Answer, data: seq<Byte>)
    | Wait(n: nat, rc: Answer)
    | Look
    | Flush(n: nat)
    | Queue
    | NoEntry
    | Adopt(conn: UringModel.Conn, data: seq<Byte>)
    | Close

  const Boot := Ring(NoSockets, [], [], [], 0)

  const NoWorld := World(map[], map[], map[], {}, {}, true, true, Tally(0, 0, 0, 0, 0))

  /** `start` submits the first accept and the poll of the signal descriptor. */
  const Initial := State(Boot, NoWorld, Zero, true, Accepting(-1, true), false, 0)

  predicate NeedsEntry(pc: Pc) {
    pc.Accepting? || pc.Polling? || pc.Receiving? || pc.Sending?
  }

  predicate IsFull(r: Ring) {
    |r.sq| == QUEUE_DEPTH
  }

  predicate Known(x: State, c: UringModel.Conn) {
    c in x.w.mem && x.w.mem[c].fd in x.r.net.fds && IdOf(x.r, x.w, c) in x.r.net.conns
  }

  // ---------------------------------------------------------------- the steps

  ghost predicate CompleteEnabled(x: State, i: nat, net': Sockets, a: Answer, data: seq<Byte>) {
    && i < |x.r.ker|
    && var j := x.r.ker[i];
       match j.op
       case RecvOp(c) =>
         j.Sqe? && c in x.w.mem && j.fd in x.r.net.fds && |data| <= |x.w.mem[c].data| && Recvs(x.r, i, net', a, data)
       case SendOp(c) =>
         && j.Sqe? && c in x.w.mem && j.len <= |x.w.mem[c].data| && j.fd in x.r.net.fds && Written(a) <= j.len
         && Sends(x.r, i, net', a, SendBytes(x.r, x.w, i))
       case AcceptOp => AcceptsNow(x.r, i, net', a)
       case SignalOp => SignalsNow(x.r, i) && net' == x.r.net && a == Ok(1)
  }

  ghost predicate LookEnabled(x: State) {
    x.pc.Looking? && (x.r.cq != [] ==>
      && x.r.cq[0].Cqe?
      && match x.r.cq[0].op
         case RecvOp(c) => Known(x, c)
         case SendOp(c) => Known(x, c) && x.r.cq[0].res <= x.w.mem[c].pending <= |x.w.mem[c].data|
         case _ => true)
  }

  ghost predicate Enabled(n: nat, x: State, l: Label) {
    match l
    case Outside(r) => Tick(x.r, r)
    case Complete(i, net', a, data) => CompleteEnabled(x, i, net', a, data)
    case Wait(k, rc) => x.pc.Waiting? && k <= |x.r.sq|
    case Look => LookEnabled(x)
    case Flush(k) => NeedsEntry(x.pc) && IsFull(x.r) && !x.flushed && k <= |x.r.sq|
    case Queue =>
      && NeedsEntry(x.pc) && |x.r.sq| < QUEUE_DEPTH
      && (x.pc.Receiving? || x.pc.Sending? ==> Known(x, x.pc.conn))
    case NoEntry => NeedsEntry(x.pc) && IsFull(x.r) && x.flushed
    case Adopt(c, data) => x.pc.Adopting? && c !in x.w.mem && |data| == n
    case Close => x.pc.Closing? && Known(x, x.pc.conn)
  }

  /** One step of a server whose connections have buffers of `n` bytes. */
  ghost function After(n: nat, x: State, l: Label): State
    requires Enabled(n, x, l)
  {
    match l
    case Outside(r) => x.(r := r)
    case Complete(i, net', a, data) => AfterComplete(x, i, net', a, data)
    case Wait(k, rc) => AfterWait(x, k, rc)
    case Look => AfterLook(x)
    case Flush(k) => AfterFlush(x, k)
    case Queue => AfterQueue(x)
    case NoEntry => AfterNoEntry(x)
    case Adopt(c, data) => AfterAdopt(x, c, data)
    case Close => AfterClose(x)
  }

  function AfterComplete(x: State, i: nat, net': Sockets, a: Answer, data: seq<Byte>): State
    requires CompleteEnabled(x, i, net', a, data)
  {
    var j := x.r.ker[i];
    var y := x.(r := Completed(x.r, i, net', Result(a)));
    match j.op
    case RecvOp(c) =>
      y.(w := x.w.(mem := x.w.mem[c := Filled(x.w.mem[c], data)], held := x.w.held[x.r.net.fds[j.fd] := data]))
    case SendOp(c) =>
      y.(w := x.w.(held := x.w.held[x.r.net.fds[j.fd] := SendBytes(x.r, x.w, i)[Written(a)..]]))
    case _ => y
  }

  function AfterWait(x: State, k: nat, rc: Answer): State
    requires k <= |x.r.sq|
  {
    x.(r := Submitted(x.r, k), w := x.w.(tally := x.w.tally.(submitted := x.w.tally.submitted + k)),
    s := x.s.(waitCalls := x.s.waitCalls + 1, syscalls := x.s.syscalls + 1), calls := x.calls + 1,
    pc := if rc.Err? && rc.errno != EINTR then Stopped else Looking)
  }

  function AfterLook(x: State): State
    requires LookEnabled(x)
  {
    if x.r.cq == [] then x.(pc := if x.running then Waiting else Stopped, calls := x.calls + 1)
    else
      var j := x.r.cq[0];
      var y := x.(r := Taken(x.r), w := TakenWorld(x.r, x.w), calls := x.calls + 1);
      match j.op
      case SignalOp => y.(running := false)
      case AcceptOp => y.(pc := Accepting(j.res, false))
      case RecvOp(c) =>
        if j.res > 0 then
          y.(pc := Sending(c, j.res), s := x.s.(requests := x.s.requests + 1, bytes := x.s.bytes + j.res))
        else y.(pc := Closing(c, if j.res == 0 then Ended else Failed))
      case SendOp(c) =>
        if 0 < j.res < x.w.mem[c].pending then
          y.(pc := Sending(c, x.w.mem[c].pending - j.res),
          w := y.w.(mem := x.w.mem[c := Shifted(x.w.mem[c], j.res)]))
        else if j.res >= 0 then y.(pc := Receiving(c))
        else y.(pc := Closing(c, Failed))
  }

  function AfterFlush(x: State, k: nat): State
    requires k <= |x.r.sq|
  {
    x.(r := Submitted(x.r, k), w := x.w.(tally := Flushed(x.w.tally, k)), s := x.s.(syscalls := x.s.syscalls + 1),
    flushed := true)
  }

  /** Where the server goes once the accept has been submitted, or could not be. */
  function AcceptDone(res: int, starting: bool): Pc {
    if starting then Polling else if res >= 0 then Adopting(res) else Looking
  }

  function AfterQueue(x: State): State
    requires NeedsEntry(x.pc) && (x.pc.Receiving? || x.pc.Sending? ==> Known(x, x.pc.conn))
  {
    var y := x.(flushed := false);
    match x.pc
    case Accepting(res, starting) =>
      y.(r := Enqueued(x.r, Sqe(AcceptOp, LISTENER, 0)), w := UringSteps.Counted(x.w.(due := false)),
      pc := AcceptDone(res, starting))
    case Polling =>
      y.(r := Enqueued(x.r, Sqe(SignalOp, SIGNALS, 0)), w := UringSteps.Counted(x.w), pc := Waiting)
    case Receiving(c) =>
      y.(r := Enqueued(x.r, Sqe(RecvOp(c), x.w.mem[c].fd, |x.w.mem[c].data|)),
      w := UringSteps.Counted(x.w.(hand := {})), s := x.s.(readCalls := x.s.readCalls + 1), pc := Looking)
    case Sending(c, length) =>
      y.(r := Enqueued(x.r, Sqe(SendOp(c), x.w.mem[c].fd, length)),
      w := UringSteps.Counted(x.w.(mem := x.w.mem[c := x.w.mem[c].(pending := length)], hand := {})),
      s := x.s.(writeCalls := x.s.writeCalls + 1), pc := Looking)
  }

  function AfterNoEntry(x: State): State
    requires NeedsEntry(x.pc)
  {
    var y := x.(flushed := false);
    match x.pc
    case Accepting(res, starting) =>
      y.(w := x.w.(due := false, accepting := false), pc := AcceptDone(res, starting))
    case Polling => y.(pc := Waiting)
    case Receiving(c) => y.(pc := Closing(c, NoRoom))
    case Sending(c, _) => y.(pc := Closing(c, NoRoom))
  }

  function AfterAdopt(x: State, c: UringModel.Conn, data: seq<Byte>): State
    requires x.pc.Adopting?
  {
    x.(w := Adopted(x.w, x.pc.fd, c, data), s := x.s.(accepted := x.s.accepted + 1), pc := Receiving(c))
  }

  function AfterClose(x: State): State
    requires x.pc.Closing? && Known(x, x.pc.conn)
  {
    x.(r := ClosedRing(x.r, x.w.mem[x.pc.conn].fd), w := Freed(x.r, x.w, x.pc.conn),
    s := x.s.(closed := x.s.closed + 1, syscalls := x.s.syscalls + 1), pc := Looking)
  }

  ghost predicate Step(n: nat, x: State, l: Label, x': State) {
    Enabled(n, x, l) && x' == After(n, x, l)
  }

  // ---------------------------------------------------------------- the invariant

  /** Every buffer has the configured size. */
  ghost predicate Sized(mem: Memory, n: nat) {
    forall c | c in mem :: |mem[c].data| == n
  }

  /** `c` alone is in hand. */
  ghost predicate InHand(w: World, c: UringModel.Conn) {
    w.hand == {c} && w.loose == {} && !w.due && c in w.mem
  }

  ghost predicate BrokenIn(x: State, c: UringModel.Conn) {
    Known(x, c) && x.r.net.conns[IdOf(x.r, x.w, c)].broken
  }

  ghost predicate PcInv(x: State) {
    match x.pc
    case Accepting(res, starting) =>
      x.w.due && x.w.hand == {} && x.w.loose == (if res >= 0 then {res as Fd} else {}) && (starting ==> res < 0)
    case Adopting(fd) => !x.w.due && x.w.hand == {} && x.w.loose == {fd}
    case Receiving(c) => InHand(x.w, c) && JobOk(x.r, x.w, Sqe(RecvOp(c), x.w.mem[c].fd, |x.w.mem[c].data|))
    case Sending(c, length) => InHand(x.w, c) && length > 0 && JobOk(x.r, x.w, Cqe(RecvOp(c), length))
    case Closing(c, why) =>
      && InHand(x.w, c) && Known(x, c)
      && (why.Ended? ==> JobOk(x.r, x.w, Cqe(RecvOp(c), 0)))
      && (why.Failed? ==> BrokenIn(x, c))
    case _ => EmptyHanded(x.w)
  }

  ghost predicate MachineInv(n: nat, x: State) {
    && Safe(x.r, x.w, x.s) && Sized(x.w.mem, n) && PcInv(x)
    && FlushInv(x)
  }

  /** A flush is made for an entry that is needed, and one that leaves the queue full is refused. */
  ghost predicate FlushInv(x: State) {
    x.flushed ==> NeedsEntry(x.pc) && (IsFull(x.r) ==> x.w.tally.refused > 0)
  }

  ghost predicate Moves(x: State, x': State) {
    Refines(x.r.net, x.w.held, x'.r.net, x'.w.held)
  }

  // ---------------------------------------------------------------- every step keeps it

  lemma MachineParts(n: nat, x: State)
    requires MachineInv(n, x)
    ensures Safe(x.r, x.w, x.s) && Inv(x.r, x.w) && Law(x.r, x.w, x.s) && Sized(x.w.mem, n) && PcInv(x)
    ensures FlushInv(x)
  {
  }

  lemma MachineFolds(n: nat, x: State)
    requires Safe(x.r, x.w, x.s) && Sized(x.w.mem, n) && PcInv(x)
    requires FlushInv(x)
    ensures MachineInv(n, x)
  {
  }

  lemma NetStays(x: State, x': State)
    requires x'.r.net == x.r.net && x'.w.held == x.w.held
    ensures Moves(x, x')
  {
    hide Refines;
    NothingMoves(x.r.net, x.w.held, x.w.held);
  }

  lemma MovesFolds(x: State, x': State)
    requires Refines(x.r.net, x.w.held, x'.r.net, x'.w.held)
    ensures Moves(x, x')
  {
  }

  /** Whatever peers and kernel do, what the server has in hand stays as it is. */
  lemma HandKeepsPc(x: State, r': Ring, w': World)
    requires PcInv(x) && SameHand(x.r, x.w, r', w') && Tables(r', w') && NetInv(r'.net, w'.held)
    ensures PcInv(x.(r := r', w := w'))
  {
    hide JobOk, Kept, Tables, NetInv;
    var x' := x.(r := r', w := w');
    match x.pc
    case Receiving(c) =>
      assert c in x.w.hand;
      HandKeepsJob(x, r', w', c, Sqe(RecvOp(c), x.w.mem[c].fd, |x.w.mem[c].data|));
    case Sending(c, length) =>
      assert c in x.w.hand;
      HandKeepsJob(x, r', w', c, Cqe(RecvOp(c), length));
    case Closing(c, why) =>
      assert c in x.w.hand;
      HandIsKnown(x', c);
      if why.Ended? {
        HandKeepsJob(x, r', w', c, Cqe(RecvOp(c), 0));
      }
      if why.Failed? {
        HandKeepsBroken(x, r', w', c);
      }
    case _ =>
  }

  lemma HandKeepsJob(x: State, r': Ring, w': World, c: UringModel.Conn, j: Job)
    requires Kept(x.r, x.w, r', w', c) && RefOf(j.op) == multiset{c} && JobOk(x.r, x.w, j)
    ensures JobOk(r', w', j) && c in x.w.mem && c in w'.mem && w'.mem[c] == x.w.mem[c]
  {
    KeptKeepsJob(x.r, x.w, r', w', c, j);
  }

  lemma HandKeepsBroken(x: State, r': Ring, w': World, c: UringModel.Conn)
    requires Kept(x.r, x.w, r', w', c) && BrokenIn(x, c)
    ensures BrokenIn(x.(r := r', w := w'), c)
  {
  }

  lemma HandIsKnown(x: State, c: UringModel.Conn)
    requires Tables(x.r, x.w) && NetInv(x.r.net, x.w.held) && c in x.w.hand
    ensures Known(x, c)
    ensures x.r.net.conns[IdOf(x.r, x.w, c)].at.Open? && Sound(x.r.net.conns[IdOf(x.r, x.w, c)],
                                                              Held(x.w.held, IdOf(x.r, x.w, c)))
  {
  }

  /** A move of peers or kernel keeps the invariant. */
  lemma ProgressKeepsMachine(n: nat, x: State, r': Ring, w': World)
    requires MachineInv(n, x) && Inv(r', w') && Progressed(x.r, x.w, r', w') && Sized(w'.mem, n)
    requires Refines(x.r.net, x.w.held, r'.net, w'.held)
    ensures MachineInv(n, x.(r := r', w := w')) && Moves(x, x.(r := r', w := w'))
  {
    hide *;
    var x' := x.(r := r', w := w');
    MachineParts(n, x);
    ProgressKeepsSafe(x.r, x.w, r', w', x.s);
    ProgressKeepsFlush(x, r', w');
    InvParts(r', w');
    HandKeepsPc(x, r', w');
    MovesFolds(x, x');
    MachineFolds(n, x');
  }

  lemma ProgressKeepsFlush(x: State, r': Ring, w': World)
    requires FlushInv(x) && Progressed(x.r, x.w, r', w')
    ensures FlushInv(x.(r := r', w := w'))
  {
    hide SameHand, TotalGiven, UringProgress.Waiting;
  }

  lemma FilledIsSized(mem: Memory, c: UringModel.Conn, data: seq<Byte>, n: nat)
    requires Sized(mem, n) && c in mem && |data| <= |mem[c].data|
    ensures Sized(mem[c := Filled(mem[c], data)], n)
  {
  }

  lemma CompleteKeepsMachine(n: nat, x: State, l: Label)
    requires Enabled(n, x, l) && l.Complete? && MachineInv(n, x)
    ensures MachineInv(n, After(n, x, l)) && Moves(x, After(n, x, l))
  {
    hide MachineInv, Moves, Safe, Inv, Law, Sized, PcInv, Recvs, Sends, AcceptsNow, SignalsNow, Refines, Progressed,
         Filled, SendBytes, Completed, Result;
    MachineParts(n, x);
    var x' := After(n, x, l);
    var i, net', a, data := l.i, l.net, l.a, l.data;
    match x.r.ker[i].op
    case RecvOp(c) =>
      var w1 := RecvProgresses(x.r, x.w, i, net', a, data);
      FilledIsSized(x.w.mem, c, data, n);
      CompletionShape(x.r, i, net', Result(a));
      ProgressKeepsMachine(n, x, Completed(x.r, i, net', Result(a)), w1);
    case SendOp(c) =>
      var w1 := SendProgresses(x.r, x.w, i, net', a);
      CompletionShape(x.r, i, net', Result(a));
      ProgressKeepsMachine(n, x, Completed(x.r, i, net', Result(a)), w1);
    case AcceptOp =>
      AcceptProgresses(x.r, x.w, i, net', a);
      CompletionShape(x.r, i, net', Result(a));
      ProgressKeepsMachine(n, x, Completed(x.r, i, net', Result(a)), x.w);
    case SignalOp =>
      SignalProgresses(x.r, x.w, i);
      SignalResult();
      CompletionShape(x.r, i, net', Result(a));
      NothingMoves(x.r.net, x.w.held, x.w.held);
      ProgressKeepsMachine(n, x, Completed(x.r, i, net', Result(a)), x.w);
  }

  lemma SignalResult()
    ensures Result(Ok(1)) == 1
  {
  }

  lemma OutsideKeepsMachine(n: nat, x: State, r': Ring)
    requires MachineInv(n, x) && Tick(x.r, r')
    ensures MachineInv(n, x.(r := r')) && Moves(x, x.(r := r'))
  {
    hide *;
    MachineParts(n, x);
    TickProgresses(x.r, x.w, r');
    ProgressKeepsMachine(n, x, r', x.w);
  }

  lemma WaitKeepsMachine(n: nat, x: State, l: Label)
    requires Enabled(n, x, l) && l.Wait? && MachineInv(n, x)
    ensures MachineInv(n, After(n, x, l)) && Moves(x, After(n, x, l))
  {
    hide MachineInv, Moves, Safe, Inv, Law, Sized, EmptyHanded;
    MachineParts(n, x);
    WaitKeeps(x.r, x.w, x.s, l.n);
    NetStays(x, After(n, x, l));
    MachineFolds(n, After(n, x, l));
  }

  lemma FlushKeepsMachine(n: nat, x: State, l: Label)
    requires Enabled(n, x, l) && l.Flush? && MachineInv(n, x)
    ensures MachineInv(n, After(n, x, l)) && Moves(x, After(n, x, l))
  {
    hide *;
    MachineParts(n, x);
    FlushIs(n, x, l);
    var x' := After(n, x, l);
    FlushKeeps(x.r, x.w, x.s, l.n);
    SafeParts(x'.r, x'.w, x'.s);
    InvParts(x'.r, x'.w);
    HandKeepsPc(x, x'.r, x'.w);
    PcInvIgnores(x.(r := x'.r, w := x'.w), x');
    SubmittedNet(x.r, l.n);
    NetStays(x, x');
    FlushedInv(x, x', l.n);
    MachineFolds(n, x');
  }

  lemma FlushedInv(x: State, x': State, k: nat)
    requires k <= |x.r.sq| && NeedsEntry(x.pc) && x'.pc == x.pc && x'.r == Submitted(x.r, k)
    requires x'.w.tally == Flushed(x.w.tally, k) && IsFull(x.r)
    ensures FlushInv(x') && (IsFull(x'.r) ==> x'.w.tally.refused == x.w.tally.refused + 1)
  {
  }

  lemma FlushIs(n: nat, x: State, l: Label)
    requires Enabled(n, x, l) && l.Flush?
    ensures IsFull(x.r) && |x.r.sq| == QUEUE_DEPTH && l.n <= |x.r.sq| && NeedsEntry(x.pc) && !x.flushed
    ensures After(n, x, l) == x.(r := Submitted(x.r, l.n), w := x.w.(tally := Flushed(x.w.tally, l.n)),
                                 s := x.s.(syscalls := x.s.syscalls + 1), flushed := true)
  {
  }

  lemma PcInvIgnores(x: State, x': State)
    requires PcInv(x) && x'.r == x.r && x'.w == x.w && x'.pc == x.pc
    ensures PcInv(x')
  {
    hide JobOk;
  }

  lemma SubmittedNet(r: Ring, k: nat)
    requires k <= |r.sq|
    ensures Submitted(r, k).net == r.net && |Submitted(r, k).sq| == |r.sq| - k && Submitted(r, k).cq == r.cq
  {
  }

  lemma LookKeepsMachine(n: nat, x: State, l: Label)
    requires Enabled(n, x, l) && l.Look? && MachineInv(n, x)
    ensures MachineInv(n, After(n, x, l)) && Moves(x, After(n, x, l))
  {
    hide MachineInv, Moves, Safe, Inv, Law, Sized, JobOk, Taken, TakenWorld, Shifted, Refs, AcceptCount;
    MachineParts(n, x);
    var x' := After(n, x, l);
    if x.r.cq == [] {
      NetStays(x, x');
      MachineFolds(n, x');
    } else {
      var j := x.r.cq[0];
      var s1 := x.s.(bytes := x.s.bytes + BytesOf(j));
      TakeCallKeeps(x.r, x.w, x.s);
      TakenNet(x.r, x.w);
      OtherCounters(Taken(x.r), TakenWorld(x.r, x.w), s1, x'.s.requests, x'.s.readCalls, x'.s.writeCalls);
      match j.op
      case SignalOp => FinishLook(n, x, x');
      case AcceptOp => FinishLook(n, x, x');
      case RecvOp(c) =>
        RecvLooked(n, x, x', c, j.res);
        FinishLook(n, x, x');
      case SendOp(c) => SendLooked(n, x, x', c, j.res);
    }
  }

  lemma FinishLook(n: nat, x: State, x': State)
    requires Safe(x'.r, x'.w, x'.s) && Sized(x'.w.mem, n) && PcInv(x') && !x'.flushed
    requires x'.r.net == x.r.net && x'.w.held == x.w.held
    ensures MachineInv(n, x') && Moves(x, x')
  {
    hide *;
    NetStays(x, x');
    MachineFolds(n, x');
  }

  lemma TakenNet(r: Ring, w: World)
    requires r.cq != [] && r.cq[0].Cqe?
    ensures Taken(r).net == r.net && TakenWorld(r, w).held == w.held
  {
  }

  /** A recv result is either bytes to send back, the end of the stream, an empty buffer or an error. */
  lemma RecvLooked(n: nat, x: State, x': State, c: UringModel.Conn, res: int)
    requires InHand(x'.w, c) && JobOk(x'.r, x'.w, Cqe(RecvOp(c), res))
    requires x'.pc == if res > 0 then Sending(c, res) else Closing(c, if res == 0 then Ended else Failed)
    ensures PcInv(x')
  {
  }

  /** A send result is a short write, a complete one or an error. */
  lemma SendLooked(n: nat, x: State, x': State, c: UringModel.Conn, res: int)
    requires LookEnabled(x) && x.r.cq != [] && x.r.cq[0] == Cqe(SendOp(c), res) && x' == AfterLook(x)
    requires Sized(x.w.mem, n) && Known(x, c) && !x.flushed
    requires Safe(Taken(x.r), TakenWorld(x.r, x.w), x.s) && JobOk(Taken(x.r), TakenWorld(x.r, x.w), x.r.cq[0])
    requires InHand(TakenWorld(x.r, x.w), c) && TakenWorld(x.r, x.w) == x.w.(hand := {c})
    ensures MachineInv(n, x') && Moves(x, x')
  {
    hide MachineInv, Moves, Safe, JobOk, Shifted, Taken, TakenWorld, Inv, Law, Sized;
    TakenNet(x.r, x.w);
    var r1, w1 := Taken(x.r), TakenWorld(x.r, x.w);
    SendSays(r1, w1, c, res);
    if 0 < res < x.w.mem[c].pending {
      ShiftKeeps(r1, w1, x.s, c, res);
      ShiftIsSized(x.w.mem, c, res, n);
      FinishLook(n, x, x');
    } else {
      FinishLook(n, x, x');
    }
  }

  lemma SendSays(r: Ring, w: World, c: UringModel.Conn, res: int)
    requires c in w.mem && JobOk(r, w, Cqe(SendOp(c), res))
    ensures w.mem[c].pending <= |w.mem[c].data|
    ensures res >= 0 ==> 1 <= res <= w.mem[c].pending
    ensures res == w.mem[c].pending ==> JobOk(r, w, Sqe(RecvOp(c), w.mem[c].fd, |w.mem[c].data|))
    ensures w.mem[c].fd in r.net.fds && IdOf(r, w, c) in r.net.conns
    ensures res < 0 ==> r.net.conns[IdOf(r, w, c)].broken
  {
  }

  lemma ShiftIsSized(mem: Memory, c: UringModel.Conn, res: nat, n: nat)
    requires Sized(mem, n) && c in mem && res <= mem[c].pending <= |mem[c].data|
    ensures Sized(mem[c := Shifted(mem[c], res)], n)
  {
  }

  // ---- submissions

  lemma QueueKeepsMachine(n: nat, x: State, l: Label)
    requires Enabled(n, x, l) && l.Queue? && MachineInv(n, x)
    ensures MachineInv(n, After(n, x, l)) && Moves(x, After(n, x, l))
  {
    hide MachineInv, Moves, Safe, Inv, Law, Sized, JobOk, Enqueued, UringSteps.Counted;
    MachineParts(n, x);
    var x' := After(n, x, l);
    match x.pc
    case Accepting(res, starting) =>
      QueueAcceptCallKeeps(x.r, x.w, x.s, LISTENER);
      EnqueuedNet(x.r, Sqe(AcceptOp, LISTENER, 0), x.w.(due := false));
      FinishLook(n, x, x');
    case Polling =>
      QueueSignalCallKeeps(x.r, x.w, x.s, SIGNALS);
      EnqueuedNet(x.r, Sqe(SignalOp, SIGNALS, 0), x.w);
      FinishLook(n, x, x');
    case Receiving(c) =>
      var j := Sqe(RecvOp(c), x.w.mem[c].fd, |x.w.mem[c].data|);
      QueueCallKeeps(x.r, x.w, x.s, c, j);
      EnqueuedNet(x.r, j, x.w.(hand := {}));
      OtherCounters(x'.r, x'.w, x.s, x.s.requests, x'.s.readCalls, x.s.writeCalls);
      FinishLook(n, x, x');
    case Sending(c, length) =>
      PendingKeeps(x.r, x.w, x.s, c, length);
      PendingIsSized(x.w.mem, c, length, n);
      var w1 := x.w.(mem := x.w.mem[c := x.w.mem[c].(pending := length)]);
      var j := Sqe(SendOp(c), x.w.mem[c].fd, length);
      QueueCallKeeps(x.r, w1, x.s, c, j);
      EnqueuedNet(x.r, j, w1.(hand := {}));
      OtherCounters(x'.r, x'.w, x.s, x.s.requests, x.s.readCalls, x'.s.writeCalls);
      FinishLook(n, x, x');
  }

  lemma EnqueuedNet(r: Ring, j: Job, w: World)
    ensures Enqueued(r, j).net == r.net && |Enqueued(r, j).sq| == |r.sq| + 1 && Enqueued(r, j).cq == r.cq
    ensures UringSteps.Counted(w).held == w.held && UringSteps.Counted(w).mem == w.mem
    ensures UringSteps.Counted(w).accepting == w.accepting && UringSteps.Counted(w).tally.refused == w.tally.refused
  {
  }

  lemma PendingIsSized(mem: Memory, c: UringModel.Conn, length: nat, n: nat)
    requires Sized(mem, n) && c in mem
    ensures Sized(mem[c := mem[c].(pending := length)], n)
  {
  }

  lemma NoEntryKeepsMachine(n: nat, x: State, l: Label)
    requires Enabled(n, x, l) && l.NoEntry? && MachineInv(n, x)
    ensures MachineInv(n, After(n, x, l)) && Moves(x, After(n, x, l))
  {
    hide MachineInv, Moves, Safe, Inv, Law, Sized, JobOk, TableInv, Tables, Enabled, After, Known, BrokenIn;
    MachineParts(n, x);
    NoEntryIs(n, x, l);
    var x' := AfterNoEntry(x);
    match x.pc
    case Accepting(res, starting) =>
      LoseAcceptCallKeeps(x.r, x.w, x.s);
      FinishLook(n, x, x');
    case Polling => FinishLook(n, x, x');
    case Receiving(c) =>
      GivenUp(x, x', c);
      FinishLook(n, x, x');
    case Sending(c, _) =>
      GivenUp(x, x', c);
      FinishLook(n, x, x');
  }

  lemma NoEntryIs(n: nat, x: State, l: Label)
    requires Enabled(n, x, l) && l.NoEntry?
    ensures NeedsEntry(x.pc) && x.flushed && IsFull(x.r) && After(n, x, l) == AfterNoEntry(x)
  {
  }

  lemma GivenUp(x: State, x': State, c: UringModel.Conn)
    requires Safe(x.r, x.w, x.s) && InHand(x.w, c)
    requires x'.r == x.r && x'.w == x.w && x'.pc == Closing(c, NoRoom)
    ensures PcInv(x')
  {
    hide *;
    SafeParts(x.r, x.w, x.s);
    InvParts(x.r, x.w);
    HandOf(x.w, c);
    HandIsKnown(x, c);
    GivenUpFolds(x, x', c);
  }

  lemma HandOf(w: World, c: UringModel.Conn)
    requires InHand(w, c)
    ensures c in w.hand && c in w.mem
  {
  }

  lemma GivenUpFolds(x: State, x': State, c: UringModel.Conn)
    requires Known(x, c) && InHand(x.w, c) && x'.r == x.r && x'.w == x.w && x'.pc == Closing(c, NoRoom)
    ensures PcInv(x')
  {
  }

  lemma AdoptKeepsMachine(n: nat, x: State, l: Label)
    requires Enabled(n, x, l) && l.Adopt? && MachineInv(n, x)
    ensures MachineInv(n, After(n, x, l)) && Moves(x, After(n, x, l))
  {
    hide MachineInv, Moves, Safe, Inv, Law, JobOk, Adopted;
    MachineParts(n, x);
    AdoptCallKeeps(x.r, x.w, x.s, x.pc.fd, l.conn, l.data);
    FinishLook(n, x, After(n, x, l));
  }

  lemma CloseKeepsMachine(n: nat, x: State, l: Label)
    requires Enabled(n, x, l) && l.Close? && MachineInv(n, x)
    ensures MachineInv(n, After(n, x, l)) && Moves(x, After(n, x, l))
  {
    hide MachineInv, Moves, Safe, Inv, Law, JobOk, ClosedRing, Freed, EmptyHanded, BrokenIn, Refines;
    MachineParts(n, x);
    var c := x.pc.conn;
    CloseCallKeeps(x.r, x.w, x.s, c);
    SafeParts(x.r, x.w, x.s);
    UringModel.CloseKeeps(x.r, x.w, c);
    var x' := After(n, x, l);
    MovesFolds(x, x');
    MachineFolds(n, x');
  }

  /** Every step of the server, the kernel or the outside world keeps the invariant, and moves every connection by
      at most one step of a server. */
  lemma StepKeepsMachine(n: nat, x: State, l: Label, x': State)
    requires MachineInv(n, x) && Step(n, x, l, x')
    ensures MachineInv(n, x') && Moves(x, x')
  {
    hide MachineInv, Moves, CompleteEnabled, LookEnabled, NeedsEntry, IsFull, Known, Tick, AfterComplete, AfterWait,
         AfterLook, AfterFlush, AfterQueue, AfterNoEntry, AfterAdopt, AfterClose;
    match l
    case Outside(r) => OutsideKeepsMachine(n, x, r);
    case Complete(_, _, _, _) => CompleteKeepsMachine(n, x, l);
    case Wait(_, _) => WaitKeepsMachine(n, x, l);
    case Look => LookKeepsMachine(n, x, l);
    case Flush(_) => FlushKeepsMachine(n, x, l);
    case Queue => QueueKeepsMachine(n, x, l);
    case NoEntry => NoEntryKeepsMachine(n, x, l);
    case Adopt(_, _) => AdoptKeepsMachine(n, x, l);
    case Close => CloseKeepsMachine(n, x, l);
  }

  // ---------------------------------------------------------------- runs

  type Trace = Walk<State, Label>

  ghost function Steps(n: nat): (State, Label, State) -> bool {
    (x, l, x') => Step(n, x, l, x')
  }

  ghost predicate IsRun(n: nat, t: Trace) {
    Follows(t, Initial, Steps(n))
  }

  function Now(t: Trace): State {
    if t.states == [] then Initial else End(t)
  }

  const Begun: Trace := Single(Initial)

  ghost function Then(n: nat, t: Trace, l: Label): Trace
    requires Enabled(n, Now(t), l)
  {
    Extended(t, l, After(n, Now(t), l))
  }

  lemma BegunIsRun(n: nat)
    ensures IsRun(n, Begun) && Now(Begun) == Initial
  {
  }

  lemma ThenIsRun(n: nat, t: Trace, l: Label)
    requires IsRun(n, t) && Enabled(n, Now(t), l)
    ensures IsRun(n, Then(n, t, l)) && Now(Then(n, t, l)) == After(n, Now(t), l)
    ensures Longer(t, Then(n, t, l))
  {
    hide Enabled, After, Longer;
    ExtendedFollows(t, Initial, Steps(n), l, After(n, Now(t), l));
  }

  lemma BeforeIsRun(n: nat, t: Trace)
    requires IsRun(n, t) && t.labels != []
    ensures IsRun(n, Before(t))
    ensures Step(n, Now(Before(t)), t.labels[|t.labels| - 1], Now(t))
    ensures Now(Before(t)) == t.states[|t.labels| - 1]
  {
    hide Step;
    BeforeFollows(t, Initial, Steps(n));
  }

  lemma InitialKeeps(n: nat)
    ensures MachineInv(n, Initial)
  {
    hide *;
    BootNet();
    BootOwned();
    BootTables();
    BootJobs();
    BootLaw();
    BootShape(n);
    InvFromParts(Boot, NoWorld);
    SafeFolds(Boot, NoWorld, Zero);
    MachineFolds(n, Initial);
  }

  lemma BootNet()
    ensures NetInv(Boot.net, NoWorld.held)
  {
  }

  lemma BootOwned()
    ensures Owned(Boot, NoWorld)
  {
    assert Refs([]) == multiset{};
    assert NoWorld.mem.Keys == {};
  }

  lemma BootTables()
    ensures Tables(Boot, NoWorld)
  {
  }

  lemma BootJobs()
    ensures Jobs(Boot, NoWorld)
  {
    hide JobOk;
  }

  lemma BootShape(n: nat)
    ensures Initial.r == Boot && Initial.w == NoWorld && Initial.s == Zero
    ensures Sized(Initial.w.mem, n) && PcInv(Initial) && FlushInv(Initial)
  {
  }

  lemma BootLaw()
    ensures Law(Boot, NoWorld, Zero)
  {
    hide TotalGiven, UringProgress.Waiting, Law;
    NothingGiven(Boot);
    NothingWaiting();
    LawFolds(Boot, NoWorld);
  }

  lemma LawFolds(r: Ring, w: World)
    requires w.table == map[] && w.tally == Tally(0, 0, 0, 0, 0) && w.accepting && r.sq == []
    requires UringProgress.Waiting(r.cq) == 0 == TotalGiven(r.net.conns)
    ensures Law(r, w, Zero)
  {
    hide TotalGiven, UringProgress.Waiting;
  }

  lemma NothingGiven(r: Ring)
    requires r.net.conns == map[]
    ensures TotalGiven(r.net.conns) == 0
  {
  }

  lemma NothingWaiting()
    ensures UringProgress.Waiting([]) == 0
  {
  }

  lemma {:induction false} RunKeepsMachine(n: nat, t: Trace)
    requires IsRun(n, t)
    ensures MachineInv(n, Now(t))
    decreases |t.labels|
  {
    hide MachineInv, Step, Moves;
    if t.labels == [] {
      InitialKeeps(n);
    } else {
      BeforeIsRun(n, t);
      RunKeepsMachine(n, Before(t));
      StepKeepsMachine(n, Now(Before(t)), t.labels[|t.labels| - 1], Now(t));
    }
  }

  /** What the sockets and the holdings were at each moment of the run. */
  ghost function Moments(states: seq<State>): (h: seq<Moment>)
    ensures |h| == |states|
    ensures forall i | 0 <= i < |states| :: h[i] == Moment(states[i].r.net, states[i].w.held)
  {
    seq(|states|, i requires 0 <= i < |states| => Moment(states[i].r.net, states[i].w.held))
  }

  lemma {:induction false} RunBehaves(n: nat, t: Trace)
    requires IsRun(n, t)
    ensures Behaves(Moments(t.states))
    decreases |t.labels|
  {
    hide MachineInv, Step, Refines;
    if t.labels != [] {
      BeforeIsRun(n, t);
      RunBehaves(n, Before(t));
      RunKeepsMachine(n, Before(t));
      StepKeepsMachine(n, Now(Before(t)), t.labels[|t.labels| - 1], Now(t));
      assert Moments(Before(t).states) == Moments(t.states)[..|t.labels|];
    }
  }

  /** Every run, seen from any one connection, is a run of that connection with a server, and it is a run of the
      echo service of RFC 862 if and only if the server has not dropped the connection. */
  lemma RunsEcho(n: nat, t: Trace, id: Id)
    requires IsRun(n, t) && id in Now(t).r.net.conns
    ensures var run := Projection(Moments(t.states), id);
            && ServerRun(run) && run[|run| - 1] == (Now(t).r.net.conns[id], Held(Now(t).w.held, id))
            && (EchoRun(run) <==> !Now(t).r.net.conns[id].dropped)
  {
    hide *;
    RunShape(n, t);
    RunBehaves(n, t);
    ProjectionIsServerRun(Moments(t.states), id);
    ProjectionIsEchoRun(Moments(t.states), id);
  }

  lemma RunShape(n: nat, t: Trace)
    requires IsRun(n, t)
    ensures |t.states| == |t.labels| + 1 > 0 && Now(t) == t.states[|t.states| - 1]
  {
  }
}
