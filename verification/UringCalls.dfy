/**
 One step of server_uring.cpp, or of the kernel beside it, as a continuation
 of a run.  These are the facts the methods of `UringServer` rest on.
 */
module UringCalls {
  import opened EchoSpec
  import opened Net
  import opened Runs
  import opened Counters
  import opened UringModel
  import opened UringProgress
  import opened UringSteps
  import opened UringMachine

  /** The server's fields and the ring are where the run `t` has led. */
  ghost predicate Drives(n: nat, t: Trace, r: Ring, s: Stats, running: bool) {
    && IsRun(n, t)
    && Now(t).r == r && Now(t).s == s && Now(t).running == running
  }

  /** `t'` continues `t` by `k` waits and looks. */
  ghost predicate Continues(t: Trace, t': Trace, k: int) {
    Longer(t, t') && Now(t').calls == Now(t).calls + k
  }

  ghost function Mem(t: Trace): Memory {
    Now(t).w.mem
  }

  ghost function Table(t: Trace): map<Fd, UringModel.Conn> {
    Now(t).w.table
  }

  function Refusals(t: Trace): nat {
    Now(t).w.tally.refused
  }

  /** The server is where it was; peers and kernel may have moved. */
  ghost predicate Awaits(t: Trace, t': Trace) {
    && Continues(t, t', 0)
    && Now(t').pc == Now(t).pc && Now(t').flushed == Now(t).flushed
    && Mem(t').Keys == Mem(t).Keys && Table(t') == Table(t) && Refusals(t') == Refusals(t)
    && Now(t').r.sq == Now(t).r.sq && Now(t).r.cq <= Now(t').r.cq
  }

  /** The server has gone on to `pc`, with or without flushing. */
  ghost predicate At(t: Trace, pc: Pc) {
    Now(t).pc == pc && !Now(t).flushed
  }

  lemma ContinuesItself(t: Trace)
    ensures Continues(t, t, 0)
  {
  }

  lemma ContinuesOn(t: Trace, t1: Trace, t2: Trace, k: int, m: int)
    requires Continues(t, t1, k) && Continues(t1, t2, m)
    ensures Continues(t, t2, k + m)
  {
  }

  lemma AwaitsItself(t: Trace)
    ensures Awaits(t, t)
  {
  }

  lemma AwaitsOn(t: Trace, t1: Trace, t2: Trace)
    requires Awaits(t, t1) && Awaits(t1, t2)
    ensures Awaits(t, t2)
  {
  }

  lemma AwaitsFacts(t: Trace, t': Trace)
    requires Awaits(t, t')
    ensures Continues(t, t', 0) && Now(t').pc == Now(t).pc && Now(t').flushed == Now(t).flushed
    ensures Mem(t').Keys == Mem(t).Keys && Table(t') == Table(t) && Refusals(t') == Refusals(t)
    ensures Now(t').r.sq == Now(t).r.sq && Now(t).r.cq <= Now(t').r.cq
  {
  }

  lemma DrivesFacts(n: nat, t: Trace, r: Ring, s: Stats, running: bool)
    requires Drives(n, t, r, s, running)
    ensures Now(t).r == r && Now(t).s == s && Now(t).running == running
  {
  }

  lemma AtFacts(t: Trace, pc: Pc)
    ensures At(t, pc) <==> Now(t).pc == pc && !Now(t).flushed
  {
  }

  lemma Begins(n: nat)
    ensures Drives(n, Begun, Boot, Zero, true) && At(Begun, Accepting(-1, true))
    ensures Mem(Begun) == map[] && Table(Begun) == map[]
  {
  }

  lemma RunInvariant(n: nat, t: Trace, r: Ring, s: Stats, running: bool)
    requires Drives(n, t, r, s, running)
    ensures MachineInv(n, Now(t)) && Inv(r, Now(t).w) && |r.sq| <= QUEUE_DEPTH && Now(t).r == r
  {
    hide IsRun, Owned, Tables, NetInv, JobOk, PcInv, Law, Sized;
    RunKeepsMachine(n, t);
  }

  /** What the invariant says about the connection in hand. */
  lemma HandInvariant(n: nat, t: Trace, r: Ring, s: Stats, running: bool, c: UringModel.Conn)
    requires Drives(n, t, r, s, running)
    requires Now(t).pc == Receiving(c) || (exists k: nat :: Now(t).pc == Sending(c, k))
             || (exists why :: Now(t).pc == Closing(c, why))
    ensures Known(Now(t), c) && c in Mem(t) && Mem(t)[c].fd in r.net.fds && |Mem(t)[c].data| == n
    ensures Mem(t)[c].fd in Table(t) && Table(t)[Mem(t)[c].fd] == c
  {
    hide IsRun, Owned, Jobs, NetInv, JobOk, Law;
    RunKeepsMachine(n, t);
    InvParts(r, Now(t).w);
    HandIsKnown(Now(t), c);
  }

  lemma Extends(n: nat, t: Trace, r: Ring, s: Stats, running: bool, l: Label) returns (t': Trace)
    requires Drives(n, t, r, s, running) && Enabled(n, Now(t), l)
    ensures Now(t') == After(n, Now(t), l) && Drives(n, t', Now(t').r, Now(t').s, Now(t').running)
    ensures Continues(t, t', After(n, Now(t), l).calls - Now(t).calls)
  {
    hide IsRun, Enabled, After;
    t' := Then(n, t, l);
    ThenIsRun(n, t, l);
  }

  // ---------------------------------------------------------------- peers and kernel

  lemma OutsideHappens(n: nat, t: Trace, r: Ring, s: Stats, running: bool, r': Ring) returns (t': Trace)
    requires Drives(n, t, r, s, running) && Tick(r, r')
    ensures Drives(n, t', r', s, running) && Awaits(t, t') && Mem(t') == Mem(t)
  {
    hide IsRun, Drives, Tick, Continues;
    DrivesFacts(n, t, r, s, running);
    TickShape(r, r');
    t' := Extends(n, t, r, s, running, Outside(r'));
  }

  lemma CompleteHappens(n: nat, t: Trace, r: Ring, s: Stats, running: bool,
                        i: nat, net': Sockets, a: Answer, data: seq<Byte>)
    returns (t': Trace)
    requires Drives(n, t, r, s, running) && i < |r.ker| && CompleteEnabled(Now(t), i, net', a, data)
    ensures Drives(n, t', Completed(r, i, net', Result(a)), s, running) && Awaits(t, t')
    ensures match r.ker[i].op
            case RecvOp(c) =>
              c in Mem(t) && |data| <= |Mem(t)[c].data| && Mem(t') == Mem(t)[c := Filled(Mem(t)[c], data)]
            case _ => Mem(t') == Mem(t)
  {
    hide IsRun, Drives, Continues, Recvs, Sends, AcceptsNow, SignalsNow;
    DrivesFacts(n, t, r, s, running);
    t' := Extends(n, t, r, s, running, Complete(i, net', a, data));
    CompletionShape(r, i, net', Result(a));
  }

  // ---------------------------------------------------------------- submissions

  lemma FlushHappens(n: nat, t: Trace, r: Ring, s: Stats, running: bool, k: nat) returns (t': Trace)
    requires Drives(n, t, r, s, running) && NeedsEntry(Now(t).pc) && !Now(t).flushed
    requires |r.sq| == QUEUE_DEPTH && k <= |r.sq|
    ensures Drives(n, t', Submitted(r, k), s.(syscalls := s.syscalls + 1), running) && Continues(t, t', 0)
    ensures Now(t').pc == Now(t).pc && Now(t').flushed && Mem(t') == Mem(t) && Table(t') == Table(t)
    ensures Refusals(t') == Refusals(t) + (if k == 0 then 1 else 0) && |Submitted(r, k).sq| == |r.sq| - k
  {
    hide IsRun, Drives, Continues;
    DrivesFacts(n, t, r, s, running);
    t' := Extends(n, t, r, s, running, Flush(k));
  }

  /** The entry that the server fills in. */
  function Entry(x: State): Job
    requires NeedsEntry(x.pc) && (x.pc.Receiving? || x.pc.Sending? ==> x.pc.conn in x.w.mem)
  {
    match x.pc
    case Accepting(_, _) => Sqe(AcceptOp, LISTENER, 0)
    case Polling => Sqe(SignalOp, SIGNALS, 0)
    case Receiving(c) => Sqe(RecvOp(c), x.w.mem[c].fd, |x.w.mem[c].data|)
    case Sending(c, length) => Sqe(SendOp(c), x.w.mem[c].fd, length)
  }

  /** What the server goes on to once the entry is filled in. */
  function Onward(pc: Pc): Pc
    requires NeedsEntry(pc)
  {
    match pc
    case Accepting(res, starting) => AcceptDone(res, starting)
    case Polling => Pc.Waiting
    case _ => Looking
  }

  lemma QueueHappens(n: nat, t: Trace, r: Ring, s: Stats, running: bool, recvs: nat, sends: nat) returns (t': Trace)
    requires Drives(n, t, r, s, running) && NeedsEntry(Now(t).pc) && |r.sq| < QUEUE_DEPTH
    requires Now(t).pc.Receiving? || Now(t).pc.Sending? ==> Known(Now(t), Now(t).pc.conn)
    requires recvs == (if Now(t).pc.Receiving? then 1 else 0) && sends == (if Now(t).pc.Sending? then 1 else 0)
    ensures var s' := s.(readCalls := s.readCalls + recvs, writeCalls := s.writeCalls + sends);
            Drives(n, t', Enqueued(r, Entry(Now(t))), s', running)
    ensures Continues(t, t', 0) && At(t', Onward(Now(t).pc)) && Table(t') == Table(t) && Refusals(t') == Refusals(t)
    ensures if Now(t).pc.Sending? then
              var c := Now(t).pc.conn; Mem(t') == Mem(t)[c := Mem(t)[c].(pending := Now(t).pc.length)]
            else Mem(t') == Mem(t)
  {
    hide IsRun, Drives, Continues;
    DrivesFacts(n, t, r, s, running);
    t' := Extends(n, t, r, s, running, Queue);
  }

  lemma NoEntryHappens(n: nat, t: Trace, r: Ring, s: Stats, running: bool) returns (t': Trace)
    requires Drives(n, t, r, s, running) && NeedsEntry(Now(t).pc) && |r.sq| == QUEUE_DEPTH && Now(t).flushed
    ensures Drives(n, t', r, s, running) && Continues(t, t', 0)
    ensures Mem(t') == Mem(t) && Table(t') == Table(t) && Refusals(t') == Refusals(t)
    ensures match Now(t).pc
            case Accepting(res, starting) => At(t', AcceptDone(res, starting)) && !Now(t').w.accepting
            case Polling => At(t', Pc.Waiting)
            case Receiving(c) => At(t', Closing(c, NoRoom))
            case Sending(c, _) => At(t', Closing(c, NoRoom))
  {
    hide IsRun, Drives, Continues;
    DrivesFacts(n, t, r, s, running);
    t' := Extends(n, t, r, s, running, NoEntry);
  }

  // ---------------------------------------------------------------- connections

  lemma CloseHappens(n: nat, t: Trace, r: Ring, s: Stats, running: bool, c: UringModel.Conn, why: Why)
    returns (t': Trace)
    requires Drives(n, t, r, s, running) && At(t, Closing(c, why)) && Known(Now(t), c)
    ensures var fd := Mem(t)[c].fd;
            && Drives(n, t', ClosedRing(r, fd), s.(closed := s.closed + 1, syscalls := s.syscalls + 1), running)
            && Mem(t') == Mem(t) - {c} && Table(t') == Table(t) - {fd}
    ensures Continues(t, t', 0) && At(t', Looking) && Refusals(t') == Refusals(t)
  {
    hide IsRun, Drives, Continues, ClosedRing;
    DrivesFacts(n, t, r, s, running);
    t' := Extends(n, t, r, s, running, Close);
  }

  lemma AdoptHappens(n: nat, t: Trace, r: Ring, s: Stats, running: bool, fd: Fd, c: UringModel.Conn, data: seq<Byte>)
    returns (t': Trace)
    requires Drives(n, t, r, s, running) && At(t, Adopting(fd)) && c !in Mem(t) && |data| == n
    ensures Drives(n, t', r, s.(accepted := s.accepted + 1), running)
    ensures Continues(t, t', 0) && At(t', Receiving(c)) && Refusals(t') == Refusals(t)
    ensures Mem(t') == Mem(t)[c := Slot(fd, data, 0)] && Table(t') == Table(t)[fd := c] && fd !in Table(t)
  {
    hide IsRun, Drives, Continues;
    DrivesFacts(n, t, r, s, running);
    LooseIsUnknown(n, t, r, s, running, fd);
    t' := Extends(n, t, r, s, running, Adopt(c, data));
  }

  /** A descriptor just accepted is not in the table: no live entry is overwritten. */
  lemma LooseIsUnknown(n: nat, t: Trace, r: Ring, s: Stats, running: bool, fd: Fd)
    requires Drives(n, t, r, s, running) && Now(t).pc == Adopting(fd)
    ensures fd !in Table(t)
  {
    hide IsRun, Owned, Jobs, NetInv, Law, Sized, JobOk;
    RunKeepsMachine(n, t);
  }

  // ---------------------------------------------------------------- waiting and looking

  lemma WaitHappens(n: nat, t: Trace, r: Ring, s: Stats, running: bool, k: nat, rc: Answer) returns (t': Trace)
    requires Drives(n, t, r, s, running) && At(t, Pc.Waiting) && k <= |r.sq|
    ensures Drives(n, t', Submitted(r, k), s.(waitCalls := s.waitCalls + 1, syscalls := s.syscalls + 1), running)
    ensures Continues(t, t', 1) && Mem(t') == Mem(t) && Table(t') == Table(t)
    ensures At(t', if rc.Err? && rc.errno != EINTR then Stopped else Looking)
  {
    hide IsRun, Drives, Continues;
    DrivesFacts(n, t, r, s, running);
    t' := Extends(n, t, r, s, running, Wait(k, rc));
  }

  /** What a look at the completion queue leads to, with the counters that it moves. */
  lemma LookHappens(n: nat, t: Trace, r: Ring, s: Stats, running: bool) returns (t': Trace)
    requires Drives(n, t, r, s, running) && At(t, Looking)
    ensures Continues(t, t', 1) && Table(t') == Table(t)
    ensures r.cq == [] ==>
              Drives(n, t', r, s, running) && At(t', if running then Pc.Waiting else Stopped) && Mem(t') == Mem(t)
    ensures r.cq != [] ==> r.cq[0].Cqe? && Looked(n, t, r, s, running, t', r.cq[0])
  {
    hide *;
    t' := LookMade(n, t, r, s, running);
    DrivesFacts(n, t, r, s, running);
    if r.cq == [] {
      NothingFound(n, t, r, s, running, t');
    } else {
      LookedFolds(n, t, r, s, running, t');
    }
  }

  /** The step itself, whatever it finds. */
  lemma LookMade(n: nat, t: Trace, r: Ring, s: Stats, running: bool) returns (t': Trace)
    requires Drives(n, t, r, s, running) && At(t, Looking)
    ensures Continues(t, t', 1) && Table(t') == Table(t)
    ensures LookEnabled(Now(t)) && Now(t') == AfterLook(Now(t))
    ensures Drives(n, t', Now(t').r, Now(t').s, Now(t').running)
    ensures r.cq != [] ==> r.cq[0].Cqe?
  {
    hide *;
    DrivesFacts(n, t, r, s, running);
    AtFacts(t, Looking);
    RunInvariant(n, t, r, s, running);
    LookIsPossible(n, Now(t));
    LookIs(n, Now(t));
    t' := Extends(n, t, r, s, running, Look);
    SameTable(t, t');
  }

  lemma SameTable(t: Trace, t': Trace)
    requires Now(t').w.table == Now(t).w.table
    ensures Table(t') == Table(t)
  {
  }

  lemma NothingFound(n: nat, t: Trace, r: Ring, s: Stats, running: bool, t': Trace)
    requires LookEnabled(Now(t)) && Now(t') == AfterLook(Now(t))
    requires Drives(n, t, r, s, running) && At(t, Looking) && r.cq == []
    requires Drives(n, t', Now(t').r, Now(t').s, Now(t').running)
    ensures Drives(n, t', r, s, running) && At(t', if running then Pc.Waiting else Stopped) && Mem(t') == Mem(t)
  {
    hide IsRun, LookEnabled;
    hide Taken, TakenWorld, Shifted;
  }

  /** The completion `j` has been taken. */
  ghost predicate Looked(n: nat, t: Trace, r: Ring, s: Stats, running: bool, t': Trace, j: Job) {
    j.Cqe? && r.cq != [] &&
    match j.op
    case SignalOp => Drives(n, t', Taken(r), s, false) && At(t', Looking) && Mem(t') == Mem(t)
    case AcceptOp => Drives(n, t', Taken(r), s, running) && At(t', Accepting(j.res, false)) && Mem(t') == Mem(t)
    case RecvOp(c) =>
      && Mem(t') == Mem(t)
      && (if j.res > 0 then
            && Drives(n, t', Taken(r), s.(requests := s.requests + 1, bytes := s.bytes + j.res), running)
            && At(t', Sending(c, j.res))
          else
            && Drives(n, t', Taken(r), s, running)
            && At(t', Closing(c, if j.res == 0 then Ended else Failed)))
    case SendOp(c) =>
      && c in Mem(t) && Drives(n, t', Taken(r), s, running)
      && Mem(t)[c].pending <= |Mem(t)[c].data|
      && (if 0 < j.res < Mem(t)[c].pending then
            && At(t', Sending(c, Mem(t)[c].pending - j.res))
            && Mem(t') == Mem(t)[c := Shifted(Mem(t)[c], j.res)]
          else
            && Mem(t') == Mem(t)
            && At(t', if j.res >= 0 then Receiving(c) else Closing(c, Failed)))
  }

  lemma LookIsPossible(n: nat, x: State)
    requires MachineInv(n, x) && x.pc.Looking?
    ensures LookEnabled(x)
    ensures x.r.cq != [] ==> x.r.cq[0].Cqe?
  {
    hide Owned, NetInv, Law, Sized, PcInv, Tables;
    if x.r.cq != [] {
      assert x.r.cq[0] in x.r.cq;
      assert JobOk(x.r, x.w, x.r.cq[0]);
    }
  }

  lemma LookIs(n: nat, x: State)
    requires LookEnabled(x)
    ensures Enabled(n, x, Look) && After(n, x, Look) == AfterLook(x) && AfterLook(x).calls == x.calls + 1
    ensures AfterLook(x).w.table == x.w.table
  {
  }

  lemma LookedFolds(n: nat, t: Trace, r: Ring, s: Stats, running: bool, t': Trace)
    requires LookEnabled(Now(t)) && Now(t').r == AfterLook(Now(t)).r && Now(t') == AfterLook(Now(t))
    requires Drives(n, t, r, s, running) && At(t, Looking) && r.cq != [] && r.cq[0].Cqe?
    requires Drives(n, t', Now(t').r, Now(t').s, Now(t').running)
    ensures Looked(n, t, r, s, running, t', r.cq[0])
  {
    hide IsRun, Shifted;
    TakenFacts(r, Now(t).w);
    hide Taken, TakenWorld;
  }

  lemma TakenFacts(r: Ring, w: World)
    requires r.cq != [] && r.cq[0].Cqe?
    ensures TakenWorld(r, w).mem == w.mem
  {
  }
}
