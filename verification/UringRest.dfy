/**
 How long the io_uring server takes to come to rest when the outside world does:
 every step of the server and every completion that the kernel grants uses up
 some of a finite budget of work, so there are only so many of them, and a wait
 that would block is reached.
 */
module UringRest {
  import opened EchoSpec
  import opened Net
  import opened Runs
  import opened Workload
  import opened UringModel
  import opened UringProgress
  import opened UringSteps
  import opened UringMachine
  import opened UringRuns

  // ---------------------------------------------------------------- the work left

  /** How far an entry in the kernel is from its next resting place there. */
  function InKernel(j: Job): nat {
    match j.op
    case AcceptOp => 1
    case SignalOp => 4
    case RecvOp(_) => 5
    case SendOp(_) => 5
  }

  function InQueue(j: Job): nat {
    InKernel(j) + 2
  }

  /** A completion is worth the steps it leads to: an accept to two new entries, bytes to one. */
  function InCompletions(j: Job): nat {
    match j.op
    case AcceptOp => 18
    case SignalOp => 3
    case RecvOp(_) => if j.Cqe? && j.res > 0 then 12 else 4
    case SendOp(_) => if j.Cqe? && j.res >= 0 then 12 else 4
  }

  ghost function Sum(jobs: seq<Job>, f: Job -> nat): nat {
    if jobs == [] then 0 else f(jobs[0]) + Sum(jobs[1..], f)
  }

  lemma {:induction false} SumConcat(a: seq<Job>, b: seq<Job>, f: Job -> nat)
    ensures Sum(a + b, f) == Sum(a, f) + Sum(b, f)
  {
    if a == [] {
      assert a + b == b;
    } else {
      SumConcat(a[1..], b, f);
      assert (a + b)[0] == a[0] && (a + b)[1..] == a[1..] + b;
    }
  }

  lemma SumAppend(jobs: seq<Job>, j: Job, f: Job -> nat)
    ensures Sum(jobs + [j], f) == Sum(jobs, f) + f(j)
  {
    assert [j][1..] == [];
    SumConcat(jobs, [j], f);
  }

  lemma SumWithout(jobs: seq<Job>, i: nat, f: Job -> nat)
    requires i < |jobs|
    ensures Sum(jobs, f) == Sum(Without(jobs, i), f) + f(jobs[i])
  {
    assert jobs == jobs[..i] + ([jobs[i]] + jobs[i+1..]);
    SumConcat(jobs[..i], [jobs[i]] + jobs[i+1..], f);
    SumConcat(jobs[..i], jobs[i+1..], f);
  }

  lemma {:induction false} QueueIsTwoMore(jobs: seq<Job>)
    ensures Sum(jobs, InQueue) == Sum(jobs, InKernel) + 2 * |jobs|
  {
    if jobs != [] {
      QueueIsTwoMore(jobs[1..]);
    }
  }

  ghost function Outstanding(r: Ring): nat {
    Sum(r.sq, InQueue) + Sum(r.ker, InKernel) + Sum(r.cq, InCompletions)
  }

  /** How far the server is from its next wait. */
  function Rank(pc: Pc, flushed: bool, found: bool): nat {
    match pc
    case Stopped => 0
    case Waiting => 1
    case Looking => if found then 0 else 2
    case Closing(_, _) => 3
    case Polling => 9 + Unflushed(flushed)
    case Receiving(_) => 10 + Unflushed(flushed)
    case Sending(_, _) => 10 + Unflushed(flushed)
    case Adopting(_) => 12
    case Accepting(_, _) => 16 + Unflushed(flushed)
  }

  function Unflushed(flushed: bool): nat {
    if flushed then 0 else 1
  }

  /** Every step that is granted makes this less. */
  ghost function Measure(x: State): nat {
    20 * Load(x.r.net) + 8 * Owing(x.r.net) + Outstanding(x.r) + Rank(x.pc, x.flushed, x.r.cq != [])
  }

  // ---------------------------------------------------------------- what the kernel uses up

  /** A completion takes an entry of the kernel's to the end of the completion queue. */
  lemma CompletionCosts(r: Ring, i: nat, net': Sockets, res: int)
    requires i < |r.ker|
    ensures Outstanding(Completed(r, i, net', res)) ==
            Outstanding(r) - InKernel(r.ker[i]) + InCompletions(Cqe(r.ker[i].op, res))
  {
    SumWithout(r.ker, i, InKernel);
    SumAppend(r.cq, Cqe(r.ker[i].op, res), InCompletions);
    hide Sum;
  }

  /** The loads before and after a completion with result `res` make up for its worth. */
  ghost predicate Pays(net: Sockets, net': Sockets, j: Job, res: int) {
    20 * Load(net') + 8 * Owing(net') + InCompletions(Cqe(j.op, res)) < 20 * Load(net) + 8 * Owing(net) + InKernel(j)
  }

  lemma CompletionAdvances(x: State, x': State, i: nat, net': Sockets, res: int)
    requires i < |x.r.ker| && x'.r == Completed(x.r, i, net', res) && x'.pc == x.pc && x'.flushed == x.flushed
    requires Pays(x.r.net, net', x.r.ker[i], res)
    ensures Measure(x') < Measure(x)
  {
    CompletionCosts(x.r, i, net', res);
    hide Load, Owing, Outstanding;
  }

  lemma RecvPays(r: Ring, i: nat, net': Sockets, a: Answer, data: seq<Byte>)
    requires TableInv(r.net) && i < |r.ker| && Recvs(r, i, net', a, data)
    requires |r.net.conns[r.net.fds[r.ker[i].fd]].out| <= |r.net.conns[r.net.fds[r.ker[i].fd]].given|
    ensures Pays(r.net, net', r.ker[i], Result(a))
  {
    ReadUses(r.net, net', r.ker[i].fd, r.ker[i].len, a, data);
    hide Load, Owing, Reads, TableInv;
  }

  lemma SendPays(r: Ring, i: nat, net': Sockets, a: Answer, bytes: seq<Byte>)
    requires TableInv(r.net) && i < |r.ker| && Sends(r, i, net', a, bytes)
    requires var id := r.net.fds[r.ker[i].fd]; id in net'.conns && |net'.conns[id].out| <= |r.net.conns[id].given|
    ensures Pays(r.net, net', r.ker[i], Result(a))
  {
    WriteUses(r.net, net', r.ker[i].fd, bytes, a);
    hide Load, Owing, Writes, TableInv;
  }

  lemma AcceptPays(r: Ring, i: nat, net': Sockets, a: Answer)
    requires TableInv(r.net) && i < |r.ker| && AcceptsNow(r, i, net', a) && a.Ok?
    ensures Pays(r.net, net', r.ker[i], Result(a))
  {
    AcceptUses(r.net, net', a);
    hide Load, Owing, Accepts, TableInv;
  }

  lemma SignalPays(r: Ring, i: nat)
    requires i < |r.ker| && r.ker[i].op.SignalOp?
    ensures Pays(r.net, r.net, r.ker[i], Result(Ok(1)))
  {
  }

  lemma OutIsGiven(net: Sockets, held: Holdings, id: Id)
    requires SoundInv(net, held) && id in net.conns
    ensures |net.conns[id].out| <= |net.conns[id].given|
  {
  }

  lemma CompleteAdvances(n: nat, x: State, l: Label)
    requires MachineInv(n, x) && Enabled(n, x, l) && l.Complete? && Granted(x, l)
    ensures Measure(After(n, x, l)) < Measure(x)
  {
    hide *;
    CompleteFacts(n, x, l);
    CompletePays(n, x, l);
    CompletionAdvances(x, After(n, x, l), l.i, l.net, Result(l.a));
  }

  lemma CompleteFacts(n: nat, x: State, l: Label)
    requires Enabled(n, x, l) && l.Complete?
    ensures var x' := After(n, x, l);
            && l.i < |x.r.ker| && x'.r == Completed(x.r, l.i, l.net, Result(l.a))
            && x'.pc == x.pc && x'.flushed == x.flushed
  {
    hide Recvs, Sends, AcceptsNow, SignalsNow, Completed, Result;
  }

  lemma CompletePays(n: nat, x: State, l: Label)
    requires MachineInv(n, x) && Enabled(n, x, l) && l.Complete? && Granted(x, l) && l.i < |x.r.ker|
    ensures Pays(x.r.net, l.net, x.r.ker[l.i], Result(l.a))
  {
    hide *;
    MachineNet(n, x);
    CompleteKinds(n, x, l);
    var i, net', a, data := l.i, l.net, l.a, l.data;
    match x.r.ker[i].op
    case RecvOp(c) =>
      HasConn(x.r.net, x.r.ker[i].fd);
      OutIsGiven(x.r.net, x.w.held, x.r.net.fds[x.r.ker[i].fd]);
      RecvPays(x.r, i, net', a, data);
    case SendOp(c) =>
      SendLeavesSound(n, x, l);
      SendPays(x.r, i, net', a, SendBytes(x.r, x.w, i));
    case AcceptOp => AcceptPays(x.r, i, net', a);
    case SignalOp => SignalPays(x.r, i);
  }

  lemma MachineNet(n: nat, x: State)
    requires MachineInv(n, x)
    ensures TableInv(x.r.net) && SoundInv(x.r.net, x.w.held)
  {
    hide TableInv, SoundInv, Owned, Tables, Jobs, Law, Sized, PcInv, FlushInv;
  }

  /** What completes, by kind. */
  lemma CompleteKinds(n: nat, x: State, l: Label)
    requires Enabled(n, x, l) && l.Complete? && Granted(x, l) && l.i < |x.r.ker|
    ensures var j := x.r.ker[l.i];
            match j.op
            case RecvOp(c) => j.Sqe? && j.fd in x.r.net.fds && Recvs(x.r, l.i, l.net, l.a, l.data)
            case SendOp(c) =>
              && j.Sqe? && j.fd in x.r.net.fds && c in x.w.mem && j.len <= |x.w.mem[c].data|
              && Sends(x.r, l.i, l.net, l.a, SendBytes(x.r, x.w, l.i))
            case AcceptOp => AcceptsNow(x.r, l.i, l.net, l.a) && l.a.Ok?
            case SignalOp => l.net == x.r.net && l.a == Ok(1)
  {
    hide Recvs, Sends, AcceptsNow, SignalsNow, SendBytes;
  }

  lemma SendLeavesSound(n: nat, x: State, l: Label)
    requires MachineInv(n, x) && Enabled(n, x, l) && l.Complete? && l.i < |x.r.ker| && x.r.ker[l.i].op.SendOp?
    ensures x.r.ker[l.i].Sqe? && x.r.ker[l.i].fd in x.r.net.fds
    ensures var id := x.r.net.fds[x.r.ker[l.i].fd];
            id in x.r.net.conns && id in l.net.conns && |l.net.conns[id].out| <= |x.r.net.conns[id].given|
  {
    hide *;
    SendIs(n, x, l);
    CompleteKeepsMachine(n, x, l);
    CompleteFacts(n, x, l);
    CompletionShape(x.r, l.i, l.net, Result(l.a));
    MachineNet(n, After(n, x, l));
    OutIsGiven(l.net, After(n, x, l).w.held, x.r.net.fds[x.r.ker[l.i].fd]);
  }

  lemma SendIs(n: nat, x: State, l: Label)
    requires Enabled(n, x, l) && l.Complete? && l.i < |x.r.ker| && x.r.ker[l.i].op.SendOp?
    ensures x.r.ker[l.i].Sqe? && x.r.ker[l.i].fd in x.r.net.fds
    ensures var id := x.r.net.fds[x.r.ker[l.i].fd];
            && id in x.r.net.conns && id in l.net.conns && l.net.conns[id].given == x.r.net.conns[id].given
  {
    var j := x.r.ker[l.i];
    WriteShape(x.r.net, l.net, j.fd, SendBytes(x.r, x.w, l.i), l.a);
  }

  // ---------------------------------------------------------------- what the server uses up

  lemma SubmitCosts(r: Ring, k: nat)
    requires k <= |r.sq|
    ensures Outstanding(Submitted(r, k)) == Outstanding(r) - 2 * k
  {
    assert r.sq == r.sq[..k] + r.sq[k..];
    SumConcat(r.sq[..k], r.sq[k..], InQueue);
    SumConcat(r.ker, r.sq[..k], InKernel);
    QueueIsTwoMore(r.sq[..k]);
    hide Sum, InQueue, InKernel;
  }

  lemma EnqueueCosts(r: Ring, j: Job)
    ensures Outstanding(Enqueued(r, j)) == Outstanding(r) + InQueue(j)
  {
    SumAppend(r.sq, j, InQueue);
  }

  lemma WaitAdvances(x: State, k: nat, rc: Answer)
    requires x.pc.Waiting? && k <= |x.r.sq| && Granted(x, Wait(k, rc))
    ensures Measure(AfterWait(x, k, rc)) < Measure(x)
  {
    hide Load, Owing, Outstanding;
    SubmitCosts(x.r, k);
  }

  lemma FlushAdvances(x: State, k: nat)
    requires NeedsEntry(x.pc) && 0 < k <= |x.r.sq|
    ensures Measure(AfterFlush(x, k)) < Measure(x)
  {
    hide Load, Owing, Outstanding;
    SubmitCosts(x.r, k);
  }

  lemma LookAdvances(x: State)
    requires LookEnabled(x)
    ensures Measure(AfterLook(x)) < Measure(x)
  {
    hide Load, Owing, Outstanding, TakenWorld, Shifted;
    if x.r.cq != [] {
      TakenCosts(x.r);
    }
  }

  lemma TakenCosts(r: Ring)
    requires r.cq != []
    ensures Outstanding(Taken(r)) == Outstanding(r) - InCompletions(r.cq[0])
  {
    hide InQueue, InKernel, InCompletions;
  }

  lemma QueueAdvances(x: State)
    requires NeedsEntry(x.pc) && (x.pc.Receiving? || x.pc.Sending? ==> Known(x, x.pc.conn))
    ensures Measure(AfterQueue(x)) < Measure(x)
  {
    hide Load, Owing, Outstanding, UringSteps.Counted;
    match x.pc
    case Accepting(res, starting) => EnqueueCosts(x.r, Sqe(AcceptOp, LISTENER, 0));
    case Polling => EnqueueCosts(x.r, Sqe(SignalOp, SIGNALS, 0));
    case Receiving(c) => EnqueueCosts(x.r, Sqe(RecvOp(c), x.w.mem[c].fd, |x.w.mem[c].data|));
    case Sending(c, length) => EnqueueCosts(x.r, Sqe(SendOp(c), x.w.mem[c].fd, length));
  }

  lemma NoEntryAdvances(x: State)
    requires NeedsEntry(x.pc)
    ensures Measure(AfterNoEntry(x)) < Measure(x)
  {
    hide Load, Owing, Outstanding;
  }

  lemma AdoptAdvances(x: State, c: UringModel.Conn, data: seq<Byte>)
    requires x.pc.Adopting?
    ensures Measure(AfterAdopt(x, c, data)) < Measure(x)
  {
    hide Load, Owing, Outstanding, Adopted;
  }

  lemma CloseAdvances(x: State)
    requires TableInv(x.r.net) && x.pc.Closing? && Known(x, x.pc.conn)
    ensures Measure(AfterClose(x)) < Measure(x)
  {
    CloseUses(x.r.net, x.w.mem[x.pc.conn].fd);
    hide Load, Owing, Sum, Freed, Net.Close, TableInv;
  }

  /** Every step that is granted, of the server or of the kernel, uses up some of the work. */
  lemma GrantedStepsAdvance(n: nat, x: State, l: Label, x': State)
    requires MachineInv(n, x) && Step(n, x, l, x') && Granted(x, l)
    ensures Measure(x') < Measure(x)
  {
    hide MachineInv, Measure, AfterWait, AfterFlush, AfterLook, AfterQueue, AfterNoEntry, AfterAdopt, AfterClose,
         AfterComplete, CompleteEnabled, LookEnabled, Tick, Known;
    MachineNet(n, x);
    match l
    case Complete(i, net', a, data) => CompleteAdvances(n, x, l);
    case Wait(k, rc) => WaitAdvances(x, k, rc);
    case Look => LookAdvances(x);
    case Flush(k) => FlushAdvances(x, k);
    case Queue => QueueAdvances(x);
    case NoEntry => NoEntryAdvances(x);
    case Adopt(c, data) => AdoptAdvances(x, c, data);
    case Close => CloseAdvances(x);
  }

  // ---------------------------------------------------------------- coming to rest

  /** While the outside world is quiet and no entry is refused, server and kernel together make no more steps than
      the measure was. */
  lemma {:induction false} RestIsReached(n: nat, t: Trace, k: nat)
    requires IsRun(n, t) && k <= |t.labels| && Since(t, k, Granted)
    ensures Measure(t.states[k]) >= |t.labels| - k + Measure(Now(t))
    decreases |t.labels|
  {
    hide MachineInv, Step, Granted, Measure;
    if k < |t.labels| {
      BeforeIsRun(n, t);
      SinceBefore(t, k, Granted);
      RestIsReached(n, Before(t), k);
      RunKeepsMachine(n, Before(t));
      GrantedStepsAdvance(n, Now(Before(t)), t.labels[|t.labels| - 1], Now(t));
    }
  }

  // ---------------------------------------------------------------- steps in which nothing fails

  /** The loop goes round, and no signal tells it to end. */
  ghost predicate Serving(x: State) {
    x.running && x.r.signals == 0 && !x.pc.Stopped? && forall j | j in x.r.cq :: !j.op.SignalOp?
  }

  /** Nobody has connected, sent, hung up or failed, no flush has been refused, and the loop has ended at most because
      of a signal. */
  ghost predicate Undisturbed(x: State, x': State) {
    && Calm(x.r.net, x'.r.net) && x'.w.tally.refused == x.w.tally.refused
    && (x'.running ==> x.running)
    && (Serving(x) ==> Serving(x'))
    && (x'.pc.Stopped? ==> x.pc.Stopped? || !x'.running)
  }

  lemma NothingDisturbs(x: State)
    ensures Undisturbed(x, x)
  {
  }

  lemma UndisturbedOn(x: State, x1: State, x2: State)
    requires Undisturbed(x, x1) && Undisturbed(x1, x2)
    ensures Undisturbed(x, x2)
  {
    hide Calm, Serving;
    CalmOn(x.r.net, x1.r.net, x2.r.net);
  }

  lemma KindStepsDisturbNobody(n: nat, x: State, l: Label, x': State)
    requires Step(n, x, l, x') && Kind(x, l)
    ensures Undisturbed(x, x')
  {
    hide *;
    match l
    case Outside(_) => OutsideIsNotKind(x, l);
    case Complete(i, net', a, data) => CompleteDisturbsNobody(n, x, l, x');
    case Close => CloseDisturbsNobody(n, x, x');
    case Look => LookDisturbsNobody(n, x, x');
    case Queue => QueueDisturbsNobody(n, x, x');
    case _ => OwnStepDisturbsNobody(n, x, l, x');
  }

  lemma OutsideIsNotKind(x: State, l: Label)
    ensures l.Outside? ==> !Kind(x, l)
  {
  }

  lemma CompleteDisturbsNobody(n: nat, x: State, l: Label, x': State)
    requires Step(n, x, l, x') && l.Complete? && Kind(x, l)
    ensures Undisturbed(x, x')
  {
    hide Calm, Recvs, Sends, AcceptsNow, SignalsNow, Filled, SendBytes, Result;
    CompletionIsCalm(x, l.i, l.net, l.a, l.data);
    assert x'.r.cq == x.r.cq + [x'.r.cq[|x.r.cq|]];
  }

  lemma CompletionIsCalm(x: State, i: nat, net': Sockets, a: Answer, data: seq<Byte>)
    requires CompleteEnabled(x, i, net', a, data)
    requires a.Ok? || (a == Err(EOTHER) && ReceivesFromBroken(x.r, x.r.ker[i]))
    ensures Calm(x.r.net, net') && (x.r.ker[i].op.SignalOp? ==> x.r.signals > 0)
  {
    hide Calm, Reads, Writes, Accepts, SendBytes;
    match x.r.ker[i].op
    case RecvOp(_) => ReadIsCalm(x.r.net, net', x.r.ker[i].fd, x.r.ker[i].len, a, data);
    case SendOp(_) => WriteIsCalm(x.r.net, net', x.r.ker[i].fd, SendBytes(x.r, x.w, i), a);
    case AcceptOp => AcceptIsCalm(x.r.net, net', a);
    case SignalOp => NothingIsCalm(net');
  }

  lemma NothingIsCalm(net: Sockets)
    ensures Calm(net, net)
  {
  }

  lemma CloseDisturbsNobody(n: nat, x: State, x': State)
    requires Step(n, x, Label.Close, x')
    ensures Undisturbed(x, x')
  {
    hide Calm, Freed, Net.Close;
    CloseIsCalm(x.r.net, x.w.mem[x.pc.conn].fd);
    FreedTally(x.r, x.w, x.pc.conn);
  }

  lemma FreedTally(r: Ring, w: World, c: UringModel.Conn)
    requires c in w.mem && w.mem[c].fd in r.net.fds
    ensures Freed(r, w, c).tally == w.tally
  {
  }

  lemma OwnStepDisturbsNobody(n: nat, x: State, l: Label, x': State)
    requires Step(n, x, l, x') && Kind(x, l) && (l.Wait? || l.Flush? || l.NoEntry? || l.Adopt?)
    ensures Undisturbed(x, x')
  {
    hide Calm, CompleteEnabled, AfterComplete, AfterClose, AfterLook, AfterQueue;
    NothingIsCalm(x.r.net);
  }

  lemma LookDisturbsNobody(n: nat, x: State, x': State)
    requires Step(n, x, Look, x')
    ensures Undisturbed(x, x')
  {
    hide Calm, Shifted;
    NothingIsCalm(x.r.net);
    if x.r.cq != [] {
      assert x.r.cq[0] in x.r.cq;
      assert forall j | j in x.r.cq[1..] :: j in x.r.cq;
    }
  }

  lemma QueueDisturbsNobody(n: nat, x: State, x': State)
    requires Step(n, x, Queue, x')
    ensures Undisturbed(x, x')
  {
    hide Calm;
    NothingIsCalm(x.r.net);
  }

  /** A schedule in which nothing fails leaves all streams as the peers have left them. */
  lemma {:induction false} KindRunsDisturbNobody(n: nat, t: Trace, k: nat)
    requires IsRun(n, t) && k <= |t.labels| && Since(t, k, Kind)
    ensures Undisturbed(t.states[k], Now(t))
    decreases |t.labels|
  {
    hide Step, Kind, Undisturbed;
    if k < |t.labels| {
      BeforeIsRun(n, t);
      SinceBefore(t, k, Kind);
      KindRunsDisturbNobody(n, Before(t), k);
      KindStepsDisturbNobody(n, Now(Before(t)), t.labels[|t.labels| - 1], Now(t));
      UndisturbedOn(t.states[k], Now(Before(t)), Now(t));
    } else {
      NothingDisturbs(Now(t));
    }
  }

  /** It is no longer than the measure was. */
  lemma KindRunsEnd(n: nat, t: Trace, k: nat)
    requires IsRun(n, t) && k <= |t.labels| && Since(t, k, Kind)
    ensures |t.labels| - k <= Measure(t.states[k])
  {
    hide *;
    TraceShape(n, t);
    forall x, l | Kind(x, l) ensures Granted(x, l) {
      KindIsGranted(x, l);
    }
    SinceWeaker(t, k, Granted, Kind);
    RestIsReached(n, t, k);
  }

  lemma TraceShape(n: nat, t: Trace)
    requires IsRun(n, t)
    ensures |t.states| == |t.labels| + 1 && Now(t) == t.states[|t.labels|]
  {
  }

  /** And a settled state is reached, without a failure, from every state of every run, with all streams as the peers
      have left them, and it is the wait that the server comes to rest in unless a signal tells it to end.  `spare`
      are objects for the connections that are still to be adopted: one more than the measure always suffice. */
  lemma {:induction false} ComesToRest(n: nat, t: Trace, spare: seq<UringModel.Conn>) returns (t': Trace)
    requires IsRun(n, t) && Distinct(spare) && |spare| > Measure(Now(t))
    requires forall c | c in spare :: c !in Now(t).w.mem
    ensures IsRun(n, t') && Longer(t, t') && Settled(Now(t')) && Since(t', |t.labels|, Kind)
    ensures Undisturbed(Now(t), Now(t'))
    ensures Serving(Now(t)) ==> Now(t').pc.Waiting? && Quiet(Now(t').r, Now(t').w)
    decreases Measure(Now(t))
  {
    hide MachineInv, Step, Kind, Granted, Measure, Quiet, Enabled, After, Undisturbed, Serving;
    t' := t;
    if !Settled(Now(t)) {
      RunKeepsMachine(n, t);
      var l := UnsettledCanMove(n, Now(t), spare[0]);
      var t1 := Then(n, t, l);
      ThenIsRun(n, t, l);
      StepIs(n, Now(t), l);
      KindIsGranted(Now(t), l);
      GrantedStepsAdvance(n, Now(t), l, Now(t1));
      OnlyAdoptsAdd(n, Now(t), l, spare[0]);
      RestIsSpare(spare, Now(t).w.mem, Now(t1).w.mem);
      t' := ComesToRest(n, t1, spare[1..]);
      SinceOn(t, t1, t', l, Kind);
      KindStepsDisturbNobody(n, Now(t), l, Now(t1));
      UndisturbedOn(Now(t), Now(t1), Now(t'));
    } else {
      NothingDisturbs(Now(t));
    }
    ServesOn(Now(t), Now(t'));
  }

  lemma RefusesNone(x: State, x': State)
    requires Undisturbed(x, x')
    ensures x'.w.tally.refused == x.w.tally.refused && Calm(x.r.net, x'.r.net)
  {
  }

  lemma ServesOn(x: State, x': State)
    requires Undisturbed(x, x')
    ensures Serving(x) ==> !x'.pc.Stopped?
  {
  }

  lemma OnlyAdoptsAdd(n: nat, x: State, l: Label, c: UringModel.Conn)
    requires Enabled(n, x, l) && (l.Adopt? ==> l.conn == c)
    ensures After(n, x, l).w.mem.Keys <= x.w.mem.Keys + {c}
  {
    hide *;
    match l
    case Complete(i, net', a, data) => CompletionAddsNone(n, x, l);
    case Look => LookAddsNone(n, x);
    case Queue => QueueAddsNone(n, x);
    case _ => OtherStepsAdd(n, x, l, c);
  }

  lemma CompletionAddsNone(n: nat, x: State, l: Label)
    requires Enabled(n, x, l) && l.Complete?
    ensures After(n, x, l).w.mem.Keys <= x.w.mem.Keys
  {
    hide Recvs, Sends, AcceptsNow, SignalsNow, Completed, Filled, SendBytes;
  }

  lemma LookAddsNone(n: nat, x: State)
    requires Enabled(n, x, Look)
    ensures After(n, x, Look).w.mem.Keys <= x.w.mem.Keys
  {
    hide Shifted, Taken;
  }

  lemma QueueAddsNone(n: nat, x: State)
    requires Enabled(n, x, Queue)
    ensures After(n, x, Queue).w.mem.Keys <= x.w.mem.Keys
  {
    hide Enqueued, AcceptDone, UringSteps.Counted;
    CountedMem(x.w.(due := false));
    CountedMem(x.w);
    if x.pc.Receiving? {
      CountedMem(x.w.(hand := {}));
    } else if x.pc.Sending? {
      var c := x.pc.conn;
      CountedMem(x.w.(mem := x.w.mem[c := x.w.mem[c].(pending := x.pc.length)], hand := {}));
    }
  }

  lemma CountedMem(w: World)
    ensures UringSteps.Counted(w).mem == w.mem
  {
  }

  lemma OtherStepsAdd(n: nat, x: State, l: Label, c: UringModel.Conn)
    requires Enabled(n, x, l) && !l.Complete? && !l.Look? && !l.Queue? && (l.Adopt? ==> l.conn == c)
    ensures After(n, x, l).w.mem.Keys <= x.w.mem.Keys + {c}
  {
    hide CompleteEnabled, LookEnabled, AfterComplete, AfterLook, AfterQueue, Tick, Flushed, Submitted, Enqueued,
         ClosedRing;
  }

  lemma RestIsSpare(spare: seq<UringModel.Conn>, mem: Memory, mem': Memory)
    requires Distinct(spare) && spare != [] && (forall c | c in spare :: c !in mem)
    requires mem'.Keys <= mem.Keys + {spare[0]}
    ensures Distinct(spare[1..]) && forall c | c in spare[1..] :: c !in mem'
  {
  }

  lemma StepIs(n: nat, x: State, l: Label)
    requires Enabled(n, x, l)
    ensures Step(n, x, l, After(n, x, l))
  {
  }
}
