/**
 How long the epoll server takes to come to rest when the outside world does:
 every step that the kernel grants uses up some of a finite budget of work, so
 there are only so many of them, and a state in which epoll_wait would block is
 reached.
 */
module EpollProgress {
  import opened EchoSpec
  import opened Net
  import opened Runs
  import opened Workload
  import opened EpollModel
  import opened EpollMachine
  import opened EpollRuns

  // ---------------------------------------------------------------- the work left

  ghost function Work(p: Poll): nat {
    Load(p.net) + p.signals
  }

  /** How many events of the batch still have something behind them. */
  ghost function Live(p: Poll, rest: seq<Event>): nat {
    if rest == [] then 0 else (if Ready(p, rest[0].fd) then 1 else 0) + Live(p, rest[1..])
  }

  /** How far the loop is from its next event. */
  function Rank(pc: Pc, owed: nat): nat {
    match pc
    case Stopped => 0
    case Waiting => 1
    case Accepting => 1
    case Draining => 1
    case Closing(_) => 1
    case Reading => 2
    case Refused(_) => 2
    case Adding(_) => 3
    case Writing => 30 + 2 * owed
  }

  function InHand(x: State): nat {
    if x.pc.Writing? && HasCurrent(x) then |Owed(x)| else 0
  }

  /** Every step that is granted makes this less: an event that was reported is worth more than its handling costs,
      and a byte, an accept, a close or a signal more than an event. */
  ghost function Measure(x: State): int {
    40 * Work(x.p) - 8 * Live(x.p, x.w.rest) + 4 * |x.w.rest| + Rank(x.pc, InHand(x))
  }

  ghost predicate OneEventEach(rest: seq<Event>) {
    forall i, j | 0 <= i < j < |rest| :: rest[i].fd != rest[j].fd
  }

  /** What was behind the events of other descriptors than `fd` is still there. */
  ghost predicate OthersLive(p: Poll, p': Poll, rest: seq<Event>, fd: Fd) {
    forall i | 0 <= i < |rest| && rest[i].fd != fd :: Ready(p, rest[i].fd) ==> Ready(p', rest[i].fd)
  }

  lemma {:induction false} LiveOthers(p: Poll, p': Poll, rest: seq<Event>, fd: Fd)
    requires OthersLive(p, p', rest, fd)
    requires forall i | 0 <= i < |rest| :: rest[i].fd != fd
    ensures Live(p', rest) >= Live(p, rest)
  {
    hide Ready;
    if rest != [] {
      LiveOthers(p, p', rest[1..], fd);
    }
  }

  /** At most the event of `fd` has lost what was behind it. */
  lemma {:induction false} LiveButOne(p: Poll, p': Poll, rest: seq<Event>, fd: Fd)
    requires OneEventEach(rest) && OthersLive(p, p', rest, fd)
    ensures Live(p', rest) >= Live(p, rest) - 1
    ensures Ready(p', fd) ==> Live(p', rest) >= Live(p, rest)
  {
    hide Ready;
    if rest != [] {
      if rest[0].fd == fd {
        LiveOthers(p, p', rest[1..], fd);
      } else {
        LiveButOne(p, p', rest[1..], fd);
      }
    }
  }

  lemma {:induction false} LiveIsBounded(p: Poll, rest: seq<Event>)
    ensures Live(p, rest) <= |rest|
  {
    if rest != [] {
      LiveIsBounded(p, rest[1..]);
    }
  }

  lemma {:induction false} AllLive(p: Poll, rest: seq<Event>)
    requires forall i | 0 <= i < |rest| :: Ready(p, rest[i].fd)
    ensures Live(p, rest) == |rest|
  {
    if rest != [] {
      AllLive(p, rest[1..]);
    }
  }

  lemma {:induction false} LiveAlike(p: Poll, p': Poll, rest: seq<Event>)
    requires p'.net == p.net && p'.signals == p.signals
    ensures Live(p', rest) == Live(p, rest)
  {
    if rest != [] {
      LiveAlike(p, p', rest[1..]);
    }
  }

  lemma BatchIsOneEach(cfg: Config, x: State)
    requires MachineInv(cfg, x)
    ensures OneEventEach(x.w.rest)
  {
    hide NetInv, RegInv, NoLostWakeup, HeldInv, Counted, PcInv;
  }

  lemma RankOfDispatch(rest: seq<Event>, running: bool, owed: nat)
    ensures Rank(Dispatch(rest, running), owed) <= 2
  {
  }

  /** The event at the head of the batch is left. */
  lemma LeavingCosts(x: State)
    requires x.w.rest != []
    ensures Measure(Left(x)) <= 40 * Work(x.p) - 8 * Live(x.p, x.w.rest) + 4 * |x.w.rest| - 2
                                + (if Ready(x.p, x.w.rest[0].fd) then 8 else 0)
  {
    hide Load, Ready, Dispatch;
    RankOfDispatch(x.w.rest[1..], x.running, InHand(Left(x)));
  }

  lemma {:induction false} AllStillLive(p: Poll, p': Poll, rest: seq<Event>)
    requires forall i | 0 <= i < |rest| :: Ready(p, rest[i].fd) ==> Ready(p', rest[i].fd)
    ensures Live(p', rest) >= Live(p, rest)
  {
    hide Ready;
    if rest != [] {
      AllStillLive(p, p', rest[1..]);
    }
  }

  // ---------------------------------------------------------------- what each step uses up

  /** Only the connection behind `fd` has changed. */
  lemma OneConnChanges(p: Poll, p': Poll, rest: seq<Event>, fd: Fd, c': Conn)
    requires TableInv(p.net) && OpenAt(p, fd) && p'.signals == p.signals
    requires p'.net == p.net.(conns := p.net.conns[p.net.fds[fd] := c'])
    ensures OthersLive(p, p', rest, fd)
    ensures (Pending(p.net.conns[p.net.fds[fd]]) ==> Pending(c')) ==>
              forall i | 0 <= i < |rest| :: Ready(p, rest[i].fd) ==> Ready(p', rest[i].fd)
  {
    hide Pending;
    forall i | 0 <= i < |rest| && rest[i].fd != fd ensures Ready(p, rest[i].fd) ==> Ready(p', rest[i].fd) {
      if rest[i].fd in p.net.fds {
        assert p.net.fds[rest[i].fd] != p.net.fds[fd];
      }
    }
  }

  lemma WaitAdvances(cfg: Config, x: State, a: Answer, events: seq<Event>, p: Poll)
    requires MachineInv(cfg, x) && Enabled(cfg, x, Wait(a, events, p)) && a != Err(EINTR)
    ensures Measure(AfterWait(x, a, events, p)) < Measure(x)
  {
    hide MachineInv, Load, Ready;
    var x' := AfterWait(x, a, events, p);
    WaitingHasNoBatch(cfg, x);
    if a.Ok? {
      AllLive(x.p, events);
      LiveAlike(x.p, p, events);
      RankOfDispatch(events, x.running, InHand(x'));
    }
  }

  lemma WaitingHasNoBatch(cfg: Config, x: State)
    requires MachineInv(cfg, x) && x.pc.Waiting?
    ensures x.w.rest == []
  {
    hide ServerInv;
  }

  lemma AcceptAdvances(cfg: Config, x: State, a: Answer, p: Poll)
    requires MachineInv(cfg, x) && Enabled(cfg, x, AcceptCall(a, p)) && (a.Ok? || a == Err(EAGAIN))
    ensures Measure(AfterAccept(x, a, p)) < Measure(x)
  {
    hide MachineInv, Load, Ready, Work;
    BatchIsOneEach(cfg, x);
    AcceptingIs(cfg, x);
    if a.Ok? {
      AcceptUsesWork(x.p, p, x.w.rest, a);
      LiveButOne(x.p, p, x.w.rest, LISTENER);
    } else {
      NobodyWaits(x.p, p, a);
      LeavingCosts(x.(p := p, calls := x.calls + 1));
    }
  }

  lemma AcceptingIs(cfg: Config, x: State)
    requires MachineInv(cfg, x) && x.pc.Accepting?
    ensures x.w.rest != [] && x.w.rest[0].fd == LISTENER && TableInv(x.p.net)
  {
    hide RegInv, NoLostWakeup, BatchInv, HeldInv, Counted, SoundInv;
  }

  lemma AcceptUsesWork(p: Poll, p': Poll, rest: seq<Event>, a: Answer)
    requires TableInv(p.net) && PollAccepts(p, p', a) && a.Ok?
    ensures Work(p') < Work(p) && OthersLive(p, p', rest, LISTENER)
  {
    var id := p.net.backlog[0];
    assert id in p.net.backlog;
    AcceptUses(p.net, p'.net, a);
    hide Load, Pending;
    forall i | 0 <= i < |rest| && rest[i].fd != LISTENER ensures Ready(p, rest[i].fd) ==> Ready(p', rest[i].fd) {
      assert rest[i].fd in p.net.fds ==> p.net.fds[rest[i].fd] != id;
    }
  }

  lemma NobodyWaits(p: Poll, p': Poll, a: Answer)
    requires PollAccepts(p, p', a) && a == Err(EAGAIN)
    ensures p' == p && !Ready(p, LISTENER)
  {
  }

  lemma AddAdvances(cfg: Config, x: State, ok: bool)
    requires Enabled(cfg, x, Add(ok))
    ensures Measure(AfterAdd(cfg, x, ok)) < Measure(x)
  {
    hide Load, Ready;
    LiveAlike(x.p, AfterAdd(cfg, x, ok).p, x.w.rest);
  }

  lemma SignalReadAdvances(cfg: Config, x: State, got: bool)
    requires MachineInv(cfg, x) && Enabled(cfg, x, SignalRead(got)) && got == (x.p.signals > 0)
    ensures Measure(AfterSignalRead(x, got)) < Measure(x)
  {
    hide MachineInv, Load, Ready;
    BatchIsOneEach(cfg, x);
    DrainingIs(cfg, x);
    if got {
      SignalIsOneSource(x.p, x.w.rest);
      LiveButOne(x.p, x.p.(signals := x.p.signals - 1), x.w.rest, SIGNALS);
    } else {
      NoSignal(x.p);
      LeavingCosts(x.(calls := x.calls + 1));
    }
  }

  lemma DrainingIs(cfg: Config, x: State)
    requires MachineInv(cfg, x) && x.pc.Draining?
    ensures x.w.rest != [] && x.w.rest[0].fd == SIGNALS
  {
    hide ServerInv;
  }

  lemma SignalIsOneSource(p: Poll, rest: seq<Event>)
    requires p.signals > 0
    ensures OthersLive(p, p.(signals := p.signals - 1), rest, SIGNALS)
  {
  }

  lemma NoSignal(p: Poll)
    ensures p.signals == 0 ==> !Ready(p, SIGNALS)
  {
  }

  /** What a read takes away from the work left. */
  lemma ReadUsesWork(p: Poll, p': Poll, rest: seq<Event>, fd: Fd, cap: nat, a: Answer, data: seq<Byte>)
    requires TableInv(p.net) && OpenAt(p, fd) && PollReads(p, p', fd, cap, a, data)
    ensures Work(p') == Work(p) - |data| && OthersLive(p, p', rest, fd)
    ensures data == [] ==> forall i | 0 <= i < |rest| :: Ready(p, rest[i].fd) ==> Ready(p', rest[i].fd)
    ensures a.Ok? ==> a.n == |data|
    ensures !a.Ok? ==> data == []
    ensures OpenAt(p', fd) && p'.net.fds == p.net.fds && (a == Err(EAGAIN) ==> !Ready(p', fd))
  {
    var id := p.net.fds[fd];
    var c, c' := p.net.conns[id], p'.net.conns[id];
    ReadShape(p.net, p'.net, fd, cap, a, data);
    ReadUses(p.net, p'.net, fd, cap, a, data);
    hide Load;
    OneConnChanges(p, p', rest, fd, c');
  }

  lemma ReadAdvances(cfg: Config, x: State, a: Answer, data: seq<Byte>, p: Poll)
    requires MachineInv(cfg, x) && x.pc.Reading? && HasCurrent(x) && a != Err(EINTR)
    requires PollReads(x.p, p, x.w.rest[0].fd, cfg.bufferSize, a, data)
    ensures Measure(AfterRead(x, a, data, p)) < Measure(x)
  {
    hide *;
    CurrentIs(x);
    var fd := x.w.rest[0].fd;
    BatchIsOneEach(cfg, x);
    MachineTable(cfg, x);
    ReadUsesWork(x.p, p, x.w.rest, fd, cfg.bufferSize, a, data);
    if data != [] {
      LiveButOne(x.p, p, x.w.rest, fd);
    } else {
      AllStillLive(x.p, p, x.w.rest);
    }
    ReadMeasures(x, a, data, p);
  }

  lemma CurrentIs(x: State)
    requires HasCurrent(x)
    ensures x.w.rest != [] && OpenAt(x.p, x.w.rest[0].fd)
  {
  }

  lemma MachineTable(cfg: Config, x: State)
    requires MachineInv(cfg, x)
    ensures TableInv(x.p.net)
  {
    hide RegInv, NoLostWakeup, BatchInv, HeldInv, Counted, SoundInv, PcInv;
  }

  lemma ReadMeasures(x: State, a: Answer, data: seq<Byte>, p: Poll)
    requires x.pc.Reading? && HasCurrent(x) && a != Err(EINTR) && (a.Ok? ==> a.n == |data|) && (!a.Ok? ==> data == [])
    requires OpenAt(p, x.w.rest[0].fd) && p.net.fds == x.p.net.fds
    requires Work(p) == Work(x.p) - |data|
    requires Live(p, x.w.rest) >= Live(x.p, x.w.rest) - (if data != [] then 1 else 0)
    requires a == Err(EAGAIN) ==> !Ready(p, x.w.rest[0].fd)
    ensures Measure(AfterRead(x, a, data, p)) < Measure(x)
  {
    hide Load, Ready, Work, Live;
    if a == Err(EAGAIN) {
      LeavingCosts(x.(p := p, calls := x.calls + 1, s := x.s.(readCalls := x.s.readCalls + 1,
                      syscalls := x.s.syscalls + 1, eagain := x.s.eagain + 1)));
    }
  }

  lemma WriteUsesNoWork(p: Poll, p': Poll, rest: seq<Event>, fd: Fd, data: seq<Byte>, a: Answer)
    requires TableInv(p.net) && OpenAt(p, fd) && PollWrites(p, p', fd, data, a)
    ensures Work(p') == Work(p) && OpenAt(p', fd) && p'.net.fds == p.net.fds
    ensures forall i | 0 <= i < |rest| :: Ready(p, rest[i].fd) ==> Ready(p', rest[i].fd)
    ensures Written(a) <= |data| && (a.Ok? ==> a.n >= 1)
  {
    WriteShape(p.net, p'.net, fd, data, a);
    WriteUses(p.net, p'.net, fd, data, a);
    hide Load;
    OneConnChanges(p, p', rest, fd, p'.net.conns[p.net.fds[fd]]);
  }

  lemma WriteAdvances(cfg: Config, x: State, a: Answer, p: Poll)
    requires MachineInv(cfg, x) && x.pc.Writing? && HasCurrent(x) && (a.Ok? || a == Err(EOTHER))
    requires PollWrites(x.p, p, x.w.rest[0].fd, Owed(x), a) && Written(a) <= |Owed(x)|
    ensures Measure(AfterWrite(cfg, x, a, p)) < Measure(x)
  {
    hide MachineInv, Load, Ready, Work, PollWrites;
    var fd := x.w.rest[0].fd;
    MachineTable(cfg, x);
    WriteUsesNoWork(x.p, p, x.w.rest, fd, Owed(x), a);
    AllStillLive(x.p, p, x.w.rest);
    WriteMeasures(cfg, x, a, p);
  }

  lemma WriteMeasures(cfg: Config, x: State, a: Answer, p: Poll)
    requires x.pc.Writing? && HasCurrent(x) && Written(a) <= |Owed(x)| && (a.Ok? || a == Err(EOTHER))
    requires a.Ok? ==> a.n >= 1
    requires OpenAt(p, x.w.rest[0].fd) && p.net.fds == x.p.net.fds
    requires Work(p) == Work(x.p) && Live(p, x.w.rest) >= Live(x.p, x.w.rest)
    ensures Measure(AfterWrite(cfg, x, a, p)) < Measure(x)
  {
    hide Load, Ready, Work, Live, Dispatch;
    var x' := AfterWrite(cfg, x, a, p);
    var rest := Owed(x)[Written(a)..];
    if a.Ok? && rest == [] && !cfg.drain {
      LeavingCosts(x.(p := p, calls := x.calls + 1, w := x.w.(held := map[Current(x) := rest]),
                      s := x.s.(writeCalls := x.s.writeCalls + 1, syscalls := x.s.syscalls + 1)));
    }
  }

  /** A close takes a whole connection away. */
  lemma CloseUsesWork(p: Poll, rest: seq<Event>, fd: Fd)
    requires TableInv(p.net) && OpenAt(p, fd) && fd != LISTENER && fd != SIGNALS
    ensures Work(CloseFd(p, fd)) < Work(p) && OthersLive(p, CloseFd(p, fd), rest, fd)
    ensures !Ready(CloseFd(p, fd), fd)
  {
    var id := p.net.fds[fd];
    CloseUses(p.net, fd);
    hide Load, Pending, Finished;
    var p' := CloseFd(p, fd);
    forall i | 0 <= i < |rest| && rest[i].fd != fd ensures Ready(p, rest[i].fd) ==> Ready(p', rest[i].fd) {
      if rest[i].fd in p.net.fds {
        assert p.net.fds[rest[i].fd] != id;
      }
    }
  }

  lemma CloseAdvances(cfg: Config, x: State)
    requires MachineInv(cfg, x) && CanClose(x)
    ensures Measure(AfterClose(x)) < Measure(x)
  {
    hide MachineInv, Load, Ready, Work, CloseFd, Dispatch;
    BatchIsOneEach(cfg, x);
    MachineTable(cfg, x);
    var fd := Target(x);
    TargetIsNoSource(x.p.net, fd);
    CloseUsesWork(x.p, x.w.rest, fd);
    LiveButOne(x.p, CloseFd(x.p, fd), x.w.rest, fd);
    if x.pc.Closing? {
      LeavingCosts(x.(p := CloseFd(x.p, fd), s := x.s.(closed := x.s.closed + 1)));
    }
  }

  lemma TargetIsNoSource(net: Sockets, fd: Fd)
    requires TableInv(net) && fd in net.fds
    ensures fd != LISTENER && fd != SIGNALS
  {
  }

  /** Every step that the kernel grants uses up some of the work. */
  lemma GrantedStepsAdvance(cfg: Config, x: State, l: Label, x': State)
    requires MachineInv(cfg, x) && Step(cfg, x, l, x') && Granted(x, l)
    ensures Measure(x') < Measure(x)
  {
    hide MachineInv, Measure, AfterWait, AfterAccept, AfterAdd, AfterSignalRead, AfterRead, AfterWrite, AfterClose,
         Tick, Waits;
    match l
    case Wait(a, events, p) => WaitAdvances(cfg, x, a, events, p);
    case AcceptCall(a, p) => AcceptAdvances(cfg, x, a, p);
    case Add(ok) => AddAdvances(cfg, x, ok);
    case SignalRead(got) => SignalReadAdvances(cfg, x, got);
    case ReadCall(a, data, p) => ReadAdvances(cfg, x, a, data, p);
    case WriteCall(a, p) => WriteAdvances(cfg, x, a, p);
    case Close => CloseAdvances(cfg, x);
  }

  // ---------------------------------------------------------------- coming to rest

  lemma {:induction false} BatchFits(cfg: Config, t: Trace)
    requires IsRun(cfg, t)
    ensures |Now(t).w.rest| <= cfg.maxEvents
    decreases |t.labels|
  {
    hide Step;
    if t.labels != [] {
      BeforeIsRun(cfg, t);
      BatchFits(cfg, Before(t));
      StepFits(cfg, Now(Before(t)), t.labels[|t.labels| - 1], Now(t));
    }
  }

  lemma StepFits(cfg: Config, x: State, l: Label, x': State)
    requires Step(cfg, x, l, x') && |x.w.rest| <= cfg.maxEvents
    ensures |x'.w.rest| <= cfg.maxEvents
  {
    hide Tick, PollReads, PollWrites, PollAccepts, Ready, CloseFd;
  }

  /** The steps that can be granted before the outside world has to move again. */
  ghost function Budget(cfg: Config, x: State): int {
    Measure(x) + 4 * cfg.maxEvents
  }

  lemma BudgetIsNatural(cfg: Config, t: Trace)
    requires IsRun(cfg, t)
    ensures Budget(cfg, Now(t)) >= 0
  {
    hide IsRun, Live, Load;
    BatchFits(cfg, t);
    LiveIsBounded(Now(t).p, Now(t).w.rest);
  }

  /** While the outside world is quiet, no call is interrupted and no write would block, the server makes no more
      steps than its budget was. */
  lemma {:induction false} RestIsReached(cfg: Config, t: Trace, n: nat)
    requires Sane(cfg) && IsRun(cfg, t) && n <= |t.labels| && Since(t, n, Granted)
    ensures Budget(cfg, t.states[n]) >= |t.labels| - n + Budget(cfg, Now(t))
    ensures |t.labels| - n <= Budget(cfg, t.states[n])
    decreases |t.labels|
  {
    hide MachineInv, Step, Granted, Measure;
    BudgetIsNatural(cfg, t);
    if n < |t.labels| {
      BeforeIsRun(cfg, t);
      SinceBefore(t, n, Granted);
      RestIsReached(cfg, Before(t), n);
      RunKeepsMachine(cfg, Before(t));
      GrantedStepsAdvance(cfg, Now(Before(t)), t.labels[|t.labels| - 1], Now(t));
    }
  }

  // ---------------------------------------------------------------- steps in which nothing fails

  /** The loop goes round, and no signal tells it to end. */
  ghost predicate Serving(x: State) {
    x.running && x.p.signals == 0 && !x.pc.Stopped?
  }

  /** Nobody has connected, sent, hung up or failed, no registration has been refused, and the loop has ended at most
      because of a signal. */
  ghost predicate Undisturbed(x: State, x': State) {
    && Calm(x.p.net, x'.p.net) && x'.refusals == x.refusals
    && (x'.running ==> x.running)
    && (Serving(x) ==> Serving(x'))
    && (x'.pc.Stopped? ==> x.pc.Stopped? || !x'.running)
  }

  lemma UndisturbedOn(x: State, x1: State, x2: State)
    requires Undisturbed(x, x1) && Undisturbed(x1, x2)
    ensures Undisturbed(x, x2)
  {
    hide Calm;
    CalmOn(x.p.net, x1.p.net, x2.p.net);
  }

  lemma KindStepsDisturbNobody(cfg: Config, x: State, l: Label, x': State)
    requires Step(cfg, x, l, x') && Kind(x, l)
    ensures Undisturbed(x, x')
  {
    hide Calm, Tick, Waits, PollReads, PollWrites, PollAccepts, CloseFd;
    match l
    case Wait(a, events, p) => WaitIsCalm(x.p, p, cfg.maxEvents, a, events);
    case AcceptCall(a, p) => PollAcceptIsCalm(x.p, p, a);
    case Add(ok) => NothingIsCalm(x.p.net);
    case SignalRead(got) => NothingIsCalm(x.p.net);
    case ReadCall(a, data, p) => PollReadIsCalm(x.p, p, x.w.rest[0].fd, cfg.bufferSize, a, data);
    case WriteCall(a, p) => PollWriteIsCalm(x.p, p, x.w.rest[0].fd, Owed(x), a);
    case Close => CloseFdIsCalm(x.p, Target(x));
  }

  lemma NothingIsCalm(net: Sockets)
    ensures Calm(net, net)
  {
  }

  lemma WaitIsCalm(p: Poll, p': Poll, max: nat, a: Answer, events: seq<Event>)
    requires Waits(p, p', max, a, events)
    ensures Calm(p.net, p'.net) && p'.signals == p.signals
  {
  }

  lemma PollAcceptIsCalm(p: Poll, p': Poll, a: Answer)
    requires PollAccepts(p, p', a)
    ensures Calm(p.net, p'.net) && p'.signals == p.signals
  {
    AcceptIsCalm(p.net, p'.net, a);
  }

  lemma PollReadIsCalm(p: Poll, p': Poll, fd: Fd, cap: nat, a: Answer, data: seq<Byte>)
    requires OpenAt(p, fd) && PollReads(p, p', fd, cap, a, data)
    requires a == Err(EOTHER) ==> p.net.conns[p.net.fds[fd]].broken
    ensures Calm(p.net, p'.net) && p'.signals == p.signals
  {
    ReadIsCalm(p.net, p'.net, fd, cap, a, data);
  }

  lemma PollWriteIsCalm(p: Poll, p': Poll, fd: Fd, data: seq<Byte>, a: Answer)
    requires OpenAt(p, fd) && PollWrites(p, p', fd, data, a) && a != Err(EOTHER)
    ensures Calm(p.net, p'.net) && p'.signals == p.signals
  {
    WriteIsCalm(p.net, p'.net, fd, data, a);
  }

  lemma CloseFdIsCalm(p: Poll, fd: Fd)
    requires OpenAt(p, fd)
    ensures Calm(p.net, CloseFd(p, fd).net) && CloseFd(p, fd).signals == p.signals
  {
    CloseIsCalm(p.net, fd);
  }

  /** A schedule in which nothing fails leaves all streams as the peers have left them. */
  lemma {:induction false} KindRunsDisturbNobody(cfg: Config, t: Trace, n: nat)
    requires IsRun(cfg, t) && n <= |t.labels| && Since(t, n, Kind)
    ensures Undisturbed(t.states[n], Now(t))
    decreases |t.labels|
  {
    hide Step, Kind, Calm, Undisturbed;
    if n < |t.labels| {
      BeforeIsRun(cfg, t);
      SinceBefore(t, n, Kind);
      KindRunsDisturbNobody(cfg, Before(t), n);
      KindStepsDisturbNobody(cfg, Now(Before(t)), t.labels[|t.labels| - 1], Now(t));
      UndisturbedOn(t.states[n], Now(Before(t)), Now(t));
    } else {
      NothingDisturbs(Now(t));
    }
  }

  lemma NothingDisturbs(x: State)
    ensures Undisturbed(x, x)
  {
  }

  /** It is no longer than the budget was. */
  lemma KindRunsEnd(cfg: Config, t: Trace, n: nat)
    requires Sane(cfg) && IsRun(cfg, t) && n <= |t.labels| && Since(t, n, Kind)
    ensures |t.labels| - n <= Budget(cfg, t.states[n])
  {
    hide *;
    TraceShape(cfg, t);
    forall x, l | Kind(x, l) ensures Granted(x, l) {
      KindIsGranted(x, l);
    }
    SinceWeaker(t, n, Granted, Kind);
    RestIsReached(cfg, t, n);
  }

  lemma TraceShape(cfg: Config, t: Trace)
    requires IsRun(cfg, t)
    ensures |t.states| == |t.labels| + 1 && Now(t) == t.states[|t.labels|]
  {
  }

  /** And a settled state is reached, without a failure: from every state of every run the server comes to rest by
      itself, with all streams as the peers have left them, and it is the wait that it comes to rest in unless a
      signal tells it to end. */
  lemma {:induction false} ComesToRest(cfg: Config, t: Trace) returns (t': Trace)
    requires Sane(cfg) && cfg.maxEvents > 0 && IsRun(cfg, t)
    ensures IsRun(cfg, t') && Longer(t, t') && Settled(Now(t')) && Since(t', |t.labels|, Kind)
    ensures Undisturbed(Now(t), Now(t'))
    ensures Serving(Now(t)) ==> Now(t').pc.Waiting? && WouldBlock(Now(t').p)
    decreases Budget(cfg, Now(t))
  {
    hide MachineInv, Step, Granted, Kind, Measure, Enabled, After, Undisturbed;
    t' := t;
    if !Settled(Now(t)) {
      RunKeepsMachine(cfg, t);
      var l := UnsettledCanMove(cfg, Now(t));
      var t1 := Then(cfg, t, l);
      ThenIsRun(cfg, t, l);
      StepIs(cfg, Now(t), l);
      KindIsGranted(Now(t), l);
      GrantedStepsAdvance(cfg, Now(t), l, Now(t1));
      BudgetIsNatural(cfg, t1);
      t' := ComesToRest(cfg, t1);
      SinceOn(t, t1, t', l, Kind);
      KindStepsDisturbNobody(cfg, Now(t), l, Now(t1));
      UndisturbedOn(Now(t), Now(t1), Now(t'));
    } else {
      NothingDisturbs(Now(t));
    }
    ServesOn(Now(t), Now(t'));
  }

  lemma RefusesNone(x: State, x': State)
    requires Undisturbed(x, x')
    ensures x'.refusals == x.refusals && Calm(x.p.net, x'.p.net)
  {
  }

  lemma ServesOn(x: State, x': State)
    requires Undisturbed(x, x')
    ensures Serving(x) ==> !x'.pc.Stopped?
  {
  }

  lemma StepIs(cfg: Config, x: State, l: Label)
    requires Enabled(cfg, x, l)
    ensures Step(cfg, x, l, After(cfg, x, l))
  {
  }
}
