/**
 One system call of server_epoll.cpp as a continuation of a run: the outside
 world moves, the call is made, and the run is longer by both.  These are the
 facts the methods of `EpollServer` rest on.
 */
module EpollCalls {
  import opened EchoSpec
  import opened Net
  import opened Runs
  import opened Counters
  import opened EpollModel
  import opened EpollMachine

  /** The server's fields and the kernel are where the run `t` has led. */
  ghost predicate Drives(cfg: Config, t: Trace, p: Poll, s: Stats, running: bool) {
    && Source(cfg) && IsRun(cfg, t)
    && Now(t).p == p && Now(t).s == s && Now(t).running == running
  }

  /** `t'` continues `t` by `n` counted calls. */
  ghost predicate Continues(t: Trace, t': Trace, n: int) {
    Longer(t, t') && Now(t').calls == Now(t).calls + n
  }

  /** The loop is still at the same event. */
  ghost predicate SameEvent(t: Trace, t': Trace, pc: Pc) {
    Now(t').w.rest == Now(t).w.rest && Now(t').pc == pc
  }

  /** The loop has gone on to whatever comes after the current event. */
  ghost predicate EventLeft(t: Trace, t': Trace) {
    && Now(t).w.rest != []
    && Now(t').w.rest == Now(t).w.rest[1..]
    && Now(t').pc == Dispatch(Now(t').w.rest, Now(t').running)
  }

  lemma ContinuesItself(t: Trace)
    ensures Continues(t, t, 0)
  {
  }

  lemma ContinuesOn(t: Trace, t1: Trace, t2: Trace, n: int, m: int)
    requires Continues(t, t1, n) && Continues(t1, t2, m)
    ensures Continues(t, t2, n + m)
  {
  }

  lemma Begins(cfg: Config)
    requires Source(cfg)
    ensures Drives(cfg, Begun, Boot, Zero, true)
    ensures Now(Begun).w.rest == [] && Now(Begun).pc == Dispatch([], true) && Now(Begun).refusals == 0
  {
  }

  lemma EventLeftIs(t: Trace, t': Trace)
    requires EventLeft(t, t')
    ensures Now(t).w.rest != [] && Now(t').w.rest == Now(t).w.rest[1..]
    ensures Now(t').pc == Dispatch(Now(t').w.rest, Now(t').running)
  {
  }

  lemma SameEventIs(t: Trace, t': Trace, pc: Pc)
    requires SameEvent(t, t', pc)
    ensures Now(t').w.rest == Now(t).w.rest && Now(t').pc == pc
  {
  }

  lemma SameEventsCompose(t: Trace, t1: Trace, t2: Trace, pc1: Pc)
    requires SameEvent(t, t1, pc1)
    ensures EventLeft(t1, t2) ==> EventLeft(t, t2)
    ensures forall pc | SameEvent(t1, t2, pc) :: SameEvent(t, t2, pc)
  {
  }

  /** What holds of the state that a run of the source's server has led to. */
  lemma RunFacts(cfg: Config, t: Trace, p: Poll, s: Stats, running: bool)
    requires Drives(cfg, t, p, s, running)
    ensures var x := Now(t);
            && x.p == p && x.s == s && x.running == running && p.ready <= p.reg.Keys
            && (x.pc.Waiting? || x.pc.Stopped? ==> x.w.rest == [])
            && (x.pc.Adding? ==> OpenAt(p, x.pc.fd))
            && (x.pc.Refused? ==> OpenAt(p, x.pc.fd))
            && (x.pc.Reading? || x.pc.Writing? || x.pc.Closing? ==> HasCurrent(x))
            && (x.pc.Reading? ==> p.net.conns[Current(x)].given <= p.net.conns[Current(x)].sent)
            && (x.pc.Writing? ==> Owed(x) != [])
            && (x.pc.Accepting? || x.pc.Adding? || x.pc.Refused? || x.pc.Draining? ==> x.w.rest != [])
  {
    hide IsRun, ServerInv, Inv, Counted, MachineInv;
    RunKeepsMachine(cfg, t);
    MachineParts(cfg, Now(t));
  }

  lemma RunInvariant(cfg: Config, t: Trace, p: Poll, s: Stats, running: bool)
    requires Drives(cfg, t, p, s, running)
    ensures MachineInv(cfg, Now(t)) && cfg.drain == cfg.mode.Edge? && Now(t).p == p
  {
    hide IsRun, MachineInv;
    RunKeepsMachine(cfg, t);
  }

  /** The outside world moves, and then the call `l` is made. */
  lemma Called(cfg: Config, t: Trace, p: Poll, s: Stats, running: bool, mid: Poll, l: Label) returns (t': Trace)
    requires Drives(cfg, t, p, s, running) && Tick(p, mid)
    requires Enabled(cfg, Now(t).(p := mid), l)
    ensures var y := After(cfg, Now(t).(p := mid), l);
            Now(t') == y && Drives(cfg, t', y.p, y.s, y.running) && Longer(t, t')
    ensures t'.labels == t.labels + [Outside(mid)] + [l]
  {
    hide IsRun, Tick;
    var t1 := Then(cfg, t, Outside(mid));
    ThenIsRun(cfg, t, Outside(mid));
    t' := Then(cfg, t1, l);
    ThenIsRun(cfg, t1, l);
    LongerOn(t, t1, t');
  }

  lemma TickOpen(p: Poll, mid: Poll, fd: Fd)
    requires Tick(p, mid) && OpenAt(p, fd)
    ensures OpenAt(mid, fd) && mid.net.fds == p.net.fds
    ensures mid.net.conns[p.net.fds[fd]].out == p.net.conns[p.net.fds[fd]].out
    ensures mid.net.conns[p.net.fds[fd]].given == p.net.conns[p.net.fds[fd]].given
    ensures p.net.conns[p.net.fds[fd]].given <= p.net.conns[p.net.fds[fd]].sent ==>
              mid.net.conns[p.net.fds[fd]].given <= mid.net.conns[p.net.fds[fd]].sent
    ensures mid.ready <= p.reg.Keys && mid.reg == p.reg
  {
  }

  // ---------------------------------------------------------------- the calls

  lemma ReadHappens(cfg: Config, t: Trace, p: Poll, s: Stats, running: bool,
                    mid: Poll, p': Poll, a: Answer, data: seq<Byte>)
    returns (t': Trace, s': Stats)
    requires Drives(cfg, t, p, s, running) && Now(t).pc.Reading? && Tick(p, mid)
    requires Now(t).w.rest != [] && OpenAt(mid, Now(t).w.rest[0].fd)
    requires PollReads(mid, p', Now(t).w.rest[0].fd, cfg.bufferSize, a, data)
    ensures Drives(cfg, t', p', s', running) && Continues(t, t', 1)
    ensures var s1 := s.(readCalls := s.readCalls + 1, syscalls := s.syscalls + 1);
            match a
            case Ok(n) =>
              && n == |data| <= cfg.bufferSize
              && (n > 0 ==>
                    && s' == s1.(requests := s.requests + 1, bytes := s.bytes + n) && SameEvent(t, t', Writing)
                    && HasCurrent(Now(t')) && Owed(Now(t')) == data)
              && (n == 0 ==> s' == s1 && SameEvent(t, t', Closing(EndOfStream)))
            case Err(EAGAIN) => s' == s1.(eagain := s.eagain + 1) && EventLeft(t, t')
            case Err(EINTR) => s' == s1 && SameEvent(t, t', Reading)
            case Err(EOTHER) => s' == s1 && SameEvent(t, t', Closing(Failure))
  {
    hide IsRun, Tick, PollReads;
    var fd := Now(t).w.rest[0].fd;
    ReadAnswer(mid, p', fd, cfg.bufferSize, a, data);
    t' := Called(cfg, t, p, s, running, mid, ReadCall(a, data, p'));
    s' := Now(t').s;
  }

  lemma ReadAnswer(p: Poll, p': Poll, fd: Fd, cap: nat, a: Answer, data: seq<Byte>)
    requires OpenAt(p, fd) && PollReads(p, p', fd, cap, a, data)
    ensures a.Ok? ==> a.n == |data| <= cap
    ensures OpenAt(p', fd) && p'.net.fds == p.net.fds
  {
  }

  lemma WriteHappens(cfg: Config, t: Trace, p: Poll, s: Stats, running: bool,
                     mid: Poll, p': Poll, data: seq<Byte>, a: Answer)
    returns (t': Trace, s': Stats)
    requires Drives(cfg, t, p, s, running) && Now(t).pc.Writing? && Tick(p, mid)
    requires HasCurrent(Now(t)) && OpenAt(mid, Now(t).w.rest[0].fd) && data == Owed(Now(t))
    requires PollWrites(mid, p', Now(t).w.rest[0].fd, data, a)
    ensures Drives(cfg, t', p', s', running) && Continues(t, t', 1)
    ensures s' == s.(writeCalls := s.writeCalls + 1, syscalls := s.syscalls + 1)
    ensures Written(a) <= |data| && (a.Ok? ==> a.n >= 1)
    ensures Repeated(t'.labels) == Repeated(t.labels) + (if a == Err(EAGAIN) || a == Err(EINTR) then 1 else 0)
    ensures a == Err(EOTHER) ==> SameEvent(t, t', Closing(Failure))
    ensures a != Err(EOTHER) && Written(a) < |data| ==>
              && SameEvent(t, t', Writing) && HasCurrent(Now(t')) && Current(Now(t')) == Current(Now(t))
              && Owed(Now(t')) == data[Written(a)..]
    ensures a != Err(EOTHER) && Written(a) == |data| ==>
              if cfg.drain then SameEvent(t, t', Reading) else EventLeft(t, t')
    ensures var id := Current(Now(t));
            id in p'.net.conns && p'.net.conns[id].out == p.net.conns[id].out + data[..Written(a)]
  {
    hide IsRun, Tick, PollWrites;
    var fd := Now(t).w.rest[0].fd;
    TickOpen(p, mid, fd);
    PollWriteShape(mid, p', fd, data, a);
    WriteTakesAByte(mid, p', fd, data, a);
    t' := Called(cfg, t, p, s, running, mid, WriteCall(a, p'));
    s' := Now(t').s;
    RepeatedMore(t.labels, mid, WriteCall(a, p'));
  }

  lemma WriteTakesAByte(p: Poll, p': Poll, fd: Fd, data: seq<Byte>, a: Answer)
    requires OpenAt(p, fd) && PollWrites(p, p', fd, data, a)
    ensures a.Ok? ==> a.n >= 1
  {
  }

  lemma RepeatedMore(labels: seq<Label>, mid: Poll, l: Label)
    ensures Repeated(labels + [Outside(mid)] + [l]) == Repeated(labels) + (if Repeats(l) then 1 else 0)
  {
    var more := labels + [Outside(mid)];
    assert (more + [l])[..|more|] == more && more[..|labels|] == labels;
  }

  lemma CloseHappens(cfg: Config, t: Trace, p: Poll, s: Stats, running: bool) returns (t': Trace)
    requires Drives(cfg, t, p, s, running) && Now(t).pc.Closing? && HasCurrent(Now(t))
    ensures Drives(cfg, t', CloseFd(p, Now(t).w.rest[0].fd), s.(closed := s.closed + 1), running)
    ensures Continues(t, t', 0) && EventLeft(t, t')
  {
    hide IsRun, CloseFd, Enabled, After;
    CloseEnabled(cfg, Now(t));
    t' := Then(cfg, t, Close);
    ThenIsRun(cfg, t, Close);
  }

  lemma CloseEnabled(cfg: Config, x: State)
    requires CanClose(x)
    ensures Enabled(cfg, x, Close) && After(cfg, x, Close) == AfterClose(x)
  {
  }

  lemma AcceptHappens(cfg: Config, t: Trace, p: Poll, s: Stats, running: bool, mid: Poll, p': Poll, a: Answer)
    returns (t': Trace)
    requires Drives(cfg, t, p, s, running) && Now(t).pc.Accepting? && Now(t).w.rest != [] && Tick(p, mid)
    requires PollAccepts(mid, p', a)
    ensures Drives(cfg, t', p', s, running) && Continues(t, t', 1)
    ensures match a
            case Ok(fd) => SameEvent(t, t', Adding(fd))
            case Err(EINTR) => SameEvent(t, t', Accepting)
            case Err(_) => EventLeft(t, t')
  {
    hide IsRun, Tick, PollAccepts;
    t' := Called(cfg, t, p, s, running, mid, AcceptCall(a, p'));
  }

  lemma AddHappens(cfg: Config, t: Trace, p: Poll, s: Stats, running: bool, mid: Poll, p': Poll, fd: Fd, ok: bool)
    returns (t': Trace)
    requires Drives(cfg, t, p, s, running) && Now(t).pc == Adding(fd) && Tick(p, mid) && OpenAt(mid, fd)
    requires Adds(mid, p', fd, cfg.mode, ok)
    ensures Continues(t, t', 0)
    ensures if ok then
              && Drives(cfg, t', p', s.(accepted := s.accepted + 1), running) && SameEvent(t, t', Accepting)
              && Now(t').refusals == Now(t).refusals && fd in p'.net.fds && fd in p'.reg && p'.reg[fd] == cfg.mode
            else
              && Drives(cfg, t', p', s, running) && SameEvent(t, t', Refused(fd))
              && Now(t').refusals == Now(t).refusals + 1
  {
    hide IsRun, Tick;
    t' := Called(cfg, t, p, s, running, mid, Add(ok));
  }

  lemma RefusedCloseHappens(cfg: Config, t: Trace, p: Poll, s: Stats, running: bool, fd: Fd) returns (t': Trace)
    requires Drives(cfg, t, p, s, running) && Now(t).pc == Refused(fd) && OpenAt(p, fd)
    ensures Drives(cfg, t', CloseFd(p, fd), s, running)
    ensures Continues(t, t', 0) && SameEvent(t, t', Accepting) && Now(t').refusals == Now(t).refusals
    ensures fd !in CloseFd(p, fd).net.fds
  {
    hide IsRun, Enabled, After;
    CloseEnabled(cfg, Now(t));
    t' := Then(cfg, t, Close);
    ThenIsRun(cfg, t, Close);
  }

  lemma SignalReadHappens(cfg: Config, t: Trace, p: Poll, s: Stats, running: bool, mid: Poll, got: bool)
    returns (t': Trace)
    requires Drives(cfg, t, p, s, running) && Now(t).pc.Draining? && Now(t).w.rest != [] && Tick(p, mid)
    requires got ==> mid.signals > 0
    ensures Continues(t, t', 1)
    ensures if got then
              Drives(cfg, t', mid.(signals := mid.signals - 1), s, false) && SameEvent(t, t', Draining)
            else
              Drives(cfg, t', mid, s, running) && EventLeft(t, t')
  {
    hide IsRun, Tick;
    t' := Called(cfg, t, p, s, running, mid, SignalRead(got));
  }

  lemma WaitHappens(cfg: Config, t: Trace, p: Poll, s: Stats, running: bool,
                    mid: Poll, p': Poll, a: Answer, events: seq<Event>)
    returns (t': Trace)
    requires Drives(cfg, t, p, s, running) && Now(t).pc.Waiting? && Tick(p, mid)
    requires Waits(mid, p', cfg.maxEvents, a, events)
    ensures Drives(cfg, t', p', s.(waitCalls := s.waitCalls + 1, syscalls := s.syscalls + 1), running)
    ensures Continues(t, t', 1) && Now(t').w.rest == events
    ensures match a
            case Ok(_) => Now(t').pc == Dispatch(events, running)
            case Err(EINTR) => events == [] && Now(t').pc.Waiting?
            case Err(_) => events == [] && Now(t').pc.Stopped?
  {
    hide IsRun, Tick;
    t' := Called(cfg, t, p, s, running, mid, Wait(a, events, p'));
  }

  // ---------------------------------------------------------------- echoing

  /** `data` has been written to connection `id`. */
  ghost predicate Replied(p: Poll, p': Poll, id: Id, data: seq<Byte>) {
    id in p.net.conns && id in p'.net.conns && p'.net.conns[id].out == p.net.conns[id].out + data
  }

  lemma RepliedNothing(p: Poll, id: Id)
    requires id in p.net.conns
    ensures Replied(p, p, id, [])
  {
    assert p.net.conns[id].out == p.net.conns[id].out + [];
  }

  lemma RepliedMore(p: Poll, p1: Poll, p2: Poll, id: Id, data: seq<Byte>, n: nat, a: Answer)
    requires n + Written(a) <= |data| && Replied(p, p1, id, data[..n])
    requires id in p1.net.conns && id in p2.net.conns
    requires p2.net.conns[id].out == p1.net.conns[id].out + data[n..][..Written(a)]
    ensures Replied(p, p2, id, data[..n + Written(a)])
    ensures data[n..][Written(a)..] == data[n + Written(a)..]
  {
    assert data[..n] + data[n..][..Written(a)] == data[..n + Written(a)];
  }

  lemma CurrentIs(x: State)
    requires HasCurrent(x)
    ensures x.w.rest != [] && OpenAt(x.p, x.w.rest[0].fd) && Current(x) == x.p.net.fds[x.w.rest[0].fd]
    ensures x.w.rest[0].fd in x.p.net.fds && Current(x) in x.p.net.conns
  {
  }

  lemma AtSameEvent(t: Trace)
    ensures SameEvent(t, t, Now(t).pc)
  {
  }

  lemma DispatchAt(rest: seq<Event>, running: bool)
    ensures rest == [] ==> Dispatch(rest, running) == if running then Waiting else Stopped
    ensures rest != [] ==>
              var e := rest[0];
              Dispatch(rest, running) ==
              if e.fd == SIGNALS then Draining
              else if e.fd == LISTENER then Accepting
              else if e.hup || e.err then Closing(HangUp)
              else Reading
  {
  }

  lemma ClosedIsGone(p: Poll, fd: Fd)
    requires OpenAt(p, fd)
    ensures fd !in CloseFd(p, fd).net.fds
  {
  }

  /** The event that began at `t` ends, at `t1`, with the close of its connection. */
  lemma ClosingFacts(cfg: Config, t: Trace, t1: Trace, p: Poll, s: Stats, running: bool, pc: Pc)
    requires Drives(cfg, t1, p, s, running) && SameEvent(t, t1, pc) && pc.Closing? && Now(t).w.rest != []
    ensures HasCurrent(Now(t1)) && Now(t1).pc.Closing?
    ensures Now(t1).w.rest != [] && Now(t1).w.rest[0] == Now(t).w.rest[0]
  {
    hide *;
    SameEventIs(t, t1, pc);
    RunFacts(cfg, t1, p, s, running);
  }

  lemma ClosingEnds(t: Trace, t1: Trace, t2: Trace, n: int, pc: Pc)
    requires SameEvent(t, t1, pc) && EventLeft(t1, t2) && Continues(t, t1, n) && Continues(t1, t2, 0)
    ensures EventLeft(t, t2) && Continues(t, t2, n)
  {
    hide *;
    SameEventsCompose(t, t1, t2, pc);
    ContinuesOn(t, t1, t2, n, 0);
  }
}
