/**
 What holds of all runs of server_epoll.cpp, and exactly when: which
 connections the server drops, when nothing is left unechoed, and what the
 drain of an edge-triggered socket is needed for.
 */
module EpollRuns {
  import opened EchoSpec
  import opened Net
  import opened Runs
  import opened Counters
  import opened EpollModel
  import opened EpollMachine

  // ---------------------------------------------------------------- dropped connections

  /** The descriptor that the loop is about to close. */
  function Target(x: State): (fd: Fd)
    requires CanClose(x)
    ensures OpenAt(x.p, fd)
  {
    if x.pc.Refused? then x.pc.fd else x.w.rest[0].fd
  }

  /** A close of a connection that the server is not finished with. */
  ghost predicate Drops(cfg: Config, x: State, l: Label) {
    && l.Close? && Enabled(cfg, x, l)
    && !Finished(x.p.net.conns[x.p.net.fds[Target(x)]])
  }

  /** A step drops the connection it closes, if it closes one that is not finished with, and no other step drops
      any.  The server drops a connection only because its registration was refused or because its buffer is
      empty; every connection closed for another reason is finished with. */
  lemma StepDrops(cfg: Config, x: State, l: Label, x': State)
    requires MachineInv(cfg, x) && Step(cfg, x, l, x')
    ensures |Dropped(x'.p.net.conns)| == |Dropped(x.p.net.conns)| + (if Drops(cfg, x, l) then 1 else 0)
    ensures Drops(cfg, x, l) ==> l.Close?
    ensures Drops(cfg, x, l) ==> x.pc.Refused? || (x.pc == Closing(EndOfStream) && cfg.bufferSize == 0)
  {
    hide MachineInv, Tick, Waits, PollReads, PollWrites, PollAccepts, Dropped, Finished, Dispatch;
    match l
    case Outside(p) => TickDropsNobody(x.p, p);
    case Wait(a, events, p) => WaitDropsNobody(x.p, p, cfg.maxEvents, a, events);
    case AcceptCall(a, p) => AcceptDropsNobody(x.p, p, a);
    case Add(ok) =>
    case SignalRead(got) =>
    case ReadCall(a, data, p) => ReadDropsNobody(x.p, p, x.w.rest[0].fd, cfg.bufferSize, a, data);
    case WriteCall(a, p) => WriteDropsNobody(x.p, p, x.w.rest[0].fd, Owed(x), a);
    case Close =>
      OpenIsNotDropped(cfg, x);
      CloseDrops(x.p.net, Target(x));
  }

  lemma TickDropsNobody(p: Poll, p': Poll)
    requires Tick(p, p')
    ensures Dropped(p'.net.conns) == Dropped(p.net.conns)
  {
    PeersDropNobody(p.net, p'.net);
  }

  lemma WaitDropsNobody(p: Poll, p': Poll, max: nat, a: Answer, events: seq<Event>)
    requires Waits(p, p', max, a, events)
    ensures Dropped(p'.net.conns) == Dropped(p.net.conns)
  {
  }

  lemma AcceptDropsNobody(p: Poll, p': Poll, a: Answer)
    requires PollAccepts(p, p', a)
    ensures Dropped(p'.net.conns) == Dropped(p.net.conns)
  {
    AcceptsDropNobody(p.net, p'.net, a);
  }

  lemma ReadDropsNobody(p: Poll, p': Poll, fd: Fd, cap: nat, a: Answer, data: seq<Byte>)
    requires OpenAt(p, fd) && PollReads(p, p', fd, cap, a, data)
    ensures Dropped(p'.net.conns) == Dropped(p.net.conns)
  {
    ReadsDropNobody(p.net, p'.net, fd, cap, a, data);
  }

  lemma WriteDropsNobody(p: Poll, p': Poll, fd: Fd, data: seq<Byte>, a: Answer)
    requires OpenAt(p, fd) && PollWrites(p, p', fd, data, a)
    ensures Dropped(p'.net.conns) == Dropped(p.net.conns)
  {
    WritesDropNobody(p.net, p'.net, fd, data, a);
  }

  lemma OpenIsNotDropped(cfg: Config, x: State)
    requires CanClose(x) && MachineInv(cfg, x)
    ensures !x.p.net.conns[x.p.net.fds[Target(x)]].dropped
    ensures !Finished(x.p.net.conns[x.p.net.fds[Target(x)]]) ==>
              x.pc.Refused? || (x.pc == Closing(EndOfStream) && cfg.bufferSize == 0)
  {
    hide RegInv, NoLostWakeup, BatchInv, HeldInv, Counted;
    var id := x.p.net.fds[Target(x)];
    assert Sound(x.p.net.conns[id], Held(x.w.held, id));
  }

  /** Neither of the two reasons for which bytes are lost is built into the configuration. */
  predicate Ample(cfg: Config) {
    cfg.bufferSize > 0 || cfg.maxEvents == 0
  }

  /** With a buffer of at least one byte there are no more dropped connections than refused registrations. */
  lemma {:induction false} DropsAreRefusals(cfg: Config, t: Trace)
    requires Sane(cfg) && Ample(cfg) && IsRun(cfg, t)
    ensures var x := Now(t);
            |Dropped(x.p.net.conns)| + (if x.pc.Refused? then 1 else 0) <= x.refusals
    decreases |t.labels|
  {
    hide MachineInv, Step, Sane, Dropped, Drops;
    if t.labels == [] {
      NobodyDropped();
    } else {
      BeforeIsRun(cfg, t);
      DropsAreRefusals(cfg, Before(t));
      var x, l := Now(Before(t)), t.labels[|t.labels| - 1];
      RunKeepsMachine(cfg, Before(t));
      StepDrops(cfg, x, l, Now(t));
      EndOfBufferless(cfg, x);
      RefusalsMove(cfg, x, l, Now(t));
    }
  }

  lemma NobodyDropped()
    ensures Dropped(Initial.p.net.conns) == {}
  {
  }

  lemma EndOfBufferless(cfg: Config, x: State)
    requires MachineInv(cfg, x) && Ample(cfg)
    ensures x.pc.Closing? ==> cfg.bufferSize > 0
  {
  }

  lemma RefusalsMove(cfg: Config, x: State, l: Label, x': State)
    requires Step(cfg, x, l, x')
    ensures x.refusals <= x'.refusals <= x.refusals + 1
    ensures x'.pc.Refused? ==> (x.pc.Refused? && !l.Close?) || x'.refusals == x.refusals + 1
    ensures l.Close? ==> !x'.pc.Refused?
    ensures x'.refusals > x.refusals ==> l == Add(false) && !x.pc.Refused?
  {
    hide Tick, Waits, PollReads, PollWrites, PollAccepts;
  }

  /** In no run that is not refused a registration is a connection dropped. */
  ghost predicate DropsNobody(cfg: Config) {
    forall t | IsRun(cfg, t) && Now(t).refusals == 0 :: Dropped(Now(t).p.net.conns) == {}
  }

  /** If the kernel refuses no registration, the server drops nobody in any run, if and only if its buffer can
      hold a byte (or it can never be told of an event). */
  lemma DropsNobodyExactly(cfg: Config)
    requires Sane(cfg)
    ensures DropsNobody(cfg) <==> Ample(cfg)
  {
    hide IsRun, Sane, Dropped;
    if Ample(cfg) {
      forall t | IsRun(cfg, t) && Now(t).refusals == 0 ensures Dropped(Now(t).p.net.conns) == {} {
        DropsAreRefusals(cfg, t);
      }
    } else {
      var t := EmptyBufferDrops(cfg);
    }
  }

  // ---------------------------------------------------------------- a run with one connection

  const FD: Fd := 5

  function OneConn(data: seq<Byte>, given: seq<Byte>, out: seq<Byte>, at: Place): Conn {
    Conn(data, given, out, false, false, false, at)
  }

  /** Connection 0 has been accepted as FD. */
  function OneOpen(c: Conn, reg: map<Fd, Trigger>, ready: set<Fd>): Poll {
    Poll(Sockets(map[0 := c], [], map[FD := 0]), reg, ready, 0)
  }

  const Sources := map[LISTENER := Level, SIGNALS := Level]

  lemma Took(cfg: Config, t: Trace, l: Label) returns (t': Trace)
    requires IsRun(cfg, t) && Enabled(cfg, Now(t), l)
    ensures IsRun(cfg, t') && Now(t') == After(cfg, Now(t), l)
  {
    hide Enabled, After;
    t' := Then(cfg, t, l);
    ThenIsRun(cfg, t, l);
  }

  /** A connection that has sent `data` arrives, is reported and accepted. */
  lemma OneArrives(cfg: Config, data: seq<Byte>) returns (t: Trace)
    requires cfg.maxEvents > 0
    ensures IsRun(cfg, t)
    ensures var x := Now(t);
            && x.p == OneOpen(OneConn(data, [], [], Open(FD)), Sources, {LISTENER})
            && x.w == Work([Event(LISTENER, false, false)], map[], map[], {FD})
            && x.running && x.pc == Adding(FD) && x.refusals == 0
  {
    hide IsRun;
    BegunIsRun(cfg);
    var c := OneConn(data, [], [], Queued);
    var p1 := Poll(Sockets(map[0 := c], [0], map[]), Sources, {LISTENER}, 0);
    t := Took(cfg, Begun, Outside(p1));
    var l := Wait(Ok(1), [Event(LISTENER, false, false)], p1);
    assert Enabled(cfg, Now(t), l);
    t := Took(cfg, t, l);
    var p2 := OneOpen(OneConn(data, [], [], Open(FD)), Sources, {LISTENER});
    assert Enabled(cfg, Now(t), AcceptCall(Ok(FD), p2));
    t := Took(cfg, t, AcceptCall(Ok(FD), p2));
  }

  /** The kernel refuses to register a healthy connection: none of its bytes comes back. */
  lemma RefusedRegistrationDrops(cfg: Config, data: seq<Byte>) returns (t: Trace)
    requires cfg.maxEvents > 0
    ensures IsRun(cfg, t) && Now(t).refusals == 1
    ensures Now(t).p.net.conns == map[0 := OneConn(data, [], [], Closed).(dropped := true)]
    ensures 0 in Dropped(Now(t).p.net.conns)
  {
    hide IsRun;
    t := OneArrives(cfg, data);
    t := Took(cfg, t, Add(false));
    t := Took(cfg, t, Close);
  }

  /** EPOLL_CTL_ADD decides over a new connection: registered, it stays as it is; refused, it is closed, and dropped
      exactly if it was not finished with. */
  lemma RegistrationDecides(cfg: Config, t: Trace, ok: bool) returns (t': Trace)
    requires Sane(cfg) && IsRun(cfg, t) && Now(t).pc.Adding?
    ensures OpenAt(Now(t).p, Now(t).pc.fd)
    ensures IsRun(cfg, t') && t'.labels == t.labels + (if ok then [Add(true)] else [Add(false), Close])
    ensures var fd, p, p' := Now(t).pc.fd, Now(t).p, Now(t').p;
            var id := p.net.fds[fd]; var c := p.net.conns[id];
            && id in p'.net.conns
            && (if ok then p'.net == p.net && fd in p'.reg && Now(t').refusals == Now(t).refusals
                else
                  && p'.net.conns[id] == c.(at := Closed, dropped := !Finished(c)) && fd !in p'.net.fds
                  && Now(t').refusals == Now(t).refusals + 1)
  {
    hide IsRun, MachineInv, Enabled, After, Registered, Finished, Sane;
    AddingIsOpen(cfg, t);
    AddDecides(cfg, Now(t), ok);
    t' := Then(cfg, t, Add(ok));
    ThenIsRun(cfg, t, Add(ok));
    if !ok {
      var t1 := t';
      RefusedCloses(cfg, Now(t1));
      t' := Then(cfg, t1, Close);
      ThenIsRun(cfg, t1, Close);
    }
  }

  lemma AddingIsOpen(cfg: Config, t: Trace)
    requires Sane(cfg) && IsRun(cfg, t) && Now(t).pc.Adding?
    ensures OpenAt(Now(t).p, Now(t).pc.fd)
  {
    hide IsRun, MachineInv, ServerInv, Inv, Counted;
    RunKeepsMachine(cfg, t);
    MachineParts(cfg, Now(t));
  }

  lemma AddDecides(cfg: Config, x: State, ok: bool)
    requires x.pc.Adding? && OpenAt(x.p, x.pc.fd)
    ensures Enabled(cfg, x, Add(ok))
    ensures var x' := After(cfg, x, Add(ok));
            && x'.p.net == x.p.net
            && (if ok then x.pc.fd in x'.p.reg && x'.refusals == x.refusals
                else x'.p == x.p && x'.pc == Refused(x.pc.fd) && x'.refusals == x.refusals + 1)
  {
  }

  lemma RefusedCloses(cfg: Config, x: State)
    requires x.pc.Refused? && OpenAt(x.p, x.pc.fd)
    ensures Enabled(cfg, x, Close)
    ensures var x', id := After(cfg, x, Close), x.p.net.fds[x.pc.fd];
            && id in x'.p.net.conns && x.pc.fd !in x'.p.net.fds && x'.refusals == x.refusals
            && x'.p.net.conns[id] == x.p.net.conns[id].(at := Closed, dropped := !Finished(x.p.net.conns[id]))
  {
    hide Finished;
  }

  /** The connection is registered, nothing else arrives, and its bytes are reported. */
  lemma OneReported(cfg: Config, data: seq<Byte>) returns (t: Trace)
    requires cfg.maxEvents > 0 && data != []
    ensures IsRun(cfg, t)
    ensures var x := Now(t);
            && x.p == OneOpen(OneConn(data, [], [], Open(FD)), Sources[FD := cfg.mode],
                              if cfg.mode.Edge? then {LISTENER} else {LISTENER, FD})
            && x.w == Work([Event(FD, false, false)], map[FD := 0], map[], {})
            && x.running && x.pc == Reading && x.refusals == 0
  {
    hide IsRun;
    t := OneArrives(cfg, data);
    t := Took(cfg, t, Add(true));
    var p := OneOpen(OneConn(data, [], [], Open(FD)), Sources[FD := cfg.mode], {LISTENER, FD});
    assert Now(t).p == p;
    t := Took(cfg, t, AcceptCall(Err(EAGAIN), p));
    var p' := p.(ready := if cfg.mode.Edge? then {LISTENER} else {LISTENER, FD});
    var events := [Event(FD, false, false)];
    assert events[0].fd == FD;
    assert Enabled(cfg, Now(t), Wait(Ok(1), events, p'));
    t := Took(cfg, t, Wait(Ok(1), events, p'));
  }

  /** An empty buffer makes every read answer 0, and the server takes that for the end of the stream: it closes
      a healthy connection of which it has not echoed a byte. */
  lemma EmptyBufferDrops(cfg: Config) returns (t: Trace)
    requires cfg.bufferSize == 0 && cfg.maxEvents > 0
    ensures IsRun(cfg, t) && Now(t).refusals == 0
    ensures Now(t).p.net.conns == map[0 := OneConn([65], [], [], Closed).(dropped := true)]
    ensures 0 in Dropped(Now(t).p.net.conns)
  {
    hide IsRun;
    t := OneReported(cfg, [65]);
    var x := Now(t);
    var c := OneConn([65], [], [], Open(FD));
    assert c == c.(given := c.given + []);
    assert Reads(x.p.net, x.p.net, FD, 0, Ok(0), []);
    t := Took(cfg, t, ReadCall(Ok(0), [], x.p));
    t := Took(cfg, t, Close);
  }

  // ---------------------------------------------------------------- quiet moments

  /** All that has arrived on an open connection has been echoed. */
  ghost predicate AllEchoed(p: Poll) {
    forall id | id in p.net.conns && p.net.conns[id].at.Open? :: p.net.conns[id].out == p.net.conns[id].sent
  }

  /** In every run, whenever epoll_wait would block, everything is echoed. */
  ghost predicate NeverHangs(cfg: Config) {
    forall t | IsRun(cfg, t) && Now(t).pc.Waiting? && WouldBlock(Now(t).p) :: AllEchoed(Now(t).p)
  }

  /** No run loses a wake-up if and only if a connection stays on the ready list while it has bytes, or the
      handler reads it empty; exceptions are a server that never reads a byte and one that is told of no event. */
  lemma NeverHangsExactly(cfg: Config)
    ensures NeverHangs(cfg) <==> cfg.mode.Level? || cfg.drain || cfg.bufferSize == 0 || cfg.maxEvents == 0
  {
    hide IsRun, AllEchoed, WouldBlock;
    if Sane(cfg) {
      forall t | IsRun(cfg, t) && Now(t).pc.Waiting? && WouldBlock(Now(t).p) ensures AllEchoed(Now(t).p) {
        RunKeepsMachine(cfg, t);
        QuietStateIsEchoed(cfg, Now(t));
      }
    } else {
      var t := LostWakeup(cfg);
    }
  }

  lemma QuietStateIsEchoed(cfg: Config, x: State)
    requires MachineInv(cfg, x) && x.pc.Waiting? && WouldBlock(x.p)
    ensures x.p.net.backlog == [] && x.p.signals == 0
    ensures AllEchoed(x.p)
    ensures forall id | id in x.p.net.conns && !x.p.net.conns[id].broken && !x.p.net.conns[id].dropped ::
              x.p.net.conns[id].out == x.p.net.conns[id].sent
  {
    hide Inv, Counted, WouldBlock;
    QuietMeansEchoed(x.p, x.w, cfg.mode);
  }

  /** A connection is closed with everything read from it written back, unless it has failed. */
  ghost predicate ClosedEven(x: State) {
    && (x.pc == Closing(EndOfStream) ==> x.w.held == map[])
    && forall id | id in x.p.net.conns && x.p.net.conns[id].at.Closed? && !x.p.net.conns[id].broken ::
         x.p.net.conns[id].out == x.p.net.conns[id].given
  }

  lemma StepClosesEven(cfg: Config, x: State, l: Label, x': State)
    requires MachineInv(cfg, x) && MachineInv(cfg, x') && Step(cfg, x, l, x') && Moves(x, x') && ClosedEven(x)
    ensures ClosedEven(x')
  {
    hide MachineInv, Step, Moves, ClosedEven;
    EndsEmptyHanded(cfg, x, l, x');
    forall id | id in x'.p.net.conns && x'.p.net.conns[id].at.Closed? && !x'.p.net.conns[id].broken
      ensures x'.p.net.conns[id].out == x'.p.net.conns[id].given
    {
      OneClosesEven(cfg, x, l, x', id);
    }
    ClosedEvenFolds(x');
  }

  lemma ClosedEvenFolds(x: State)
    requires x.pc == Closing(EndOfStream) ==> x.w.held == map[]
    requires forall id | id in x.p.net.conns && x.p.net.conns[id].at.Closed? && !x.p.net.conns[id].broken ::
               x.p.net.conns[id].out == x.p.net.conns[id].given
    ensures ClosedEven(x)
  {
  }

  /** A read that ends the stream was made with nothing in hand. */
  lemma EndsEmptyHanded(cfg: Config, x: State, l: Label, x': State)
    requires MachineInv(cfg, x) && Step(cfg, x, l, x') && ClosedEven(x)
    ensures x'.pc == Closing(EndOfStream) ==> x'.w.held == map[]
  {
    hide ServerInv, Tick, Waits, PollReads, PollWrites, PollAccepts, CloseFd, Registered;
  }

  lemma OneClosesEven(cfg: Config, x: State, l: Label, x': State, id: Id)
    requires MachineInv(cfg, x) && Step(cfg, x, l, x') && Moves(x, x') && ClosedEven(x)
    requires id in x'.p.net.conns && x'.p.net.conns[id].at.Closed? && !x'.p.net.conns[id].broken
    ensures x'.p.net.conns[id].out == x'.p.net.conns[id].given
  {
    hide MachineInv, Step;
    assert id in x.p.net.conns;
    var c, c' := x.p.net.conns[id], x'.p.net.conns[id];
    if !c.at.Closed? {
      ClosesIt(x, x', id);
      OnlyACloseCloses(cfg, x, l, x', id);
    }
  }

  lemma ClosesIt(x: State, x': State, id: Id)
    requires Moves(x, x') && id in x.p.net.conns && !x.p.net.conns[id].at.Closed?
    requires id in x'.p.net.conns && x'.p.net.conns[id].at.Closed?
    ensures var c, c' := x.p.net.conns[id], x'.p.net.conns[id];
            c.at.Open? && c'.out == c.out && c'.given == c.given && c'.broken == c.broken
  {
  }

  /** Only a close closes, and it finds nothing owed to a connection that has not failed. */
  lemma OnlyACloseCloses(cfg: Config, x: State, l: Label, x': State, id: Id)
    requires MachineInv(cfg, x) && Step(cfg, x, l, x') && ClosedEven(x)
    requires id in x.p.net.conns && x.p.net.conns[id].at.Open? && !x.p.net.conns[id].broken
    requires id in x'.p.net.conns && x'.p.net.conns[id].at.Closed?
    ensures x.p.net.conns[id].out == x.p.net.conns[id].given
  {
    hide *;
    if l.Close? {
      CloseIs(cfg, x, x', id);
      CloseFindsNothing(cfg, x);
    } else {
      OthersDoNotClose(cfg, x, l, x', id);
    }
  }

  lemma CloseIs(cfg: Config, x: State, x': State, id: Id)
    requires Step(cfg, x, Label.Close, x') && id in x.p.net.conns && !x.p.net.conns[id].at.Closed?
    requires id in x'.p.net.conns && x'.p.net.conns[id].at.Closed?
    ensures CanClose(x) && id == x.p.net.fds[Target(x)]
  {
    hide Dispatch, Finished;
  }

  lemma CloseFindsNothing(cfg: Config, x: State)
    requires MachineInv(cfg, x) && ClosedEven(x) && CanClose(x)
    ensures var c := x.p.net.conns[x.p.net.fds[Target(x)]]; !c.broken ==> c.out == c.given
  {
    hide RegInv, NoLostWakeup, BatchInv, HeldInv, Counted;
    var id := x.p.net.fds[Target(x)];
    assert Sound(x.p.net.conns[id], Held(x.w.held, id));
  }

  lemma OthersDoNotClose(cfg: Config, x: State, l: Label, x': State, id: Id)
    requires Step(cfg, x, l, x') && !l.Close? && id in x.p.net.conns && !x.p.net.conns[id].at.Closed?
    requires id in x'.p.net.conns
    ensures !x'.p.net.conns[id].at.Closed?
  {
    hide Waits, PollReads, PollWrites, Tick, Dispatch;
    match l
    case Outside(p) => TickClosesNone(x.p, p, id);
    case Wait(a, events, p) => WaitClosesNone(x.p, p, cfg.maxEvents, a, events);
    case AcceptCall(a, p) =>
    case Add(ok) =>
    case SignalRead(got) =>
    case ReadCall(a, data, p) => ReadClosesNone(x.p, p, x.w.rest[0].fd, cfg.bufferSize, a, data, id);
    case WriteCall(a, p) => WriteClosesNone(x.p, p, x.w.rest[0].fd, Owed(x), a, id);
  }

  lemma TickClosesNone(p: Poll, p': Poll, id: Id)
    requires Tick(p, p') && id in p.net.conns
    ensures id in p'.net.conns && p'.net.conns[id].at == p.net.conns[id].at
  {
    assert PeerStep(p.net.conns[id], p'.net.conns[id]);
  }

  lemma WaitClosesNone(p: Poll, p': Poll, max: nat, a: Answer, events: seq<Event>)
    requires Waits(p, p', max, a, events)
    ensures p'.net == p.net
  {
  }

  lemma ReadClosesNone(p: Poll, p': Poll, fd: Fd, cap: nat, a: Answer, data: seq<Byte>, id: Id)
    requires OpenAt(p, fd) && PollReads(p, p', fd, cap, a, data) && id in p.net.conns
    ensures id in p'.net.conns && p'.net.conns[id].at == p.net.conns[id].at
  {
  }

  lemma WriteClosesNone(p: Poll, p': Poll, fd: Fd, data: seq<Byte>, a: Answer, id: Id)
    requires OpenAt(p, fd) && PollWrites(p, p', fd, data, a) && id in p.net.conns
    ensures id in p'.net.conns && p'.net.conns[id].at == p.net.conns[id].at
  {
  }

  lemma {:induction false} RunsCloseEven(cfg: Config, t: Trace)
    requires Sane(cfg) && IsRun(cfg, t)
    ensures ClosedEven(Now(t))
    decreases |t.labels|
  {
    hide MachineInv, Step, Moves;
    if t.labels != [] {
      BeforeIsRun(cfg, t);
      RunsCloseEven(cfg, Before(t));
      RunKeepsMachine(cfg, Before(t));
      RunKeepsMachine(cfg, t);
      StepKeepsMachine(cfg, Now(Before(t)), t.labels[|t.labels| - 1], Now(t));
      StepClosesEven(cfg, Now(Before(t)), t.labels[|t.labels| - 1], Now(t));
    }
  }

  /** Between batches nothing is in hand: everything read from a connection that is open, or that was closed without
      having failed, has been written back to it, and accepted - closed is the number of open descriptors. */
  lemma NothingInHand(cfg: Config, t: Trace)
    requires Sane(cfg) && IsRun(cfg, t) && (Now(t).pc.Waiting? || Now(t).pc.Stopped?)
    ensures forall id | id in Now(t).p.net.conns && !Now(t).p.net.conns[id].broken ::
              Now(t).p.net.conns[id].out == Now(t).p.net.conns[id].given
    ensures forall id | id in Now(t).p.net.conns && Now(t).p.net.conns[id].at.Open? ::
              Now(t).p.net.conns[id].out == Now(t).p.net.conns[id].given
    ensures Now(t).s.accepted == Now(t).s.closed + |Now(t).p.net.fds|
  {
    hide IsRun, RegInv, NoLostWakeup, BatchInv, TableInv;
    RunKeepsMachine(cfg, t);
    RunsCloseEven(cfg, t);
    var x := Now(t);
    forall id | id in x.p.net.conns && (!x.p.net.conns[id].broken || x.p.net.conns[id].at.Open?)
      ensures x.p.net.conns[id].out == x.p.net.conns[id].given
    {
      assert Sound(x.p.net.conns[id], Held(x.w.held, id));
    }
  }

  function Zeros(n: nat): (s: seq<Byte>)
    ensures |s| == n
  {
    seq(n, _ => 0)
  }

  /** Edge-triggered, one read for every event: of the bytes that arrive, all but the first buffer's worth are
      neither read nor ever reported again. */
  lemma LostWakeup(cfg: Config) returns (t: Trace)
    requires cfg.mode.Edge? && !cfg.drain && cfg.bufferSize > 0 && cfg.maxEvents > 0
    ensures IsRun(cfg, t) && Now(t).pc.Waiting? && WouldBlock(Now(t).p) && !AllEchoed(Now(t).p)
    ensures 0 in Now(t).p.net.conns
    ensures var c := Now(t).p.net.conns[0];
            c.at.Open? && !c.broken && |c.sent| == cfg.bufferSize + 1 && c.out == c.sent[..cfg.bufferSize]
  {
    hide IsRun;
    var data := Zeros(cfg.bufferSize + 1);
    var part := data[..cfg.bufferSize];
    t := OneReported(cfg, data);
    var x := Now(t);
    PartIsRead(x.p, data, part, cfg.bufferSize);
    var p1 := OneOpen(OneConn(data, part, [], Open(FD)), x.p.reg, x.p.ready);
    t := Took(cfg, t, ReadCall(Ok(|part|), part, p1));
    PartIsWritten(p1, data, part);
    assert Owed(Now(t)) == part && part[|part|..] == [];
    var p2 := OneOpen(OneConn(data, part, part, Open(FD)), p1.reg, p1.ready);
    t := Took(cfg, t, WriteCall(Ok(|part|), p2));
    assert Now(t).p == p2 && !Ready(p2, LISTENER);
    assert p2.net.conns[0].out != p2.net.conns[0].sent;
  }

  lemma PartIsRead(p: Poll, data: seq<Byte>, part: seq<Byte>, n: nat)
    requires p == OneOpen(OneConn(data, [], [], Open(FD)), p.reg, p.ready)
    requires part <= data && 0 < |part| <= n
    ensures PollReads(p, OneOpen(OneConn(data, part, [], Open(FD)), p.reg, p.ready), FD, n, Ok(|part|), part)
  {
    var c := OneConn(data, [], [], Open(FD));
    assert Unread(c) == data && [] + part == part;
  }

  lemma PartIsWritten(p: Poll, data: seq<Byte>, part: seq<Byte>)
    requires p == OneOpen(OneConn(data, part, [], Open(FD)), p.reg, p.ready) && part != []
    ensures PollWrites(p, OneOpen(OneConn(data, part, part, Open(FD)), p.reg, p.ready), FD, part, Ok(|part|))
  {
    assert [] + part[..|part|] == part;
  }

  // ---------------------------------------------------------------- progress

  /** The loop has ended, or epoll_wait would block. */
  ghost predicate Settled(x: State) {
    x.pc.Stopped? || (x.pc.Waiting? && WouldBlock(x.p))
  }

  /** A step of the server itself in which the kernel does what it can: no call is interrupted, a write takes a byte
      or fails for good, an accept brings a connection or says that nobody waits, a signal that is there is
      delivered. */
  predicate Granted(x: State, l: Label) {
    match l
    case Outside(_) => false
    case Wait(a, _, _) => a != Err(EINTR)
    case AcceptCall(a, _) => a.Ok? || a == Err(EAGAIN)
    case SignalRead(got) => got == (x.p.signals > 0)
    case ReadCall(a, _, _) => a != Err(EINTR)
    case WriteCall(a, _) => a.Ok? || a == Err(EOTHER)
    case _ => true
  }

  /** A step that is granted and in which nothing fails that has not failed before: epoll_wait has events, a
      registration is not refused, a write takes a byte, and only a connection that is broken answers an error. */
  predicate Kind(x: State, l: Label) {
    match l
    case Outside(_) => false
    case Wait(a, _, _) => a.Ok?
    case AcceptCall(a, _) => a.Ok? || a == Err(EAGAIN)
    case Add(ok) => ok
    case SignalRead(got) => got == (x.p.signals > 0)
    case ReadCall(a, _, _) =>
      a.Ok? || a == Err(EAGAIN) || (a == Err(EOTHER) && HasCurrent(x) && x.p.net.conns[Current(x)].broken)
    case WriteCall(a, _) => a.Ok?
    case Close => true
  }

  lemma KindIsGranted(x: State, l: Label)
    requires Kind(x, l)
    ensures Granted(x, l)
  {
  }

  /** A server that is not settled has a step to make in which nothing need fail: it never waits for anything but the
      outside world. */
  lemma UnsettledCanMove(cfg: Config, x: State) returns (l: Label)
    requires MachineInv(cfg, x) && cfg.maxEvents > 0 && !Settled(x)
    ensures Enabled(cfg, x, l) && Kind(x, l)
  {
    hide ServerInv, Inv, Counted, HeldInv, NetInv, MachineInv;
    MachineParts(cfg, x);
    match x.pc
    case Waiting => l := SomethingIsReported(cfg, x);
    case Accepting => l := SomethingIsAccepted(cfg, x);
    case Adding(_) => l := Add(true);
    case Refused(_) => l := Close;
    case Draining => l := SignalRead(x.p.signals > 0);
    case Reading => l := SomethingIsRead(cfg, x);
    case Writing => l := SomethingIsWritten(cfg, x);
    case Closing(_) => l := Close;
  }

  /** Where it is settled there is no such step: the kernel has nothing left to give. */
  lemma SettledCannotMove(cfg: Config, x: State, l: Label)
    requires Settled(x) && Enabled(cfg, x, l)
    ensures !Kind(x, l)
  {
    hide Waits, WouldBlock, PollReads, PollWrites, PollAccepts, Tick;
    if l.Wait? && l.a.Ok? {
      AnEventIsReady(x.p, l.p, cfg.maxEvents, l.a, l.events);
    }
  }

  lemma AnEventIsReady(p: Poll, p': Poll, max: nat, a: Answer, events: seq<Event>)
    requires Waits(p, p', max, a, events) && a.Ok?
    ensures !WouldBlock(p)
  {
    hide Ready;
    assert Ready(p, events[0].fd);
  }

  /** A server is settled exactly if none of its steps is left in which nothing fails. */
  lemma SettledExactly(cfg: Config, x: State)
    requires MachineInv(cfg, x) && cfg.maxEvents > 0
    ensures Settled(x) <==> forall l | Enabled(cfg, x, l) :: !Kind(x, l)
  {
    hide MachineInv, Settled, Enabled, Kind;
    if Settled(x) {
      forall l | Enabled(cfg, x, l) ensures !Kind(x, l) {
        SettledCannotMove(cfg, x, l);
      }
    } else {
      var l := UnsettledCanMove(cfg, x);
    }
  }

  lemma SomethingIsReported(cfg: Config, x: State) returns (l: Label)
    requires x.pc.Waiting? && cfg.maxEvents > 0 && !WouldBlock(x.p) && x.p.ready <= x.p.reg.Keys
    ensures Enabled(cfg, x, l) && Kind(x, l)
  {
    var fd :| fd in x.p.ready && Ready(x.p, fd);
    var events := [Event(fd, false, false)];
    assert events[0].fd == fd;
    l := Wait(Ok(1), events, x.p.(ready := if x.p.reg[fd].Edge? then x.p.ready - {fd} else x.p.ready));
  }

  lemma SomethingIsAccepted(cfg: Config, x: State) returns (l: Label)
    requires x.pc.Accepting? && PcInv(cfg, x) && NetInv(x.p.net, x.w.held)
    ensures Enabled(cfg, x, l) && Kind(x, l)
  {
    var net := x.p.net;
    if net.backlog == [] {
      l := AcceptCall(Err(EAGAIN), x.p);
    } else {
      var id := net.backlog[0];
      assert id in net.backlog;
      var fd := FreshFd(net.fds.Keys, 5);
      var net' := Sockets(net.conns[id := net.conns[id].(at := Open(fd))], net.backlog[1..], net.fds[fd := id]);
      l := AcceptCall(Ok(fd), x.p.(net := net'));
    }
  }

  lemma SomethingIsRead(cfg: Config, x: State) returns (l: Label)
    requires x.pc.Reading? && HasCurrent(x)
    requires x.p.net.conns[Current(x)].given <= x.p.net.conns[Current(x)].sent
    ensures Enabled(cfg, x, l) && Kind(x, l)
  {
    hide Tick, Waits, PollWrites, PollAccepts;
    var id := Current(x);
    var c := x.p.net.conns[id];
    var n := if |Unread(c)| < cfg.bufferSize then |Unread(c)| else cfg.bufferSize;
    var data := Unread(c)[..n];
    if n > 0 || c.fin || cfg.bufferSize == 0 {
      l := ReadCall(Ok(n), data, x.p.(net := x.p.net.(conns := x.p.net.conns[id := c.(given := c.given + data)])));
    } else if c.broken {
      var p' := x.p.(net := x.p.net.(conns := x.p.net.conns[id := c.(broken := true)]));
      l := ReadCall(Err(EOTHER), [], p'.(ready := Woke(x.p, x.w.rest[0].fd, Err(EOTHER))));
    } else {
      l := ReadCall(Err(EAGAIN), [], x.p);
    }
  }

  lemma SomethingIsWritten(cfg: Config, x: State) returns (l: Label)
    requires x.pc.Writing? && HasCurrent(x) && Owed(x) != []
    ensures Enabled(cfg, x, l) && Kind(x, l)
  {
    hide Tick, Waits, PollReads, PollAccepts;
    var id := Current(x);
    var c := x.p.net.conns[id];
    var data := Owed(x);
    var net' := x.p.net.(conns := x.p.net.conns[id := c.(out := c.out + data[..|data|])]);
    l := WriteCall(Ok(|data|), x.p.(net := net'));
  }

  // ---------------------------------------------------------------- counters

  /** How many reads delivered bytes. */
  ghost function Fruitful(labels: seq<Label>): nat {
    if labels == [] then 0
    else
      var last := labels[|labels| - 1];
      Fruitful(labels[..|labels| - 1]) + (if last.ReadCall? && last.a.Ok? && last.a.n > 0 then 1 else 0)
  }

  /** How many reads found the socket drained. */
  ghost function Drained(labels: seq<Label>): nat {
    if labels == [] then 0
    else
      var last := labels[|labels| - 1];
      Drained(labels[..|labels| - 1]) + (if last.ReadCall? && last.a == Err(EAGAIN) then 1 else 0)
  }

  /** `requests` and `eagain` count exactly those reads, over whole runs. */
  lemma {:induction false} CountersOfRuns(cfg: Config, t: Trace)
    requires IsRun(cfg, t)
    ensures Now(t).s.requests == Fruitful(t.labels) && Now(t).s.eagain == Drained(t.labels)
    decreases |t.labels|
  {
    hide Step;
    if t.labels != [] {
      BeforeIsRun(cfg, t);
      CountersOfRuns(cfg, Before(t));
      CountersMove(cfg, Now(Before(t)), t.labels[|t.labels| - 1], Now(t));
    }
  }

  lemma CountersMove(cfg: Config, x: State, l: Label, x': State)
    requires Step(cfg, x, l, x')
    ensures x'.s.requests == x.s.requests + (if l.ReadCall? && l.a.Ok? && l.a.n > 0 then 1 else 0)
    ensures x'.s.eagain == x.s.eagain + (if l.ReadCall? && l.a == Err(EAGAIN) then 1 else 0)
  {
    hide Tick, Waits, PollReads, PollWrites, PollAccepts;
  }

  predicate IsWait(x: State, l: Label) {
    l.Wait?
  }

  predicate IsRead(x: State, l: Label) {
    l.ReadCall?
  }

  predicate IsWrite(x: State, l: Label) {
    l.WriteCall?
  }

  predicate IsAdded(x: State, l: Label) {
    l == Add(true)
  }

  /** A close of a connection that was counted. */
  predicate IsCountedClose(x: State, l: Label) {
    l.Close? && x.pc.Closing?
  }

  /** The other counters count the calls they are named after; a system call is a wait, a read or a write. */
  lemma {:induction false} CallsOfRuns(cfg: Config, t: Trace)
    requires IsRun(cfg, t)
    ensures var s := Now(t).s;
            && s.waitCalls == Count(t, IsWait) && s.readCalls == Count(t, IsRead) && s.writeCalls == Count(t, IsWrite)
            && s.syscalls == s.waitCalls + s.readCalls + s.writeCalls
            && s.accepted == Count(t, IsAdded) && s.closed == Count(t, IsCountedClose) && s.threadsSpawned == 0
    decreases |t.labels|
  {
    hide Step;
    if t.labels != [] {
      BeforeIsRun(cfg, t);
      CallsOfRuns(cfg, Before(t));
      CallsMove(cfg, Now(Before(t)), t.labels[|t.labels| - 1], Now(t));
    }
  }

  lemma CallsMove(cfg: Config, x: State, l: Label, x': State)
    requires Step(cfg, x, l, x')
    ensures var s, s' := x.s, x'.s;
            && s'.waitCalls == s.waitCalls + (if l.Wait? then 1 else 0)
            && s'.readCalls == s.readCalls + (if l.ReadCall? then 1 else 0)
            && s'.writeCalls == s.writeCalls + (if l.WriteCall? then 1 else 0)
            && s'.syscalls == s.syscalls + (if l.Wait? || l.ReadCall? || l.WriteCall? then 1 else 0)
            && s'.accepted == s.accepted + (if l == Add(true) then 1 else 0)
            && s'.closed == s.closed + (if l.Close? && x.pc.Closing? then 1 else 0)
            && s'.threadsSpawned == s.threadsSpawned
  {
    hide Tick, Waits, PollReads, PollWrites, PollAccepts, CloseFd, Registered, Dispatch;
  }
}
