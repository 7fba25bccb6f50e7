/**
 The control flow of server_epoll.cpp as a state machine: where the loop
 stands, and what each answer of the kernel makes of it.  A run starts at the
 boot of the server; between any two calls of the server the outside world
 moves as it likes.  `EpollServer` shows that its methods produce exactly such
 runs; here the runs are shown to be runs of the echo service.

 Three things about the configuration decide what the server guarantees:
   - `drain`: whether an event is only left when the socket has been read empty.
     The source ties it to the trigger mode; here it is free, so that its
     necessity can be stated;
   - `bufferSize`: with an empty buffer every read answers 0;
   - the kernel may refuse to register a descriptor.
 */
module EpollMachine {
  import opened EchoSpec
  import opened Net
  import opened Runs
  import opened History
  import opened Counters
  import opened EpollModel

  datatype Config = Config(mode: Trigger, drain: bool, bufferSize: nat, maxEvents: nat)

  datatype Why = HangUp | EndOfStream | Failure

  /** The next thing the loop does. */
  datatype Pc =
    | Waiting
    | Accepting
    | Adding(fd: Fd)
    | Refused(fd: Fd)
    | Draining
    | Reading
    | Writing
    | Closing(why: Why)
    | Stopped

  /** `calls`: the waits, accepts, reads and writes made so far; `refusals`: the registrations refused so far. */
  datatype State = State(p: Poll, w: Work, s: Stats, running: bool, pc: Pc, calls: nat, refusals: nat)

  datatype Label =
    | Outside(p: Poll)
    | Wait(a: Answer, events: seq<Event>, p: Poll)
    | AcceptCall(a: Answer, p: Poll)
    | Add(ok: bool)
    | SignalRead(got: bool)
    | ReadCall(a: Answer, data: seq<Byte>, p: Poll)
    | WriteCall(a: Answer, p: Poll)
    | Close

  const Boot := Poll(NoSockets, map[LISTENER := Level, SIGNALS := Level], {}, 0)

  const Initial := State(Boot, Idle, Zero, true, Waiting, 0, 0)

  /** Where the loop goes next, with `rest` of the batch still to be handled. */
  function Dispatch(rest: seq<Event>, running: bool): Pc {
    if rest == [] then (if running then Waiting else Stopped)
    else if rest[0].fd == SIGNALS then Draining
    else if rest[0].fd == LISTENER then Accepting
    else if rest[0].hup || rest[0].err then Closing(HangUp)
    else Reading
  }

  /** The current event is handled. */
  function Left(x: State): State
    requires x.w.rest != []
  {
    x.(w := x.w.(rest := x.w.rest[1..], held := map[]), pc := Dispatch(x.w.rest[1..], x.running))
  }

  predicate OpenAt(p: Poll, fd: Fd) {
    fd in p.net.fds && p.net.fds[fd] in p.net.conns
  }

  predicate HasCurrent(x: State) {
    x.w.rest != [] && OpenAt(x.p, x.w.rest[0].fd)
  }

  /** The connection whose event is being handled, and what is owed to it. */
  function Current(x: State): Id
    requires HasCurrent(x)
  {
    x.p.net.fds[x.w.rest[0].fd]
  }

  function Owed(x: State): seq<Byte>
    requires HasCurrent(x)
  {
    Held(x.w.held, Current(x))
  }

  predicate CanClose(x: State) {
    (x.pc.Refused? && OpenAt(x.p, x.pc.fd)) || (x.pc.Closing? && HasCurrent(x))
  }

  ghost predicate Enabled(cfg: Config, x: State, l: Label) {
    match l
    case Outside(p) => Tick(x.p, p)
    case Wait(a, events, p) => x.pc.Waiting? && Waits(x.p, p, cfg.maxEvents, a, events)
    case AcceptCall(a, p) => x.pc.Accepting? && x.w.rest != [] && PollAccepts(x.p, p, a)
    case Add(ok) => x.pc.Adding? && OpenAt(x.p, x.pc.fd)
    case SignalRead(got) => x.pc.Draining? && x.w.rest != [] && (got ==> x.p.signals > 0)
    case ReadCall(a, data, p) =>
      x.pc.Reading? && HasCurrent(x) && PollReads(x.p, p, x.w.rest[0].fd, cfg.bufferSize, a, data)
    case WriteCall(a, p) =>
      x.pc.Writing? && HasCurrent(x) && PollWrites(x.p, p, x.w.rest[0].fd, Owed(x), a) && Written(a) <= |Owed(x)|
    case Close => CanClose(x)
  }

  ghost function After(cfg: Config, x: State, l: Label): State
    requires Enabled(cfg, x, l)
  {
    match l
    case Outside(p) => x.(p := p)
    case Wait(a, events, p) => AfterWait(x, a, events, p)
    case AcceptCall(a, p) => AfterAccept(x, a, p)
    case Add(ok) => AfterAdd(cfg, x, ok)
    case SignalRead(got) => AfterSignalRead(x, got)
    case ReadCall(a, data, p) => AfterRead(x, a, data, p)
    case WriteCall(a, p) => AfterWrite(cfg, x, a, p)
    case Close => AfterClose(x)
  }

  function AfterWait(x: State, a: Answer, events: seq<Event>, p: Poll): State {
    var y := x.(p := p, calls := x.calls + 1, w := x.w.(rest := events, reported := x.p.net.fds),
    s := x.s.(waitCalls := x.s.waitCalls + 1, syscalls := x.s.syscalls + 1));
    match a
    case Ok(_) => y.(pc := Dispatch(events, x.running))
    case Err(EINTR) => y
    case Err(_) => y.(pc := Stopped)
  }

  function AfterAccept(x: State, a: Answer, p: Poll): State
    requires x.w.rest != []
  {
    var y := x.(p := p, calls := x.calls + 1);
    match a
    case Ok(fd) => y.(w := x.w.(loose := {fd}), pc := Adding(fd))
    case Err(EINTR) => y
    case Err(_) => Left(y)
  }

  function AfterAdd(cfg: Config, x: State, ok: bool): State
    requires x.pc.Adding?
  {
    if ok then
      x.(p := Registered(x.p, x.pc.fd, cfg.mode), w := x.w.(loose := {}), s := x.s.(accepted := x.s.accepted + 1),
      pc := Accepting)
    else x.(pc := Refused(x.pc.fd), refusals := x.refusals + 1)
  }

  function AfterSignalRead(x: State, got: bool): State
    requires x.w.rest != [] && (got ==> x.p.signals > 0)
  {
    if got then x.(p := x.p.(signals := x.p.signals - 1), running := false, calls := x.calls + 1)
    else Left(x.(calls := x.calls + 1))
  }

  function AfterRead(x: State, a: Answer, data: seq<Byte>, p: Poll): State
    requires HasCurrent(x)
  {
    var s := x.s.(readCalls := x.s.readCalls + 1, syscalls := x.s.syscalls + 1);
    var y := x.(p := p, s := s, calls := x.calls + 1);
    match a
    case Ok(n) =>
      if n > 0 then
        y.(w := x.w.(held := map[Current(x) := data]), pc := Writing,
        s := s.(requests := s.requests + 1, bytes := s.bytes + n))
      else y.(pc := Closing(EndOfStream))
    case Err(EAGAIN) => Left(y.(s := s.(eagain := s.eagain + 1)))
    case Err(EINTR) => y
    case Err(EOTHER) => y.(pc := Closing(Failure))
  }

  function AfterWrite(cfg: Config, x: State, a: Answer, p: Poll): State
    requires HasCurrent(x) && Written(a) <= |Owed(x)|
  {
    var rest := Owed(x)[Written(a)..];
    var y := x.(p := p, calls := x.calls + 1, w := x.w.(held := map[Current(x) := rest]),
    s := x.s.(writeCalls := x.s.writeCalls + 1, syscalls := x.s.syscalls + 1));
    if a == Err(EOTHER) then y.(pc := Closing(Failure))
    else if rest != [] then y
    else if cfg.drain then y.(w := y.w.(held := map[]), pc := Reading)
    else Left(y)
  }

  function AfterClose(x: State): State
    requires CanClose(x)
  {
    if x.pc.Refused? then
      x.(p := CloseFd(x.p, x.pc.fd), w := x.w.(loose := {}), pc := Accepting)
    else
      Left(x.(p := CloseFd(x.p, x.w.rest[0].fd), s := x.s.(closed := x.s.closed + 1)))
  }

  ghost predicate Step(cfg: Config, x: State, l: Label, x': State) {
    Enabled(cfg, x, l) && x' == After(cfg, x, l)
  }

  // ---------------------------------------------------------------- the invariant

  /** The server never leaves an event with bytes it was not told about again: the kernel reports them again, or
      the socket was read empty, or no event is ever left after a successful read. */
  predicate Sane(cfg: Config) {
    cfg.mode.Level? || cfg.drain || cfg.bufferSize == 0 || cfg.maxEvents == 0
  }

  /** The configurations of server_epoll.cpp. */
  predicate Source(cfg: Config) {
    cfg.drain <==> cfg.mode.Edge?
  }

  predicate AtConnection(x: State) {
    x.w.rest != [] && x.w.rest[0].fd != LISTENER && x.w.rest[0].fd != SIGNALS && x.w.loose == {}
  }

  /** The stream of the connection being handled has ended and nothing is owed to it. */
  ghost predicate Ended(x: State)
    requires HasCurrent(x)
  {
    var c := x.p.net.conns[Current(x)];
    c.fin && c.given == c.sent && Owed(x) == []
  }

  ghost predicate PcInv(cfg: Config, x: State) {
    && (!x.pc.Writing? && !x.pc.Closing? ==> x.w.held == map[])
    && (x.w.rest != [] ==> cfg.maxEvents > 0)
    && match x.pc
       case Waiting => x.w.rest == [] && x.w.loose == {} && x.running
       case Accepting => x.w.rest != [] && x.w.rest[0].fd == LISTENER && x.w.loose == {}
       case Adding(fd) => x.w.rest != [] && x.w.rest[0].fd == LISTENER && x.w.loose == {fd}
       case Refused(fd) => x.w.rest != [] && x.w.rest[0].fd == LISTENER && x.w.loose == {fd}
       case Draining => x.w.rest != [] && x.w.rest[0].fd == SIGNALS && x.w.loose == {}
       case Reading => AtConnection(x)
       case Writing =>
         && AtConnection(x) && cfg.bufferSize > 0
         && HasCurrent(x) && Owed(x) != [] && x.w.held.Keys == {Current(x)}
       case Closing(why) =>
         && AtConnection(x) && HasCurrent(x) && x.w.held.Keys <= {Current(x)}
         && (why.EndOfStream? ==> cfg.bufferSize == 0 || Ended(x))
         && (!why.EndOfStream? ==> x.p.net.conns[Current(x)].broken)
       case Stopped => x.w.rest == [] && x.w.loose == {}
  }

  ghost predicate MachineInv(cfg: Config, x: State) {
    ServerInv(x.p, x.w, cfg.mode, x.s) && PcInv(cfg, x)
  }

  ghost predicate Moves(x: State, x': State) {
    Refines(x.p.net, x.w.held, x'.p.net, x'.w.held)
  }

  // ---------------------------------------------------------------- every step keeps it

  lemma MachineParts(cfg: Config, x: State)
    requires MachineInv(cfg, x)
    ensures ServerInv(x.p, x.w, cfg.mode, x.s) && Inv(x.p, x.w, cfg.mode) && Counted(x.p, x.w, x.s) && PcInv(cfg, x)
    ensures NetInv(x.p.net, x.w.held)
    ensures LISTENER !in x.p.net.fds && SIGNALS !in x.p.net.fds && x.p.ready <= x.p.reg.Keys
    ensures x.w.rest != [] ==> x.w.rest[0].fd in x.p.reg
    ensures AtConnection(x) ==>
              && HasCurrent(x) && x.p.reg[x.w.rest[0].fd] == cfg.mode
              && x.p.net.conns[Current(x)].given <= x.p.net.conns[Current(x)].sent
              && ((x.w.rest[0].hup || x.w.rest[0].err) ==> x.p.net.conns[Current(x)].broken)
    ensures x.w.rest != [] && (x.w.rest[0].fd == LISTENER || x.w.rest[0].fd == SIGNALS) ==>
              x.p.reg[x.w.rest[0].fd] == Level
    ensures forall fd | fd in x.w.loose :: OpenAt(x.p, fd)
  {
    CurrentFacts(x.p, x.w, cfg.mode);
  }

  lemma MachineFolds(cfg: Config, x: State)
    requires Inv(x.p, x.w, cfg.mode) && Counted(x.p, x.w, x.s) && PcInv(cfg, x)
    ensures MachineInv(cfg, x)
  {
  }

  lemma OutsideKeeps(cfg: Config, x: State, p: Poll)
    requires MachineInv(cfg, x) && Tick(x.p, p)
    ensures MachineInv(cfg, x.(p := p)) && Moves(x, x.(p := p))
  {
    hide *;
    var x' := x.(p := p);
    MachineParts(cfg, x);
    TickFacts(x.p, p, x.w, cfg.mode, x.s);
    TickKeeps(x.p, p, x.w, cfg.mode);
    InvFolds(p, x.w, cfg.mode, x.s);
    OutsideKeepsPc(cfg, x, p);
    MachineFolds(cfg, x');
    MovesFolds(x, x');
  }

  lemma MovesFolds(x: State, x': State)
    requires Refines(x.p.net, x.w.held, x'.p.net, x'.w.held) || PollRefines(x.p, x.w, x'.p, x'.w)
    ensures Moves(x, x')
  {
    hide Refines;
  }

  lemma OutsideKeepsPc(cfg: Config, x: State, p: Poll)
    requires PcInv(cfg, x) && Tick(x.p, p)
    ensures PcInv(cfg, x.(p := p))
  {
  }

  /** Leaving an event: nothing is owed, and an edge-triggered socket has nothing more to report. */
  lemma LeftKeeps(cfg: Config, x: State)
    requires Inv(x.p, x.w, cfg.mode) && Counted(x.p, x.w, x.s) && x.w.rest != [] && x.w.loose == {}
    requires cfg.maxEvents > 0 && x.w.held == map[]
    requires x.w.rest[0].fd in x.p.reg && x.p.reg[x.w.rest[0].fd].Edge? ==> !Ready(x.p, x.w.rest[0].fd)
    ensures MachineInv(cfg, Left(x)) && Left(x).p == x.p && Left(x).w.held == x.w.held
  {
    hide *;
    var x' := Left(x);
    LeftIs(x);
    HeldNothing();
    assert x.w.(rest := x.w.rest[1..]) == x.w.(rest := x.w.rest[1..], held := map[]);
    EventDoneKeeps(x.p, x.w, cfg.mode);
    CountedLoose(x.p, x.w, x'.w, x.s);
    BatchEvents(cfg, x');
    DispatchesWell(cfg, x');
    MachineFolds(cfg, x');
  }

  lemma LeftIs(x: State)
    requires x.w.rest != []
    ensures Left(x) == x.(w := x.w.(rest := x.w.rest[1..], held := map[]), pc := Dispatch(x.w.rest[1..], x.running))
  {
  }

  lemma HeldNothing()
    ensures forall id :: Held(map[], id) == []
  {
  }

  lemma CountedLoose(p: Poll, w: Work, w': Work, s: Stats)
    requires Counted(p, w, s) && w'.loose == w.loose
    ensures Counted(p, w', s)
  {
  }

  /** What the invariant says about the first event of the rest of a batch. */
  lemma BatchEvents(cfg: Config, x: State)
    requires Inv(x.p, x.w, cfg.mode) && x.w.loose == {}
    ensures x.w.rest != [] && x.w.rest[0].fd != LISTENER && x.w.rest[0].fd != SIGNALS ==>
              && HasCurrent(x)
              && ((x.w.rest[0].hup || x.w.rest[0].err) ==> x.p.net.conns[Current(x)].broken)
  {
    CurrentFacts(x.p, x.w, cfg.mode);
  }

  lemma DispatchesWell(cfg: Config, x: State)
    requires x.w.held == map[] && x.w.loose == {} && cfg.maxEvents > 0 && x.pc == Dispatch(x.w.rest, x.running)
    requires x.w.rest != [] && x.w.rest[0].fd != LISTENER && x.w.rest[0].fd != SIGNALS ==>
               && HasCurrent(x)
               && ((x.w.rest[0].hup || x.w.rest[0].err) ==> x.p.net.conns[Current(x)].broken)
    ensures PcInv(cfg, x)
  {
  }

  lemma WaitKeeps(cfg: Config, x: State, l: Label)
    requires Enabled(cfg, x, l) && l.Wait? && MachineInv(cfg, x)
    ensures MachineInv(cfg, After(cfg, x, l)) && Moves(x, After(cfg, x, l))
  {
    hide ServerInv, Inv, Counted, Moves, Refines, MachineInv, Tick, HeldInv, NetInv;
    MachineParts(cfg, x);
    var x' := After(cfg, x, l);
    var a, events, p := l.a, l.events, l.p;
    WaitStepKeeps(x.p, p, x.w, cfg.mode, cfg.maxEvents, a, events);
    CountedWait(x.p, p, x.w, x'.w, x.s);
    NothingMoves(x.p.net, x.w.held, x.w.held);
    MovesFolds(x, x');
    if a.Ok? {
      BatchEvents(cfg, x');
      DispatchesWell(cfg, x');
    }
    MachineFolds(cfg, x');
  }

  lemma CountedWait(p: Poll, p': Poll, w: Work, w': Work, s: Stats)
    requires Counted(p, w, s) && w'.loose == w.loose && p'.net == p.net
    ensures Counted(p', w', s.(waitCalls := s.waitCalls + 1, syscalls := s.syscalls + 1))
  {
  }

  lemma AcceptKeepsMachine(cfg: Config, x: State, l: Label)
    requires Enabled(cfg, x, l) && l.AcceptCall? && MachineInv(cfg, x)
    ensures MachineInv(cfg, After(cfg, x, l)) && Moves(x, After(cfg, x, l))
  {
    hide ServerInv, Inv, Counted, Moves, Refines, MachineInv, Tick, HeldInv, NetInv, Waits, PollRefines, Ready;
    MachineParts(cfg, x);
    var x' := After(cfg, x, l);
    var a, p := l.a, l.p;
    AcceptStepKeeps(x.p, p, x.w, cfg.mode, a);
    if a.Ok? {
      assert x.w.loose + {a.n} == {a.n};
      CountedAccept(x.p, p, x.w, x.s, a);
      MachineFolds(cfg, x');
      MovesFolds(x, x');
    } else {
      NothingMoves(x.p.net, x.w.held, x.w.held);
      if a == Err(EINTR) {
        MachineFolds(cfg, x');
      } else {
        LeftKeeps(cfg, x.(calls := x.calls + 1));
      }
      MovesFolds(x, x');
    }
  }

  lemma CountedAccept(p: Poll, p': Poll, w: Work, s: Stats, a: Answer)
    requires Counted(p, w, s) && w.loose == {} && PollAccepts(p, p', a) && a.Ok?
    requires |p'.net.fds| == |p.net.fds| + 1
    ensures Counted(p', w.(loose := {a.n}), s)
  {
    TotalGivenFrame(p.net.conns, p'.net.conns);
    assert |{a.n}| == 1;
  }

  lemma AddKeeps(cfg: Config, x: State, l: Label)
    requires Enabled(cfg, x, l) && l.Add? && MachineInv(cfg, x)
    ensures MachineInv(cfg, After(cfg, x, l)) && Moves(x, After(cfg, x, l))
  {
    hide ServerInv, Inv, Counted, Moves, Refines, MachineInv, Tick, HeldInv, NetInv, Waits, PollRefines, Ready;
    MachineParts(cfg, x);
    var x' := After(cfg, x, l);
    var ok := l.ok;
    NothingMoves(x.p.net, x.w.held, x.w.held);
    if ok {
      AddStepKeeps(x.p, x'.p, x.w, cfg.mode, x.pc.fd);
      assert x.w.loose - {x.pc.fd} == {};
      CountedAdd(x.p, x'.p, x.w, x.s, x.pc.fd, cfg.mode);
    }
    MachineFolds(cfg, x');
    MovesFolds(x, x');
  }

  lemma CountedAdd(p: Poll, p': Poll, w: Work, s: Stats, fd: Fd, mode: Trigger)
    requires Counted(p, w, s) && w.loose == {fd} && p'.net == p.net
    ensures Counted(p', w.(loose := {}), s.(accepted := s.accepted + 1))
  {
    assert |w.loose| == 1;
    assert |w.(loose := {}).loose| == 0;
  }

  lemma SignalReadKeeps(cfg: Config, x: State, l: Label)
    requires Enabled(cfg, x, l) && l.SignalRead? && MachineInv(cfg, x)
    ensures MachineInv(cfg, After(cfg, x, l)) && Moves(x, After(cfg, x, l))
  {
    hide ServerInv, Inv, Counted, Moves, Refines, MachineInv, Tick, HeldInv, NetInv, Waits, PollRefines, Ready;
    MachineParts(cfg, x);
    var x' := After(cfg, x, l);
    var got := l.got;
    NothingMoves(x.p.net, x.w.held, x.w.held);
    if got {
      SignalStepKeeps(x.p, x.w, cfg.mode);
      CountedSame(x.p, x'.p, x.w, x.s);
      MachineFolds(cfg, x');
    } else {
      LeftKeeps(cfg, x.(calls := x.calls + 1));
    }
    MovesFolds(x, x');
  }

  // ---------------------------------------------------------------- reading, writing, closing

  lemma PollReadShape(p: Poll, p': Poll, fd: Fd, cap: nat, a: Answer, data: seq<Byte>)
    requires OpenAt(p, fd) && fd != LISTENER && fd != SIGNALS && PollReads(p, p', fd, cap, a, data)
    ensures p'.net.fds == p.net.fds && p'.reg == p.reg && p'.net.conns.Keys == p.net.conns.Keys
    ensures TotalGiven(p'.net.conns) == TotalGiven(p.net.conns) + |data|
    ensures a.Ok? ==> a.n == |data| <= cap
    ensures !a.Ok? ==> data == []
    ensures a == Err(EAGAIN) ==> !Ready(p', fd) && p' == p
    ensures a == Err(EINTR) ==> p' == p
    ensures var c' := p'.net.conns[p.net.fds[fd]];
            && (a == Ok(0) && cap > 0 ==> c'.fin && c'.given == c'.sent)
            && (a == Err(EOTHER) ==> c'.broken)
  {
    ReadShape(p.net, p'.net, fd, cap, a, data);
    if a == Ok(0) {
      var c, c' := p.net.conns[p.net.fds[fd]], p'.net.conns[p.net.fds[fd]];
      assert data == [] && c'.given == c.given + [] == c.given;
    }
  }

  lemma CountedRead(p: Poll, p': Poll, w: Work, w': Work, s: Stats, s': Stats, n: nat)
    requires Counted(p, w, s) && w'.loose == w.loose
    requires p'.net.fds == p.net.fds && TotalGiven(p'.net.conns) == TotalGiven(p.net.conns) + n
    requires s' == s.(readCalls := s.readCalls + 1, syscalls := s.syscalls + 1, bytes := s.bytes + n,
                      requests := s'.requests, eagain := s'.eagain)
    ensures Counted(p', w', s')
  {
  }

  lemma ReadKeepsMachine(cfg: Config, x: State, l: Label)
    requires Enabled(cfg, x, l) && l.ReadCall? && MachineInv(cfg, x)
    ensures MachineInv(cfg, After(cfg, x, l)) && Moves(x, After(cfg, x, l))
  {
    hide ServerInv, Inv, Counted, Moves, Refines, MachineInv, Tick, HeldInv, NetInv, Waits, PollRefines, Ready,
         PollReads;
    MachineParts(cfg, x);
    var fd, id := x.w.rest[0].fd, Current(x);
    PollReadShape(x.p, l.p, fd, cfg.bufferSize, l.a, l.data);
    HeldNothing();
    ReadStepKeeps(x.p, l.p, x.w, cfg.mode, cfg.bufferSize, l.a, l.data);
    var w1 := x.w.(held := map[id := l.data]);
    assert x.w.held[id := l.data] == w1.held;
    if l.data != [] {
      BytesReadKeep(cfg, x, l.a, l.data, l.p);
    } else {
      HeldBlank(id);
      SameHeldMoves(x.p, x.w, l.p, w1, x.w);
      ForgetOwed(cfg, x.(p := l.p, w := w1));
      assert w1.(held := map[]) == x.w;
      NothingReadKeeps(cfg, x, l.a, l.data, l.p);
    }
  }

  lemma BytesReadKeep(cfg: Config, x: State, a: Answer, data: seq<Byte>, p: Poll)
    requires HasCurrent(x) && x.pc.Reading? && MachineInv(cfg, x) && a.Ok? && a.n == |data| > 0
    requires |data| <= cfg.bufferSize && OpenAt(p, x.w.rest[0].fd) && p.net.fds == x.p.net.fds
    requires TotalGiven(p.net.conns) == TotalGiven(x.p.net.conns) + |data|
    requires var w1 := x.w.(held := map[Current(x) := data]);
             Inv(p, w1, cfg.mode) && PollRefines(x.p, x.w, p, w1)
    ensures MachineInv(cfg, AfterRead(x, a, data, p)) && Moves(x, AfterRead(x, a, data, p))
  {
    hide *;
    MachineParts(cfg, x);
    var x' := AfterRead(x, a, data, p);
    AfterReadIs(x, a, data, p);
    BytesReadPc(cfg, x, a, data, p);
    CountedRead(x.p, p, x.w, x'.w, x.s, x'.s, |data|);
    MachineFolds(cfg, x');
    MovesFolds(x, x');
  }

  /** The state after a read, spelled out. */
  lemma AfterReadIs(x: State, a: Answer, data: seq<Byte>, p: Poll)
    requires HasCurrent(x)
    ensures var x' := AfterRead(x, a, data, p);
            var s := x.s.(readCalls := x.s.readCalls + 1, syscalls := x.s.syscalls + 1);
            match a
            case Ok(n) =>
              if n > 0 then
                && x'.p == p && x'.w == x.w.(held := map[Current(x) := data])
                && x'.s == s.(requests := s.requests + 1, bytes := s.bytes + n)
              else x' == x.(p := p, s := s, calls := x.calls + 1, pc := Closing(EndOfStream))
            case Err(EAGAIN) =>
              x.w.rest != [] && x' == Left(x.(p := p, s := s.(eagain := s.eagain + 1), calls := x.calls + 1))
            case Err(EINTR) => x' == x.(p := p, s := s, calls := x.calls + 1)
            case Err(EOTHER) => x' == x.(p := p, s := s, calls := x.calls + 1, pc := Closing(Failure))
  {
  }

  lemma BytesReadPc(cfg: Config, x: State, a: Answer, data: seq<Byte>, p: Poll)
    requires HasCurrent(x) && x.pc.Reading? && PcInv(cfg, x) && a.Ok? && a.n == |data| > 0
    requires |data| <= cfg.bufferSize && OpenAt(p, x.w.rest[0].fd) && p.net.fds == x.p.net.fds
    ensures PcInv(cfg, AfterRead(x, a, data, p))
  {
  }

  lemma NothingReadKeeps(cfg: Config, x: State, a: Answer, data: seq<Byte>, p: Poll)
    requires HasCurrent(x) && x.pc.Reading? && MachineInv(cfg, x) && data == []
    requires OpenAt(p, x.w.rest[0].fd) && p.net.fds == x.p.net.fds && p.reg == x.p.reg
    requires TotalGiven(p.net.conns) == TotalGiven(x.p.net.conns)
    requires Inv(p, x.w, cfg.mode) && PollRefines(x.p, x.w, p, x.w)
    requires a.Ok? ==> a.n == 0
    requires a == Err(EAGAIN) ==> !Ready(p, x.w.rest[0].fd)
    requires var c' := p.net.conns[Current(x)];
             && (a == Ok(0) && cfg.bufferSize > 0 ==> c'.fin && c'.given == c'.sent)
             && (a == Err(EOTHER) ==> c'.broken)
    ensures MachineInv(cfg, AfterRead(x, a, data, p)) && Moves(x, AfterRead(x, a, data, p))
  {
    hide *;
    MachineParts(cfg, x);
    var x' := AfterRead(x, a, data, p);
    AfterReadIs(x, a, data, p);
    ReadingHolds(cfg, x);
    if a == Err(EAGAIN) {
      var y := x.(p := p, s := x.s.(readCalls := x.s.readCalls + 1, syscalls := x.s.syscalls + 1,
                                    eagain := x.s.eagain + 1), calls := x.calls + 1);
      CountedRead(x.p, p, x.w, x.w, x.s, y.s, 0);
      LeftKeeps(cfg, y);
    } else {
      NothingReadPc(cfg, x, a, data, p);
      CountedRead(x.p, p, x.w, x'.w, x.s, x'.s, 0);
      MachineFolds(cfg, x');
    }
    SameHeldOf(x, x');
    MovesFolds(x, x');
  }

  lemma ReadingHolds(cfg: Config, x: State)
    requires PcInv(cfg, x) && x.pc.Reading?
    ensures x.w.held == map[] && x.w.rest != [] && x.w.loose == {} && cfg.maxEvents > 0
  {
  }

  lemma NothingReadPc(cfg: Config, x: State, a: Answer, data: seq<Byte>, p: Poll)
    requires HasCurrent(x) && x.pc.Reading? && PcInv(cfg, x) && data == [] && a != Err(EAGAIN)
    requires OpenAt(p, x.w.rest[0].fd) && p.net.fds == x.p.net.fds && (a.Ok? ==> a.n == 0)
    requires var c' := p.net.conns[Current(x)];
             && (a == Ok(0) && cfg.bufferSize > 0 ==> c'.fin && c'.given == c'.sent)
             && (a == Err(EOTHER) ==> c'.broken)
    ensures PcInv(cfg, AfterRead(x, a, data, p))
  {
  }

  lemma SameHeldOf(x: State, x': State)
    requires PollRefines(x.p, x.w, x'.p, x.w) && x'.w.held == x.w.held
    ensures PollRefines(x.p, x.w, x'.p, x'.w)
  {
    hide Refines;
  }

  lemma HeldBlank(id: Id)
    ensures SameHeld(map[id := []], map[])
  {
  }

  lemma SameHeldMoves(p: Poll, w: Work, p': Poll, w': Work, w2: Work)
    requires PollRefines(p, w, p', w') && SameHeld(w'.held, w2.held)
    ensures PollRefines(p, w, p', w2)
  {
    hide Refines, SameHeld;
    SameHeldRefines(p.net, w.held, p'.net, w'.held, w2.held);
  }

  lemma ForgetOwed(cfg: Config, x: State)
    requires Inv(x.p, x.w, cfg.mode) && SameHeld(x.w.held, map[])
    ensures Inv(x.p, x.w.(held := map[]), cfg.mode)
  {
    HeldNothing();
    ForgetKeeps(x.p, x.w, cfg.mode);
  }

  lemma WriteKeepsMachine(cfg: Config, x: State, l: Label)
    requires Enabled(cfg, x, l) && l.WriteCall? && MachineInv(cfg, x) && Sane(cfg)
    ensures MachineInv(cfg, After(cfg, x, l)) && Moves(x, After(cfg, x, l))
  {
    hide ServerInv, Inv, Counted, Moves, Refines, MachineInv, Tick, HeldInv, NetInv, Waits, PollRefines, Ready,
         PollWrites;
    MachineParts(cfg, x);
    var x' := After(cfg, x, l);
    var a, p := l.a, l.p;
    var fd, id := x.w.rest[0].fd, Current(x);
    var rest := Owed(x)[Written(a)..];
    PollWriteShape(x.p, p, fd, Owed(x), a);
    WriteStepKeeps(x.p, p, x.w, cfg.mode, Owed(x), a);
    var w2 := x.w.(held := map[id := rest]);
    assert x.w.held[id := rest] == w2.held;
    CountedWrite(x.p, p, x.w, x'.w, x.s);
    if a == Err(EOTHER) || rest != [] {
      assert x'.w == w2;
      MachineFolds(cfg, x');
    } else {
      HeldBlank(id);
      SameHeldMoves(x.p, x.w, p, w2, x'.w);
      ForgetOwed(cfg, x.(p := p, w := w2));
      if cfg.drain {
        MachineFolds(cfg, x');
      } else {
        CountedLoose(p, x'.w, w2.(held := map[]), x'.s);
        LeftKeeps(cfg, x.(p := p, w := w2.(held := map[]), s := x'.s, calls := x'.calls));
      }
    }
    MovesFolds(x, x');
  }

  lemma CountedWrite(p: Poll, p': Poll, w: Work, w': Work, s: Stats)
    requires Counted(p, w, s) && w'.loose == w.loose
    requires p'.net.fds == p.net.fds && TotalGiven(p'.net.conns) == TotalGiven(p.net.conns)
    ensures Counted(p', w', s.(writeCalls := s.writeCalls + 1, syscalls := s.syscalls + 1))
  {
  }

  lemma CountedClose(p: Poll, w: Work, s: Stats, fd: Fd, w': Work)
    requires Counted(p, w, s) && OpenAt(p, fd) && w'.loose == w.loose
    ensures Counted(CloseFd(p, fd), w', s.(closed := s.closed + 1))
  {
    CloseShrinks(p.net, fd);
    TotalGivenFrame(p.net.conns, CloseFd(p, fd).net.conns);
  }

  lemma CountedRefused(p: Poll, w: Work, s: Stats, fd: Fd)
    requires Counted(p, w, s) && w.loose == {fd} && OpenAt(p, fd)
    requires |CloseFd(p, fd).net.fds| == |p.net.fds| - 1
    ensures Counted(CloseFd(p, fd), w.(loose := {}), s)
  {
    TotalGivenFrame(p.net.conns, CloseFd(p, fd).net.conns);
    assert |w.loose| == 1;
    assert |w.(loose := {}).loose| == 0;
  }

  lemma CloseKeepsMachine(cfg: Config, x: State, l: Label)
    requires Enabled(cfg, x, l) && l.Close? && MachineInv(cfg, x)
    ensures MachineInv(cfg, After(cfg, x, l)) && Moves(x, After(cfg, x, l))
  {
    hide ServerInv, Inv, Counted, Moves, Refines, MachineInv, Tick, HeldInv, NetInv, Waits, PollRefines, Ready,
         CloseFd;
    MachineParts(cfg, x);
    var x' := After(cfg, x, l);
    if x.pc.Refused? {
      CloseLooseKeeps(x.p, x.w, cfg.mode, x.pc.fd);
      assert x.w.(loose := x.w.loose - {x.pc.fd}, held := x.w.held - {x.p.net.fds[x.pc.fd]}) == x'.w;
      CountedRefused(x.p, x.w, x.s, x.pc.fd);
      MachineFolds(cfg, x');
    } else {
      CloseStepKeeps(x.p, x.w, cfg.mode);
      CountedClose(x.p, x.w, x.s, x.w.rest[0].fd, x'.w);
      assert x'.w == x.w.(rest := x.w.rest[1..], held := x.w.held - {Current(x)});
      BatchEvents(cfg, x');
      DispatchesWell(cfg, x');
      MachineFolds(cfg, x');
    }
    MovesFolds(x, x');
  }

  /** Every step, of the server or of the outside world, keeps the invariant, and moves every connection by at
      most one step of a server. */
  lemma StepKeepsMachine(cfg: Config, x: State, l: Label, x': State)
    requires Sane(cfg) && MachineInv(cfg, x) && Step(cfg, x, l, x')
    ensures MachineInv(cfg, x') && Moves(x, x')
  {
    hide MachineInv, Moves, Sane, AfterWait, AfterAccept, AfterAdd, AfterSignalRead, AfterRead, AfterWrite, AfterClose,
         Tick, Waits;
    match l
    case Outside(p) => OutsideKeeps(cfg, x, p);
    case Wait(_, _, _) => WaitKeeps(cfg, x, l);
    case AcceptCall(_, _) => AcceptKeepsMachine(cfg, x, l);
    case Add(_) => AddKeeps(cfg, x, l);
    case SignalRead(_) => SignalReadKeeps(cfg, x, l);
    case ReadCall(_, _, _) => ReadKeepsMachine(cfg, x, l);
    case WriteCall(_, _) => WriteKeepsMachine(cfg, x, l);
    case Close => CloseKeepsMachine(cfg, x, l);
  }

  // ---------------------------------------------------------------- runs

  type Trace = Walk<State, Label>

  ghost function Steps(cfg: Config): (State, Label, State) -> bool {
    (x, l, x') => Step(cfg, x, l, x')
  }

  ghost predicate IsRun(cfg: Config, t: Trace) {
    Follows(t, Initial, Steps(cfg))
  }

  function Now(t: Trace): State {
    if t.states == [] then Initial else End(t)
  }

  const Begun: Trace := Single(Initial)

  ghost function Then(cfg: Config, t: Trace, l: Label): Trace
    requires Enabled(cfg, Now(t), l)
  {
    Extended(t, l, After(cfg, Now(t), l))
  }

  lemma BegunIsRun(cfg: Config)
    ensures IsRun(cfg, Begun) && Now(Begun) == Initial
  {
  }

  lemma ThenIsRun(cfg: Config, t: Trace, l: Label)
    requires IsRun(cfg, t) && Enabled(cfg, Now(t), l)
    ensures IsRun(cfg, Then(cfg, t, l)) && Now(Then(cfg, t, l)) == After(cfg, Now(t), l)
    ensures Longer(t, Then(cfg, t, l))
  {
    hide Enabled, After, Longer;
    ExtendedFollows(t, Initial, Steps(cfg), l, After(cfg, Now(t), l));
  }

  /** A write that the kernel refused for now: it has to be made again as it was. */
  predicate Repeats(l: Label) {
    l.WriteCall? && (l.a == Err(EAGAIN) || l.a == Err(EINTR))
  }

  ghost function Repeated(labels: seq<Label>): nat {
    if labels == [] then 0
    else
      var last := labels[|labels| - 1];
      Repeated(labels[..|labels| - 1]) + (if Repeats(last) then 1 else 0)
  }

  lemma BeforeIsRun(cfg: Config, t: Trace)
    requires IsRun(cfg, t) && t.labels != []
    ensures IsRun(cfg, Before(t))
    ensures Step(cfg, Now(Before(t)), t.labels[|t.labels| - 1], Now(t))
    ensures Now(Before(t)) == t.states[|t.labels| - 1]
  {
    hide Step;
    BeforeFollows(t, Initial, Steps(cfg));
  }

  lemma InitialKeeps(cfg: Config)
    ensures MachineInv(cfg, Initial)
  {
  }

  lemma {:induction false} RunKeepsMachine(cfg: Config, t: Trace)
    requires Sane(cfg) && IsRun(cfg, t)
    ensures MachineInv(cfg, Now(t))
    decreases |t.labels|
  {
    hide MachineInv, Step, Sane, Moves;
    if t.labels == [] {
      InitialKeeps(cfg);
    } else {
      BeforeIsRun(cfg, t);
      RunKeepsMachine(cfg, Before(t));
      StepKeepsMachine(cfg, Now(Before(t)), t.labels[|t.labels| - 1], Now(t));
    }
  }

  /** What the sockets and the holdings were at each moment of the run. */
  ghost function Moments(states: seq<State>): (h: seq<Moment>)
    ensures |h| == |states|
    ensures forall i | 0 <= i < |states| :: h[i] == Moment(states[i].p.net, states[i].w.held)
  {
    seq(|states|, i requires 0 <= i < |states| => Moment(states[i].p.net, states[i].w.held))
  }

  lemma {:induction false} RunBehaves(cfg: Config, t: Trace)
    requires Sane(cfg) && IsRun(cfg, t)
    ensures Behaves(Moments(t.states))
    decreases |t.labels|
  {
    hide MachineInv, Step, Sane, Refines;
    if t.labels != [] {
      BeforeIsRun(cfg, t);
      RunBehaves(cfg, Before(t));
      RunKeepsMachine(cfg, Before(t));
      StepKeepsMachine(cfg, Now(Before(t)), t.labels[|t.labels| - 1], Now(t));
      assert Moments(Before(t).states) == Moments(t.states)[..|t.labels|];
    }
  }

  /** Every run, seen from any one connection, is a run of that connection with a server, and it is a run of the
      echo service of RFC 862 if and only if the server has not dropped the connection. */
  lemma RunsEcho(cfg: Config, t: Trace, id: Id)
    requires Sane(cfg) && IsRun(cfg, t) && id in Now(t).p.net.conns
    ensures var run := Projection(Moments(t.states), id);
            && ServerRun(run) && run[|run| - 1] == (Now(t).p.net.conns[id], Held(Now(t).w.held, id))
            && (EchoRun(run) <==> !Now(t).p.net.conns[id].dropped)
  {
    hide *;
    RunShape(cfg, t);
    RunBehaves(cfg, t);
    ProjectionIsServerRun(Moments(t.states), id);
    ProjectionIsEchoRun(Moments(t.states), id);
  }

  lemma RunShape(cfg: Config, t: Trace)
    requires IsRun(cfg, t)
    ensures |t.states| == |t.labels| + 1 > 0 && Now(t) == t.states[|t.states| - 1]
  {
  }
}
