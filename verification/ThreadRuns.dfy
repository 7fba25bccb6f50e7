/**
 What holds of all runs of server_threads.cpp, and exactly when: every run is,
 for each connection, a run of a server; which steps are not steps of the echo
 service; and what the shutdown and an empty buffer cost.
 */
module ThreadRuns {
  import opened EchoSpec
  import opened Net
  import opened Runs
  import opened History
  import opened Counters
  import opened Threads

  // ---------------------------------------------------------------- what is owed

  function RestOf(w: Worker): seq<Byte> {
    if Sent(w) <= |w.data| then Rest(w) else []
  }

  /** The bytes all workers together hold, by connection. */
  ghost function Owed(ws: seq<Worker>): Holdings {
    if ws == [] then map[]
    else
      var last := ws[|ws| - 1];
      Owed(ws[..|ws| - 1])[last.id := RestOf(last)]
  }

  ghost predicate OneEach(ws: seq<Worker>) {
    forall i, j | 0 <= i < j < |ws| :: ws[i].id != ws[j].id
  }

  lemma {:induction false} OwedAt(ws: seq<Worker>, i: nat)
    requires OneEach(ws) && i < |ws|
    ensures Held(Owed(ws), ws[i].id) == RestOf(ws[i])
    decreases |ws|
  {
    hide RestOf;
    if i < |ws| - 1 {
      OwedAt(ws[..|ws| - 1], i);
    }
  }

  lemma {:induction false} OwedToNobody(ws: seq<Worker>, id: Id)
    requires !WasServed(ws, id)
    ensures Held(Owed(ws), id) == []
    decreases |ws|
  {
    hide RestOf;
    if ws != [] {
      var before := ws[..|ws| - 1];
      forall i | 0 <= i < |before| ensures before[i].id != id {
        assert ws[i].id != id;
      }
      assert ws[|ws| - 1].id != id;
      OwedToNobody(before, id);
    }
  }

  /** Only worker `i`'s connection may be owed something else. */
  lemma OwedElsewhere(ws: seq<Worker>, ws': seq<Worker>, i: nat, id: Id)
    requires OneEach(ws) && i < |ws| && |ws'| == |ws| && ws' == ws[i := ws'[i]]
    requires ws'[i].id == ws[i].id && id != ws[i].id
    ensures Held(Owed(ws'), id) == Held(Owed(ws), id)
  {
    hide RestOf, Owed;
    forall j | 0 <= j < |ws| ensures ws'[j].id == ws[j].id {
    }
    assert OneEach(ws');
    if WasServed(ws, id) {
      var j :| 0 <= j < |ws| && ws[j].id == id;
      OwedAt(ws, j);
      OwedAt(ws', j);
    } else {
      assert !WasServed(ws', id);
      OwedToNobody(ws, id);
      OwedToNobody(ws', id);
    }
  }

  /** A new worker owes nothing. */
  lemma OwedToTheNew(ws: seq<Worker>, w: Worker)
    requires RestOf(w) == [] && !WasServed(ws, w.id)
    ensures SameHeld(Owed(ws), Owed(ws + [w]))
  {
    hide RestOf;
    assert (ws + [w])[..|ws + [w]| - 1] == ws;
    OwedToNobody(ws, w.id);
  }

  // ---------------------------------------------------------------- every step is a step of a server

  /** The close of a connection that the worker is not finished with. */
  ghost predicate Early(c: Conn, w: Worker) {
    w.pc.Close? && !c.broken && !(c.fin && c.given == c.sent)
  }

  /** An action of a worker is a step of a server for its connection, and a step of the echo service unless it
      closes a connection that is not finished with; that is only ever done at the shutdown, or with an empty
      buffer, and only with nothing owed. */
  lemma WorkerRefines(s: State, s': State, i: nat, net': Sockets, a: Answer, data: seq<Byte>)
    requires i < |s.workers| && WorkerStep(s, s', i, net', a, data) && Inv(s)
    ensures |s'.workers| == |s.workers| && s'.workers[i].id == s.workers[i].id
    ensures s.workers[i].id in s.net.conns && s.workers[i].id in s'.net.conns
    ensures var w, w' := s.workers[i], s'.workers[i];
            var c, c' := s.net.conns[w.id], s'.net.conns[w.id];
            && ServerStep(c, RestOf(w), c', RestOf(w'))
            && (EchoStep(c, RestOf(w), c', RestOf(w')) <==> !Early(c, w))
            && (Early(c, w) ==> (!s.running || s.cap == 0) && !w.failed && RestOf(w) == [])
  {
    hide *;
    var w, w' := s.workers[i], NextWorker(s.workers[i], s.running, a, data);
    WorkerStepKeepsInv(s, s', i, net', a, data);
    InvParts(s);
    WorkerIsOk(s, i);
    StepShape(s, s', i, net', a, data);
    MovesParts(s.net, net', s.running, s.cap, w, w');
    NextWorkerFacts(w, s.running, a, data);
    SentBounds(s.net, s.running, s.cap, w);
    SentBounds(net', s.running, s.cap, w');
    WorkerEchoes(s.net, net', s.running, s.cap, w, a, data);
    RestIsRest(w);
    RestIsRest(w');
  }

  lemma RestIsRest(w: Worker)
    requires Sent(w) <= |w.data|
    ensures RestOf(w) == Rest(w)
  {
  }

  lemma SentBounds(net: Sockets, running: bool, cap: nat, w: Worker)
    requires WorkerOk(net, running, cap, w)
    ensures w.id in net.conns && Sent(w) <= |w.data|
  {
  }

  lemma WorkerEchoes(net: Sockets, net': Sockets, running: bool, cap: nat, w: Worker, a: Answer, data: seq<Byte>)
    requires TableInv(net) && WorkerOk(net, running, cap, w) && Calls(net, net', cap, w, a, data)
    requires w.id in net'.conns
    ensures var w' := NextWorker(w, running, a, data);
            Sent(w') <= |w'.data| ==>
              && ServerStep(net.conns[w.id], Rest(w), net'.conns[w.id], Rest(w'))
              && (EchoStep(net.conns[w.id], Rest(w), net'.conns[w.id], Rest(w')) <==> !Early(net.conns[w.id], w))
              && (Early(net.conns[w.id], w) ==> (!running || cap == 0) && !w.failed && Rest(w) == [])
  {
    hide TableInv, EchoStep, DropStep;
    var w' := NextWorker(w, running, a, data);
    var c, c' := net.conns[w.id], net'.conns[w.id];
    if w.pc.Read? {
      ReadEchoes(net, net', cap, w, a, data);
      assert data[0..] == data;
    } else if w.pc.Write? {
      WriteIsEchoStep(c, c', w.data[w.written..], a);
      assert w.data[w.written..][Written(a)..] == w.data[w.written + Written(a)..];
    } else if w.pc.Close? {
      CloseEchoes(c, c', running, cap, w);
    } else {
      StutterIsEchoStep(c, Rest(w));
      SameRest(w, running, cap, a, data, net);
    }
  }

  lemma ReadEchoes(net: Sockets, net': Sockets, cap: nat, w: Worker, a: Answer, data: seq<Byte>)
    requires w.fd in net.fds && net.fds[w.fd] in net.conns && Reads(net, net', w.fd, cap, a, data) && a != Err(EAGAIN)
    requires net.conns[net.fds[w.fd]].at.Open?
    ensures net.fds[w.fd] in net'.conns
    ensures EchoStep(net.conns[net.fds[w.fd]], [], net'.conns[net.fds[w.fd]], data)
  {
    var c, c' := net.conns[net.fds[w.fd]], net'.conns[net.fds[w.fd]];
    if a.Ok? {
      assert TakeStep(c, [], c', data);
    } else if a == Err(EOTHER) {
      assert BreakStep(c, [], c', data);
    } else {
      StutterIsEchoStep(c, []);
    }
  }

  lemma CloseEchoes(c: Conn, c': Conn, running: bool, cap: nat, w: Worker)
    requires w.pc.Close? && Sent(w) <= |w.data| && c.at.Open? && MayClose(c, running, cap, w)
    requires c.given <= c.sent && c.given == c.out + Rest(w) && !c.dropped
    requires c' == c.(at := Closed, dropped := !Finished(c))
    ensures ServerStep(c, Rest(w), c', [])
    ensures EchoStep(c, Rest(w), c', []) <==> !Early(c, w)
    ensures Early(c, w) ==> (!running || cap == 0) && !w.failed && Rest(w) == []
  {
    assert Sound(c, Rest(w));
    CloseIsServerStep(c, Rest(w), c');
    hide EchoStep, DropStep;
    if Rest(w) == [] {
      assert c.out + [] == c.out;
    }
  }

  lemma SameRest(w: Worker, running: bool, cap: nat, a: Answer, data: seq<Byte>, net: Sockets)
    requires WorkerOk(net, running, cap, w) && !w.pc.Read? && !w.pc.Write? && !w.pc.Close? && !w.pc.Exited?
    ensures var w' := NextWorker(w, running, a, data); Sent(w') <= |w'.data| ==> Rest(w') == Rest(w)
  {
  }

  lemma DistinctWorkers(s: State)
    requires Workers(s)
    ensures OneEach(s.workers)
  {
    hide WorkerOk;
  }

  lemma WorkerStepRefines(s: State, s': State, i: nat, net': Sockets, a: Answer, data: seq<Byte>)
    requires Inv(s) && i < |s.workers| && WorkerStep(s, s', i, net', a, data)
    ensures Refines(s.net, Owed(s.workers), s'.net, Owed(s'.workers))
  {
    hide *;
    WorkerRefines(s, s', i, net', a, data);
    WorkerStepKeepsInv(s, s', i, net', a, data);
    InvParts(s);
    InvParts(s');
    StepShape(s, s', i, net', a, data);
    MovesParts(s.net, net', s.running, s.cap, s.workers[i], NextWorker(s.workers[i], s.running, a, data));
    DistinctWorkers(s);
    DistinctWorkers(s');
    OwedAt(s.workers, i);
    OwedAt(s'.workers, i);
    var id := s.workers[i].id;
    forall x | x != id ensures Held(Owed(s'.workers), x) == Held(Owed(s.workers), x) {
      OwedElsewhere(s.workers, s'.workers, i, x);
    }
    OneConnMoves(s.net, Owed(s.workers), s'.net, Owed(s'.workers), id, s.workers[i].fd);
  }

  lemma OneConnMoves(net: Sockets, held: Holdings, net': Sockets, held': Holdings, id: Id, fd: Fd)
    requires Local(net, net', id, fd) && id in net.conns && id in net'.conns
    requires ServerStep(net.conns[id], Held(held, id), net'.conns[id], Held(held', id))
    requires forall x | x != id :: Held(held', x) == Held(held, x)
    ensures Refines(net, held, net', held')
  {
    hide ServerStep;
    forall x | x in net.conns ensures ServerStep(net.conns[x], Held(held, x), net'.conns[x], Held(held', x)) {
      if x != id {
        IdleConn(net.conns[x], Held(held, x));
      }
    }
  }

  lemma IdleConn(c: Conn, rest: seq<Byte>)
    ensures ServerStep(c, rest, c, rest)
  {
    StutterIsEchoStep(c, rest);
  }

  lemma MainStepRefines(s: State, s': State, net': Sockets, a: Answer, poll: Poll)
    requires Inv(s) && MainStep(s, s', net', a, poll)
    ensures Refines(s.net, Owed(s.workers), s'.net, Owed(s'.workers))
  {
    hide *;
    InvParts(s);
    if s.main.Accept? {
      AcceptShape(s, s', net', a, poll);
      AcceptRefines(s, s', a);
    } else if s.main.Spawn? {
      SpawnShape(s, s', net', a, poll);
      OwedToTheNew(s.workers, s'.workers[|s.workers|]);
      NothingMoves(s.net, Owed(s.workers), Owed(s'.workers));
    } else {
      PlainShape(s, s', net', a, poll);
      SameHeldItself(Owed(s.workers));
      NothingMoves(s.net, Owed(s.workers), Owed(s'.workers));
    }
  }

  lemma SameHeldItself(held: Holdings)
    ensures SameHeld(held, held)
  {
  }

  lemma SpawnShape(s: State, s': State, net': Sockets, a: Answer, poll: Poll)
    requires Owners(s) && MainStep(s, s', net', a, poll) && s.main.Spawn?
    ensures s'.net == s.net && |s'.workers| == |s.workers| + 1
    ensures s'.workers == s.workers + [s'.workers[|s.workers|]]
    ensures RestOf(s'.workers[|s.workers|]) == [] && !WasServed(s.workers, s'.workers[|s.workers|].id)
  {
    AcceptedFacts(s);
  }

  lemma AcceptRefines(s: State, s': State, a: Answer)
    requires TableInv(s.net) && Owners(s) && Accepts(s.net, s'.net, a) && s'.workers == s.workers
    ensures Refines(s.net, Owed(s.workers), s'.net, Owed(s'.workers))
  {
    hide Owed;
    var held := Owed(s.workers);
    forall x | x in s.net.conns
      ensures x in s'.net.conns && ServerStep(s.net.conns[x], Held(held, x), s'.net.conns[x], Held(held, x))
    {
      if s.net.conns[x] == s'.net.conns[x] {
        IdleConn(s.net.conns[x], Held(held, x));
      } else {
        assert EchoSpec.AcceptStep(s.net.conns[x], Held(held, x), s'.net.conns[x], Held(held, x));
      }
    }
  }

  lemma OutsideRefines(s: State, s': State)
    requires Inv(s) && Peers(s.net, s'.net) && s'.workers == s.workers
    ensures Refines(s.net, Owed(s.workers), s'.net, Owed(s'.workers))
  {
    hide Owed, Inv, TableInv, Tallied, Owners;
    forall x | x in s.net.conns
      ensures ServerStep(s.net.conns[x], Held(Owed(s.workers), x), s'.net.conns[x], Held(Owed(s'.workers), x))
    {
      assert PeerStep(s.net.conns[x], s'.net.conns[x]);
    }
    forall x | x in s'.net.conns && x !in s.net.conns ensures Held(Owed(s'.workers), x) == [] {
      UnknownIsUnserved(s, x);
      OwedToNobody(s.workers, x);
    }
  }

  lemma UnknownIsUnserved(s: State, id: Id)
    requires Inv(s) && id !in s.net.conns
    ensures !WasServed(s.workers, id)
  {
    hide TableInv, Tallied, Owners, MainOk;
    forall i | 0 <= i < |s.workers| ensures s.workers[i].id != id {
      assert WorkerOk(s.net, s.running, s.cap, s.workers[i]);
    }
  }

  /** Every step of every thread and of the outside world moves every connection by at most one step of a
      server. */
  lemma StepRefines(s: State, s': State, l: Label)
    requires Inv(s) && Step(s, s', l)
    ensures Refines(s.net, Owed(s.workers), s'.net, Owed(s'.workers))
  {
    hide Inv, Refines, Owed, WorkerStep, MainStep, Peers;
    match l
    case OfWorker(i, net', a, data) => WorkerStepRefines(s, s', i, net', a, data);
    case OfMain(net', a, poll) => MainStepRefines(s, s', net', a, poll);
    case Outside(net', signals') => OutsideRefines(s, s');
  }

  // ---------------------------------------------------------------- whole runs

  type Trace = Walk<State, Label>

  ghost function Steps(): (State, Label, State) -> bool {
    (s, l, s') => Step(s, s', l)
  }

  /** A run of a server whose workers have buffers of `cap` bytes. */
  ghost predicate IsRun(cap: nat, t: Trace) {
    Follows(t, Initial(cap), Steps())
  }

  function Initial(cap: nat): State {
    State(NoSockets, 0, true, Zero, MainTest, [], cap)
  }

  function Now(t: Trace): State {
    if t.states == [] then Initial(0) else End(t)
  }

  function Begun(cap: nat): Trace {
    Single(Initial(cap))
  }

  function Then(t: Trace, l: Label, s': State): Trace {
    Extended(t, l, s')
  }

  lemma BegunIsRun(cap: nat)
    ensures IsRun(cap, Begun(cap)) && Now(Begun(cap)) == Initial(cap)
  {
  }

  lemma ThenIsRun(cap: nat, t: Trace, l: Label, s': State)
    requires IsRun(cap, t) && Step(Now(t), s', l)
    ensures IsRun(cap, Then(t, l, s')) && Now(Then(t, l, s')) == s' && Longer(t, Then(t, l, s'))
  {
    hide Step, Longer;
    ExtendedFollows(t, Initial(cap), Steps(), l, s');
  }

  lemma IsRunFacts(cap: nat, t: Trace)
    requires IsRun(cap, t)
    ensures Run(t.states, t.labels) && |t.states| == |t.labels| + 1 && Now(t) == t.states[|t.labels|]
    ensures t.states[0].cap == cap
  {
  }

  lemma {:induction false} CapStays(states: seq<State>, labels: seq<Label>, k: nat)
    requires Run(states, labels) && k < |states|
    ensures states[k].cap == states[0].cap
  {
    hide Calls, Accepts, Peers;
    if k > 0 {
      CapStays(states, labels, k - 1);
      assert Step(states[k - 1], states[k], labels[k - 1]);
    }
  }

  lemma RunInvariant(cap: nat, t: Trace)
    requires IsRun(cap, t)
    ensures Inv(Now(t)) && Now(t).cap == cap
  {
    hide *;
    IsRunFacts(cap, t);
    RunKeepsInv(t.states, t.labels, |t.labels|);
    CapStays(t.states, t.labels, |t.labels|);
  }

  ghost function Moments(states: seq<State>): (h: seq<Moment>)
    ensures |h| == |states|
    ensures forall i | 0 <= i < |states| :: h[i] == Moment(states[i].net, Owed(states[i].workers))
  {
    seq(|states|, i requires 0 <= i < |states| => Moment(states[i].net, Owed(states[i].workers)))
  }

  lemma RunBehaves(states: seq<State>, labels: seq<Label>)
    requires Run(states, labels)
    ensures Behaves(Moments(states))
  {
    hide Inv, Step, Refines, Owed;
    var h := Moments(states);
    forall i | 0 < i < |h| ensures Refines(h[i-1].net, h[i-1].held, h[i].net, h[i].held) {
      RunKeepsInv(states, labels, i - 1);
      assert Step(states[i-1], states[i-1 + 1], labels[i-1]);
      StepRefines(states[i-1], states[i], labels[i-1]);
    }
  }

  /** Every interleaving, seen from any one connection, is a run of that connection with a server, and it is a run
      of the echo service of RFC 862 if and only if the server has not dropped the connection. */
  lemma RunsEcho(cap: nat, t: Trace, id: Id)
    requires IsRun(cap, t) && id in Now(t).net.conns
    ensures var run, now := Projection(Moments(t.states), id), Now(t);
            && ServerRun(run) && run[|run| - 1] == (now.net.conns[id], Held(Owed(now.workers), id))
            && (EchoRun(run) <==> !now.net.conns[id].dropped)
  {
    hide *;
    IsRunFacts(cap, t);
    RunBehaves(t.states, t.labels);
    ProjectionIsServerRun(Moments(t.states), id);
    ProjectionIsEchoRun(Moments(t.states), id);
  }

  // ---------------------------------------------------------------- dropped connections

  /** Until the shutdown, and with buffers of at least one byte, nobody is dropped; and whoever is dropped later
      has been sent back every byte that was read from it. */
  lemma DropsAreTheShutdown(cap: nat, t: Trace)
    requires IsRun(cap, t)
    ensures Now(t).running && cap > 0 ==> Dropped(Now(t).net.conns) == {}
    ensures forall id | id in Dropped(Now(t).net.conns) && !Now(t).net.conns[id].broken ::
              Now(t).net.conns[id].out == Now(t).net.conns[id].given
  {
    hide IsRun, Inv, TableInv, Workers, AcceptedOk, AllServed, QueuedOk, ClosedOk, Owners, Tallied, MainOk;
    RunInvariant(cap, t);
    var s := Now(t);
    InvParts(s);
    OwnersParts(s);
    forall id | id in s.net.conns && s.net.conns[id].dropped
      ensures !(s.running && cap > 0) && (!s.net.conns[id].broken ==> s.net.conns[id].out == s.net.conns[id].given)
    {
      DroppedIsClosed(s, id);
      ClosedConn(s, id);
    }
  }

  lemma DroppedIsClosed(s: State, id: Id)
    requires TableInv(s.net) && Workers(s) && AcceptedOk(s) && AllServed(s) && QueuedOk(s)
    requires id in s.net.conns && s.net.conns[id].dropped
    ensures s.net.conns[id].at.Closed?
  {
    hide AcceptedOk, AllServed, Workers;
    if s.net.conns[id].at.Open? {
      OpenIsNotDropped(s, id);
    }
  }

  lemma OpenIsNotDropped(s: State, id: Id)
    requires TableInv(s.net) && Workers(s) && AcceptedOk(s) && AllServed(s)
    requires id in s.net.conns && s.net.conns[id].at.Open?
    ensures !s.net.conns[id].dropped
  {
    hide WorkerOk;
    var fd := s.net.conns[id].at.fd;
    assert fd in s.net.fds && s.net.fds[fd] == id;
    if fd !in Accepted(s.main) {
      assert Served(s.workers, fd);
      var i :| 0 <= i < |s.workers| && s.workers[i].fd == fd && !s.workers[i].pc.Exited?;
      WorkerIsOk(s, i);
      LiveIsNotDropped(s.net, s.running, s.cap, s.workers[i]);
    }
  }

  lemma LiveIsNotDropped(net: Sockets, running: bool, cap: nat, w: Worker)
    requires WorkerOk(net, running, cap, w) && !w.pc.Exited?
    ensures w.fd in net.fds && net.fds[w.fd] == w.id && w.id in net.conns && !net.conns[w.id].dropped
  {
  }

  lemma ClosedConn(s: State, id: Id)
    requires Workers(s) && ClosedOk(s) && id in s.net.conns && s.net.conns[id].at.Closed?
    ensures s.net.conns[id].dropped ==> !(s.running && s.cap > 0)
    ensures s.net.conns[id].dropped && !s.net.conns[id].broken ==> s.net.conns[id].out == s.net.conns[id].given
  {
    assert WasServed(s.workers, id);
    var i :| 0 <= i < |s.workers| && s.workers[i].id == id;
    WorkerIsOk(s, i);
    hide Workers, ClosedOk;
    ClosedWorker(s.net, s.running, s.cap, s.workers[i]);
  }

  lemma ClosedWorker(net: Sockets, running: bool, cap: nat, w: Worker)
    requires WorkerOk(net, running, cap, w) && net.conns[w.id].at.Closed?
    ensures w.pc.Exited?
    ensures net.conns[w.id].dropped ==> !(running && cap > 0)
    ensures net.conns[w.id].dropped && !net.conns[w.id].broken ==> net.conns[w.id].out == net.conns[w.id].given
  {
  }

  /** While the server runs, in no run is a connection dropped. */
  ghost predicate DropsNobody(cap: nat) {
    forall t | IsRun(cap, t) && Now(t).running :: Dropped(Now(t).net.conns) == {}
  }

  /** The server drops nobody before its shutdown, in any interleaving, if and only if its buffers can hold a
      byte. */
  lemma DropsNobodyExactly(cap: nat)
    ensures DropsNobody(cap) <==> cap > 0
  {
    hide IsRun, Dropped;
    if cap > 0 {
      forall t | IsRun(cap, t) && Now(t).running ensures Dropped(Now(t).net.conns) == {} {
        DropsAreTheShutdown(cap, t);
      }
    } else {
      var t := EmptyBufferDrops();
    }
  }

  // ---------------------------------------------------------------- runs with one connection

  const FD: Fd := 5

  function OneQueued(c: Conn): Sockets {
    Sockets(map[0 := c.(at := EchoSpec.Queued)], [0], map[])
  }

  function OneOpen(c: Conn): Sockets {
    Sockets(map[0 := c.(at := Open(FD))], [], map[FD := 0])
  }

  /** A connection that has arrived and of which nothing has been read. */
  predicate Untouched(c: Conn) {
    c.given == [] && c.out == [] && !c.dropped
  }

  const NewWorker := Worker(0, FD, Test, Ok(0), [], 0, false, 0)

  lemma Took(cap: nat, t: Trace, l: Label, s': State) returns (t': Trace)
    requires IsRun(cap, t) && Step(Now(t), s', l)
    ensures IsRun(cap, t') && Now(t') == s' && Longer(t, t') && |t'.states| == |t.states| + 1
  {
    hide Step;
    ThenIsRun(cap, t, l, s');
    t' := Then(t, l, s');
  }

  lemma OneIsAccepted(c: Conn)
    requires Untouched(c)
    ensures Accepts(OneQueued(c), OneOpen(c), Ok(FD)) && Peers(NoSockets, OneQueued(c))
  {
    assert OneOpen(c).conns == OneQueued(c).conns[0 := c.(at := Open(FD))];
    assert OneOpen(c).fds == OneQueued(c).fds[FD := 0];
  }

  /** Connection `c` arrives and is accepted. */
  lemma OneArrives(cap: nat, c: Conn) returns (t: Trace)
    requires Untouched(c)
    ensures IsRun(cap, t)
    ensures var s := Now(t);
            && s == State(OneOpen(c), 0, true, s.stats, CountAccepted(FD), [], cap)
            && s.stats.accepted == 0 == s.stats.closed
  {
    hide IsRun, Accepts, Peers, Longer;
    BegunIsRun(cap);
    OneIsAccepted(c);
    var net, net' := OneQueued(c), OneOpen(c);
    assert net.backlog != [];
    var ready := Ready(false, true);
    t := Took(cap, Begun(cap), Outside(net, 0), Initial(cap).(net := net));
    t := Took(cap, t, OfMain(net, Ok(0), ready), Now(t).(main := Polling));
    t := Took(cap, t, OfMain(net, Ok(0), ready), Now(t).(main := CountWait(ready)));
    t := Took(cap, t, OfMain(net, Ok(0), ready),
              Now(t).(main := CountWaitCall(ready), stats := Now(t).stats.(waitCalls := 1)));
    t := Took(cap, t, OfMain(net, Ok(0), ready), Now(t).(main := Accept, stats := Now(t).stats.(syscalls := 1)));
    t := Took(cap, t, OfMain(net', Ok(FD), ready), Now(t).(net := net', main := CountAccepted(FD)));
  }

  /** Its worker is started. */
  lemma OneIsSpawned(cap: nat, t: Trace, c: Conn) returns (t': Trace)
    requires IsRun(cap, t) && Now(t).main == CountAccepted(FD) && Now(t).net == OneOpen(c) && Now(t).workers == []
    ensures IsRun(cap, t') && Longer(t, t')
    ensures Now(t') == Now(t).(main := MainTest, workers := [NewWorker], stats := Now(t').stats)
    ensures Now(t').stats.closed == Now(t).stats.closed
  {
    hide IsRun, Longer;
    var l := OfMain(Now(t).net, Ok(0), PollFailed(true));
    var x := Now(t);
    var t1 := Took(cap, t, l, x.(main := CountSpawned(FD), stats := x.stats.(accepted := x.stats.accepted + 1)));
    x := Now(t1);
    var t2 := Took(cap, t1, l, x.(main := Spawn(FD), stats := x.stats.(threadsSpawned := x.stats.threadsSpawned + 1)));
    t' := Took(cap, t2, l, Now(t2).(main := MainTest, workers := [NewWorker]));
    LongerOn(t, t1, t2);
    LongerOn(t, t2, t');
  }

  /** The only worker makes an action that changes no socket. */
  lemma Turn(cap: nat, t: Trace) returns (t': Trace)
    requires IsRun(cap, t) && |Now(t).workers| == 1
    requires Calls(Now(t).net, Now(t).net, Now(t).cap, Now(t).workers[0], Ok(0), [])
    ensures IsRun(cap, t') && Longer(t, t')
    ensures Now(t') == Now(t).(stats := NextStats(Now(t).stats, Now(t).workers[0]),
                               workers := [NextWorker(Now(t).workers[0], Now(t).running, Ok(0), [])])
  {
    hide IsRun, NextStats, NextWorker, Calls;
    var s := Now(t);
    var w' := NextWorker(s.workers[0], s.running, Ok(0), []);
    assert s.workers[0 := w'] == [w'];
    var s' := s.(stats := NextStats(s.stats, s.workers[0]), workers := [w']);
    t' := Took(cap, t, OfWorker(0, s.net, Ok(0), []), s');
  }

  lemma TurnOn(cap: nat, t: Trace, t1: Trace) returns (t': Trace)
    requires IsRun(cap, t1) && Longer(t, t1) && |Now(t1).workers| == 1
    requires Calls(Now(t1).net, Now(t1).net, Now(t1).cap, Now(t1).workers[0], Ok(0), [])
    ensures IsRun(cap, t') && Longer(t, t')
    ensures Now(t') == Now(t1).(stats := NextStats(Now(t1).stats, Now(t1).workers[0]),
                                workers := [NextWorker(Now(t1).workers[0], Now(t1).running, Ok(0), [])])
  {
    hide *;
    t' := Turn(cap, t1);
    LongerOn(t, t1, t');
  }

  lemma ReadsNothing(cap: nat, c: Conn)
    requires Untouched(c) && (cap == 0 || (c.fin && c.sent == []))
    ensures Reads(OneOpen(c), OneOpen(c), FD, cap, Ok(0), [])
  {
    var k := c.(at := Open(FD));
    assert k.(given := k.given + []) == k;
    assert OneOpen(c).conns[0 := k] == OneOpen(c).conns;
  }

  /** The only worker has read 0 bytes, leaves its loop and counts its exit. */
  lemma OneLeaves(cap: nat, t: Trace, c: Conn) returns (t': Trace)
    requires IsRun(cap, t) && Untouched(c) && (cap == 0 || (c.fin && c.sent == []))
    requires Now(t) == State(OneOpen(c), 0, true, Now(t).stats, MainTest, [NewWorker], cap)
    ensures IsRun(cap, t') && Longer(t, t')
    ensures Now(t').net == OneOpen(c) && Now(t').running && Now(t').cap == cap && |Now(t').workers| == 1
    ensures Now(t').workers[0].pc == Threads.Close && Now(t').workers[0].fd == FD
    ensures Now(t').stats.closed == Now(t).stats.closed + 1
  {
    hide IsRun, Longer, Reads;
    ReadsNothing(cap, c);
    var t1 := Turn(cap, t);
    t1 := TurnOn(cap, t, t1);
    t1 := TurnOn(cap, t, t1);
    t1 := TurnOn(cap, t, t1);
    t' := TurnOn(cap, t, t1);
  }

  /** The only worker closes its connection. */
  lemma OneCloses(cap: nat, t: Trace, c: Conn) returns (t': Trace)
    requires IsRun(cap, t) && |Now(t).workers| == 1 && Now(t).net == OneOpen(c) && Untouched(c)
    requires Now(t).workers[0].pc == Threads.Close && Now(t).workers[0].fd == FD
    ensures IsRun(cap, t') && Now(t').running == Now(t).running
    ensures Now(t').net.conns == map[0 := c.(at := Closed, dropped := !Finished(c))]
  {
    hide IsRun, Longer;
    var s := Now(t);
    var net' := Net.Close(s.net, FD);
    var w' := NextWorker(s.workers[0], s.running, Ok(0), []);
    assert s.workers[0 := w'] == [w'];
    assert Finished(c.(at := Open(FD))) == Finished(c);
    t' := Took(cap, t, OfWorker(0, net', Ok(0), []),
               s.(net := net', stats := NextStats(s.stats, s.workers[0]), workers := [w']));
  }

  const OWED := Conn([65], [], [], false, false, false, EchoSpec.Queued)

  /** An empty buffer makes the first read answer 0: the worker takes that for the end of the stream and closes a
      healthy connection of which it has not echoed a byte. */
  lemma EmptyBufferDrops() returns (t: Trace)
    ensures IsRun(0, t) && Now(t).running
    ensures Now(t).net.conns == map[0 := OWED.(at := Closed, dropped := true)]
    ensures 0 in Dropped(Now(t).net.conns)
  {
    hide IsRun, Longer;
    t := OneArrives(0, OWED);
    t := OneIsSpawned(0, t, OWED);
    t := OneLeaves(0, t, OWED);
    t := OneCloses(0, t, OWED);
  }

  /** Whatever the size of the buffers, the shutdown loses bytes: a worker that finds the flag cleared closes a
      healthy connection with an unread byte. */
  lemma ShutdownDrops(cap: nat) returns (t: Trace)
    ensures IsRun(cap, t) && !Now(t).running
    ensures Now(t).net.conns == map[0 := OWED.(at := Closed, dropped := true)]
    ensures 0 in Dropped(Now(t).net.conns)
  {
    hide IsRun, Longer;
    t := OneArrives(cap, OWED);
    t := OneIsSpawned(cap, t, OWED);
    t := Interrupted(cap, t);
    t := Turn(cap, t);
    t := Turn(cap, t);
    t := OneCloses(cap, t, OWED);
  }

  /** A signal arrives, and the main thread clears the flag. */
  lemma Interrupted(cap: nat, t: Trace) returns (t': Trace)
    requires IsRun(cap, t) && Now(t).main == MainTest && Now(t).running && Now(t).signals == 0
    ensures IsRun(cap, t') && !Now(t').running && Now(t').net == Now(t).net && Now(t').workers == Now(t).workers
  {
    hide IsRun, Longer;
    var net, ready := Now(t).net, Ready(true, false);
    NobodyMoves(net);
    t' := Took(cap, t, Outside(net, 1), Now(t).(signals := 1));
    t' := Took(cap, t', OfMain(net, Ok(0), ready), Now(t').(main := Polling));
    t' := Took(cap, t', OfMain(net, Ok(0), ready), Now(t').(main := CountWait(ready)));
    var x := Now(t');
    t' := Took(cap, t', OfMain(net, Ok(0), ready),
               x.(main := CountWaitCall(ready), stats := x.stats.(waitCalls := x.stats.waitCalls + 1)));
    x := Now(t');
    t' := Took(cap, t', OfMain(net, Ok(0), ready),
               x.(main := Drain, stats := x.stats.(syscalls := x.stats.syscalls + 1)));
    t' := Took(cap, t', OfMain(net, Ok(0), ready), Now(t').(signals := 0, running := false));
  }

  lemma NobodyMoves(net: Sockets)
    ensures Peers(net, net)
  {
  }

  /** Why the snapshot is taken by the main thread: the order of its two loads says nothing to a thread that does
      not accept, which could load `accepted` before it is counted and `closed` after the worker has left. */
  lemma OtherThreadsCanSeeMoreClosed() returns (t: Trace, i: nat, j: nat)
    ensures IsRun(1, t) && i <= j < |t.states|
    ensures t.states[i].stats.accepted < t.states[j].stats.closed
  {
    hide IsRun, Longer;
    var peer := Conn([], [], [], true, false, false, EchoSpec.Queued);
    var t0 := OneArrives(1, peer);
    var t1 := OneIsSpawned(1, t0, peer);
    t := OneLeaves(1, t1, peer);
    LongerOn(t0, t1, t);
    IsRunFacts(1, t0);
    IsRunFacts(1, t);
    LongerStates(t0, t);
    i, j := |t0.labels|, |t.labels|;
  }

  lemma LongerStates(t: Trace, t': Trace)
    requires Longer(t, t') && t.states != []
    ensures |t.states| <= |t'.states| && t'.states[|t.states| - 1] == t.states[|t.states| - 1]
    ensures |t.labels| <= |t'.labels|
  {
  }

  // ---------------------------------------------------------------- progress

  /** Every live worker is blocked in read, and the main thread in poll or in a join, or it has ended. */
  ghost predicate Settled(s: State) {
    && (forall i | 0 <= i < |s.workers| :: s.workers[i].pc.Exited? || Waiting(s, s.workers[i]))
    && (|| (s.main.Polling? && s.signals == 0 && s.net.backlog == [])
        || (s.main.Join? && s.main.k < |s.workers| && !s.workers[s.main.k].pc.Exited?)
        || s.main.Gone?)
  }

  /** A step of one of the threads in which the kernel does what it can: no call is interrupted, and an accept brings
      a connection or says that nobody waits. */
  predicate Granted(s: State, l: Label) {
    match l
    case Outside(_, _) => false
    case OfWorker(i, _, a, _) =>
      i < |s.workers| && (s.workers[i].pc.Read? || s.workers[i].pc.Write? ==> a != Err(EINTR))
    case OfMain(_, a, poll) =>
      && (s.main.Polling? ==> poll != PollFailed(true))
      && (s.main.Accept? ==> a.Ok? || a == Err(EAGAIN))
  }

  /** A step that is granted and in which nothing fails that has not failed before: poll reports something, a write
      takes a byte, and a read fails only on a connection that is broken. */
  predicate Kind(s: State, l: Label) {
    match l
    case Outside(_, _) => false
    case OfWorker(i, _, a, _) =>
      && i < |s.workers|
      && (s.workers[i].pc.Read? ==> a.Ok? || (a == Err(EOTHER) && IsBroken(s, s.workers[i])))
      && (s.workers[i].pc.Write? ==> a.Ok?)
    case OfMain(_, a, poll) =>
      && (s.main.Polling? ==> poll.Ready?)
      && (s.main.Accept? ==> a.Ok? || a == Err(EAGAIN))
  }

  predicate IsBroken(s: State, w: Worker) {
    w.id in s.net.conns && s.net.conns[w.id].broken
  }

  lemma KindIsGranted(s: State, l: Label)
    requires Kind(s, l)
    ensures Granted(s, l)
  {
  }

  /** A server that is not settled has a step of its own to make in which nothing need fail. */
  lemma UnsettledCanMove(s: State) returns (s': State, l: Label)
    requires Inv(s) && !Settled(s)
    ensures OwnStep(s, s', l) && Kind(s, l)
  {
    hide Inv, Waiting;
    if i: nat :| i < |s.workers| && !s.workers[i].pc.Exited? && !Waiting(s, s.workers[i]) {
      s', l := WorkerCanMove(s, i);
    } else {
      s', l := MainCanMove(s);
    }
  }

  /** Where it is settled there is no such step. */
  lemma SettledCannotMove(s: State, s': State, l: Label)
    requires Inv(s) && Settled(s) && Step(s, s', l)
    ensures !Kind(s, l)
  {
    hide Inv, WorkerStep, MainStep, Waiting, IsBroken;
    match l
    case Outside(_, _) =>
    case OfWorker(i, net', a, data) =>
      if i < |s.workers| {
        WorkerFacts(s, i);
        WaitingWorkerFails(s, s', i, net', a, data);
      }
    case OfMain(net', a, poll) => WaitingMainFails(s, s', net', a, poll);
  }

  lemma WorkerFacts(s: State, i: nat)
    requires Inv(s) && i < |s.workers|
    ensures WorkerOk(s.net, s.running, s.cap, s.workers[i])
  {
    hide *;
    InvParts(s);
    WorkerIsOk(s, i);
  }

  lemma WaitingWorkerFails(s: State, s': State, i: nat, net': Sockets, a: Answer, data: seq<Byte>)
    requires i < |s.workers| && WorkerStep(s, s', i, net', a, data)
    requires WorkerOk(s.net, s.running, s.cap, s.workers[i])
    requires s.workers[i].pc.Exited? || Waiting(s, s.workers[i])
    ensures s.workers[i].pc.Read? && !a.Ok? && !(a == Err(EOTHER) && IsBroken(s, s.workers[i]))
  {
    hide NextWorker, NextStats;
  }

  lemma WaitingMainFails(s: State, s': State, net': Sockets, a: Answer, poll: Poll)
    requires MainStep(s, s', net', a, poll)
    requires || (s.main.Polling? && s.signals == 0 && s.net.backlog == [])
             || (s.main.Join? && s.main.k < |s.workers| && !s.workers[s.main.k].pc.Exited?)
             || s.main.Gone?
    ensures s.main.Polling? && !poll.Ready?
  {
  }

  /** A server is settled exactly if no thread has a step left in which nothing fails. */
  lemma SettledExactly(s: State)
    requires Inv(s)
    ensures Settled(s) <==> forall s', l | Step(s, s', l) :: !Kind(s, l)
  {
    hide Inv, Settled, Step, Kind;
    if Settled(s) {
      forall s', l | Step(s, s', l) ensures !Kind(s, l) {
        SettledCannotMove(s, s', l);
      }
    } else {
      var s', l := UnsettledCanMove(s);
      OwnStepIs(s, s', l);
    }
  }

  lemma OwnStepIs(s: State, s': State, l: Label)
    requires OwnStep(s, s', l)
    ensures Step(s, s', l)
  {
  }

  lemma MainCanMove(s: State) returns (s': State, l: Label)
    requires Inv(s) && !s.main.Gone?
    requires s.main.Polling? ==> s.signals > 0 || s.net.backlog != []
    requires s.main.Join? ==> s.main.k >= |s.workers| || s.workers[s.main.k].pc.Exited?
    ensures OwnStep(s, s', l) && Kind(s, l)
  {
    hide Waiting, Workers, Tallied, MainOk, AllServed, QueuedOk, ClosedOk;
    var poll := if s.main.Polling? then Ready(s.signals > 0, s.net.backlog != []) else PollFailed(true);
    l := OfMain(s.net, Ok(0), poll);
    match s.main
    case MainTest => s' := s.(main := if s.running then Polling else LoadAccepted);
    case Polling => s' := s.(main := CountWait(poll));
    case CountWait(p) => s' := s.(main := CountWaitCall(p), stats := s.stats.(waitCalls := s.stats.waitCalls + 1));
    case CountWaitCall(p) =>
      var next := if p.PollFailed? then (if p.interrupted then MainTest else LoadAccepted)
                  else if p.signal then Drain else Accept;
      s' := s.(main := next, stats := s.stats.(syscalls := s.stats.syscalls + 1));
    case Drain =>
      s' := if s.signals > 0 then s.(signals := s.signals - 1, running := false) else s.(main := LoadAccepted);
    case Accept => s', l := AcceptCanAnswer(s);
    case CountAccepted(fd) =>
      s' := s.(main := CountSpawned(fd), stats := s.stats.(accepted := s.stats.accepted + 1));
    case CountSpawned(fd) =>
      s' := s.(main := Spawn(fd), stats := s.stats.(threadsSpawned := s.stats.threadsSpawned + 1));
    case Spawn(fd) =>
      AcceptedFacts(s);
      s' := s.(main := MainTest, workers := s.workers + [Worker(s.net.fds[fd], fd, Test, Ok(0), [], 0, false, 0)]);
    case LoadAccepted => s' := s.(main := LoadClosed(s.stats.accepted));
    case LoadClosed(accepted) => s' := s.(main := Stop(accepted, s.stats.closed));
    case Stop(accepted, closed) => s' := s.(main := Join(0, accepted, closed), running := false);
    case Join(k, accepted, closed) =>
      s' := s.(main := if k >= |s.workers| then Gone(accepted, closed) else Join(k + 1, accepted, closed));
  }

  lemma AcceptCanAnswer(s: State) returns (s': State, l: Label)
    requires TableInv(s.net) && s.main.Accept?
    ensures OwnStep(s, s', l) && Kind(s, l)
  {
    var net := s.net;
    if net.backlog == [] {
      s', l := s.(main := MainTest), OfMain(net, Err(EAGAIN), PollFailed(true));
    } else {
      var id := net.backlog[0];
      assert id in net.backlog;
      var fd := FreshFd(net.fds.Keys, 5);
      var net' := Sockets(net.conns[id := net.conns[id].(at := Open(fd))], net.backlog[1..], net.fds[fd := id]);
      s', l := s.(net := net', main := CountAccepted(fd)), OfMain(net', Ok(fd), PollFailed(true));
    }
  }
}
