/**
 epoll as server_epoll.cpp uses it: an interest list, a ready list, level- and
 edge-triggered registrations, and the invariant that the event loop keeps over
 them between any two system calls.
 */
module EpollModel {
  import opened EchoSpec
  import opened Net
  import opened Counters

  datatype Trigger = Level | Edge

  /** One entry of the array filled by epoll_wait; EPOLLIN is implied. */
  datatype Event = Event(fd: Fd, hup: bool, err: bool)

  datatype Poll = Poll(net: Sockets, reg: map<Fd, Trigger>, ready: set<Fd>, signals: nat)

  /** What the event loop is in the middle of.
      `rest`: the unprocessed part of the current batch, the event being handled first.
      `reported`: the descriptor table at the moment the batch was reported.
      `held`: bytes read and not yet written back.
      `loose`: descriptors between accept and registration, or between deregistration and close. */
  datatype Work = Work(rest: seq<Event>, reported: map<Fd, Id>, held: Holdings, loose: set<Fd>)

  const Idle := Work([], map[], map[], {})

  // ---------------------------------------------------------------- kernel rules

  /** Has `fd` something to report: a connection to accept, a signal, bytes, an end of stream or an error? */
  predicate Ready(p: Poll, fd: Fd) {
    if fd == LISTENER then p.net.backlog != []
    else if fd == SIGNALS then p.signals > 0
    else fd in p.net.fds && p.net.fds[fd] in p.net.conns && Pending(p.net.conns[p.net.fds[fd]])
  }

  predicate Pending(c: Conn) {
    c.given != c.sent || c.fin || c.broken
  }

  predicate Woken(p: Poll, p': Poll, fd: Fd) {
    if fd == LISTENER then p.net.backlog != p'.net.backlog
    else if fd == SIGNALS then p.signals != p'.signals
    else
      && fd in p.net.fds && p.net.fds[fd] in p.net.conns && p.net.fds[fd] in p'.net.conns
      && p.net.conns[p.net.fds[fd]] != p'.net.conns[p.net.fds[fd]]
  }

  /** The world moves on: whatever changes behind a registered descriptor puts it on the ready list,
      in both modes. */
  predicate Tick(p: Poll, p': Poll) {
    && Peers(p.net, p'.net)
    && p'.reg == p.reg
    && p.signals <= p'.signals
    && p.ready <= p'.ready <= p.reg.Keys
    && forall fd | fd in p.reg :: Woken(p, p', fd) ==> fd in p'.ready
  }

  /** epoll_wait reports up to `max` ready descriptors, each at most once.  A level-triggered one stays on
      the ready list, an edge-triggered one leaves it; whatever is found not ready is dropped. */
  predicate Waits(p: Poll, p': Poll, max: nat, a: Answer, events: seq<Event>) {
    match a
    case Ok(n) =>
      && n == |events| && 1 <= n <= max
      && (forall i | 0 <= i < |events| :: events[i].fd in p.ready && events[i].fd in p.reg && Ready(p, events[i].fd))
      && (forall i, j | 0 <= i < j < |events| :: events[i].fd != events[j].fd)
      && (forall i | 0 <= i < |events| && (events[i].hup || events[i].err) ::
            && events[i].fd in p.net.fds && p.net.fds[events[i].fd] in p.net.conns
            && p.net.conns[p.net.fds[events[i].fd]].broken)
      && p' == p.(ready := p'.ready)
      && p'.ready <= p.ready
      && (forall fd | fd in p.ready && fd !in p'.ready ::
            !Ready(p, fd) || (fd in p.reg && p.reg[fd].Edge? && exists i | 0 <= i < |events| :: events[i].fd == fd))
      && (forall i | 0 <= i < |events| && p.reg[events[i].fd].Edge? :: events[i].fd !in p'.ready)
    case Err(e) => p' == p && events == [] && e != EAGAIN
  }

  /** epoll_wait has nothing to return. */
  ghost predicate WouldBlock(p: Poll) {
    forall fd | fd in p.ready :: !Ready(p, fd)
  }

  /** EPOLL_CTL_ADD polls the new descriptor once, so one that is already ready is queued.  The kernel may
      refuse it. */
  predicate Adds(p: Poll, p': Poll, fd: Fd, t: Trigger, ok: bool)
    requires fd in p.net.fds && p.net.fds[fd] in p.net.conns
  {
    p' == if ok then Registered(p, fd, t) else p
  }

  function Registered(p: Poll, fd: Fd, t: Trigger): Poll {
    p.(reg := p.reg[fd := t], ready := if Ready(p, fd) then p.ready + {fd} else p.ready)
  }

  function Deregister(p: Poll, fd: Fd): Poll {
    p.(reg := p.reg - {fd}, ready := p.ready - {fd})
  }

  function CloseFd(p: Poll, fd: Fd): Poll
    requires fd in p.net.fds && p.net.fds[fd] in p.net.conns
  {
    Deregister(p, fd).(net := Net.Close(p.net, fd))
  }

  /** A failed read or write breaks the connection, and that too is an event. */
  function Woke(p: Poll, fd: Fd, a: Answer): set<Fd> {
    if a == Err(EOTHER) && fd in p.reg then p.ready + {fd} else p.ready
  }

  predicate PollReads(p: Poll, p': Poll, fd: Fd, cap: nat, a: Answer, data: seq<Byte>)
    requires fd in p.net.fds && p.net.fds[fd] in p.net.conns
  {
    Reads(p.net, p'.net, fd, cap, a, data) && p' == p.(net := p'.net, ready := Woke(p, fd, a))
  }

  predicate PollWrites(p: Poll, p': Poll, fd: Fd, data: seq<Byte>, a: Answer)
    requires fd in p.net.fds && p.net.fds[fd] in p.net.conns
  {
    Writes(p.net, p'.net, fd, data, a) && p' == p.(net := p'.net, ready := Woke(p, fd, a))
  }

  predicate PollAccepts(p: Poll, p': Poll, a: Answer) {
    Accepts(p.net, p'.net, a) && p' == p.(net := p'.net)
  }

  // ---------------------------------------------------------------- the loop's invariant

  ghost predicate RegInv(p: Poll, w: Work, mode: Trigger) {
    && w.loose <= p.net.fds.Keys
    && p.reg.Keys == (p.net.fds.Keys - w.loose) + {LISTENER, SIGNALS}
    && p.ready <= p.reg.Keys
    && p.reg[LISTENER] == Level && p.reg[SIGNALS] == Level
    && forall fd | fd in p.net.fds && fd !in w.loose :: p.reg[fd] == mode
  }

  ghost predicate InBatch(rest: seq<Event>, fd: Fd) {
    exists i | 0 <= i < |rest| :: rest[i].fd == fd
  }

  /** No lost wake-up: what is ready is on the kernel's ready list, or, edge-triggered, still ahead in the batch. */
  ghost predicate NoLostWakeup(p: Poll, w: Work) {
    forall fd | fd in p.reg && Ready(p, fd) ::
      fd in p.ready || (p.reg[fd].Edge? && InBatch(w.rest, fd))
  }

  /** No stale event: every event still ahead names the connection it was reported for. */
  ghost predicate BatchInv(p: Poll, w: Work) {
    && (forall i, j | 0 <= i < j < |w.rest| :: w.rest[i].fd != w.rest[j].fd)
    && (forall i | 0 <= i < |w.rest| :: EventInv(p, w, w.rest[i]))
  }

  ghost predicate EventInv(p: Poll, w: Work, e: Event) {
    && e.fd in p.reg
    && (e.fd in p.net.fds ==> e.fd in w.reported && w.reported[e.fd] == p.net.fds[e.fd])
    && (e.hup || e.err ==> e.fd in p.net.fds && p.net.fds[e.fd] in p.net.conns
                           && p.net.conns[p.net.fds[e.fd]].broken)
  }

  /** Only the connection whose event is being handled may be owed bytes. */
  ghost predicate HeldInv(p: Poll, w: Work) {
    && (forall id | id in w.held :: id in p.net.conns)
    && (forall id | id in p.net.conns && Held(w.held, id) != [] ::
          w.rest != [] && w.rest[0].fd in p.net.fds && p.net.fds[w.rest[0].fd] == id)
  }

  ghost predicate Inv(p: Poll, w: Work, mode: Trigger) {
    && NetInv(p.net, w.held)
    && RegInv(p, w, mode)
    && NoLostWakeup(p, w)
    && BatchInv(p, w)
    && HeldInv(p, w)
  }

  ghost predicate PollRefines(p: Poll, w: Work, p': Poll, w': Work) {
    Refines(p.net, w.held, p'.net, w'.held)
  }

  // ---------------------------------------------------------------- every step keeps it

  lemma TickKeeps(p: Poll, p': Poll, w: Work, mode: Trigger)
    requires Inv(p, w, mode) && Tick(p, p')
    ensures Inv(p', w, mode) && PollRefines(p, w, p', w)
  {
    PeersKeep(p.net, p'.net, w.held);
    forall fd | fd in p'.reg && Ready(p', fd)
      ensures fd in p'.ready || (p'.reg[fd].Edge? && InBatch(w.rest, fd))
    {
      if !Woken(p, p', fd) {
        assert Ready(p, fd);
      }
    }
    forall i | 0 <= i < |w.rest| ensures EventInv(p', w, w.rest[i]) {
      assert EventInv(p, w, w.rest[i]);
    }
  }

  lemma ReadStepKeeps(p: Poll, p': Poll, w: Work, mode: Trigger, cap: nat, a: Answer, data: seq<Byte>)
    requires Inv(p, w, mode) && w.rest != [] && w.rest[0].fd in p.net.fds
    requires Held(w.held, p.net.fds[w.rest[0].fd]) == []
    requires PollReads(p, p', w.rest[0].fd, cap, a, data)
    ensures var w' := w.(held := w.held[p.net.fds[w.rest[0].fd] := data]);
            Inv(p', w', mode) && PollRefines(p, w, p', w')
    ensures p'.net.fds == p.net.fds && p'.reg == p.reg
  {
    var id := p.net.fds[w.rest[0].fd];
    ReadShape(p.net, p'.net, w.rest[0].fd, cap, a, data);
    ReadKeeps(p.net, p'.net, w.rest[0].fd, cap, a, data, w.held);
    CurrentChangeKeeps(p, p', w, mode, p'.net.conns[id], data);
  }

  lemma WriteStepKeeps(p: Poll, p': Poll, w: Work, mode: Trigger, data: seq<Byte>, a: Answer)
    requires Inv(p, w, mode) && w.rest != [] && w.rest[0].fd in p.net.fds
    requires Held(w.held, p.net.fds[w.rest[0].fd]) == data
    requires PollWrites(p, p', w.rest[0].fd, data, a)
    ensures Written(a) <= |data|
    ensures var w' := w.(held := w.held[p.net.fds[w.rest[0].fd] := data[Written(a)..]]);
            Inv(p', w', mode) && PollRefines(p, w, p', w')
    ensures p'.net.fds == p.net.fds && p'.reg == p.reg
  {
    var id := p.net.fds[w.rest[0].fd];
    WriteShape(p.net, p'.net, w.rest[0].fd, data, a);
    WriteKeeps(p.net, p'.net, w.rest[0].fd, data, a, w.held);
    CurrentChangeKeeps(p, p', w, mode, p'.net.conns[id], data[Written(a)..]);
  }

  /** Only the connection of the current event changed, and if that made it ready it was woken. */
  lemma CurrentChangeKeeps(p: Poll, p': Poll, w: Work, mode: Trigger, c': Conn, rest': seq<Byte>)
    requires Inv(p, w, mode) && w.rest != [] && w.rest[0].fd in p.net.fds
    requires var fd := w.rest[0].fd; var id := p.net.fds[fd]; var c := p.net.conns[id];
             && c'.at == c.at && (c.broken ==> c'.broken)
             && p'.net == p.net.(conns := p.net.conns[id := c'])
             && p' == p.(net := p'.net, ready := p'.ready)
             && (p'.ready == p.ready || p'.ready == p.ready + {fd})
             && (Pending(c') ==> Pending(c) || fd in p'.ready)
    requires NetInv(p'.net, w.held[p.net.fds[w.rest[0].fd] := rest'])
    ensures Inv(p', w.(held := w.held[p.net.fds[w.rest[0].fd] := rest']), mode)
  {
    hide *;
    ModelParts(p, w, mode);
    var w' := w.(held := w.held[p.net.fds[w.rest[0].fd] := rest']);
    CurrentHasConn(p, w);
    CurrentChangeLosesNothing(p, p', w, mode, c');
    CurrentChangeKeepsReg(p, p', w, w', mode, c');
    CurrentChangeKeepsBatch(p, p', w, w', c');
    CurrentChangeKeepsHeld(p, p', w, p.net.fds[w.rest[0].fd], rest');
    SameWakeups(p', w, w');
    ModelFolds(p', w', mode);
  }

  lemma ModelParts(p: Poll, w: Work, mode: Trigger)
    requires Inv(p, w, mode)
    ensures NetInv(p.net, w.held) && RegInv(p, w, mode) && NoLostWakeup(p, w) && BatchInv(p, w) && HeldInv(p, w)
  {
  }

  lemma ModelFolds(p: Poll, w: Work, mode: Trigger)
    requires NetInv(p.net, w.held) && RegInv(p, w, mode) && NoLostWakeup(p, w) && BatchInv(p, w) && HeldInv(p, w)
    ensures Inv(p, w, mode)
  {
  }

  lemma CurrentHasConn(p: Poll, w: Work)
    requires NetInv(p.net, w.held) && w.rest != [] && w.rest[0].fd in p.net.fds
    ensures p.net.fds[w.rest[0].fd] in p.net.conns
  {
  }

  lemma SameWakeups(p: Poll, w: Work, w': Work)
    requires NoLostWakeup(p, w) && w'.rest == w.rest
    ensures NoLostWakeup(p, w')
  {
  }

  lemma CurrentChangeKeepsReg(p: Poll, p': Poll, w: Work, w': Work, mode: Trigger, c': Conn)
    requires RegInv(p, w, mode) && BatchInv(p, w) && w.rest != [] && w'.loose == w.loose
    requires w.rest[0].fd in p.net.fds && p.net.fds[w.rest[0].fd] in p.net.conns
    requires p'.net == p.net.(conns := p.net.conns[p.net.fds[w.rest[0].fd] := c'])
    requires p' == p.(net := p'.net, ready := p'.ready)
    requires p'.ready == p.ready || p'.ready == p.ready + {w.rest[0].fd}
    ensures RegInv(p', w', mode)
  {
    assert EventInv(p, w, w.rest[0]);
  }

  lemma CurrentChangeKeepsBatch(p: Poll, p': Poll, w: Work, w': Work, c': Conn)
    requires BatchInv(p, w) && w.rest != [] && w' == w.(held := w'.held)
    requires w.rest[0].fd in p.net.fds && p.net.fds[w.rest[0].fd] in p.net.conns
    requires (p.net.conns[p.net.fds[w.rest[0].fd]].broken ==> c'.broken)
    requires p'.net == p.net.(conns := p.net.conns[p.net.fds[w.rest[0].fd] := c'])
    requires p' == p.(net := p'.net, ready := p'.ready)
    ensures BatchInv(p', w')
  {
    forall i | 0 <= i < |w'.rest| ensures EventInv(p', w', w'.rest[i]) {
      assert EventInv(p, w, w.rest[i]);
    }
  }

  lemma CurrentChangeKeepsHeld(p: Poll, p': Poll, w: Work, id: Id, rest': seq<Byte>)
    requires HeldInv(p, w) && w.rest != [] && w.rest[0].fd in p.net.fds && id == p.net.fds[w.rest[0].fd]
    requires p'.net.fds == p.net.fds && p'.net.conns.Keys == p.net.conns.Keys && id in p.net.conns
    ensures HeldInv(p', w.(held := w.held[id := rest']))
  {
    var held' := w.held[id := rest'];
    forall x | x in p'.net.conns && Held(held', x) != [] ensures p'.net.fds[w.rest[0].fd] == x {
      assert x != id ==> Held(held', x) == Held(w.held, x);
    }
  }

  lemma CurrentChangeLosesNothing(p: Poll, p': Poll, w: Work, mode: Trigger, c': Conn)
    requires TableInv(p.net) && RegInv(p, w, mode) && NoLostWakeup(p, w)
    requires w.rest != [] && w.rest[0].fd in p.net.fds
    requires var fd := w.rest[0].fd; var id := p.net.fds[fd]; var c := p.net.conns[id];
             && p'.net == p.net.(conns := p.net.conns[id := c'])
             && p' == p.(net := p'.net, ready := p'.ready)
             && (p'.ready == p.ready || p'.ready == p.ready + {fd})
             && (Pending(c') ==> Pending(c) || fd in p'.ready)
    ensures NoLostWakeup(p', w)
  {
    var fd0 := w.rest[0].fd;
    forall fd | fd in p'.reg && Ready(p', fd)
      ensures fd in p'.ready || (p'.reg[fd].Edge? && InBatch(w.rest, fd))
    {
      if fd == LISTENER || fd == SIGNALS || fd == fd0 {
        assert fd in p'.ready || Ready(p, fd);
      } else {
        assert p.net.fds[fd] != p.net.fds[fd0];
        assert Ready(p, fd);
      }
    }
  }

  /** The handler of the current event is done with it: nothing is owed, and an edge-triggered
      descriptor has been read until it had nothing more to report. */
  lemma EventDoneKeeps(p: Poll, w: Work, mode: Trigger)
    requires Inv(p, w, mode) && w.rest != []
    requires w.rest[0].fd in p.net.fds ==> Held(w.held, p.net.fds[w.rest[0].fd]) == []
    requires w.rest[0].fd in p.reg && p.reg[w.rest[0].fd].Edge? ==> !Ready(p, w.rest[0].fd)
    ensures Inv(p, w.(rest := w.rest[1..]), mode)
  {
    var w' := w.(rest := w.rest[1..]);
    forall fd | fd in p.reg && Ready(p, fd)
      ensures fd in p.ready || (p.reg[fd].Edge? && InBatch(w'.rest, fd))
    {
      if fd !in p.ready {
        var i :| 0 <= i < |w.rest| && w.rest[i].fd == fd;
        assert i > 0 && w'.rest[i - 1].fd == fd;
      }
    }
    forall i | 0 <= i < |w'.rest| ensures EventInv(p, w', w'.rest[i]) {
      assert EventInv(p, w, w.rest[i + 1]);
    }
  }

  /** close_connection: whatever the server still owed is gone with the connection. */
  lemma CloseStepKeeps(p: Poll, w: Work, mode: Trigger)
    requires Inv(p, w, mode) && w.rest != [] && w.rest[0].fd in p.net.fds
    requires w.rest[0].fd !in w.loose
    ensures var w' := w.(rest := w.rest[1..], held := w.held - {p.net.fds[w.rest[0].fd]});
            && Inv(CloseFd(p, w.rest[0].fd), w', mode)
            && PollRefines(p, w, CloseFd(p, w.rest[0].fd), w')
  {
    var fd0 := w.rest[0].fd;
    var id := p.net.fds[fd0];
    var p', w' := CloseFd(p, fd0), w.(rest := w.rest[1..], held := w.held - {id});
    CloseKeeps(p.net, fd0, w.held);
    CloseStepLosesNothing(p, p', w, w', mode);
    CloseStepKeepsBatch(p, p', w, w', mode);
  }

  lemma CloseStepLosesNothing(p: Poll, p': Poll, w: Work, w': Work, mode: Trigger)
    requires TableInv(p.net) && RegInv(p, w, mode) && NoLostWakeup(p, w)
    requires w.rest != [] && w.rest[0].fd in p.net.fds && w.rest[0].fd !in w.loose
    requires p' == CloseFd(p, w.rest[0].fd)
    requires w'.rest == w.rest[1..] && w'.loose == w.loose
    ensures RegInv(p', w', mode) && NoLostWakeup(p', w')
  {
    hide *;
    OpenHasConn(p, w.rest[0].fd);
    assert w.loose == w.loose - {w.rest[0].fd};
    CloseKeepsReg(p, w, w', mode, w.rest[0].fd);
    CloseWakesNobody(p, w.rest[0].fd);
    CloseStepKeepsWakeups(p, p', w, w');
  }

  lemma OpenHasConn(p: Poll, fd: Fd)
    requires TableInv(p.net) && fd in p.net.fds
    ensures p.net.fds[fd] in p.net.conns
  {
  }

  /** Closing a registered descriptor takes it out of the interest list and touches no other. */
  lemma CloseKeepsReg(p: Poll, w: Work, w': Work, mode: Trigger, fd: Fd)
    requires TableInv(p.net) && RegInv(p, w, mode) && fd in p.net.fds && p.net.fds[fd] in p.net.conns
    requires w'.loose == w.loose - {fd}
    ensures RegInv(CloseFd(p, fd), w', mode)
  {
  }

  /** No other descriptor has anything to report because of it. */
  lemma CloseWakesNobody(p: Poll, fd: Fd)
    requires TableInv(p.net) && fd in p.net.fds && p.net.fds[fd] in p.net.conns
    ensures forall x | x in CloseFd(p, fd).reg && Ready(CloseFd(p, fd), x) :: Ready(p, x)
  {
    var p' := CloseFd(p, fd);
    forall x | x in p'.reg && Ready(p', x) ensures Ready(p, x) {
      assert x in p.net.fds ==> p.net.fds[x] != p.net.fds[fd];
    }
  }

  lemma CloseStepKeepsWakeups(p: Poll, p': Poll, w: Work, w': Work)
    requires NoLostWakeup(p, w) && w.rest != [] && w'.rest == w.rest[1..]
    requires w.rest[0].fd in p.net.fds && p.net.fds[w.rest[0].fd] in p.net.conns && p' == CloseFd(p, w.rest[0].fd)
    requires forall x | x in p'.reg && Ready(p', x) :: Ready(p, x)
    ensures NoLostWakeup(p', w')
  {
    hide Ready;
    forall fd | fd in p'.reg && Ready(p', fd)
      ensures fd in p'.ready || (p'.reg[fd].Edge? && InBatch(w'.rest, fd))
    {
      if fd !in p'.ready {
        var i :| 0 <= i < |w.rest| && w.rest[i].fd == fd;
        assert i > 0 && w'.rest[i - 1].fd == fd;
      }
    }
  }

  lemma CloseStepKeepsBatch(p: Poll, p': Poll, w: Work, w': Work, mode: Trigger)
    requires TableInv(p.net) && BatchInv(p, w) && HeldInv(p, w)
    requires w.rest != [] && w.rest[0].fd in p.net.fds && w.rest[0].fd !in w.loose
    requires p' == CloseFd(p, w.rest[0].fd)
    requires w' == w.(rest := w.rest[1..], held := w.held - {p.net.fds[w.rest[0].fd]})
    ensures BatchInv(p', w') && HeldInv(p', w')
  {
    var fd0 := w.rest[0].fd;
    forall i | 0 <= i < |w'.rest| ensures EventInv(p', w', w'.rest[i]) {
      var e := w.rest[i + 1];
      assert EventInv(p, w, e);
      assert e.fd != fd0;
      assert e.fd in p.net.fds ==> p.net.fds[e.fd] != p.net.fds[fd0];
    }
    forall x | x in p'.net.conns ensures Held(w'.held, x) == [] {
      assert Held(w.held, x) != [] ==> x == p.net.fds[fd0];
    }
  }

  /** accept4 and set_nodelay: the new descriptor is open but not yet registered. */
  lemma AcceptStepKeeps(p: Poll, p': Poll, w: Work, mode: Trigger, a: Answer)
    requires Inv(p, w, mode) && PollAccepts(p, p', a)
    ensures var w' := if a.Ok? then w.(loose := w.loose + {a.n}) else w;
            Inv(p', w', mode) && PollRefines(p, w, p', w')
    ensures a.Ok? ==> a.n in p'.net.fds && a.n !in p.net.fds && |p'.net.fds| == |p.net.fds| + 1
  {
    hide *;
    ModelParts(p, w, mode);
    AcceptsOne(p, p', a);
    AcceptKeeps(p.net, p'.net, a, w.held);
    if a.Ok? {
      var w' := w.(loose := w.loose + {a.n});
      AcceptLosesNothing(p, p', w, w', mode, a);
      ModelFolds(p', w', mode);
    }
    RefinesFolds(p, w, p');
  }

  lemma AcceptsOne(p: Poll, p': Poll, a: Answer)
    requires PollAccepts(p, p', a)
    ensures Accepts(p.net, p'.net, a) && (!a.Ok? ==> p' == p)
    ensures a.Ok? ==> a.n in p'.net.fds && a.n !in p.net.fds && |p'.net.fds| == |p.net.fds| + 1
  {
    if a.Ok? {
      assert p'.net.fds.Keys == p.net.fds.Keys + {a.n};
      assert |p'.net.fds| == |p'.net.fds.Keys| && |p.net.fds| == |p.net.fds.Keys|;
    }
  }

  lemma RefinesFolds(p: Poll, w: Work, p': Poll)
    requires Refines(p.net, w.held, p'.net, w.held)
    ensures forall w': Work | w'.held == w.held :: PollRefines(p, w, p', w')
  {
    hide Refines;
  }

  lemma AcceptLosesNothing(p: Poll, p': Poll, w: Work, w': Work, mode: Trigger, a: Answer)
    requires Inv(p, w, mode) && PollAccepts(p, p', a) && a.Ok?
    requires w' == w.(loose := w.loose + {a.n})
    ensures RegInv(p', w', mode) && NoLostWakeup(p', w') && BatchInv(p', w') && HeldInv(p', w')
  {
    hide *;
    ModelParts(p, w, mode);
    NetParts(p, w);
    AcceptWakesNobody(p, p', w, mode, a);
    SameWakeups(p', w, w');
    AcceptKeepsReg(p, p', w, w', mode, a);
    AcceptKeepsBatch(p, p', w, w', mode, a);
  }

  lemma NetParts(p: Poll, w: Work)
    requires NetInv(p.net, w.held)
    ensures TableInv(p.net)
  {
  }

  lemma AcceptKeepsReg(p: Poll, p': Poll, w: Work, w': Work, mode: Trigger, a: Answer)
    requires TableInv(p.net) && RegInv(p, w, mode) && PollAccepts(p, p', a) && a.Ok?
    requires w'.loose == w.loose + {a.n}
    ensures RegInv(p', w', mode)
  {
    assert p'.net.fds.Keys - w'.loose == p.net.fds.Keys - w.loose;
  }

  lemma AcceptKeepsBatch(p: Poll, p': Poll, w: Work, w': Work, mode: Trigger, a: Answer)
    requires TableInv(p.net) && RegInv(p, w, mode) && BatchInv(p, w) && HeldInv(p, w)
    requires PollAccepts(p, p', a) && a.Ok? && w' == w.(loose := w.loose + {a.n})
    ensures BatchInv(p', w') && HeldInv(p', w')
  {
    assert p.net.backlog[0] in p.net.backlog;
    assert a.n !in p.reg;
    forall i | 0 <= i < |w'.rest| ensures EventInv(p', w', w'.rest[i]) {
      assert EventInv(p, w, w.rest[i]);
    }
  }

  lemma AcceptWakesNobody(p: Poll, p': Poll, w: Work, mode: Trigger, a: Answer)
    requires TableInv(p.net) && RegInv(p, w, mode) && NoLostWakeup(p, w) && PollAccepts(p, p', a) && a.Ok?
    ensures NoLostWakeup(p', w)
  {
    assert p.net.backlog[0] in p.net.backlog;
    forall fd | fd in p'.reg && Ready(p', fd)
      ensures fd in p'.ready || (p'.reg[fd].Edge? && InBatch(w.rest, fd))
    {
      assert fd != a.n;
      assert fd in p.net.fds ==> p.net.fds[fd] != p.net.backlog[0];
      assert Ready(p, fd);
    }
  }

  /** A registered descriptor that already has something to report is queued at once. */
  lemma AddStepKeeps(p: Poll, p': Poll, w: Work, mode: Trigger, fd: Fd)
    requires Inv(p, w, mode) && fd in w.loose && Adds(p, p', fd, mode, true)
    ensures Inv(p', w.(loose := w.loose - {fd}), mode)
  {
    var w' := w.(loose := w.loose - {fd});
    assert fd !in p.reg;
    forall x | x in p'.reg && Ready(p', x)
      ensures x in p'.ready || (p'.reg[x].Edge? && InBatch(w'.rest, x))
    {
      assert Ready(p, x);
    }
    forall i | 0 <= i < |w'.rest| ensures EventInv(p', w', w'.rest[i]) {
      assert EventInv(p, w, w.rest[i]);
    }
  }

  lemma CloseLooseKeeps(p: Poll, w: Work, mode: Trigger, fd: Fd)
    requires Inv(p, w, mode) && fd in w.loose
    ensures var w' := w.(loose := w.loose - {fd}, held := w.held - {p.net.fds[fd]});
            Inv(CloseFd(p, fd), w', mode) && PollRefines(p, w, CloseFd(p, fd), w')
    ensures |CloseFd(p, fd).net.fds| == |p.net.fds| - 1
  {
    var id := p.net.fds[fd];
    var p', w' := CloseFd(p, fd), w.(loose := w.loose - {fd}, held := w.held - {id});
    CloseKeeps(p.net, fd, w.held);
    CloseShrinks(p.net, fd);
    CloseLooseLosesNothing(p, w, mode, fd);
  }

  lemma CloseLooseLosesNothing(p: Poll, w: Work, mode: Trigger, fd: Fd)
    requires Inv(p, w, mode) && fd in w.loose
    ensures var p', w' := CloseFd(p, fd), w.(loose := w.loose - {fd}, held := w.held - {p.net.fds[fd]});
            RegInv(p', w', mode) && NoLostWakeup(p', w') && BatchInv(p', w') && HeldInv(p', w')
  {
    hide *;
    ModelParts(p, w, mode);
    LooseIsOpen(p, w, mode, fd);
    var w' := w.(loose := w.loose - {fd}, held := w.held - {p.net.fds[fd]});
    CloseKeepsReg(p, w, w', mode, fd);
    CloseWakesNobody(p, fd);
    CloseLooseKeepsWakeups(p, w, w', mode, fd);
    CloseLooseKeepsBatch(p, w, w', mode, fd);
  }

  lemma LooseIsOpen(p: Poll, w: Work, mode: Trigger, fd: Fd)
    requires NetInv(p.net, w.held) && RegInv(p, w, mode) && fd in w.loose
    ensures TableInv(p.net) && fd in p.net.fds && p.net.fds[fd] in p.net.conns
  {
  }

  lemma CloseLooseKeepsWakeups(p: Poll, w: Work, w': Work, mode: Trigger, fd: Fd)
    requires TableInv(p.net) && RegInv(p, w, mode) && NoLostWakeup(p, w) && fd in w.loose && w'.rest == w.rest
    requires p.net.fds[fd] in p.net.conns
    requires forall x | x in CloseFd(p, fd).reg && Ready(CloseFd(p, fd), x) :: Ready(p, x)
    ensures NoLostWakeup(CloseFd(p, fd), w')
  {
    hide Ready;
    assert CloseFd(p, fd).reg == p.reg && CloseFd(p, fd).ready == p.ready;
  }

  lemma CloseLooseKeepsBatch(p: Poll, w: Work, w': Work, mode: Trigger, fd: Fd)
    requires TableInv(p.net) && RegInv(p, w, mode) && BatchInv(p, w) && HeldInv(p, w) && fd in w.loose
    requires p.net.fds[fd] in p.net.conns
    requires w' == w.(loose := w.loose - {fd}, held := w.held - {p.net.fds[fd]})
    ensures BatchInv(CloseFd(p, fd), w') && HeldInv(CloseFd(p, fd), w')
  {
    var p' := CloseFd(p, fd);
    forall i | 0 <= i < |w'.rest| ensures EventInv(p', w', w'.rest[i]) {
      assert EventInv(p, w, w.rest[i]);
      assert w.rest[i].fd != fd;
    }
    forall x | x in p'.net.conns && Held(w'.held, x) != []
      ensures w'.rest != [] && w'.rest[0].fd in p'.net.fds && p'.net.fds[w'.rest[0].fd] == x
    {
      assert Held(w.held, x) != [];
      assert EventInv(p, w, w.rest[0]);
    }
  }

  lemma CloseShrinks(net: Sockets, fd: Fd)
    requires fd in net.fds && net.fds[fd] in net.conns
    ensures |Net.Close(net, fd).fds| == |net.fds| - 1
  {
    var fds' := Net.Close(net, fd).fds;
    assert net.fds.Keys == fds'.Keys + {fd};
    assert |fds'| == |fds'.Keys| && |net.fds| == |net.fds.Keys|;
  }

  /** epoll_wait starts a batch; the edge-triggered descriptors it takes off the ready list are all in it. */
  lemma WaitStepKeeps(p: Poll, p': Poll, w: Work, mode: Trigger, max: nat, a: Answer, events: seq<Event>)
    requires Inv(p, w, mode) && w.rest == [] && Waits(p, p', max, a, events)
    ensures Inv(p', w.(rest := events, reported := p.net.fds), mode)
  {
    var w' := w.(rest := events, reported := p.net.fds);
    forall fd | fd in p'.reg && Ready(p', fd)
      ensures fd in p'.ready || (p'.reg[fd].Edge? && InBatch(w'.rest, fd))
    {
      assert Ready(p, fd);
    }
  }

  lemma SignalStepKeeps(p: Poll, w: Work, mode: Trigger)
    requires Inv(p, w, mode) && p.signals > 0
    ensures Inv(p.(signals := p.signals - 1), w, mode)
  {
    var p' := p.(signals := p.signals - 1);
    forall fd | fd in p'.reg && Ready(p', fd)
      ensures fd in p'.ready || (p'.reg[fd].Edge? && InBatch(w.rest, fd))
    {
      assert Ready(p, fd);
    }
    forall i | 0 <= i < |w.rest| ensures EventInv(p', w, w.rest[i]) {
      assert EventInv(p, w, w.rest[i]);
    }
  }

  // ---------------------------------------------------------------- what the invariant buys

  /** Whenever epoll_wait would block, no connection waits to be accepted, no signal waits to be read, and
      every healthy connection, open or closed, that was not dropped has had everything it sent echoed back. */
  lemma QuietMeansEchoed(p: Poll, w: Work, mode: Trigger)
    requires Inv(p, w, mode) && w.rest == [] && w.loose == {} && WouldBlock(p)
    ensures p.net.backlog == [] && p.signals == 0
    ensures forall id | id in p.net.conns && p.net.conns[id].at.Open? ::
              var c := p.net.conns[id]; !c.fin && !c.broken && c.out == c.sent
    ensures forall id | id in p.net.conns && !p.net.conns[id].broken && !p.net.conns[id].dropped ::
              p.net.conns[id].out == p.net.conns[id].sent
  {
    assert !Ready(p, LISTENER) && !Ready(p, SIGNALS);
    forall id | id in p.net.conns && p.net.conns[id].at.Open?
      ensures var c := p.net.conns[id]; !c.fin && !c.broken && c.out == c.sent
    {
      var fd := p.net.conns[id].at.fd;
      assert fd in p.reg && !Ready(p, fd);
      assert Held(w.held, id) == [];
      assert Sound(p.net.conns[id], []);
    }
    forall id | id in p.net.conns && !p.net.conns[id].broken && !p.net.conns[id].dropped
      ensures p.net.conns[id].out == p.net.conns[id].sent
    {
      assert Sound(p.net.conns[id], Held(w.held, id));
      assert !p.net.conns[id].at.Queued?;
    }
  }

  /** No stale event: every event still to be handled in a batch, whatever was closed and accepted under
      recycled numbers since it was reported, names the listener, the signal descriptor, or the very connection
      it was reported for, which is still open; and no two events name the same descriptor. */
  lemma EventsAreCurrent(p: Poll, w: Work, mode: Trigger, i: nat)
    requires Inv(p, w, mode) && i < |w.rest|
    ensures var fd := w.rest[i].fd;
            || fd == LISTENER || fd == SIGNALS
            || (&& fd in p.net.fds && fd in w.reported && w.reported[fd] == p.net.fds[fd]
                && p.net.fds[fd] in p.net.conns && p.net.conns[p.net.fds[fd]].at == Open(fd) && fd !in w.loose)
    ensures forall j | 0 <= j < |w.rest| && j != i :: w.rest[j].fd != w.rest[i].fd
  {
    assert EventInv(p, w, w.rest[i]);
    hide NoLostWakeup, HeldInv, SoundInv;
  }

  // ---------------------------------------------------------------- the server's own state

  /** The counters' conservation laws. */
  ghost predicate Counted(p: Poll, w: Work, s: Stats) {
    && s.accepted + |w.loose| == s.closed + |p.net.fds|
    && s.syscalls == s.waitCalls + s.readCalls + s.writeCalls
    && s.bytes == TotalGiven(p.net.conns)
  }

  ghost predicate ServerInv(p: Poll, w: Work, mode: Trigger, s: Stats) {
    Inv(p, w, mode) && Counted(p, w, s)
  }

  /** What the invariant says about the descriptor of the current event. */
  lemma CurrentFacts(p: Poll, w: Work, mode: Trigger)
    requires Inv(p, w, mode)
    ensures p.ready <= p.reg.Keys
    ensures w.rest != [] ==> w.rest[0].fd in p.reg
    ensures w.rest != [] && w.loose == {} && w.rest[0].fd != LISTENER && w.rest[0].fd != SIGNALS ==>
              w.rest[0].fd in p.net.fds && p.reg[w.rest[0].fd] == mode
    ensures w.rest != [] && w.rest[0].fd in p.net.fds ==>
              var id := p.net.fds[w.rest[0].fd];
              && id in p.net.conns && p.net.conns[id].at == Open(w.rest[0].fd)
              && p.net.conns[id].given <= p.net.conns[id].sent
              && w.rest[0].fd in w.reported && w.reported[w.rest[0].fd] == id
              && ((w.rest[0].hup || w.rest[0].err) ==> p.net.conns[id].broken)
  {
    if w.rest != [] {
      assert EventInv(p, w, w.rest[0]);
      if w.rest[0].fd in p.net.fds {
        assert Sound(p.net.conns[p.net.fds[w.rest[0].fd]], Held(w.held, p.net.fds[w.rest[0].fd]));
      }
    }
  }

  lemma TickFacts(p: Poll, p': Poll, w: Work, mode: Trigger, s: Stats)
    requires ServerInv(p, w, mode, s) && Tick(p, p')
    ensures ServerInv(p', w, mode, s)
    ensures p'.net.fds == p.net.fds && p'.reg == p.reg
    ensures forall id | id in p.net.conns ::
              && id in p'.net.conns && p'.net.conns[id].at == p.net.conns[id].at
              && p'.net.conns[id].given == p.net.conns[id].given && p'.net.conns[id].out == p.net.conns[id].out
              && (p.net.conns[id].broken ==> p'.net.conns[id].broken)
  {
    TickKeeps(p, p', w, mode);
    TotalGivenFrame(p.net.conns, p'.net.conns);
  }

  lemma InvFolds(p: Poll, w: Work, mode: Trigger, s: Stats)
    requires ServerInv(p, w, mode, s)
    ensures Inv(p, w, mode) && Counted(p, w, s)
  {
  }

  lemma PollWriteShape(p: Poll, p': Poll, fd: Fd, data: seq<Byte>, a: Answer)
    requires fd in p.net.fds && p.net.fds[fd] in p.net.conns && PollWrites(p, p', fd, data, a)
    ensures p'.net.fds == p.net.fds && p'.reg == p.reg && p'.net.conns.Keys == p.net.conns.Keys
    ensures TotalGiven(p'.net.conns) == TotalGiven(p.net.conns)
    ensures var c, c' := p.net.conns[p.net.fds[fd]], p'.net.conns[p.net.fds[fd]];
            && Written(a) <= |data| && c'.out == c.out + data[..Written(a)]
            && c'.given == c.given && (a == Err(EOTHER) ==> c'.broken)
  {
    WriteShape(p.net, p'.net, fd, data, a);
  }

  lemma CountedSame(p: Poll, p': Poll, w: Work, s: Stats)
    requires Counted(p, w, s) && p'.net.fds == p.net.fds && TotalGiven(p'.net.conns) == TotalGiven(p.net.conns)
    ensures Counted(p', w, s)
  {
  }

  // ---------------------------------------------------------------- reading, finishing and closing

  /** Entries of `held` that hold nothing can be forgotten. */
  lemma ForgetKeeps(p: Poll, w: Work, mode: Trigger)
    requires Inv(p, w, mode)
    requires w.rest != [] && w.rest[0].fd in p.net.fds ==> Held(w.held, p.net.fds[w.rest[0].fd]) == []
    ensures Inv(p, w.(held := map[]), mode)
  {
    var w' := w.(held := map[]);
    forall id | id in p.net.conns ensures Held(w.held, id) == [] {
    }
    forall id | id in p.net.conns ensures Sound(p.net.conns[id], Held(w'.held, id)) {
      assert Sound(p.net.conns[id], Held(w.held, id));
    }
    forall i | 0 <= i < |w'.rest| ensures EventInv(p, w', w'.rest[i]) {
      assert EventInv(p, w, w.rest[i]);
    }
  }
}
