/**
 server_epoll.cpp: the single-threaded echo server, level- or edge-triggered.

 The kernel is a value handed from one system call to the next; each call
 answers in any way the relations of `Net` and `EpollModel` allow.  Its
 `horizon` is the number of further system calls an observation covers: a
 method stops where the horizon ends, so a contract that holds for every
 horizon holds at every system call of every run.

 Every method is given the run of `EpollMachine` that has led to its call and
 hands back a continuation of it, as long as the calls it has used up.  What
 `EpollRuns` proves of all runs is therefore true of this class.
 */
module EpollServer {
  import opened EchoSpec
  import opened Net
  import opened Counters
  import opened EpollModel
  import opened EpollMachine
  import opened EpollCalls

  datatype Kernel = Kernel(p: Poll, horizon: nat)

  /** Peers, network and signals act before each system call. */
  method Advance(p: Poll) returns (mid: Poll)
    requires p.ready <= p.reg.Keys
    ensures Tick(p, mid)
  {
    mid := *;
    if !Tick(p, mid) {
      mid := p;
    }
  }

  method Read(k: Kernel, fd: Fd, buf: array<Byte>)
    returns (a: Answer, k': Kernel, ghost mid: Poll, ghost data: seq<Byte>)
    requires k.horizon > 0 && k.p.ready <= k.p.reg.Keys && OpenAt(k.p, fd)
    requires k.p.net.conns[k.p.net.fds[fd]].given <= k.p.net.conns[k.p.net.fds[fd]].sent
    modifies buf
    ensures k'.horizon == k.horizon - 1
    ensures Tick(k.p, mid) && OpenAt(mid, fd)
    ensures PollReads(mid, k'.p, fd, buf.Length, a, data)
    ensures a.Ok? ==> a.n <= buf.Length && buf[..a.n] == data
  {
    var p := Advance(k.p);
    mid := p;
    var next: Poll, bytes: seq<Byte> := *, *;
    a := *;
    if PollReads(p, next, fd, buf.Length, a, bytes) {
      forall i | 0 <= i < |bytes| {
        buf[i] := bytes[i];
      }
    } else {
      a, next, bytes := Err(EINTR), p, [];
    }
    data := bytes;
    k' := Kernel(next, k.horizon - 1);
  }

  method Write(k: Kernel, fd: Fd, data: seq<Byte>) returns (a: Answer, k': Kernel, ghost mid: Poll)
    requires k.horizon > 0 && k.p.ready <= k.p.reg.Keys && OpenAt(k.p, fd)
    requires data != []
    ensures k'.horizon == k.horizon - 1
    ensures Tick(k.p, mid) && OpenAt(mid, fd)
    ensures PollWrites(mid, k'.p, fd, data, a)
  {
    var p := Advance(k.p);
    mid := p;
    var next: Poll := *;
    a := *;
    if !PollWrites(p, next, fd, data, a) {
      a, next := Err(EINTR), p;
    }
    k' := Kernel(next, k.horizon - 1);
  }

  method Accept(k: Kernel) returns (a: Answer, k': Kernel, ghost mid: Poll)
    requires k.horizon > 0 && k.p.ready <= k.p.reg.Keys
    ensures k'.horizon == k.horizon - 1
    ensures Tick(k.p, mid) && PollAccepts(mid, k'.p, a)
  {
    var p := Advance(k.p);
    mid := p;
    var next: Poll := *;
    a := *;
    if !PollAccepts(p, next, a) {
      a, next := Err(EINTR), p;
    }
    k' := Kernel(next, k.horizon - 1);
  }

  method EpollWait(k: Kernel, max: nat) returns (a: Answer, events: seq<Event>, k': Kernel, ghost mid: Poll)
    requires k.horizon > 0 && k.p.ready <= k.p.reg.Keys
    ensures k'.horizon == k.horizon - 1
    ensures Tick(k.p, mid) && Waits(mid, k'.p, max, a, events)
  {
    var p := Advance(k.p);
    mid := p;
    var next: Poll := *;
    a, events := *, *;
    if !Waits(p, next, max, a, events) {
      a, next, events := Err(EINTR), p, [];
    }
    k' := Kernel(next, k.horizon - 1);
  }

  method EpollAdd(k: Kernel, fd: Fd, t: Trigger) returns (ok: bool, k': Kernel, ghost mid: Poll)
    requires k.p.ready <= k.p.reg.Keys && OpenAt(k.p, fd)
    ensures k'.horizon == k.horizon
    ensures Tick(k.p, mid) && OpenAt(mid, fd)
    ensures Adds(mid, k'.p, fd, t, ok)
  {
    var p := Advance(k.p);
    mid := p;
    ok := *;
    k' := Kernel(if ok then Registered(p, fd, t) else p, k.horizon);
  }

  /** read(2) of one record from the non-blocking signalfd. */
  method ReadSignal(k: Kernel) returns (got: bool, k': Kernel, ghost mid: Poll)
    requires k.horizon > 0 && k.p.ready <= k.p.reg.Keys
    ensures k'.horizon == k.horizon - 1
    ensures Tick(k.p, mid)
    ensures if got then mid.signals > 0 && k'.p == mid.(signals := mid.signals - 1) else k'.p == mid
  {
    var p := Advance(k.p);
    mid := p;
    got := p.signals > 0;
    if got {
      p := p.(signals := p.signals - 1);
    }
    k' := Kernel(p, k.horizon - 1);
  }

  /** How a handler ended; `Cut` when the observation ended first. */
  datatype Outcome = Done | Failed | Cut

  class EpollServer {
    const cfg: Config
    const buffer: array<Byte>
    var running: bool
    var stats: Stats

    constructor (mode: Trigger, bufferSize: nat, maxEvents: nat)
      ensures running && stats == Zero && fresh(buffer) && buffer.Length == bufferSize
      ensures cfg == Config(mode, mode.Edge?, bufferSize, maxEvents)
      ensures Drives(cfg, Begun, Boot, stats, running) && Now(Begun).pc == Dispatch([], running)
    {
      hide Drives, Begun;
      cfg := Config(mode, mode.Edge?, bufferSize, maxEvents);
      buffer := new Byte[bufferSize];
      running, stats := true, Zero;
      Begins(Config(mode, mode.Edge?, bufferSize, maxEvents));
    }

    /** Writes buffer[..len], spinning over EAGAIN and EINTR. */
    method WriteAll(k: Kernel, ghost t: Trace, fd: Fd, len: nat) returns (r: Outcome, k': Kernel, ghost t': Trace)
      requires Drives(cfg, t, k.p, stats, running) && Now(t).pc.Writing?
      requires HasCurrent(Now(t)) && Now(t).w.rest[0].fd == fd && len <= buffer.Length && buffer[..len] == Owed(Now(t))
      modifies this`stats
      ensures Drives(cfg, t', k'.p, stats, running) && Continues(t, t', k.horizon - k'.horizon)
      ensures k'.horizon <= k.horizon
      ensures stats == old(stats).(writeCalls := stats.writeCalls, syscalls := stats.syscalls)
      ensures stats.writeCalls <= old(stats.writeCalls) + len + (Repeated(t'.labels) - Repeated(t.labels))
                                  + (if r.Failed? then 1 else 0)
      ensures match r
              case Done =>
                && (if cfg.drain then SameEvent(t, t', Reading) else EventLeft(t, t'))
                && Replied(k.p, k'.p, Current(Now(t)), buffer[..len])
              case Failed => SameEvent(t, t', Closing(Failure))
              case Cut => k'.horizon == 0 && SameEvent(t, t', Writing)
    {
      hide *;
      k', t' := k, t;
      RunFacts(cfg, t, k.p, stats, running);
      ContinuesItself(t);
      CurrentIs(Now(t));
      var written: nat := 0;
      ghost var data, id := Owed(Now(t)), Current(Now(t));
      RepliedNothing(k.p, id);
      assert data[..0] == [] && data[0..] == data;
      AtSameEvent(t);
      while written < len && k'.horizon > 0
        invariant written <= len && buffer[..len] == data && k'.horizon <= k.horizon
        invariant Drives(cfg, t', k'.p, stats, running) && Continues(t, t', k.horizon - k'.horizon)
        invariant stats == old(stats).(writeCalls := stats.writeCalls, syscalls := stats.syscalls)
        invariant stats.writeCalls <= old(stats.writeCalls) + written + (Repeated(t'.labels) - Repeated(t.labels))
        invariant Replied(k.p, k'.p, id, data[..written])
        invariant written < len ==>
                    && SameEvent(t, t', Writing) && HasCurrent(Now(t')) && Current(Now(t')) == id
                    && Owed(Now(t')) == data[written..]
        invariant written == len ==> if cfg.drain then SameEvent(t, t', Reading) else EventLeft(t, t')
        decreases k'.horizon
      {
        SameEventIs(t, t', Writing);
        RunFacts(cfg, t', k'.p, stats, running);
        CurrentIs(Now(t'));
        assert buffer[written..len] == data[written..];
        var n, k2, mid := Write(k', fd, buffer[written..len]);
        ghost var t2, s2 := WriteHappens(cfg, t', k'.p, stats, running, mid, k2.p, data[written..], n);
        ContinuesOn(t, t', t2, k.horizon - k'.horizon, 1);
        SameEventsCompose(t, t', t2, Writing);
        RepliedMore(k.p, k'.p, k2.p, id, data, written, n);
        stats := stats.(writeCalls := stats.writeCalls + 1, syscalls := stats.syscalls + 1);
        k', t' := k2, t2;
        WrittenIs(n);
        if n.Ok? {
          written := written + n.n;
          continue;
        }
        if n == Err(EAGAIN) {
          continue;
        }
        if n == Err(EINTR) {
          continue;
        }
        assert n.errno.EOTHER? && n == Err(EOTHER);
        return Failed, k', t';
      }
      r := if written < len then Cut else Done;
      assert data[..len] == data;
    }

    /** close_connection: EPOLL_CTL_DEL, close and count. */
    method CloseConnection(k: Kernel, ghost t: Trace, fd: Fd) returns (k': Kernel, ghost t': Trace)
      requires Drives(cfg, t, k.p, stats, running) && Now(t).pc.Closing?
      requires HasCurrent(Now(t)) && Now(t).w.rest[0].fd == fd
      modifies this`stats
      ensures Drives(cfg, t', k'.p, stats, running) && Continues(t, t', 0) && EventLeft(t, t')
      ensures k' == k.(p := CloseFd(k.p, fd)) && fd !in k'.p.net.fds
      ensures stats == old(stats).(closed := old(stats).closed + 1)
    {
      hide *;
      RunFacts(cfg, t, k.p, stats, running);
      CurrentIs(Now(t));
      t' := CloseHappens(cfg, t, k.p, stats, running);
      ClosedIsGone(k.p, fd);
      k' := k.(p := CloseFd(k.p, fd));
      stats := stats.(closed := stats.closed + 1);
    }

    /** Handles one readiness event: reads and echoes once, or, edge-triggered, until the socket is empty. */
    method HandleConnection(k: Kernel, ghost t: Trace, e: Event) returns (cut: bool, k': Kernel, ghost t': Trace)
      requires Drives(cfg, t, k.p, stats, running) && buffer.Length == cfg.bufferSize
      requires Now(t).w.rest != [] && Now(t).w.rest[0] == e && Now(t).pc == Dispatch(Now(t).w.rest, running)
      requires e.fd != LISTENER && e.fd != SIGNALS
      modifies this`stats, buffer
      ensures Drives(cfg, t', k'.p, stats, running) && Continues(t, t', k.horizon - k'.horizon)
      ensures k'.horizon <= k.horizon
      ensures if cut then k'.horizon == 0 else EventLeft(t, t')
      ensures e.hup || e.err ==> !cut && k'.horizon == k.horizon && e.fd !in k'.p.net.fds
      ensures !cfg.drain ==> stats.requests <= old(stats).requests + 1
    {
      hide *;
      DispatchAt(Now(t).w.rest, running);
      RunFacts(cfg, t, k.p, stats, running);
      RunInvariant(cfg, t, k.p, stats, running);
      ContinuesItself(t);
      AtSameEvent(t);
      k', t' := k, t;
      if e.hup || e.err {
        k', t' := CloseConnection(k, t, e.fd);
        return false, k', t';
      }
      while k'.horizon > 0
        invariant k'.horizon <= k.horizon && Continues(t, t', k.horizon - k'.horizon)
        invariant Drives(cfg, t', k'.p, stats, running) && SameEvent(t, t', Reading)
        invariant !cfg.drain ==> stats.requests == old(stats).requests
        decreases k'.horizon
      {
        SameEventIs(t, t', Reading);
        var n, k2, t2 := ReadOnce(k', t', e.fd);
        ContinuesOn(t, t', t2, k.horizon - k'.horizon, 1);
        SameEventsCompose(t, t', t2, Reading);
        k', t' := k2, t2;

        if n.Ok? && n.n > 0 {
          SameEventIs(t, t', Writing);
          var ok, k3, t3 := EchoBack(k', t', e.fd, n.n);
          ContinuesOn(t, t', t3, k.horizon - k'.horizon, k'.horizon - k3.horizon);
          SameEventsCompose(t, t', t3, Writing);
          k', t' := k3, t3;
          if !ok.Done? {
            return ok.Cut?, k', t';
          }
          if !cfg.mode.Edge? {
            return false, k', t';
          }
          continue;
        }
        if n == Ok(0) {
          k', t' := EndEvent(k', k.horizon - k'.horizon, t, t', e.fd, Closing(EndOfStream)); // peer closed
          return false, k', t';
        }
        if n == Err(EAGAIN) {
          return false, k', t'; // socket drained
        }
        if n == Err(EINTR) {
          continue;
        }
        assert n.errno.EOTHER? && n == Err(EOTHER);
        k', t' := EndEvent(k', k.horizon - k'.horizon, t, t', e.fd, Closing(Failure));
        return false, k', t';
      }
      cut := true;
    }

    /** A read and its counters. */
    method ReadOnce(k: Kernel, ghost t: Trace, fd: Fd) returns (n: Answer, k': Kernel, ghost t': Trace)
      requires Drives(cfg, t, k.p, stats, running) && buffer.Length == cfg.bufferSize && k.horizon > 0
      requires Now(t).pc.Reading? && Now(t).w.rest != [] && Now(t).w.rest[0].fd == fd
      modifies this`stats, buffer
      ensures Drives(cfg, t', k'.p, stats, running) && Continues(t, t', 1) && k'.horizon == k.horizon - 1
      ensures stats.readCalls == old(stats).readCalls + 1
      ensures stats.requests == old(stats).requests + (if n.Ok? && n.n > 0 then 1 else 0)
      ensures stats.eagain == old(stats).eagain + (if n == Err(EAGAIN) then 1 else 0)
      ensures match n
              case Ok(len) =>
                && len <= buffer.Length
                && (len > 0 ==>
                      && SameEvent(t, t', Writing) && HasCurrent(Now(t')) && buffer[..len] == Owed(Now(t')))
                && (len == 0 ==> SameEvent(t, t', Closing(EndOfStream)))
              case Err(EAGAIN) => EventLeft(t, t')
              case Err(EINTR) => SameEvent(t, t', Reading)
              case Err(EOTHER) => SameEvent(t, t', Closing(Failure))
    {
      hide *;
      RunFacts(cfg, t, k.p, stats, running);
      CurrentIs(Now(t));
      ghost var mid, data;
      n, k', mid, data := Read(k, fd, buffer);
      ghost var s';
      t', s' := ReadHappens(cfg, t, k.p, stats, running, mid, k'.p, n, data);
      stats := stats.(readCalls := stats.readCalls + 1, syscalls := stats.syscalls + 1);
      if n.Ok? && n.n > 0 {
        stats := stats.(requests := stats.requests + 1);
        stats := stats.(bytes := stats.bytes + n.n);
      }
      if n == Err(EAGAIN) {
        stats := stats.(eagain := stats.eagain + 1);
      }
    }

    /** The event that began at `t0` ends with the close of its connection. */
    method EndEvent(k: Kernel, ghost used: int, ghost t0: Trace, ghost t: Trace, fd: Fd, ghost pc: Pc)
      returns (k': Kernel, ghost t': Trace)
      requires Drives(cfg, t, k.p, stats, running) && SameEvent(t0, t, pc) && pc.Closing? && Continues(t0, t, used)
      requires Now(t0).w.rest != [] && Now(t0).w.rest[0].fd == fd
      modifies this`stats
      ensures Drives(cfg, t', k'.p, stats, running) && EventLeft(t0, t') && Continues(t0, t', used)
      ensures k'.horizon == k.horizon && fd !in k'.p.net.fds
      ensures stats == old(stats).(closed := old(stats).closed + 1)
    {
      hide *;
      ClosingFacts(cfg, t0, t, k.p, stats, running, pc);
      k', t' := CloseConnection(k, t, fd);
      ClosingEnds(t0, t, t', used, pc);
    }

    /** Writes back what has just been read; when that fails the connection is closed. */
    method EchoBack(k: Kernel, ghost t: Trace, fd: Fd, len: nat) returns (r: Outcome, k': Kernel, ghost t': Trace)
      requires Drives(cfg, t, k.p, stats, running) && Now(t).pc.Writing?
      requires HasCurrent(Now(t)) && Now(t).w.rest[0].fd == fd && len <= buffer.Length && buffer[..len] == Owed(Now(t))
      modifies this`stats
      ensures Drives(cfg, t', k'.p, stats, running) && Continues(t, t', k.horizon - k'.horizon)
      ensures k'.horizon <= k.horizon && stats.requests == old(stats).requests
      ensures match r
              case Done =>
                && (if cfg.drain then SameEvent(t, t', Reading) else EventLeft(t, t'))
                && Replied(k.p, k'.p, Current(Now(t)), buffer[..len])
              case Failed => EventLeft(t, t')
              case Cut => k'.horizon == 0
    {
      hide *;
      CurrentIs(Now(t));
      r, k', t' := WriteAll(k, t, fd, len);
      if r.Failed? {
        k', t' := EndEvent(k', k.horizon - k'.horizon, t, t', fd, Closing(Failure));
      }
    }

    /** Accepts until EAGAIN; a connection counts as accepted only once it is registered. */
    method AcceptConnections(k: Kernel, ghost t: Trace) returns (cut: bool, k': Kernel, ghost t': Trace)
      requires Drives(cfg, t, k.p, stats, running) && Now(t).pc.Accepting?
      modifies this`stats
      ensures Drives(cfg, t', k'.p, stats, running) && Continues(t, t', k.horizon - k'.horizon)
      ensures k'.horizon <= k.horizon
      ensures if cut then k'.horizon == 0 else EventLeft(t, t')
    {
      hide *;
      k', t' := k, t;
      ContinuesItself(t);
      AtSameEvent(t);
      while k'.horizon > 0
        invariant k'.horizon <= k.horizon && Continues(t, t', k.horizon - k'.horizon)
        invariant Drives(cfg, t', k'.p, stats, running) && SameEvent(t, t', Accepting)
        decreases k'.horizon
      {
        SameEventIs(t, t', Accepting);
        RunFacts(cfg, t', k'.p, stats, running);
        var fd, k2, mid := Accept(k');
        ghost var t2 := AcceptHappens(cfg, t', k'.p, stats, running, mid, k2.p, fd);
        ContinuesOn(t, t', t2, k.horizon - k'.horizon, 1);
        SameEventsCompose(t, t', t2, Accepting);
        k', t' := k2, t2;
        if fd.Err? {
          if fd.errno == EAGAIN {
            return false, k', t';
          }
          if fd.errno == EINTR {
            continue;
          }
          return false, k', t';
        }
        SameEventIs(t, t', Adding(fd.n));
        ghost var t3;
        k2, t3 := Register(k', t', fd.n);
        ContinuesOn(t, t', t3, k.horizon - k'.horizon, 0);
        SameEventsCompose(t, t', t3, Adding(fd.n));
        k', t' := k2, t3;
      }
      cut := true;
    }

    /** add_to_epoll for a new connection, which is closed again when it is refused. */
    method Register(k: Kernel, ghost t: Trace, fd: Fd) returns (k': Kernel, ghost t': Trace)
      requires Drives(cfg, t, k.p, stats, running) && Now(t).pc == Adding(fd)
      modifies this`stats
      ensures Drives(cfg, t', k'.p, stats, running) && Continues(t, t', 0) && SameEvent(t, t', Accepting)
      ensures k'.horizon == k.horizon
      ensures if Now(t').refusals == Now(t).refusals then
                && fd in k'.p.net.fds && fd in k'.p.reg && k'.p.reg[fd] == cfg.mode
                && stats == old(stats).(accepted := old(stats).accepted + 1)
              else
                && Now(t').refusals == Now(t).refusals + 1
                && fd !in k'.p.net.fds && stats == old(stats)
    {
      hide *;
      RunFacts(cfg, t, k.p, stats, running);
      var ok, k2, mid := EpollAdd(k, fd, cfg.mode);
      t' := AddHappens(cfg, t, k.p, stats, running, mid, k2.p, fd, ok);
      k' := k2;
      if !ok {
        SameEventIs(t, t', Refused(fd));
        RunFacts(cfg, t', k'.p, stats, running);
        ghost var t3 := RefusedCloseHappens(cfg, t', k'.p, stats, running, fd);
        ContinuesOn(t, t', t3, 0, 0);
        SameEventsCompose(t, t', t3, Refused(fd));
        t' := t3;
        k' := k'.(p := CloseFd(k'.p, fd));
        return;
      }
      stats := stats.(accepted := stats.accepted + 1);
    }

    /** Reads the signalfd until it is empty: every read but the last delivers a record, and any record asks
        the loop to stop. */
    method DrainSignal(k: Kernel, ghost t: Trace) returns (cut: bool, k': Kernel, ghost t': Trace)
      requires Drives(cfg, t, k.p, stats, running) && Now(t).pc.Draining?
      modifies this`running
      ensures Drives(cfg, t', k'.p, stats, running) && Continues(t, t', k.horizon - k'.horizon)
      ensures k'.horizon <= k.horizon
      ensures if cut then k'.horizon == 0 else EventLeft(t, t')
      ensures !cut ==> running == (old(running) && k'.horizon == k.horizon - 1)
    {
      hide *;
      k', t' := k, t;
      ContinuesItself(t);
      AtSameEvent(t);
      while k'.horizon > 0
        invariant k'.horizon <= k.horizon && Continues(t, t', k.horizon - k'.horizon)
        invariant Drives(cfg, t', k'.p, stats, running) && SameEvent(t, t', Draining)
        invariant running == (old(running) && k'.horizon == k.horizon)
        decreases k'.horizon
      {
        SameEventIs(t, t', Draining);
        RunFacts(cfg, t', k'.p, stats, running);
        var got, k2, mid := ReadSignal(k');
        ghost var t2 := SignalReadHappens(cfg, t', k'.p, stats, running, mid, got);
        ContinuesOn(t, t', t2, k.horizon - k'.horizon, 1);
        SameEventsCompose(t, t', t2, Draining);
        k', t' := k2, t2;
        if !got {
          return false, k', t';
        }
        running := false;
      }
      cut := true;
    }

    /** The event loop, observed for `k.horizon` system calls.  The run it has been given goes on for exactly as
        many calls; if the observation is not over, the loop has come to its end. */
    method Run(k: Kernel, ghost t: Trace) returns (k': Kernel, ghost t': Trace)
      requires Drives(cfg, t, k.p, stats, running) && buffer.Length == cfg.bufferSize
      requires Now(t).w.rest == [] && Now(t).pc == Dispatch([], running)
      modifies this, buffer
      ensures Drives(cfg, t', k'.p, stats, running) && Continues(t, t', k.horizon - k'.horizon)
      ensures k'.horizon <= k.horizon
      ensures k'.horizon > 0 ==> Now(t').pc.Stopped?
    {
      hide *;
      k', t' := k, t;
      ContinuesItself(t);
      DispatchAt([], running);
      while running && k'.horizon > 0
        invariant k'.horizon <= k.horizon && Continues(t, t', k.horizon - k'.horizon)
        invariant Drives(cfg, t', k'.p, stats, running)
        invariant k'.horizon > 0 ==> Now(t').pc == if running then Waiting else Stopped
        decreases k'.horizon
      {
        RunFacts(cfg, t', k'.p, stats, running);
        var n, events, k2, mid := EpollWait(k', cfg.maxEvents);
        ghost var t2 := WaitHappens(cfg, t', k'.p, stats, running, mid, k2.p, n, events);
        ContinuesOn(t, t', t2, k.horizon - k'.horizon, 1);
        k', t' := k2, t2;
        stats := stats.(waitCalls := stats.waitCalls + 1, syscalls := stats.syscalls + 1);
        if n.Err? {
          if n.errno == EINTR {
            continue;
          }
          break;
        }
        var i := 0;
        while i < |events|
          invariant 0 <= i <= |events| && k'.horizon <= k2.horizon
          invariant Continues(t, t', k.horizon - k'.horizon)
          invariant Drives(cfg, t', k'.p, stats, running)
          invariant Now(t').w.rest == events[i..] && Now(t').pc == Dispatch(events[i..], running)
        {
          var cut, k3;
          ghost var t3;
          cut, k3, t3 := HandleEvent(k', t', events[i]);
          ContinuesOn(t, t', t3, k.horizon - k'.horizon, k'.horizon - k3.horizon);
          k', t' := k3, t3;
          if cut {
            return;
          }
          i := i + 1;
        }
        DispatchAt(events[i..], running);
      }
    }

    /** One event of the batch. */
    method HandleEvent(k: Kernel, ghost t: Trace, e: Event) returns (cut: bool, k': Kernel, ghost t': Trace)
      requires Drives(cfg, t, k.p, stats, running) && buffer.Length == cfg.bufferSize
      requires Now(t).w.rest != [] && Now(t).w.rest[0] == e && Now(t).pc == Dispatch(Now(t).w.rest, running)
      modifies this, buffer
      ensures Drives(cfg, t', k'.p, stats, running) && Continues(t, t', k.horizon - k'.horizon)
      ensures k'.horizon <= k.horizon
      ensures if cut then k'.horizon == 0
              else Now(t').w.rest == Now(t).w.rest[1..] && Now(t').pc == Dispatch(Now(t').w.rest, running)
    {
      hide *;
      DispatchAt(Now(t).w.rest, running);
      if e.fd == SIGNALS {
        cut, k', t' := DrainSignal(k, t);
      } else if e.fd == LISTENER {
        cut, k', t' := AcceptConnections(k, t);
      } else {
        cut, k', t' := HandleConnection(k, t, e);
      }
      if !cut {
        RunFacts(cfg, t', k'.p, stats, running);
        EventLeftIs(t, t');
      }
    }
  }
}
