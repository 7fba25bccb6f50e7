/**
 server_threads.cpp: one blocking thread per connection.

 The acceptor (the main thread) and any number of workers run as a state
 machine over sequentially consistent interleavings.  A step is one action of
 one thread that other threads can see: a system call, one counter bump, one
 test or change of the shared flag.  The order of the bumps is the source's.
 */
module Threads {
  import opened EchoSpec
  import opened Net
  import opened Counters

  /** Where a worker is in `serve`. */
  datatype Pc =
    | Test           // while (running_)
    | Read
    | CountRead      // read has answered; read_calls is bumped next
    | CountReadCall  // syscalls is bumped next
    | CountRequest
    | CountBytes
    | Write
    | CountWrite
    | CountWriteCall
    | CountClosed
    | Close          // the destructor of the connection's socket
    | Exited

  /** A worker's locals.  `data` is the filled part of its buffer, `answer` the last system call's result;
      `failed` records that a write failed, `chunks` how many reads delivered bytes. */
  datatype Worker = Worker(id: Id, fd: Fd, pc: Pc, answer: Answer, data: seq<Byte>, written: nat, failed: bool,
                           chunks: nat)

  /** What poll reported. */
  datatype Poll = PollFailed(interrupted: bool) | Ready(signal: bool, listener: bool)

  /** Where the main thread is: in `run`, reading the counters, or in the destructor. */
  datatype MainPc =
    | MainTest
    | Polling
    | CountWait(poll: Poll)
    | CountWaitCall(poll: Poll)
    | Drain
    | Accept
    | CountAccepted(fd: Fd)
    | CountSpawned(fd: Fd)
    | Spawn(fd: Fd)
    | LoadAccepted
    | LoadClosed(accepted: nat)
    | Stop(accepted: nat, closed: nat)
    | Join(k: nat, accepted: nat, closed: nat)
    | Gone(accepted: nat, closed: nat)

  datatype State = State(net: Sockets, signals: nat, running: bool, stats: Stats, main: MainPc,
                         workers: seq<Worker>, cap: nat)

  datatype Label =
    | OfWorker(i: nat, net: Sockets, a: Answer, data: seq<Byte>)
    | OfMain(net: Sockets, a: Answer, poll: Poll)
    | Outside(net: Sockets, signals: nat)

  // ---------------------------------------------------------------- steps

  /** The system call at this point of `serve`, if there is one. */
  predicate Calls(net: Sockets, net': Sockets, cap: nat, w: Worker, a: Answer, data: seq<Byte>) {
    match w.pc
    case Read =>
      w.fd in net.fds && net.fds[w.fd] in net.conns && a != Err(EAGAIN) && Reads(net, net', w.fd, cap, a, data)
    case Write =>
      && w.fd in net.fds && net.fds[w.fd] in net.conns && a != Err(EAGAIN)
      && w.written < |w.data| && Writes(net, net', w.fd, w.data[w.written..], a)
    case Close => w.fd in net.fds && net.fds[w.fd] in net.conns && net' == Net.Close(net, w.fd)
    case Exited => false
    case _ => net' == net
  }

  function NextWorker(w: Worker, running: bool, a: Answer, data: seq<Byte>): Worker {
    match w.pc
    case Test => w.(pc := if running then Read else CountClosed)
    case Read =>
      w.(pc := CountRead, answer := a, data := data, written := 0,
         chunks := w.chunks + (if a.Ok? && a.n > 0 then 1 else 0))
    case CountRead => w.(pc := CountReadCall)
    case CountReadCall =>
      w.(pc := if w.answer == Err(EINTR) then Test
               else if w.answer.Err? || w.answer.n == 0 then CountClosed
               else CountRequest)
    case CountRequest => w.(pc := CountBytes)
    case CountBytes => w.(pc := Write)
    case Write => w.(pc := CountWrite, answer := a, failed := a == Err(EOTHER))
    case CountWrite => w.(pc := CountWriteCall)
    case CountWriteCall =>
      var written := w.written + Written(w.answer);
      w.(written := written,
         pc := if w.answer == Err(EINTR) then Write
               else if w.answer.Err? then CountClosed
               else if written < |w.data| then Write
               else Test)
    case CountClosed => w.(pc := Close)
    case Close => w.(pc := Exited)
    case Exited => w
  }

  function NextStats(s: Stats, w: Worker): Stats {
    match w.pc
    case CountRead => s.(readCalls := s.readCalls + 1)
    case CountReadCall => s.(syscalls := s.syscalls + 1)
    case CountRequest => s.(requests := s.requests + 1)
    case CountBytes => s.(bytes := s.bytes + |w.data|)
    case CountWrite => s.(writeCalls := s.writeCalls + 1)
    case CountWriteCall => s.(syscalls := s.syscalls + 1)
    case CountClosed => s.(closed := s.closed + 1)
    case _ => s
  }

  /** The worker's next action; `net'`, `a` and `data` are what its system call did and returned. */
  predicate WorkerStep(s: State, s': State, i: nat, net': Sockets, a: Answer, data: seq<Byte>)
    requires i < |s.workers|
  {
    && Calls(s.net, net', s.cap, s.workers[i], a, data)
    && s' == s.(net := net', stats := NextStats(s.stats, s.workers[i]),
                workers := s.workers[i := NextWorker(s.workers[i], s.running, a, data)])
  }

  predicate MainStep(s: State, s': State, net': Sockets, a: Answer, poll: Poll) {
    match s.main
    case MainTest => s' == s.(main := if s.running then Polling else LoadAccepted)
    case Polling =>
      && (poll.Ready? ==>
            && (poll.signal || poll.listener)
            && (poll.signal ==> s.signals > 0) && (poll.listener ==> s.net.backlog != []))
      && s' == s.(main := CountWait(poll))
    case CountWait(p) =>
      s' == s.(main := CountWaitCall(p), stats := s.stats.(waitCalls := s.stats.waitCalls + 1))
    case CountWaitCall(p) =>
      var next := if p.PollFailed? then (if p.interrupted then MainTest else LoadAccepted)
                  else if p.signal then Drain else Accept;
      s' == s.(main := next, stats := s.stats.(syscalls := s.stats.syscalls + 1))
    case Drain =>
      s' == if s.signals > 0 then s.(signals := s.signals - 1, running := false) else s.(main := LoadAccepted)
    case Accept =>
      && Accepts(s.net, net', a)
      && s' == s.(net := net', main := if a.Ok? then CountAccepted(a.n) else MainTest)
    case CountAccepted(fd) =>
      s' == s.(main := CountSpawned(fd), stats := s.stats.(accepted := s.stats.accepted + 1))
    case CountSpawned(fd) =>
      s' == s.(main := Spawn(fd), stats := s.stats.(threadsSpawned := s.stats.threadsSpawned + 1))
    case Spawn(fd) =>
      && fd in s.net.fds
      && s' == s.(main := MainTest, workers := s.workers + [Worker(s.net.fds[fd], fd, Test, Ok(0), [], 0, false, 0)])
    case LoadAccepted => s' == s.(main := LoadClosed(s.stats.accepted))
    case LoadClosed(accepted) => s' == s.(main := Stop(accepted, s.stats.closed))
    case Stop(accepted, closed) => s' == s.(main := Join(0, accepted, closed), running := false)
    case Join(k, accepted, closed) =>
      if k >= |s.workers| then s' == s.(main := Gone(accepted, closed))
      else s.workers[k].pc.Exited? && s' == s.(main := Join(k + 1, accepted, closed))
    case Gone(_, _) => false
  }

  predicate Step(s: State, s': State, l: Label) {
    match l
    case OfWorker(i, net', a, data) => i < |s.workers| && WorkerStep(s, s', i, net', a, data)
    case OfMain(net', a, poll) => MainStep(s, s', net', a, poll)
    case Outside(net', signals') =>
      Peers(s.net, net') && s.signals <= signals' && s' == s.(net := net', signals := signals')
  }

  predicate Init(s: State) {
    && s.net == NoSockets && s.running && s.stats == Zero && s.main == MainTest && s.workers == []
  }

  // ---------------------------------------------------------------- the invariant

  /** How much of `data` has been written, whether or not the local count shows it yet. */
  function Sent(w: Worker): nat {
    if w.pc.CountWrite? || w.pc.CountWriteCall? then w.written + Written(w.answer) else w.written
  }

  /** What the worker owes its peer. */
  function Rest(w: Worker): seq<Byte>
    requires Sent(w) <= |w.data|
  {
    if w.pc.Exited? then [] else w.data[Sent(w)..]
  }

  /** A worker and its connection: which bytes are where at each point of `serve`. */
  ghost predicate WorkerOk(net: Sockets, running: bool, cap: nat, w: Worker) {
    && w.id in net.conns && Sent(w) <= |w.data|
    && var c := net.conns[w.id];
       && c.given <= c.sent
       && (if w.pc.Exited? then
             c.at.Closed? && c.out <= c.given && (if w.failed then c.broken else c.out == c.given)
             && (!c.dropped ==> Finished(c)) && (running && cap > 0 ==> !c.dropped)
           else
             !c.dropped && w.fd in net.fds && net.fds[w.fd] == w.id && c.at == Open(w.fd) && c.given == c.out + Rest(w))
       && match w.pc
          case Test | Read => Rest(w) == [] && !w.failed
          case CountRead | CountReadCall =>
            w.written == 0 && !w.failed && (if w.answer.Ok? then |w.data| == w.answer.n else w.data == [])
            && (w.answer == Ok(0) && cap > 0 ==> c.fin && c.given == c.sent) && (w.answer == Err(EOTHER) ==> c.broken)
            && w.answer != Err(EAGAIN)
          case CountRequest | CountBytes => w.written == 0 && !w.failed && w.data != []
          case Write => w.written < |w.data| && !w.failed
          case CountWrite | CountWriteCall =>
            w.written < |w.data| && w.failed == (w.answer == Err(EOTHER)) && (w.failed ==> c.broken)
            && w.answer != Err(EAGAIN)
          case CountClosed | Close => MayClose(c, running, cap, w)
          case Exited => true
  }

  /** Why a worker gives up its connection: an error, the end of the stream, the shutdown or an empty buffer. */
  ghost predicate MayClose(c: Conn, running: bool, cap: nat, w: Worker)
    requires Sent(w) <= |w.data|
  {
    if w.failed then c.broken else Rest(w) == [] && (!running || cap == 0 || c.broken || (c.fin && c.given == c.sent))
  }

  ghost predicate Workers(s: State) {
    && (forall i | 0 <= i < |s.workers| :: WorkerOk(s.net, s.running, s.cap, s.workers[i]))
    && (forall i, j | 0 <= i < j < |s.workers| :: s.workers[i].id != s.workers[j].id)
  }

  function Accepted(main: MainPc): set<Fd> {
    match main
    case CountAccepted(fd) => {fd}
    case CountSpawned(fd) => {fd}
    case Spawn(fd) => {fd}
    case _ => {}
  }

  /** Every open descriptor has one thread looking after it: its worker, or the main thread about to start one. */
  ghost predicate Owners(s: State) {
    AcceptedOk(s) && AllServed(s) && QueuedOk(s) && ClosedOk(s)
  }

  /** A descriptor the main thread holds is a connection nothing has been read from. */
  ghost predicate AcceptedOk(s: State) {
    forall fd | fd in Accepted(s.main) ::
      && fd in s.net.fds && s.net.fds[fd] in s.net.conns
      && s.net.conns[s.net.fds[fd]].given == [] && s.net.conns[s.net.fds[fd]].out == []
      && !s.net.conns[s.net.fds[fd]].dropped
      && forall i | 0 <= i < |s.workers| :: s.workers[i].id != s.net.fds[fd]
  }

  ghost predicate AllServed(s: State) {
    forall fd | fd in s.net.fds :: fd in Accepted(s.main) || Served(s.workers, fd)
  }

  ghost predicate QueuedOk(s: State) {
    forall id | id in s.net.conns && s.net.conns[id].at.Queued? ::
      s.net.conns[id].given == [] && s.net.conns[id].out == [] && !s.net.conns[id].dropped
      && forall i | 0 <= i < |s.workers| :: s.workers[i].id != id
  }

  ghost predicate ClosedOk(s: State) {
    forall id | id in s.net.conns && s.net.conns[id].at.Closed? :: WasServed(s.workers, id)
  }

  ghost predicate WasServed(ws: seq<Worker>, id: Id) {
    exists i :: 0 <= i < |ws| && ws[i].id == id
  }

  ghost predicate Served(ws: seq<Worker>, fd: Fd) {
    exists i :: 0 <= i < |ws| && ws[i].fd == fd && !ws[i].pc.Exited?
  }

  // ---------------------------------------------------------------- counters

  ghost function Sum(ws: seq<Worker>, f: Worker -> nat): nat {
    if ws == [] then 0 else f(ws[0]) + Sum(ws[1..], f)
  }

  lemma {:induction false} SumUpdate(ws: seq<Worker>, i: nat, w: Worker, f: Worker -> nat)
    requires i < |ws|
    ensures Sum(ws[i := w], f) + f(ws[i]) == Sum(ws, f) + f(w)
  {
    if i == 0 {
      assert ws[i := w][1..] == ws[1..];
    } else {
      SumUpdate(ws[1..], i - 1, w, f);
      assert ws[i := w][1..] == ws[1..][i - 1 := w];
    }
  }

  lemma {:induction false} SumAppend(ws: seq<Worker>, w: Worker, f: Worker -> nat)
    ensures Sum(ws + [w], f) == Sum(ws, f) + f(w)
  {
    if ws == [] {
      assert ws + [w] == [w] && [w][1..] == [];
    } else {
      SumAppend(ws[1..], w, f);
      assert (ws + [w])[1..] == ws[1..] + [w];
    }
  }

  lemma {:induction false} SumZero(ws: seq<Worker>, f: Worker -> nat)
    requires forall w | w in ws :: f(w) == 0
    ensures Sum(ws, f) == 0
  {
    if ws != [] {
      SumZero(ws[1..], f);
    }
  }

  /** A worker that has not counted its exit. */
  function Uncounted(w: Worker): nat {
    if w.pc.Close? || w.pc.Exited? then 0 else 1
  }

  /** A worker caught between the two bumps of one system call: both outstanding, or one. */
  function Behind(w: Worker): nat {
    if w.pc.CountReadCall? || w.pc.CountWriteCall? then 1 else 0
  }

  /** Bytes a worker has read and not yet counted. */
  function Uncredited(w: Worker): nat {
    if w.pc.CountRead? || w.pc.CountReadCall? || w.pc.CountRequest? || w.pc.CountBytes? then |w.data| else 0
  }

  function Chunks(w: Worker): nat {
    w.chunks
  }

  /** A chunk a worker has read and not yet counted as a request. */
  function Unrequested(w: Worker): nat {
    if (w.pc.CountRead? || w.pc.CountReadCall? || w.pc.CountRequest?) && w.data != [] then 1 else 0
  }

  function Spawning(main: MainPc): nat {
    if main.CountSpawned? || main.Spawn? then 1 else 0
  }

  ghost predicate Tallied(s: State) {
    && s.stats.accepted == |s.workers| + Spawning(s.main)
    && s.stats.threadsSpawned == |s.workers| + (if s.main.Spawn? then 1 else 0)
    && s.stats.accepted == s.stats.closed + Sum(s.workers, Uncounted) + Spawning(s.main)
    && s.stats.syscalls + Sum(s.workers, Behind) + (if s.main.CountWaitCall? then 1 else 0)
       == s.stats.waitCalls + s.stats.readCalls + s.stats.writeCalls
    && s.stats.bytes + Sum(s.workers, Uncredited) == TotalGiven(s.net.conns)
    && s.stats.requests + Sum(s.workers, Unrequested) == Sum(s.workers, Chunks)
  }

  /** The snapshot loads `accepted` first; nobody but the main thread changes it. */
  ghost predicate MainOk(s: State) {
    match s.main
    case LoadClosed(a) => a == s.stats.accepted
    case Stop(a, c) => a == s.stats.accepted && c <= a
    case Join(k, a, c) =>
      a == s.stats.accepted && c <= a && !s.running
      && k <= |s.workers| && forall i | 0 <= i < k :: s.workers[i].pc.Exited?
    case Gone(a, c) =>
      a == s.stats.accepted && c <= a && !s.running && forall i | 0 <= i < |s.workers| :: s.workers[i].pc.Exited?
    case _ => true
  }

  ghost predicate Inv(s: State) {
    TableInv(s.net) && Workers(s) && Owners(s) && Tallied(s) && MainOk(s)
  }

  lemma InitIsInv(s: State)
    requires Init(s)
    ensures Inv(s)
  {
  }

  // ---------------------------------------------------------------- a worker's step

  /** Only connection `id` has changed, and its descriptor at most went away. */
  ghost predicate Local(net: Sockets, net': Sockets, id: Id, fd: Fd) {
    && net'.conns.Keys == net.conns.Keys && net'.backlog == net.backlog
    && (id in net.conns ==> !net'.conns[id].at.Queued?)
    && (forall x | x in net.conns && x != id :: net'.conns[x] == net.conns[x])
    && (net'.fds == net.fds || (net'.fds == net.fds - {fd} && fd in net.fds && net.fds[fd] == id))
  }

  /** What one action of a worker does to its connection and to its own record of it. */
  ghost predicate Moves(net: Sockets, net': Sockets, running: bool, cap: nat, w: Worker, w': Worker) {
    && TableInv(net') && Local(net, net', w.id, w.fd) && WorkerOk(net', running, cap, w')
    && TotalGiven(net'.conns) == TotalGiven(net.conns) + (if w.pc.Read? then |w'.data| else 0)
    && net'.fds == (if w.pc.Close? then net.fds - {w.fd} else net.fds)
  }

  lemma AnswerCases(a: Answer)
    ensures a.Ok? || a == Err(EAGAIN) || a == Err(EINTR) || a == Err(EOTHER)
  {
    if a.Err? {
      assert a == Err(a.errno) && (a.errno.EAGAIN? || a.errno.EINTR? || a.errno.EOTHER?);
    }
  }

  lemma ReadMoves(net: Sockets, net': Sockets, cap: nat, running: bool, w: Worker, a: Answer, data: seq<Byte>)
    requires TableInv(net) && WorkerOk(net, running, cap, w) && w.pc.Read? && Calls(net, net', cap, w, a, data)
    ensures Moves(net, net', running, cap, w, NextWorker(w, running, a, data))
  {
    hide TotalGiven, TableInv;
    ReadShape(net, net', w.fd, cap, a, data);
    UpdateKeepsTable(net, w.id, net'.conns[w.id]);
    assert data[0..] == data;
    assert net.conns[w.id].given + [] == net.conns[w.id].given;
  }

  lemma WriteMoves(net: Sockets, net': Sockets, cap: nat, running: bool, w: Worker, a: Answer, data: seq<Byte>)
    requires TableInv(net) && WorkerOk(net, running, cap, w) && w.pc.Write? && Calls(net, net', cap, w, a, data)
    ensures Moves(net, net', running, cap, w, NextWorker(w, running, a, data))
  {
    hide TotalGiven, TableInv, Writes, Written;
    var owed := w.data[w.written..];
    WriteShape(net, net', w.fd, owed, a);
    UpdateKeepsTable(net, w.id, net'.conns[w.id]);
    WriteMovesBytes(net.conns[w.id].out, w.data, w.written, Written(a));
    WriteLeavesWorkerOk(net, net', running, cap, w, a, data);
  }

  lemma WriteMovesBytes(out: seq<Byte>, data: seq<Byte>, k: nat, n: nat)
    requires k + n <= |data|
    ensures out + data[k..] == out + data[k..][..n] + data[k + n..]
  {
    assert data[k..] == data[k..][..n] + data[k + n..];
  }

  lemma WriteLeavesWorkerOk(net: Sockets, net': Sockets, running: bool, cap: nat, w: Worker, a: Answer, data: seq<Byte>)
    requires WorkerOk(net, running, cap, w) && w.pc.Write? && a != Err(EAGAIN)
    requires w.id in net'.conns && net'.fds == net.fds && w.written + Written(a) <= |w.data|
    requires var c, c' := net.conns[w.id], net'.conns[w.id];
             && c'.at == c.at && c'.sent == c.sent && c'.given == c.given && c'.dropped == c.dropped
             && c'.broken == (c.broken || a == Err(EOTHER))
             && c'.given == c'.out + w.data[w.written + Written(a)..]
    ensures WorkerOk(net', running, cap, NextWorker(w, running, a, data))
  {
    hide *;
    WritingFacts(net, running, cap, w);
    WroteIs(w, running, a, data);
    WroteFolds(net', running, cap, NextWorker(w, running, a, data));
  }

  lemma WritingFacts(net: Sockets, running: bool, cap: nat, w: Worker)
    requires WorkerOk(net, running, cap, w) && w.pc.Write?
    ensures w.id in net.conns && w.fd in net.fds && net.fds[w.fd] == w.id && w.written < |w.data|
    ensures var c := net.conns[w.id]; c.given <= c.sent && !c.dropped && c.at == Open(w.fd)
  {
  }

  lemma WroteIs(w: Worker, running: bool, a: Answer, data: seq<Byte>)
    requires w.pc.Write?
    ensures NextWorker(w, running, a, data) == w.(pc := CountWrite, answer := a, failed := a == Err(EOTHER))
  {
  }

  lemma WroteFolds(net: Sockets, running: bool, cap: nat, w: Worker)
    requires w.pc.CountWrite? && w.id in net.conns && w.fd in net.fds && net.fds[w.fd] == w.id
    requires w.written < |w.data| && w.written + Written(w.answer) <= |w.data| && w.answer != Err(EAGAIN)
    requires w.failed == (w.answer == Err(EOTHER))
    requires var c := net.conns[w.id];
             && c.given <= c.sent && !c.dropped && c.at == Open(w.fd)
             && c.given == c.out + w.data[w.written + Written(w.answer)..] && (w.failed ==> c.broken)
    ensures WorkerOk(net, running, cap, w)
  {
    hide Written;
  }

  lemma CloseMoves(net: Sockets, net': Sockets, cap: nat, running: bool, w: Worker, a: Answer, data: seq<Byte>)
    requires TableInv(net) && WorkerOk(net, running, cap, w) && w.pc.Close? && Calls(net, net', cap, w, a, data)
    ensures Moves(net, net', running, cap, w, NextWorker(w, running, a, data))
  {
    hide TotalGiven, TableInv;
    CloseKeepsTable(net, w.fd);
    TotalGivenFrame(net.conns, net'.conns);
    var c := net.conns[w.id];
    if !w.failed {
      assert c.out + [] == c.out;
    }
  }

  lemma ReadCallDone(net: Sockets, running: bool, cap: nat, w: Worker, a: Answer, data: seq<Byte>)
    requires WorkerOk(net, running, cap, w) && w.pc.CountReadCall?
    ensures WorkerOk(net, running, cap, NextWorker(w, running, a, data))
  {
    AnswerCases(w.answer);
    assert w.data[0..] == w.data;
  }

  lemma WriteCallDone(net: Sockets, running: bool, cap: nat, w: Worker, a: Answer, data: seq<Byte>)
    requires WorkerOk(net, running, cap, w) && w.pc.CountWriteCall?
    ensures WorkerOk(net, running, cap, NextWorker(w, running, a, data))
  {
    AnswerCases(w.answer);
    WrittenIs(w.answer);
    hide Written;
  }

  lemma CountDone(net: Sockets, running: bool, cap: nat, w: Worker, a: Answer, data: seq<Byte>)
    requires WorkerOk(net, running, cap, w)
    requires w.pc.Test? || w.pc.CountRead? || w.pc.CountRequest? || w.pc.CountBytes?
             || w.pc.CountWrite? || w.pc.CountClosed?
    ensures WorkerOk(net, running, cap, NextWorker(w, running, a, data))
  {
    hide Written;
  }

  lemma NoCall(net: Sockets, net': Sockets, cap: nat, running: bool, w: Worker, w': Worker, a: Answer, data: seq<Byte>)
    requires TableInv(net) && WorkerOk(net, running, cap, w) && Calls(net, net', cap, w, a, data)
    requires !w.pc.Read? && !w.pc.Write? && !w.pc.Close? && WorkerOk(net, running, cap, w')
    ensures Moves(net, net', running, cap, w, w')
  {
    hide TotalGiven, TableInv;
    assert net' == net;
    hide Calls;
  }

  /** Between system calls a worker only moves along its own code. */
  lemma QuietMoves(net: Sockets, net': Sockets, cap: nat, running: bool, w: Worker, a: Answer, data: seq<Byte>)
    requires TableInv(net) && WorkerOk(net, running, cap, w) && Calls(net, net', cap, w, a, data)
    requires !w.pc.Read? && !w.pc.Write? && !w.pc.Close?
    ensures Moves(net, net', running, cap, w, NextWorker(w, running, a, data))
  {
    hide *;
    NotExited(net, net', cap, w, a, data);
    if w.pc.CountReadCall? {
      ReadCallDone(net, running, cap, w, a, data);
    } else if w.pc.CountWriteCall? {
      WriteCallDone(net, running, cap, w, a, data);
    } else {
      CountDone(net, running, cap, w, a, data);
    }
    NoCall(net, net', cap, running, w, NextWorker(w, running, a, data), a, data);
  }

  lemma NotExited(net: Sockets, net': Sockets, cap: nat, w: Worker, a: Answer, data: seq<Byte>)
    requires Calls(net, net', cap, w, a, data)
    ensures !w.pc.Exited?
  {
  }

  lemma WorkerMoves(net: Sockets, net': Sockets, cap: nat, running: bool, w: Worker, a: Answer, data: seq<Byte>)
    requires TableInv(net) && WorkerOk(net, running, cap, w) && Calls(net, net', cap, w, a, data)
    ensures Moves(net, net', running, cap, w, NextWorker(w, running, a, data))
  {
    hide *;
    if w.pc.Read? {
      ReadMoves(net, net', cap, running, w, a, data);
    } else if w.pc.Write? {
      WriteMoves(net, net', cap, running, w, a, data);
    } else if w.pc.Close? {
      CloseMoves(net, net', cap, running, w, a, data);
    } else {
      QuietMoves(net, net', cap, running, w, a, data);
    }
  }

  lemma NextWorkerFacts(w: Worker, running: bool, a: Answer, data: seq<Byte>)
    ensures var w' := NextWorker(w, running, a, data);
            && w'.id == w.id && w'.fd == w.fd
            && (w'.pc.Exited? <==> w.pc.Close? || w.pc.Exited?)
  {
  }

  lemma OtherWorkerOk(net: Sockets, net': Sockets, running: bool, cap: nat, w: Worker, id: Id, fd: Fd)
    requires WorkerOk(net, running, cap, w) && w.id != id && Local(net, net', id, fd)
    ensures WorkerOk(net', running, cap, w)
  {
  }

  lemma WorkerStepKeepsWorkers(s: State, s': State, i: nat, w': Worker)
    requires Workers(s) && i < |s.workers| && s'.running == s.running && s'.cap == s.cap
    requires s'.workers == s.workers[i := w'] && w'.id == s.workers[i].id && w'.fd == s.workers[i].fd
    requires Local(s.net, s'.net, w'.id, w'.fd) && WorkerOk(s'.net, s'.running, s'.cap, w')
    ensures Workers(s')
  {
    hide WorkerOk, Local;
    forall k | 0 <= k < |s'.workers| ensures WorkerOk(s'.net, s'.running, s'.cap, s'.workers[k]) {
      if k != i {
        assert s.workers[k].id != s.workers[i].id;
        OtherWorkerOk(s.net, s'.net, s.running, s.cap, s.workers[k], w'.id, w'.fd);
      }
    }
  }

  lemma WorkerStepKeepsOwners(s: State, s': State, i: nat, w': Worker)
    requires Workers(s) && Owners(s) && i < |s.workers| && s'.main == s.main
    requires s'.workers == s.workers[i := w'] && w'.id == s.workers[i].id && w'.fd == s.workers[i].fd
    requires Local(s.net, s'.net, w'.id, w'.fd)
    requires w'.pc.Exited? <==> s.workers[i].pc.Close? || s.workers[i].pc.Exited?
    requires s'.net.fds == if s.workers[i].pc.Close? then s.net.fds - {w'.fd} else s.net.fds
    ensures Owners(s')
  {
    hide *;
    WorkerIsOk(s, i);
    HasConn(s.net, s.running, s.cap, s.workers[i]);
    OwnersParts(s);
    OnlyWorkerFolds(s, s', i, w');
    WorkerKeepsAccepted(s, s', i, w');
    WorkerKeepsServed(s, s', i, w');
    WorkerKeepsQueued(s, s', i, w');
    WorkerKeepsClosed(s, s', i, w');
    OwnersFold(s');
  }

  lemma OwnersParts(s: State)
    requires Owners(s)
    ensures AcceptedOk(s) && AllServed(s) && QueuedOk(s) && ClosedOk(s)
  {
  }

  lemma OwnersFold(s: State)
    requires AcceptedOk(s) && AllServed(s) && QueuedOk(s) && ClosedOk(s)
    ensures Owners(s)
  {
  }

  /** Worker `i` has become `w'`, and only its own connection has changed. */
  ghost predicate OnlyWorker(s: State, s': State, i: nat, w': Worker) {
    && i < |s.workers| && s'.main == s.main && s.workers[i].id in s.net.conns
    && s'.workers == s.workers[i := w'] && w'.id == s.workers[i].id && w'.fd == s.workers[i].fd
    && Local(s.net, s'.net, w'.id, w'.fd)
    && (w'.pc.Exited? <==> s.workers[i].pc.Close? || s.workers[i].pc.Exited?)
    && s'.net.fds == (if s.workers[i].pc.Close? then s.net.fds - {w'.fd} else s.net.fds)
  }

  lemma OnlyWorkerFolds(s: State, s': State, i: nat, w': Worker)
    requires i < |s.workers| && s'.main == s.main && s.workers[i].id in s.net.conns
    requires s'.workers == s.workers[i := w'] && w'.id == s.workers[i].id && w'.fd == s.workers[i].fd
    requires Local(s.net, s'.net, w'.id, w'.fd)
    requires w'.pc.Exited? <==> s.workers[i].pc.Close? || s.workers[i].pc.Exited?
    requires s'.net.fds == if s.workers[i].pc.Close? then s.net.fds - {w'.fd} else s.net.fds
    ensures OnlyWorker(s, s', i, w')
  {
  }

  lemma WorkerKeepsAccepted(s: State, s': State, i: nat, w': Worker)
    requires AcceptedOk(s) && OnlyWorker(s, s', i, w')
    ensures AcceptedOk(s')
  {
    forall fd | fd in Accepted(s'.main) ensures fd in s'.net.fds && s'.net.fds[fd] == s.net.fds[fd] {
      assert s.workers[i].id != s.net.fds[fd];
    }
  }

  lemma WorkerKeepsServed(s: State, s': State, i: nat, w': Worker)
    requires AllServed(s) && OnlyWorker(s, s', i, w')
    ensures AllServed(s')
  {
    hide Local, Served;
    ServedStays(s, s', i, w');
  }

  lemma WorkerKeepsQueued(s: State, s': State, i: nat, w': Worker)
    requires QueuedOk(s) && OnlyWorker(s, s', i, w')
    ensures QueuedOk(s')
  {
  }

  lemma WorkerKeepsClosed(s: State, s': State, i: nat, w': Worker)
    requires ClosedOk(s) && OnlyWorker(s, s', i, w')
    ensures ClosedOk(s')
  {
    WasServedStays(s.workers, s'.workers);
    assert WasServed(s'.workers, w'.id) by {
      assert s'.workers[i].id == w'.id;
    }
    hide WasServed;
  }

  lemma HasConn(net: Sockets, running: bool, cap: nat, w: Worker)
    requires WorkerOk(net, running, cap, w)
    ensures w.id in net.conns
  {
  }

  lemma WasServedStays(ws: seq<Worker>, ws': seq<Worker>)
    requires |ws| <= |ws'| && forall i | 0 <= i < |ws| :: ws'[i].id == ws[i].id
    ensures forall id | WasServed(ws, id) :: WasServed(ws', id)
  {
    forall id | WasServed(ws, id) ensures WasServed(ws', id) {
      var i :| 0 <= i < |ws| && ws[i].id == id;
      assert ws'[i].id == id;
    }
  }

  lemma ServedStays(s: State, s': State, i: nat, w': Worker)
    requires i < |s.workers| && s'.workers == s.workers[i := w'] && w'.fd == s.workers[i].fd
    requires w'.pc.Exited? <==> s.workers[i].pc.Close? || s.workers[i].pc.Exited?
    ensures forall fd | Served(s.workers, fd) && (s.workers[i].pc.Close? ==> fd != w'.fd) :: Served(s'.workers, fd)
  {
    forall fd | Served(s.workers, fd) && (s.workers[i].pc.Close? ==> fd != w'.fd) ensures Served(s'.workers, fd) {
      var k :| 0 <= k < |s.workers| && s.workers[k].fd == fd && !s.workers[k].pc.Exited?;
      assert s'.workers[k].fd == fd && !s'.workers[k].pc.Exited?;
    }
  }

  /** One action of one worker moves a unit between a counter and what the worker still has to count. */
  lemma CountsMove(net: Sockets, running: bool, cap: nat, st: Stats, w: Worker, a: Answer, data: seq<Byte>)
    requires WorkerOk(net, running, cap, w) && !w.pc.Exited?
    requires w.pc.Read? ==> |data| == if a.Ok? then a.n else 0
    ensures var w', st' := NextWorker(w, running, a, data), NextStats(st, w);
            && st'.accepted == st.accepted && st'.threadsSpawned == st.threadsSpawned && st'.waitCalls == st.waitCalls
            && st'.closed + Uncounted(w') == st.closed + Uncounted(w)
            && st'.syscalls + Behind(w') + st.readCalls + st.writeCalls
               == st.syscalls + Behind(w) + st'.readCalls + st'.writeCalls
            && st'.bytes + Uncredited(w') == st.bytes + Uncredited(w) + (if w.pc.Read? then |w'.data| else 0)
            && st'.requests + Unrequested(w') + Chunks(w) == st.requests + Unrequested(w) + Chunks(w')
  {
    hide *;
    NothingToCredit(net, running, cap, w);
    RequestsMove(st, w, running, a, data);
    ExitsMove(st, w, running, a, data);
    CallsMove(st, w, running, a, data);
    BytesMove(st, w, running, a, data);
  }

  lemma NothingToCredit(net: Sockets, running: bool, cap: nat, w: Worker)
    requires WorkerOk(net, running, cap, w)
    ensures w.pc.CountReadCall? ==> (w.data == [] <==> w.answer.Err? || w.answer.n == 0)
    ensures w.pc.CountRequest? ==> w.data != []
  {
  }

  lemma RequestsMove(st: Stats, w: Worker, running: bool, a: Answer, data: seq<Byte>)
    requires !w.pc.Exited? && (w.pc.Read? ==> |data| == if a.Ok? then a.n else 0)
    requires w.pc.CountReadCall? ==> (w.data == [] <==> w.answer.Err? || w.answer.n == 0)
    requires w.pc.CountRequest? ==> w.data != []
    ensures var w', st' := NextWorker(w, running, a, data), NextStats(st, w);
            st'.requests + Unrequested(w') + Chunks(w) == st.requests + Unrequested(w) + Chunks(w')
  {
  }

  /** A read delivers as many bytes as it answers. */
  lemma CallDelivers(net: Sockets, net': Sockets, cap: nat, w: Worker, a: Answer, data: seq<Byte>)
    requires Calls(net, net', cap, w, a, data)
    ensures w.pc.Read? ==> |data| == if a.Ok? then a.n else 0
  {
  }

  lemma ExitsMove(st: Stats, w: Worker, running: bool, a: Answer, data: seq<Byte>)
    ensures var w', st' := NextWorker(w, running, a, data), NextStats(st, w);
            && st'.accepted == st.accepted && st'.threadsSpawned == st.threadsSpawned && st'.waitCalls == st.waitCalls
            && st'.closed + Uncounted(w') == st.closed + Uncounted(w)
  {
  }

  lemma CallsMove(st: Stats, w: Worker, running: bool, a: Answer, data: seq<Byte>)
    ensures var w', st' := NextWorker(w, running, a, data), NextStats(st, w);
            st'.syscalls + Behind(w') + st.readCalls + st.writeCalls
            == st.syscalls + Behind(w) + st'.readCalls + st'.writeCalls
  {
  }

  lemma BytesMove(st: Stats, w: Worker, running: bool, a: Answer, data: seq<Byte>)
    requires !w.pc.Exited?
    requires w.pc.CountReadCall? && (w.answer.Err? || w.answer.n == 0) ==> w.data == []
    ensures var w', st' := NextWorker(w, running, a, data), NextStats(st, w);
            st'.bytes + Uncredited(w') == st.bytes + Uncredited(w) + (if w.pc.Read? then |w'.data| else 0)
  {
  }

  lemma WorkerStepKeepsTally(s: State, s': State, i: nat, w': Worker, got: nat)
    requires Tallied(s) && i < |s.workers| && s'.workers == s.workers[i := w'] && s'.main == s.main
    requires TotalGiven(s'.net.conns) == TotalGiven(s.net.conns) + got
    requires var w, st, st' := s.workers[i], s.stats, s'.stats;
             && st'.accepted == st.accepted && st'.threadsSpawned == st.threadsSpawned && st'.waitCalls == st.waitCalls
             && st'.closed + Uncounted(w') == st.closed + Uncounted(w)
             && st'.syscalls + Behind(w') + st.readCalls + st.writeCalls
                == st.syscalls + Behind(w) + st'.readCalls + st'.writeCalls
             && st'.bytes + Uncredited(w') == st.bytes + Uncredited(w) + got
             && st'.requests + Unrequested(w') + Chunks(w) == st.requests + Unrequested(w) + Chunks(w')
    ensures Tallied(s')
  {
    hide TotalGiven, Sum, Uncounted, Behind, Uncredited, Unrequested, Chunks;
    SumUpdate(s.workers, i, w', Unrequested);
    SumUpdate(s.workers, i, w', Chunks);
    SumUpdate(s.workers, i, w', Uncounted);
    SumUpdate(s.workers, i, w', Behind);
    SumUpdate(s.workers, i, w', Uncredited);
  }

  lemma WorkerStepKeepsMain(s: State, s': State, i: nat, w': Worker)
    requires MainOk(s) && i < |s.workers| && s'.running == s.running && s'.main == s.main
    requires s'.workers == s.workers[i := w'] && s'.stats.accepted == s.stats.accepted
    requires !s.workers[i].pc.Exited? && Tallied(s')
    ensures MainOk(s')
  {
    hide Sum, TotalGiven;
  }

  lemma WorkerStepKeepsInv(s: State, s': State, i: nat, net': Sockets, a: Answer, data: seq<Byte>)
    requires Inv(s) && i < |s.workers| && WorkerStep(s, s', i, net', a, data)
    ensures Inv(s') && Moves(s.net, net', s.running, s.cap, s.workers[i], NextWorker(s.workers[i], s.running, a, data))
  {
    hide *;
    var w := s.workers[i];
    var w' := NextWorker(w, s.running, a, data);
    InvParts(s);
    WorkerIsOk(s, i);
    StepShape(s, s', i, net', a, data);
    WorkerMoves(s.net, net', s.cap, s.running, w, a, data);
    MovesParts(s.net, net', s.running, s.cap, w, w');
    NextWorkerFacts(w, s.running, a, data);
    WorkerStepKeepsWorkers(s, s', i, w');
    WorkerStepKeepsOwners(s, s', i, w');
    CallDelivers(s.net, net', s.cap, w, a, data);
    CountsMove(s.net, s.running, s.cap, s.stats, w, a, data);
    WorkerStepKeepsTally(s, s', i, w', if w.pc.Read? then |w'.data| else 0);
    WorkerStepKeepsMain(s, s', i, w');
    InvFromParts(s');
  }

  lemma StepShape(s: State, s': State, i: nat, net': Sockets, a: Answer, data: seq<Byte>)
    requires i < |s.workers| && WorkerStep(s, s', i, net', a, data)
    ensures Calls(s.net, net', s.cap, s.workers[i], a, data) && !s.workers[i].pc.Exited?
    ensures s' == s.(net := net', stats := NextStats(s.stats, s.workers[i]),
                     workers := s.workers[i := NextWorker(s.workers[i], s.running, a, data)])
  {
  }

  lemma MovesParts(net: Sockets, net': Sockets, running: bool, cap: nat, w: Worker, w': Worker)
    requires Moves(net, net', running, cap, w, w')
    ensures TableInv(net') && Local(net, net', w.id, w.fd) && WorkerOk(net', running, cap, w')
    ensures TotalGiven(net'.conns) == TotalGiven(net.conns) + (if w.pc.Read? then |w'.data| else 0)
    ensures net'.fds == (if w.pc.Close? then net.fds - {w.fd} else net.fds)
  {
  }

  lemma WorkerIsOk(s: State, i: nat)
    requires Workers(s) && i < |s.workers|
    ensures WorkerOk(s.net, s.running, s.cap, s.workers[i])
  {
  }

  lemma InvParts(s: State)
    requires Inv(s)
    ensures TableInv(s.net) && Workers(s) && Owners(s) && Tallied(s) && MainOk(s)
  {
  }

  lemma InvFromParts(s: State)
    requires TableInv(s.net) && Workers(s) && Owners(s) && Tallied(s) && MainOk(s)
    ensures Inv(s)
  {
  }

  // ---------------------------------------------------------------- the main thread's step

  /** Clearing the flag only gives workers one more reason to stop. */
  lemma StopKeepsWorkers(s: State, s': State)
    requires Workers(s) && s'.net == s.net && s'.workers == s.workers && (s'.running ==> s.running) && s'.cap == s.cap
    ensures Workers(s')
  {
    hide WorkerOk;
    forall i | 0 <= i < |s.workers| ensures WorkerOk(s'.net, s'.running, s'.cap, s'.workers[i]) {
      StopKeepsWorkerOk(s.net, s.running, s'.running, s.cap, s.workers[i]);
    }
  }

  lemma StopKeepsWorkerOk(net: Sockets, running: bool, running': bool, cap: nat, w: Worker)
    requires WorkerOk(net, running, cap, w) && (running' ==> running)
    ensures WorkerOk(net, running', cap, w)
  {
  }

  /** Steps of the main thread that neither accept nor spawn. */
  lemma PlainMainStep(s: State, s': State, net': Sockets, a: Answer, poll: Poll)
    requires Inv(s) && MainStep(s, s', net', a, poll) && !s.main.Accept? && !s.main.Spawn?
    ensures Inv(s')
  {
    hide Sum, TotalGiven, TableInv, Workers;
    PlainShape(s, s', net', a, poll);
    StopKeepsWorkers(s, s');
    PlainKeepsOwners(s, s');
    PlainTally(s, s', net', a, poll);
    PlainMain(s, s', net', a, poll);
    hide *;
    InvFromParts(s');
  }

  lemma PlainShape(s: State, s': State, net': Sockets, a: Answer, poll: Poll)
    requires MainStep(s, s', net', a, poll) && !s.main.Accept? && !s.main.Spawn?
    ensures s'.net == s.net && s'.workers == s.workers && (s'.running ==> s.running) && s'.cap == s.cap
    ensures Accepted(s'.main) == Accepted(s.main)
  {
  }

  lemma PlainKeepsOwners(s: State, s': State)
    requires Owners(s) && s'.net == s.net && s'.workers == s.workers && Accepted(s'.main) == Accepted(s.main)
    ensures Owners(s')
  {
  }

  lemma PlainTally(s: State, s': State, net': Sockets, a: Answer, poll: Poll)
    requires Tallied(s) && MainStep(s, s', net', a, poll) && !s.main.Accept? && !s.main.Spawn?
    ensures Tallied(s')
  {
    hide Sum, TotalGiven;
  }

  lemma PlainMain(s: State, s': State, net': Sockets, a: Answer, poll: Poll)
    requires Tallied(s) && MainOk(s) && MainStep(s, s', net', a, poll) && !s.main.Accept? && !s.main.Spawn?
    ensures MainOk(s')
  {
    hide Sum, TotalGiven;
  }

  lemma SpawnStep(s: State, s': State, net': Sockets, a: Answer, poll: Poll)
    requires Inv(s) && MainStep(s, s', net', a, poll) && s.main.Spawn?
    ensures Inv(s')
  {
    hide Sum, TotalGiven, TableInv;
    var fd := s.main.fd;
    assert fd in Accepted(s.main);
    var w := Worker(s.net.fds[fd], fd, Test, Ok(0), [], 0, false, 0);
    SumAppend(s.workers, w, Uncounted);
    SumAppend(s.workers, w, Behind);
    SumAppend(s.workers, w, Uncredited);
    SumAppend(s.workers, w, Unrequested);
    SumAppend(s.workers, w, Chunks);
    SpawnTally(s, s', w);
    SpawnOwners(s, s', w);
    SpawnWorkers(s, s', w);
    hide *;
    InvFromParts(s');
  }

  lemma SpawnTally(s: State, s': State, w: Worker)
    requires Tallied(s) && s.main.Spawn? && s'.main.MainTest? && s' == s.(main := MainTest, workers := s.workers + [w])
    requires Sum(s'.workers, Uncounted) == Sum(s.workers, Uncounted) + 1
    requires Sum(s'.workers, Behind) == Sum(s.workers, Behind)
    requires Sum(s'.workers, Uncredited) == Sum(s.workers, Uncredited)
    requires Sum(s'.workers, Unrequested) == Sum(s.workers, Unrequested)
    requires Sum(s'.workers, Chunks) == Sum(s.workers, Chunks)
    ensures Tallied(s') && MainOk(s')
  {
    hide Sum, TotalGiven;
  }

  lemma SpawnOwners(s: State, s': State, w: Worker)
    requires TableInv(s.net) && Owners(s) && s.main.Spawn? && s' == s.(main := MainTest, workers := s.workers + [w])
    requires s.main.fd in s.net.fds && w.fd == s.main.fd && w.id == s.net.fds[w.fd] && w.pc.Test?
    ensures Owners(s')
  {
    hide *;
    OwnersParts(s);
    SpawnServes(s, s', w);
    SpawnKeepsClosed(s, s', w);
    SpawnKeepsQueued(s, s', w);
    OwnersFold(s');
  }

  lemma SpawnServes(s: State, s': State, w: Worker)
    requires AllServed(s) && s.main.Spawn? && s' == s.(main := MainTest, workers := s.workers + [w])
    requires w.fd == s.main.fd && w.pc.Test?
    ensures AllServed(s') && AcceptedOk(s')
  {
    forall fd | fd in s'.net.fds ensures Served(s'.workers, fd) {
      if fd == w.fd {
        assert s'.workers[|s.workers|].fd == fd;
      } else {
        assert fd !in Accepted(s.main) && Served(s.workers, fd);
        var k :| 0 <= k < |s.workers| && s.workers[k].fd == fd && !s.workers[k].pc.Exited?;
        assert s'.workers[k].fd == fd;
      }
    }
  }

  lemma SpawnKeepsClosed(s: State, s': State, w: Worker)
    requires ClosedOk(s) && s' == s.(main := MainTest, workers := s.workers + [w])
    ensures ClosedOk(s')
  {
    hide WasServed;
    WasServedStays(s.workers, s'.workers);
  }

  lemma SpawnKeepsQueued(s: State, s': State, w: Worker)
    requires TableInv(s.net) && QueuedOk(s) && s' == s.(main := MainTest, workers := s.workers + [w])
    requires w.fd in s.net.fds && w.id == s.net.fds[w.fd]
    ensures QueuedOk(s')
  {
  }

  lemma SpawnWorkers(s: State, s': State, w: Worker)
    requires TableInv(s.net) && Workers(s) && Owners(s) && s.main.Spawn?
    requires s' == s.(main := MainTest, workers := s.workers + [w]) && s.main.fd in s.net.fds
    requires w == Worker(s.net.fds[s.main.fd], s.main.fd, Test, Ok(0), [], 0, false, 0)
    ensures Workers(s')
  {
    hide *;
    AcceptedFacts(s);
    NewWorkerOk(s.net, s.running, s.cap, w);
    OneMoreWorker(s, s', w);
  }

  lemma AcceptedFacts(s: State)
    requires Owners(s) && s.main.Spawn?
    ensures s.main.fd in s.net.fds && s.net.fds[s.main.fd] in s.net.conns
    ensures var id := s.net.fds[s.main.fd];
            && s.net.conns[id].given == [] && s.net.conns[id].out == [] && !s.net.conns[id].dropped
            && forall i | 0 <= i < |s.workers| :: s.workers[i].id != id
  {
    assert s.main.fd in Accepted(s.main);
  }

  lemma OneMoreWorker(s: State, s': State, w: Worker)
    requires Workers(s) && s' == s.(main := MainTest, workers := s.workers + [w])
    requires WorkerOk(s.net, s.running, s.cap, w) && forall i | 0 <= i < |s.workers| :: s.workers[i].id != w.id
    ensures Workers(s')
  {
    hide WorkerOk;
  }

  lemma NewWorkerOk(net: Sockets, running: bool, cap: nat, w: Worker)
    requires TableInv(net) && w.fd in net.fds && net.fds[w.fd] == w.id && w.id in net.conns
    requires net.conns[w.id].given == [] && net.conns[w.id].out == [] && !net.conns[w.id].dropped
    requires w == Worker(w.id, w.fd, Test, Ok(0), [], 0, false, 0)
    ensures WorkerOk(net, running, cap, w)
  {
  }

  lemma AcceptStep(s: State, s': State, net': Sockets, a: Answer, poll: Poll)
    requires Inv(s) && MainStep(s, s', net', a, poll) && s.main.Accept?
    ensures Inv(s')
  {
    hide *;
    AcceptShape(s, s', net', a, poll);
    InvParts(s);
    if a.Err? {
      StopKeepsWorkers(s, s');
      PlainKeepsOwners(s, s');
      AcceptFailsTally(s, s');
    } else {
      AcceptKeepsTable(s.net, net', a);
      AcceptWorkers(s, s', a);
      AcceptOwners(s, s', a);
      AcceptGives(s.net, net', a);
      AcceptTally(s, s', a);
    }
    InvFromParts(s');
  }

  lemma AcceptShape(s: State, s': State, net': Sockets, a: Answer, poll: Poll)
    requires MainStep(s, s', net', a, poll) && s.main.Accept?
    ensures Accepts(s.net, net', a) && s'.net == net' && s'.workers == s.workers
    ensures s'.running == s.running && s'.cap == s.cap
    ensures if a.Ok? then s' == s.(net := s'.net, main := CountAccepted(a.n)) else s' == s.(main := MainTest)
    ensures a.Err? ==> Accepted(s'.main) == Accepted(s.main)
  {
  }

  lemma AcceptFailsTally(s: State, s': State)
    requires Tallied(s) && s.main.Accept? && s' == s.(main := MainTest)
    ensures Tallied(s') && MainOk(s')
  {
    hide Sum, TotalGiven;
  }

  lemma AcceptGives(net: Sockets, net': Sockets, a: Answer)
    requires Accepts(net, net', a) && a.Ok?
    ensures TotalGiven(net'.conns) == TotalGiven(net.conns)
  {
    TotalGivenFrame(net.conns, net'.conns);
  }

  lemma AcceptTally(s: State, s': State, a: Answer)
    requires Tallied(s) && s.main.Accept? && a.Ok? && s' == s.(net := s'.net, main := CountAccepted(a.n))
    requires TotalGiven(s'.net.conns) == TotalGiven(s.net.conns)
    ensures Tallied(s') && MainOk(s') && s'.cap == s.cap
  {
    hide Sum, TotalGiven;
  }

  lemma AcceptWorkers(s: State, s': State, a: Answer)
    requires Workers(s) && Owners(s) && TableInv(s.net) && Accepts(s.net, s'.net, a) && a.Ok?
    requires s' == s.(net := s'.net, main := CountAccepted(a.n))
    ensures Workers(s')
  {
    var id := s.net.backlog[0];
    assert id in s.net.backlog;
    forall i | 0 <= i < |s.workers| ensures WorkerOk(s'.net, s'.running, s'.cap, s'.workers[i]) {
      assert WorkerOk(s.net, s.running, s.cap, s.workers[i]) && s.workers[i].id != id;
      AcceptedOtherOk(s.net, s'.net, s.running, s.cap, s.workers[i], a);
    }
    hide WorkerOk;
  }

  lemma AcceptedOtherOk(net: Sockets, net': Sockets, running: bool, cap: nat, w: Worker, a: Answer)
    requires WorkerOk(net, running, cap, w) && Accepts(net, net', a) && a.Ok? && w.id != net.backlog[0]
    ensures WorkerOk(net', running, cap, w)
  {
    hide WorkerOk;
    HasConn(net, running, cap, w);
    assert w.id in net'.conns && net'.conns[w.id] == net.conns[w.id];
    SameConnOk(net, net', running, cap, w);
  }

  lemma SameConnOk(net: Sockets, net': Sockets, running: bool, cap: nat, w: Worker)
    requires WorkerOk(net, running, cap, w) && w.id in net.conns
    requires w.id in net'.conns && net'.conns[w.id] == net.conns[w.id]
    requires w.fd in net.fds ==> w.fd in net'.fds && net'.fds[w.fd] == net.fds[w.fd]
    ensures WorkerOk(net', running, cap, w)
  {
  }

  lemma AcceptOwners(s: State, s': State, a: Answer)
    requires Owners(s) && TableInv(s.net) && Accepts(s.net, s'.net, a) && a.Ok? && s.main.Accept?
    requires s' == s.(net := s'.net, main := CountAccepted(a.n))
    ensures Owners(s')
  {
    var id := s.net.backlog[0];
    assert id in s.net.backlog && s.net.conns[id].at.Queued?;
    hide Served, WasServed;
  }

  lemma MainStepKeepsInv(s: State, s': State, net': Sockets, a: Answer, poll: Poll)
    requires Inv(s) && MainStep(s, s', net', a, poll)
    ensures Inv(s')
  {
    hide *;
    if s.main.Accept? {
      AcceptStep(s, s', net', a, poll);
    } else if s.main.Spawn? {
      SpawnStep(s, s', net', a, poll);
    } else {
      PlainMainStep(s, s', net', a, poll);
    }
  }

  // ---------------------------------------------------------------- peers and network

  lemma PeerKeepsWorkerOk(net: Sockets, net': Sockets, running: bool, cap: nat, w: Worker)
    requires WorkerOk(net, running, cap, w) && Peers(net, net')
    ensures WorkerOk(net', running, cap, w)
  {
    assert PeerStep(net.conns[w.id], net'.conns[w.id]);
  }

  lemma OutsideKeepsInv(s: State, s': State)
    requires Inv(s) && Peers(s.net, s'.net) && s' == s.(net := s'.net, signals := s'.signals)
    ensures Inv(s')
  {
    hide *;
    InvParts(s);
    PeersKeepTable(s.net, s'.net);
    OutsideWorkers(s, s');
    OutsideOwners(s, s');
    OutsideTotal(s.net, s'.net);
    OutsideTally(s, s');
    InvFromParts(s');
  }

  lemma OutsideTotal(net: Sockets, net': Sockets)
    requires Peers(net, net')
    ensures TotalGiven(net'.conns) == TotalGiven(net.conns)
  {
    hide TotalGiven;
    TotalGivenFrame(net.conns, net'.conns);
  }

  lemma OutsideTally(s: State, s': State)
    requires Tallied(s) && MainOk(s) && s' == s.(net := s'.net, signals := s'.signals)
    requires TotalGiven(s'.net.conns) == TotalGiven(s.net.conns)
    ensures Tallied(s') && MainOk(s')
  {
    hide TotalGiven, Sum;
  }

  lemma OutsideWorkers(s: State, s': State)
    requires Workers(s) && Peers(s.net, s'.net) && s' == s.(net := s'.net, signals := s'.signals)
    ensures Workers(s')
  {
    hide WorkerOk, Peers;
    forall i | 0 <= i < |s.workers| ensures WorkerOk(s'.net, s'.running, s'.cap, s'.workers[i]) {
      PeerKeepsWorkerOk(s.net, s'.net, s.running, s.cap, s.workers[i]);
    }
  }

  lemma OutsideOwners(s: State, s': State)
    requires Workers(s) && Owners(s) && Peers(s.net, s'.net) && s' == s.(net := s'.net, signals := s'.signals)
    ensures Owners(s')
  {
    forall i | 0 <= i < |s.workers| ensures s.workers[i].id in s.net.conns {
      WorkerIsOk(s, i);
    }
    hide Served, WasServed, WorkerOk, Workers;
    forall fd | fd in Accepted(s.main) ensures fd in s'.net.fds && s'.net.fds[fd] in s'.net.conns {
      assert PeerStep(s.net.conns[s.net.fds[fd]], s'.net.conns[s.net.fds[fd]]);
    }
  }

  lemma StepKeepsInv(s: State, s': State, l: Label)
    requires Inv(s) && Step(s, s', l)
    ensures Inv(s')
  {
    match l
    case OfWorker(i, net', a, data) => WorkerStepKeepsInv(s, s', i, net', a, data);
    case OfMain(net', a, poll) => MainStepKeepsInv(s, s', net', a, poll);
    case Outside(net', signals') => OutsideKeepsInv(s, s');
  }

  // ---------------------------------------------------------------- whole runs

  /** A run: every state follows from the one before by one step of one thread or of the outside world. */
  ghost predicate Run(states: seq<State>, labels: seq<Label>) {
    && |states| == |labels| + 1 && Init(states[0])
    && forall k | 0 <= k < |labels| :: Step(states[k], states[k + 1], labels[k])
  }

  lemma {:induction false} RunKeepsInv(states: seq<State>, labels: seq<Label>, k: nat)
    requires Run(states, labels) && k < |states|
    ensures Inv(states[k])
  {
    hide *;
    RunFacts(states, labels, k);
    if k == 0 {
      InitIsInv(states[0]);
    } else {
      RunKeepsInv(states, labels, k - 1);
      StepKeepsInv(states[k - 1], states[k], labels[k - 1]);
    }
  }

  lemma RunFacts(states: seq<State>, labels: seq<Label>, k: nat)
    requires Run(states, labels) && k < |states|
    ensures |states| == |labels| + 1 && Init(states[0])
    ensures k > 0 ==> Step(states[k - 1], states[k], labels[k - 1])
  {
    hide Init, Step;
  }

  /** The conservation laws at every moment of every interleaving: exits not yet counted, and system calls
      caught between their two bumps, are all that separates the counters. */
  lemma CountersAreConserved(states: seq<State>, labels: seq<Label>, k: nat)
    requires Run(states, labels) && k < |states|
    ensures var s := states[k];
            && s.stats.accepted - s.stats.closed == Sum(s.workers, Uncounted) + Spawning(s.main)
            && s.stats.syscalls + Sum(s.workers, Behind) + (if s.main.CountWaitCall? then 1 else 0)
               == s.stats.waitCalls + s.stats.readCalls + s.stats.writeCalls
            && s.stats.bytes + Sum(s.workers, Uncredited) == TotalGiven(s.net.conns)
            && s.stats.requests + Sum(s.workers, Unrequested) == Sum(s.workers, Chunks)
  {
    RunKeepsInv(states, labels, k);
  }

  /** The snapshot of the main thread never shows more connections closed than accepted. */
  lemma SnapshotIsConsistent(states: seq<State>, labels: seq<Label>, k: nat)
    requires Run(states, labels) && k < |states|
    ensures states[k].main.Stop? || states[k].main.Join? || states[k].main.Gone? ==>
              states[k].main.closed <= states[k].main.accepted
  {
    RunKeepsInv(states, labels, k);
    hide Workers, Owners, Tallied, TableInv;
  }

  /** After the joins every accepted connection is counted closed, no descriptor is left open, and every
      connection whose writes did not fail has been sent exactly what was read from it. */
  lemma AfterTheJoins(states: seq<State>, labels: seq<Label>, k: nat)
    requires Run(states, labels) && k < |states| && states[k].main.Gone?
    ensures states[k].stats.closed == states[k].stats.accepted == |states[k].workers|
    ensures states[k].net.fds == map[]
    ensures forall id | id in states[k].net.conns && states[k].net.conns[id].at.Closed? ::
              !states[k].net.conns[id].broken ==> states[k].net.conns[id].out == states[k].net.conns[id].given
    ensures forall i | 0 <= i < |states[k].workers| && !states[k].workers[i].failed ::
              states[k].workers[i].id in states[k].net.conns
              && states[k].net.conns[states[k].workers[i].id].out == states[k].net.conns[states[k].workers[i].id].given
  {
    RunKeepsInv(states, labels, k);
    var s := states[k];
    assert forall i | 0 <= i < |s.workers| :: s.workers[i].pc.Exited?;
    SumZero(s.workers, Uncounted);
    assert forall fd | fd in s.net.fds :: Served(s.workers, fd);
    assert forall i | 0 <= i < |s.workers| :: WorkerOk(s.net, s.running, s.cap, s.workers[i]);
    hide Tallied, MainOk, TableInv, AcceptedOk, AllServed, QueuedOk, WorkerOk;
    ClosedEven(s);
  }

  /** A connection that was closed without having failed has got back what was read from it. */
  lemma ClosedEven(s: State)
    requires Workers(s) && ClosedOk(s)
    ensures forall id | id in s.net.conns && s.net.conns[id].at.Closed? ::
              !s.net.conns[id].broken ==> s.net.conns[id].out == s.net.conns[id].given
  {
    hide WorkerOk;
    forall id | id in s.net.conns && s.net.conns[id].at.Closed? && !s.net.conns[id].broken
      ensures s.net.conns[id].out == s.net.conns[id].given
    {
      assert WasServed(s.workers, id);
      var i :| 0 <= i < |s.workers| && s.workers[i].id == id;
      OneClosedEven(s.net, s.running, s.cap, s.workers[i]);
    }
  }

  lemma OneClosedEven(net: Sockets, running: bool, cap: nat, w: Worker)
    requires WorkerOk(net, running, cap, w) && net.conns[w.id].at.Closed? && !net.conns[w.id].broken
    ensures net.conns[w.id].out == net.conns[w.id].given
  {
  }

  /** A worker that has left its loop, or runs on, never drops part of a chunk: at every test of the flag
      everything it has read has been written. */
  lemma ShutdownFinishesChunks(states: seq<State>, labels: seq<Label>, k: nat, i: nat)
    requires Run(states, labels) && k < |states| && i < |states[k].workers|
    requires states[k].workers[i].pc.Test? || states[k].workers[i].pc.Exited?
    ensures var w := states[k].workers[i];
            w.id in states[k].net.conns
            && (!w.failed || !states[k].net.conns[w.id].broken ==>
                  states[k].net.conns[w.id].out == states[k].net.conns[w.id].given)
            && states[k].net.conns[w.id].out <= states[k].net.conns[w.id].given <= states[k].net.conns[w.id].sent
  {
    RunKeepsInv(states, labels, k);
    WorkerIsOk(states[k], i);
    hide Inv, Run;
    var c := states[k].net.conns[states[k].workers[i].id];
    assert c.out + [] == c.out;
  }

  // ---------------------------------------------------------------- when the destructor waits

  /** A worker blocked in read on a peer that neither sends nor closes. */
  ghost predicate Waiting(s: State, w: Worker) {
    && w.pc.Read? && s.cap > 0 && w.fd in s.net.fds && s.net.fds[w.fd] in s.net.conns
    && var c := s.net.conns[s.net.fds[w.fd]]; c.given == c.sent && !c.fin && !c.broken
  }

  /** A step the server can take by itself: not the outside world's, and not an interruption or a new error
      of a blocked read. */
  ghost predicate OwnStep(s: State, s': State, l: Label) {
    && Step(s, s', l) && !l.Outside?
    && (l.OfWorker? && l.i < |s.workers| ==> !Waiting(s, s.workers[l.i]))
  }

  /** A blocked read comes back only with an error. */
  lemma WaitingReadsFail(s: State, s': State, i: nat, net': Sockets, a: Answer, data: seq<Byte>)
    requires i < |s.workers| && Waiting(s, s.workers[i]) && WorkerStep(s, s', i, net', a, data)
    ensures a.Err?
  {
  }

  lemma ReadCanAnswer(net: Sockets, cap: nat, running: bool, w: Worker)
    returns (net': Sockets, a: Answer, data: seq<Byte>)
    requires WorkerOk(net, running, cap, w) && w.pc.Read?
    requires var c := net.conns[w.id]; cap == 0 || c.given != c.sent || c.fin || c.broken
    ensures Calls(net, net', cap, w, a, data) && (a.Ok? || (a == Err(EOTHER) && net.conns[w.id].broken))
  {
    var c := net.conns[w.id];
    if c.given == c.sent && !c.fin && cap > 0 {
      net', a, data := net.(conns := net.conns[w.id := c.(broken := true)]), Err(EOTHER), [];
    } else {
      data := if c.given == c.sent || cap == 0 then [] else Unread(c)[..1];
      net', a := net.(conns := net.conns[w.id := c.(given := c.given + data)]), Ok(|data|);
    }
  }

  lemma WriteCanAnswer(net: Sockets, cap: nat, running: bool, w: Worker) returns (net': Sockets, a: Answer)
    requires WorkerOk(net, running, cap, w) && w.pc.Write?
    ensures Calls(net, net', cap, w, a, []) && a.Ok?
  {
    var c, owed := net.conns[w.id], w.data[w.written..];
    net', a := net.(conns := net.conns[w.id := c.(out := c.out + owed[..|owed|])]), Ok(|owed|);
  }

  lemma OtherCallsCanAnswer(net: Sockets, cap: nat, running: bool, w: Worker) returns (net': Sockets)
    requires WorkerOk(net, running, cap, w) && !w.pc.Read? && !w.pc.Write? && !w.pc.Exited?
    ensures Calls(net, net', cap, w, Ok(0), [])
  {
    net' := if w.pc.Close? then Net.Close(net, w.fd) else net;
  }

  lemma WorkerCanMove(s: State, i: nat) returns (s': State, l: Label)
    requires Inv(s) && i < |s.workers| && !s.workers[i].pc.Exited? && !Waiting(s, s.workers[i])
    ensures OwnStep(s, s', l) && l.OfWorker? && l.i == i
    ensures s.workers[i].id in s.net.conns
    ensures l.a.Ok? || (l.a == Err(EOTHER) && s.workers[i].pc.Read? && s.net.conns[s.workers[i].id].broken)
  {
    hide *;
    var w := s.workers[i];
    InvParts(s);
    WorkerIsOk(s, i);
    var net', a, data := s.net, Ok(0), [];
    if w.pc.Read? {
      HasNews(s, w);
      net', a, data := ReadCanAnswer(s.net, s.cap, s.running, w);
    } else if w.pc.Write? {
      net', a := WriteCanAnswer(s.net, s.cap, s.running, w);
    } else {
      net' := OtherCallsCanAnswer(s.net, s.cap, s.running, w);
    }
    s', l := IsOwnStep(s, i, net', a, data);
  }

  lemma HasNews(s: State, w: Worker)
    requires WorkerOk(s.net, s.running, s.cap, w) && w.pc.Read? && !Waiting(s, w)
    ensures w.id in s.net.conns
    ensures var c := s.net.conns[w.id]; s.cap == 0 || c.given != c.sent || c.fin || c.broken
  {
  }

  lemma IsOwnStep(s: State, i: nat, net': Sockets, a: Answer, data: seq<Byte>) returns (s': State, l: Label)
    requires i < |s.workers| && Calls(s.net, net', s.cap, s.workers[i], a, data) && !Waiting(s, s.workers[i])
    ensures OwnStep(s, s', l) && l == OfWorker(i, net', a, data)
  {
    hide Calls, Waiting;
    s' := s.(net := net', stats := NextStats(s.stats, s.workers[i]),
             workers := s.workers[i := NextWorker(s.workers[i], s.running, a, data)]);
    l := OfWorker(i, net', a, data);
  }

  /** The destructor's join makes no progress exactly when the worker it waits for is alive and every live
      worker is blocked in read on a silent peer: shutdown waits for idle clients. */
  lemma JoinWaitsExactlyForSilentPeers(s: State)
    requires Inv(s) && s.main.Join?
    ensures (forall s', l :: !OwnStep(s, s', l)) <==>
            (&& s.main.k < |s.workers| && !s.workers[s.main.k].pc.Exited?
             && forall i | 0 <= i < |s.workers| :: s.workers[i].pc.Exited? || Waiting(s, s.workers[i]))
  {
    hide Inv, Waiting;
    if forall s', l :: !OwnStep(s, s', l) {
      if s.main.k >= |s.workers| || s.workers[s.main.k].pc.Exited? {
        JoinCanMove(s);
        assert false;
      }
      forall i | 0 <= i < |s.workers| ensures s.workers[i].pc.Exited? || Waiting(s, s.workers[i]) {
        if !s.workers[i].pc.Exited? && !Waiting(s, s.workers[i]) {
          var s', l := WorkerCanMove(s, i);
        }
      }
    }
    if s.main.k < |s.workers| && !s.workers[s.main.k].pc.Exited?
       && forall i | 0 <= i < |s.workers| :: s.workers[i].pc.Exited? || Waiting(s, s.workers[i])
    {
      forall s', l ensures !OwnStep(s, s', l) {
        NobodyMoves(s, s', l);
      }
    }
  }

  lemma JoinCanMove(s: State)
    requires s.main.Join? && (s.main.k >= |s.workers| || s.workers[s.main.k].pc.Exited?)
    ensures exists s', l :: OwnStep(s, s', l)
  {
    var m := s.main;
    var s' := if m.k >= |s.workers| then s.(main := Gone(m.accepted, m.closed))
              else s.(main := Join(m.k + 1, m.accepted, m.closed));
    assert OwnStep(s, s', OfMain(s.net, Ok(0), PollFailed(false)));
  }

  lemma NobodyMoves(s: State, s': State, l: Label)
    requires s.main.Join? && s.main.k < |s.workers| && !s.workers[s.main.k].pc.Exited?
    requires forall i | 0 <= i < |s.workers| :: s.workers[i].pc.Exited? || Waiting(s, s.workers[i])
    ensures !OwnStep(s, s', l)
  {
    hide Waiting, Reads, Writes;
  }

  // ---------------------------------------------------------------- nothing left to do

  /** The main thread blocks in poll and every live worker in read. */
  ghost predicate Quiet(s: State) {
    && s.main.Polling? && s.running && s.signals == 0 && s.net.backlog == []
    && forall i | 0 <= i < |s.workers| :: s.workers[i].pc.Exited? || Waiting(s, s.workers[i])
  }

  lemma QuietMeansEchoed(s: State, id: Id)
    requires Inv(s) && Quiet(s) && id in s.net.conns && !s.net.conns[id].broken && !s.net.conns[id].dropped
    ensures s.net.conns[id].out == s.net.conns[id].sent
  {
    hide *;
    InvParts(s);
    var i := WorkerOf(s, id);
    WorkerIsOk(s, i);
    QuietWorker(s, i);
  }

  lemma WorkerOf(s: State, id: Id) returns (i: nat)
    requires TableInv(s.net) && Workers(s) && Owners(s) && Quiet(s) && id in s.net.conns
    ensures i < |s.workers| && s.workers[i].id == id
  {
    var c := s.net.conns[id];
    assert !c.at.Queued?;
    if c.at.Closed? {
      assert WasServed(s.workers, id);
      i :| 0 <= i < |s.workers| && s.workers[i].id == id;
    } else {
      assert c.at.fd in s.net.fds && Served(s.workers, c.at.fd);
      i :| 0 <= i < |s.workers| && s.workers[i].fd == c.at.fd && !s.workers[i].pc.Exited?;
      WorkerIsOk(s, i);
    }
  }

  lemma QuietWorker(s: State, i: nat)
    requires i < |s.workers| && WorkerOk(s.net, s.running, s.cap, s.workers[i]) && Quiet(s)
    ensures var w := s.workers[i];
            && w.id in s.net.conns && (!w.pc.Exited? ==> w.fd in s.net.fds && s.net.fds[w.fd] == w.id)
            && (!s.net.conns[w.id].broken && !s.net.conns[w.id].dropped ==>
                  s.net.conns[w.id].out == s.net.conns[w.id].sent)
  {
    var c := s.net.conns[s.workers[i].id];
    assert c.out + [] == c.out;
  }
}
