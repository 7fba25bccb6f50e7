/**
 server_threads.cpp as its threads execute it: `serve` for a worker, `run` and
 the destructor for the main thread.

 The shared state is handed from one action to the next; before every action
 the other threads and the outside world take any number of steps of the
 machine in `Threads`, and each action of the code here is a step of that
 machine.  Every method is given the run that has led to its call and hands
 back a continuation of it, with the number of actions its own thread has made
 in between; what `ThreadRuns` proves of all runs is therefore true of it.
 `horizon` bounds how many rounds of a loop are observed; an observation that
 ends before the code does has seen at least as many actions.
 */
module ThreadServer {
  import opened EchoSpec
  import opened Net
  import opened Runs
  import opened Counters
  import opened Threads
  import opened ThreadRuns

  // ---------------------------------------------------------------- one action

  datatype Actor = MainThread | WorkerThread(i: nat)

  predicate By(l: Label, who: Actor) {
    match who
    case MainThread => l.OfMain?
    case WorkerThread(i) => l.OfWorker? && l.i == i
  }

  /** How many actions `who` has made. */
  ghost function Acts(labels: seq<Label>, who: Actor): nat {
    if labels == [] then 0
    else Acts(labels[..|labels| - 1], who) + (if By(labels[|labels| - 1], who) then 1 else 0)
  }

  /** The run has led to the shared state `s`. */
  ghost predicate Drives(t: Trace, s: State) {
    IsRun(s.cap, t) && Now(t) == s
  }

  /** `t'` continues `t`, and `who` has made `n` actions in between. */
  ghost predicate Continues(t: Trace, t': Trace, who: Actor, n: nat) {
    Longer(t, t') && Acts(t'.labels, who) == Acts(t.labels, who) + n
  }

  lemma ContinuesItself(t: Trace, who: Actor)
    ensures Continues(t, t, who, 0)
  {
  }

  lemma ContinuesOn(t: Trace, t1: Trace, t2: Trace, who: Actor, n: nat, m: nat)
    requires Continues(t, t1, who, n) && Continues(t1, t2, who, m)
    ensures Continues(t, t2, who, n + m)
  {
    hide Acts;
  }

  lemma DrivenInvariant(t: Trace, s: State)
    requires Drives(t, s)
    ensures Inv(s)
  {
    hide IsRun, Inv;
    RunInvariant(s.cap, t);
  }

  /** One more step. */
  lemma Stepped(t: Trace, s: State, l: Label, s': State, who: Actor) returns (t': Trace)
    requires Drives(t, s) && Step(s, s', l) && s'.cap == s.cap
    ensures Drives(t', s') && Continues(t, t', who, if By(l, who) then 1 else 0)
  {
    hide Step, IsRun;
    t' := Then(t, l, s');
    ThenIsRun(s.cap, t, l, s');
    assert t'.labels[..|t'.labels| - 1] == t.labels;
  }

  lemma StepKeepsCap(s: State, s': State, l: Label)
    requires Step(s, s', l)
    ensures s'.cap == s.cap
  {
    hide Calls, Peers, Accepts;
  }

  lemma OthersLeaveWorker(s: State, s': State, l: Label, i: nat)
    requires i < |s.workers| && Step(s, s', l) && !By(l, WorkerThread(i))
    ensures i < |s'.workers| && s'.workers[i] == s.workers[i]
  {
    hide Calls, Peers, Accepts;
  }

  lemma OthersLeaveMain(s: State, s': State, l: Label)
    requires Step(s, s', l) && !By(l, MainThread)
    ensures s'.main == s.main && s'.running == s.running && s'.signals >= s.signals
    ensures |s'.workers| == |s.workers|
    ensures forall i | 0 <= i < |s.workers| && s.workers[i].pc.Exited? :: s'.workers[i].pc.Exited?
  {
    hide Calls, Peers;
    if l.OfWorker? {
      NotExited(s.net, l.net, s.cap, s.workers[l.i], l.a, l.data);
    }
  }

  /** The other threads, before an action of worker `i`. */
  method OtherThreads(s: State, ghost t: Trace, i: nat) returns (s': State, ghost t': Trace)
    requires Drives(t, s) && i < |s.workers|
    ensures Drives(t', s') && Continues(t, t', WorkerThread(i), 0)
    ensures i < |s'.workers| && s'.workers[i] == s.workers[i] && s'.cap == s.cap
  {
    hide *;
    s', t' := s, t;
    ContinuesItself(t, WorkerThread(i));
    var steps: nat := *;
    while steps > 0
      invariant Drives(t', s') && Continues(t, t', WorkerThread(i), 0)
      invariant i < |s'.workers| && s'.workers[i] == s.workers[i] && s'.cap == s.cap
    {
      var next: State, l: Label := *, *;
      if Step(s', next, l) && !By(l, WorkerThread(i)) {
        StepKeepsCap(s', next, l);
        OthersLeaveWorker(s', next, l, i);
        ghost var t1 := Stepped(t', s', l, next, WorkerThread(i));
        ContinuesOn(t, t', t1, WorkerThread(i), 0, 0);
        s', t' := next, t1;
      }
      steps := steps - 1;
    }
  }

  /** The workers and the outside world, before an action of the main thread. */
  method WorkersMove(s: State, ghost t: Trace) returns (s': State, ghost t': Trace)
    requires Drives(t, s)
    ensures Drives(t', s') && Continues(t, t', MainThread, 0) && s'.cap == s.cap
    ensures s'.main == s.main && s'.running == s.running && |s'.workers| == |s.workers|
    ensures forall i | 0 <= i < |s.workers| && s.workers[i].pc.Exited? :: s'.workers[i].pc.Exited?
  {
    hide *;
    s', t' := s, t;
    ContinuesItself(t, MainThread);
    var steps: nat := *;
    while steps > 0
      invariant Drives(t', s') && Continues(t, t', MainThread, 0) && s'.cap == s.cap
      invariant s'.main == s.main && s'.running == s.running && |s'.workers| == |s.workers|
      invariant forall i | 0 <= i < |s.workers| && s.workers[i].pc.Exited? :: s'.workers[i].pc.Exited?
    {
      var next: State, l: Label := *, *;
      if Step(s', next, l) && !By(l, MainThread) {
        StepKeepsCap(s', next, l);
        OthersLeaveMain(s', next, l);
        ghost var t1 := Stepped(t', s', l, next, MainThread);
        ContinuesOn(t, t', t1, MainThread, 0, 0);
        s', t' := next, t1;
      }
      steps := steps - 1;
    }
  }

  /** One action of worker `i`, given what its system call did. */
  function Acted(s: State, i: nat, net': Sockets, a: Answer, data: seq<Byte>): State
    requires i < |s.workers|
  {
    s.(net := net', stats := NextStats(s.stats, s.workers[i]),
       workers := s.workers[i := NextWorker(s.workers[i], s.running, a, data)])
  }

  /** The worker acts, after others have moved from `t0` to `t`. */
  lemma WorkerActs(t0: Trace, t: Trace, s: State, i: nat, net': Sockets, a: Answer, data: seq<Byte>)
    returns (t': Trace)
    requires Drives(t, s) && Continues(t0, t, WorkerThread(i), 0)
    requires i < |s.workers| && Calls(s.net, net', s.cap, s.workers[i], a, data)
    ensures Drives(t', Acted(s, i, net', a, data)) && Continues(t0, t', WorkerThread(i), 1)
    ensures Acted(s, i, net', a, data).cap == s.cap && i < |Acted(s, i, net', a, data).workers|
    ensures Acted(s, i, net', a, data).workers[i] == NextWorker(s.workers[i], s.running, a, data)
  {
    hide Drives, Continues, Calls, NextWorker, NextStats;
    t' := Stepped(t, s, OfWorker(i, net', a, data), Acted(s, i, net', a, data), WorkerThread(i));
    ContinuesOn(t0, t, t', WorkerThread(i), 0, 1);
  }

  predicate NoSystemCall(pc: Pc) {
    !pc.Read? && !pc.Write? && !pc.Close? && !pc.Exited?
  }

  /** A counter bump, or the test of the flag. */
  method Local(s: State, ghost t: Trace, i: nat) returns (ran: bool, s': State, ghost t': Trace)
    requires Drives(t, s) && i < |s.workers| && NoSystemCall(s.workers[i].pc)
    ensures Drives(t', s') && Continues(t, t', WorkerThread(i), 1) && i < |s'.workers| && s'.cap == s.cap
    ensures s'.workers[i] == NextWorker(s.workers[i], ran, Ok(0), [])
  {
    hide *;
    var mid, t1 := OtherThreads(s, t, i);
    NoCallNeeded(mid.net, mid.cap, mid.workers[i]);
    ran := mid.running;
    t' := WorkerActs(t, t1, mid, i, mid.net, Ok(0), []);
    s' := Acted(mid, i, mid.net, Ok(0), []);
  }

  /** A counter bump. */
  method Count(s: State, ghost t: Trace, i: nat) returns (s': State, ghost t': Trace)
    requires Drives(t, s) && i < |s.workers| && NoSystemCall(s.workers[i].pc) && !s.workers[i].pc.Test?
    ensures Drives(t', s') && Continues(t, t', WorkerThread(i), 1) && i < |s'.workers| && s'.cap == s.cap
    ensures s'.workers[i] == NextWorker(s.workers[i], true, Ok(0), [])
  {
    hide *;
    var ran;
    ran, s', t' := Local(s, t, i);
    SameNext(s.workers[i], ran, Ok(0), []);
  }

  lemma NoCallNeeded(net: Sockets, cap: nat, w: Worker)
    requires NoSystemCall(w.pc)
    ensures Calls(net, net, cap, w, Ok(0), [])
  {
  }

  /** read(2) into the worker's buffer. */
  method ReadCall(s: State, ghost t: Trace, i: nat, buffer: array<Byte>)
    returns (a: Answer, ghost data: seq<Byte>, s': State, ghost t': Trace)
    requires Drives(t, s) && i < |s.workers| && s.workers[i].pc.Read? && buffer.Length == s.cap
    modifies buffer
    ensures Drives(t', s') && Continues(t, t', WorkerThread(i), 1) && i < |s'.workers| && s'.cap == s.cap
    ensures a != Err(EAGAIN) && s'.workers[i] == NextWorker(s.workers[i], true, a, data)
    ensures |data| <= buffer.Length && buffer[..|data|] == data && |data| == if a.Ok? then a.n else 0
  {
    hide *;
    var mid, t1 := OtherThreads(s, t, i);
    var net': Sockets, bytes: seq<Byte> := *, *;
    a := *;
    DrivenInvariant(t1, mid);
    ReadMayBeInterrupted(mid, i);
    if !Calls(mid.net, net', mid.cap, mid.workers[i], a, bytes) {
      a, net', bytes := Err(EINTR), mid.net, [];
    }
    ReadFits(mid.net, net', mid.cap, mid.workers[i], a, bytes);
    forall k | 0 <= k < |bytes| {
      buffer[k] := bytes[k];
    }
    data := bytes;
    SameNext(mid.workers[i], mid.running, a, bytes);
    t' := WorkerActs(t, t1, mid, i, net', a, bytes);
    s' := Acted(mid, i, net', a, bytes);
  }

  lemma ReadMayBeInterrupted(s: State, i: nat)
    requires Inv(s) && i < |s.workers| && s.workers[i].pc.Read?
    ensures Calls(s.net, s.net, s.cap, s.workers[i], Err(EINTR), [])
  {
    WorkerIsOk(s, i);
  }

  lemma ReadFits(net: Sockets, net': Sockets, cap: nat, w: Worker, a: Answer, data: seq<Byte>)
    requires w.pc.Read? && Calls(net, net', cap, w, a, data)
    ensures |data| <= cap && |data| == (if a.Ok? then a.n else 0) && a != Err(EAGAIN)
  {
  }

  lemma SameNext(w: Worker, running: bool, a: Answer, data: seq<Byte>)
    requires !w.pc.Test?
    ensures NextWorker(w, running, a, data) == NextWorker(w, true, a, data)
  {
  }

  /** write(2) of the rest of the chunk. */
  method WriteCall(s: State, ghost t: Trace, i: nat, bytes: seq<Byte>) returns (a: Answer, s': State, ghost t': Trace)
    requires Drives(t, s) && i < |s.workers| && s.workers[i].pc.Write? && s.workers[i].written < |s.workers[i].data|
    requires bytes == s.workers[i].data[s.workers[i].written..]
    ensures Drives(t', s') && Continues(t, t', WorkerThread(i), 1) && i < |s'.workers| && s'.cap == s.cap
    ensures a != Err(EAGAIN) && Written(a) <= |bytes| && s'.workers[i] == NextWorker(s.workers[i], true, a, [])
  {
    hide *;
    var mid, t1 := OtherThreads(s, t, i);
    var net': Sockets := *;
    a := *;
    DrivenInvariant(t1, mid);
    WriteMayBeInterrupted(mid, i);
    if !Calls(mid.net, net', mid.cap, mid.workers[i], a, []) {
      a, net' := Err(EINTR), mid.net;
    }
    WriteFits(mid.net, net', mid.cap, mid.workers[i], a);
    SameNext(mid.workers[i], mid.running, a, []);
    t' := WorkerActs(t, t1, mid, i, net', a, []);
    s' := Acted(mid, i, net', a, []);
  }

  lemma WriteMayBeInterrupted(s: State, i: nat)
    requires Inv(s) && i < |s.workers| && s.workers[i].pc.Write?
    ensures Calls(s.net, s.net, s.cap, s.workers[i], Err(EINTR), [])
  {
    WorkerIsOk(s, i);
  }

  lemma WriteFits(net: Sockets, net': Sockets, cap: nat, w: Worker, a: Answer)
    requires w.pc.Write? && Calls(net, net', cap, w, a, [])
    ensures w.written < |w.data| && Written(a) <= |w.data| - w.written && a != Err(EAGAIN)
  {
  }

  /** The destructor of the worker's socket. */
  method CloseCall(s: State, ghost t: Trace, i: nat) returns (s': State, ghost t': Trace)
    requires Drives(t, s) && i < |s.workers| && s.workers[i].pc.Close?
    ensures Drives(t', s') && Continues(t, t', WorkerThread(i), 1)
    ensures i < |s'.workers| && s'.workers[i] == s.workers[i].(pc := Exited)
  {
    hide *;
    var mid, t1 := OtherThreads(s, t, i);
    DrivenInvariant(t1, mid);
    MayCloseNow(mid, i);
    var net' := Net.Close(mid.net, mid.workers[i].fd);
    t' := WorkerActs(t, t1, mid, i, net', Ok(0), []);
    s' := Acted(mid, i, net', Ok(0), []);
    CloseExits(mid.workers[i], mid.running);
  }

  lemma CloseExits(w: Worker, running: bool)
    requires w.pc.Close?
    ensures NextWorker(w, running, Ok(0), []) == w.(pc := Exited)
  {
  }

  lemma MayCloseNow(s: State, i: nat)
    requires Inv(s) && i < |s.workers| && s.workers[i].pc.Close?
    ensures s.workers[i].fd in s.net.fds && s.net.fds[s.workers[i].fd] in s.net.conns
    ensures Calls(s.net, Net.Close(s.net, s.workers[i].fd), s.cap, s.workers[i], Ok(0), [])
  {
    WorkerIsOk(s, i);
  }

  // ---------------------------------------------------------------- serve

  /** What the worker's locals say inside the write loop. */
  predicate InChunk(w: Worker, data: seq<Byte>, written: nat) {
    w.data == data && w.written == written && (if written < |data| then w.pc.Write? else w.pc.Test?)
  }

  /** `serve`: read, write everything back, again; it ends with the connection closed and counted. */
  method Serve(s: State, ghost t: Trace, i: nat, horizon: nat)
    returns (done: bool, s': State, ghost t': Trace, ghost acts: nat)
    requires Drives(t, s) && i < |s.workers| && s.workers[i].pc.Test?
    ensures Drives(t', s') && Continues(t, t', WorkerThread(i), acts) && i < |s'.workers|
    ensures if done then s'.workers[i].pc.Exited? else acts >= horizon
  {
    hide Drives, Continues, IsRun, Written;
    s', t', acts := s, t, 0;
    ContinuesItself(t, WorkerThread(i));
    var buffer := new Byte[s.cap];
    var left := horizon;
    while left > 0
      invariant Drives(t', s') && Continues(t, t', WorkerThread(i), acts) && acts + left >= horizon
      invariant i < |s'.workers| && s'.workers[i].pc.Test? && s'.cap == buffer.Length
      decreases left
    {
      left := left - 1;
      ghost var t1 := t';
      var running;
      running, s', t' := Local(s', t', i);
      ContinuesOn(t, t1, t', WorkerThread(i), acts, 1);
      acts := acts + 1;
      if !running {
        t1 := t';
        s', t' := Leave(s', t', i);
        ContinuesOn(t, t1, t', WorkerThread(i), acts, 2);
        return true, s', t', acts + 2;
      }
      var n;
      ghost var data;
      t1 := t';
      n, data, s', t' := ReadChunk(s', t', i, buffer);
      ContinuesOn(t, t1, t', WorkerThread(i), acts, 3);
      acts := acts + 3;
      if n.Err? || n.n == 0 {
        if n == Err(EINTR) {
          continue;
        }
        t1 := t';
        s', t' := Leave(s', t', i);
        ContinuesOn(t, t1, t', WorkerThread(i), acts, 2);
        return true, s', t', acts + 2;
      }
      t1 := t';
      s', t' := CountTwice(s', t', i); // requests, bytes
      ContinuesOn(t, t1, t', WorkerThread(i), acts, 2);
      acts := acts + 2;
      t1 := t';
      var ok, cut;
      ghost var more;
      ok, cut, s', t', more := WriteChunk(s', t', i, buffer, n.n, data, left);
      ContinuesOn(t, t1, t', WorkerThread(i), acts, more);
      acts := acts + more;
      if cut {
        return false, s', t', acts;
      }
      if !ok {
        t1 := t';
        s', t' := Leave(s', t', i);
        ContinuesOn(t, t1, t', WorkerThread(i), acts, 2);
        return true, s', t', acts + 2;
      }
    }
    done := false;
  }

  /** The bumps of two counters. */
  method CountTwice(s: State, ghost t: Trace, i: nat) returns (s': State, ghost t': Trace)
    requires Drives(t, s) && i < |s.workers|
    requires s.workers[i].pc.CountRead? || s.workers[i].pc.CountWrite? || s.workers[i].pc.CountRequest?
    ensures Drives(t', s') && Continues(t, t', WorkerThread(i), 2) && i < |s'.workers| && s'.cap == s.cap
    ensures var w := s.workers[i]; s'.workers[i] == NextWorker(NextWorker(w, true, Ok(0), []), true, Ok(0), [])
  {
    hide Drives, Continues, IsRun, Written;
    var s1, t1 := Count(s, t, i);
    s', t' := Count(s1, t1, i);
    ContinuesOn(t, t1, t', WorkerThread(i), 1, 1);
  }

  /** A read and its two counters. */
  method ReadChunk(s: State, ghost t: Trace, i: nat, buffer: array<Byte>)
    returns (a: Answer, ghost data: seq<Byte>, s': State, ghost t': Trace)
    requires Drives(t, s) && i < |s.workers| && s.workers[i].pc.Read? && buffer.Length == s.cap
    modifies buffer
    ensures Drives(t', s') && Continues(t, t', WorkerThread(i), 3) && i < |s'.workers| && s'.cap == s.cap
    ensures a != Err(EAGAIN) && |data| == (if a.Ok? then a.n else 0) <= buffer.Length && buffer[..|data|] == data
    ensures var w := s'.workers[i];
            && w.data == data && w.written == 0
            && w.pc == if a == Err(EINTR) then Test else if a.Err? || a.n == 0 then CountClosed else CountRequest
  {
    hide Drives, Continues, IsRun, Written;
    var s1;
    ghost var t1;
    a, data, s1, t1 := ReadCall(s, t, i, buffer);
    s', t' := CountTwice(s1, t1, i); // read_calls, syscalls
    ContinuesOn(t, t1, t', WorkerThread(i), 1, 2);
  }

  /** The inner loop: it leaves the chunk completely written, or with a failed write. */
  method WriteChunk(s: State, ghost t: Trace, i: nat, buffer: array<Byte>, n: nat, ghost data: seq<Byte>, horizon: nat)
    returns (ok: bool, cut: bool, s': State, ghost t': Trace, ghost acts: nat)
    requires Drives(t, s) && i < |s.workers| && 0 < n <= buffer.Length && buffer[..n] == data
    requires InChunk(s.workers[i], data, 0)
    ensures Drives(t', s') && Continues(t, t', WorkerThread(i), acts) && i < |s'.workers| && s'.cap == s.cap
    ensures if cut then acts >= horizon
            else if ok then InChunk(s'.workers[i], data, n)
            else s'.workers[i].pc.CountClosed? && s'.workers[i].failed
  {
    hide Drives, Continues, IsRun;
    s', t', acts := s, t, 0;
    ContinuesItself(t, WorkerThread(i));
    var written: nat := 0;
    var left := horizon;
    while written < n && left > 0
      invariant Drives(t', s') && Continues(t, t', WorkerThread(i), acts) && acts + left >= horizon
      invariant i < |s'.workers| && s'.cap == s.cap && written <= n && InChunk(s'.workers[i], data, written)
      decreases left
    {
      left := left - 1;
      assert buffer[written..n] == data[written..];
      ghost var t1 := t';
      var w;
      w, s', t' := WriteOnce(s', t', i, buffer[written..n], data, written);
      ContinuesOn(t, t1, t', WorkerThread(i), acts, 3);
      acts := acts + 3;
      AnswerCases(w);
      if w.Err? {
        if w == Err(EINTR) {
          continue;
        }
        return false, false, s', t', acts;
      }
      written := written + w.n;
    }
    ok, cut := true, written < n;
  }

  /** A write and its two counters. */
  method WriteOnce(s: State, ghost t: Trace, i: nat, bytes: seq<Byte>, ghost data: seq<Byte>, ghost written: nat)
    returns (a: Answer, s': State, ghost t': Trace)
    requires Drives(t, s) && i < |s.workers| && InChunk(s.workers[i], data, written) && written < |data|
    requires bytes == data[written..]
    ensures Drives(t', s') && Continues(t, t', WorkerThread(i), 3) && i < |s'.workers| && s'.cap == s.cap
    ensures a != Err(EAGAIN) && Written(a) <= |bytes|
    ensures if a == Err(EOTHER) then s'.workers[i].pc.CountClosed? && s'.workers[i].failed
            else InChunk(s'.workers[i], data, written + Written(a))
  {
    hide Drives, Continues, IsRun;
    var s1;
    ghost var t1;
    a, s1, t1 := WriteCall(s, t, i, bytes);
    AnswerCases(a);
    s', t' := CountTwice(s1, t1, i); // write_calls, syscalls
    ContinuesOn(t, t1, t', WorkerThread(i), 1, 2);
  }

  /** The exit is counted, and the socket's destructor closes it. */
  method Leave(s: State, ghost t: Trace, i: nat) returns (s': State, ghost t': Trace)
    requires Drives(t, s) && i < |s.workers| && s.workers[i].pc.CountClosed?
    ensures Drives(t', s') && Continues(t, t', WorkerThread(i), 2) && i < |s'.workers| && s'.workers[i].pc.Exited?
  {
    hide Drives, Continues, IsRun, Written;
    var s1, t1 := Count(s, t, i);
    s', t' := CloseCall(s1, t1, i);
    ContinuesOn(t, t1, t', WorkerThread(i), 1, 1);
  }

  // ---------------------------------------------------------------- run, stats and the destructor

  /** The main thread's actions that depend on the shared state alone. */
  function MainLocal(s: State): State {
    match s.main
    case MainTest => s.(main := if s.running then Polling else LoadAccepted)
    case CountWait(p) => s.(main := CountWaitCall(p), stats := s.stats.(waitCalls := s.stats.waitCalls + 1))
    case CountWaitCall(p) =>
      s.(main := if p.PollFailed? then (if p.interrupted then MainTest else LoadAccepted)
                 else if p.signal then Drain else Accept,
         stats := s.stats.(syscalls := s.stats.syscalls + 1))
    case Drain => if s.signals > 0 then s.(signals := s.signals - 1, running := false) else s.(main := LoadAccepted)
    case CountAccepted(fd) => s.(main := CountSpawned(fd), stats := s.stats.(accepted := s.stats.accepted + 1))
    case CountSpawned(fd) => s.(main := Spawn(fd), stats := s.stats.(threadsSpawned := s.stats.threadsSpawned + 1))
    case LoadAccepted => s.(main := LoadClosed(s.stats.accepted))
    case LoadClosed(accepted) => s.(main := Stop(accepted, s.stats.closed))
    case Stop(accepted, closed) => s.(main := Join(0, accepted, closed), running := false)
    case _ => s
  }

  predicate IsLocal(m: MainPc) {
    !m.Polling? && !m.Accept? && !m.Spawn? && !m.Join? && !m.Gone?
  }

  lemma MainLocalIsStep(s: State)
    requires IsLocal(s.main)
    ensures MainStep(s, MainLocal(s), s.net, Ok(0), PollFailed(true)) && MainLocal(s).cap == s.cap
  {
  }

  /** The main thread acts, after others have moved from `t0` to `t`. */
  lemma MainActs(t0: Trace, t: Trace, s: State, s': State, net': Sockets, a: Answer, poll: Poll) returns (t': Trace)
    requires Drives(t, s) && Continues(t0, t, MainThread, 0)
    requires MainStep(s, s', net', a, poll) && s'.cap == s.cap
    ensures Drives(t', s') && Continues(t0, t', MainThread, 1)
  {
    hide Drives, Continues, MainStep;
    t' := Stepped(t, s, OfMain(net', a, poll), s', MainThread);
    ContinuesOn(t0, t, t', MainThread, 0, 1);
  }

  method Bump(s: State, ghost t: Trace) returns (ghost mid: State, s': State, ghost t': Trace)
    requires Drives(t, s) && IsLocal(s.main)
    ensures Drives(t', s') && Continues(t, t', MainThread, 1) && s'.cap == s.cap
    ensures mid.main == s.main && mid.running == s.running && s' == MainLocal(mid)
    ensures |mid.workers| == |s.workers|
    ensures forall i | 0 <= i < |s.workers| && s.workers[i].pc.Exited? :: mid.workers[i].pc.Exited?
  {
    hide *;
    var now, t1 := WorkersMove(s, t);
    mid, s' := now, MainLocal(now);
    MainLocalIsStep(now);
    t' := MainActs(t, t1, now, s', now.net, Ok(0), PollFailed(true));
  }

  method PollCall(s: State, ghost t: Trace) returns (poll: Poll, s': State, ghost t': Trace)
    requires Drives(t, s) && s.main.Polling?
    ensures Drives(t', s') && Continues(t, t', MainThread, 1)
    ensures s'.main == CountWait(poll) && s'.running == s.running
  {
    hide Drives, Continues;
    var mid, t1 := WorkersMove(s, t);
    poll := *;
    if poll.Ready? && !((poll.signal || poll.listener) && (poll.signal ==> mid.signals > 0)
                        && (poll.listener ==> mid.net.backlog != [])) {
      poll := PollFailed(true);
    }
    s' := mid.(main := CountWait(poll));
    t' := MainActs(t, t1, mid, s', mid.net, Ok(0), poll);
  }

  method AcceptCall(s: State, ghost t: Trace) returns (a: Answer, s': State, ghost t': Trace)
    requires Drives(t, s) && s.main.Accept?
    ensures Drives(t', s') && Continues(t, t', MainThread, 1)
    ensures s'.main == (if a.Ok? then CountAccepted(a.n) else MainTest) && s'.running == s.running
  {
    hide Drives, Continues;
    var mid, t1 := WorkersMove(s, t);
    var net': Sockets := *;
    a := *;
    if !Accepts(mid.net, net', a) {
      a, net' := Err(EINTR), mid.net;
    }
    s' := mid.(net := net', main := if a.Ok? then CountAccepted(a.n) else MainTest);
    t' := MainActs(t, t1, mid, s', net', a, PollFailed(true));
  }

  /** workers_.emplace_back. */
  method SpawnCall(s: State, ghost t: Trace) returns (s': State, ghost t': Trace)
    requires Drives(t, s) && s.main.Spawn?
    ensures Drives(t', s') && Continues(t, t', MainThread, 1)
    ensures s'.main.MainTest? && s'.running == s.running && |s'.workers| == |s.workers| + 1
    ensures s'.workers[|s.workers|].fd == s.main.fd && s'.workers[|s.workers|].pc.Test?
  {
    hide Drives, Continues, Inv;
    var mid, t1 := WorkersMove(s, t);
    var fd := mid.main.fd;
    DrivenInvariant(t1, mid);
    SpawnableFd(mid);
    s' := mid.(main := MainTest, workers := mid.workers + [Worker(mid.net.fds[fd], fd, Test, Ok(0), [], 0, false, 0)]);
    t' := MainActs(t, t1, mid, s', mid.net, Ok(0), PollFailed(true));
  }

  lemma SpawnableFd(s: State)
    requires Inv(s) && s.main.Spawn?
    ensures s.main.fd in s.net.fds
  {
    assert s.main.fd in Accepted(s.main);
  }

  /** `run`: poll, bump, drain or accept, until a signal or an error ends the loop. */
  method Run(s: State, ghost t: Trace, horizon: nat)
    returns (done: bool, s': State, ghost t': Trace, ghost acts: nat)
    requires Drives(t, s) && s.main.MainTest?
    ensures Drives(t', s') && Continues(t, t', MainThread, acts)
    ensures if done then s'.main.LoadAccepted? else acts >= horizon
  {
    hide Drives, Continues;
    s', t', acts := s, t, 0;
    ContinuesItself(t, MainThread);
    var left := horizon;
    while left > 0
      invariant Drives(t', s') && Continues(t, t', MainThread, acts) && acts + left >= horizon
      invariant s'.main.MainTest?
      decreases left
    {
      left := left - 1;
      ghost var mid;
      ghost var t1 := t';
      mid, s', t' := Bump(s', t1); // while (running_)
      ContinuesOn(t, t1, t', MainThread, acts, 1);
      acts := acts + 1;
      if s'.main.LoadAccepted? {
        return true, s', t', acts;
      }
      t1 := t';
      var poll;
      poll, s', t' := PollOnce(s', t1);
      ContinuesOn(t, t1, t', MainThread, acts, 3);
      acts := acts + 3;
      if poll.PollFailed? {
        if poll.interrupted {
          continue;
        }
        return true, s', t', acts;
      }
      t1 := t';
      ghost var more;
      if poll.signal {
        done, s', t', more := DrainSignals(s', t1, left);
        ContinuesOn(t, t1, t', MainThread, acts, more);
        acts := acts + more;
        return done, s', t', acts;
      }
      s', t', more := AcceptOne(s', t1);
      ContinuesOn(t, t1, t', MainThread, acts, more);
      acts := acts + more;
    }
    done := false;
  }

  /** A poll and its two counters. */
  method PollOnce(s: State, ghost t: Trace) returns (poll: Poll, s': State, ghost t': Trace)
    requires Drives(t, s) && s.main.Polling?
    ensures Drives(t', s') && Continues(t, t', MainThread, 3) && s'.running == s.running
    ensures s'.main == if poll.PollFailed? then (if poll.interrupted then MainTest else LoadAccepted)
                       else if poll.signal then Drain else Accept
  {
    hide Drives, Continues;
    ghost var mid;
    ghost var t1;
    poll, s', t1 := PollCall(s, t);
    ghost var t2;
    mid, s', t2 := Bump(s', t1); // wait_calls
    ContinuesOn(t, t1, t2, MainThread, 1, 1);
    mid, s', t' := Bump(s', t2); // syscalls
    ContinuesOn(t, t2, t', MainThread, 2, 1);
  }

  /** An accept and, when it brings a connection, its two counters and its worker. */
  method AcceptOne(s: State, ghost t: Trace) returns (s': State, ghost t': Trace, ghost acts: nat)
    requires Drives(t, s) && s.main.Accept?
    ensures Drives(t', s') && Continues(t, t', MainThread, acts) && s'.main.MainTest? && s'.running == s.running
    ensures acts == 1 || acts == 4
  {
    hide Drives, Continues;
    var fd;
    ghost var t1;
    fd, s', t1 := AcceptCall(s, t);
    if fd.Err? {
      return s', t1, 1;
    }
    ghost var mid;
    ghost var t2;
    mid, s', t2 := Bump(s', t1); // accepted
    ContinuesOn(t, t1, t2, MainThread, 1, 1);
    ghost var t3;
    mid, s', t3 := Bump(s', t2); // threads_spawned
    ContinuesOn(t, t2, t3, MainThread, 2, 1);
    s', t' := SpawnCall(s', t3);
    ContinuesOn(t, t3, t', MainThread, 3, 1);
    acts := 4;
  }

  /** Every record read from the signal descriptor clears the flag; then the loop is left. */
  method DrainSignals(s: State, ghost t: Trace, horizon: nat)
    returns (done: bool, s': State, ghost t': Trace, ghost acts: nat)
    requires Drives(t, s) && s.main.Drain?
    ensures Drives(t', s') && Continues(t, t', MainThread, acts)
    ensures if done then s'.main.LoadAccepted? && acts > 0 else s'.main.Drain? && acts >= horizon
    ensures s'.running == (s.running && acts <= if done then 1 else 0)
  {
    hide Drives, Continues;
    s', t', acts := s, t, 0;
    ContinuesItself(t, MainThread);
    var left := horizon;
    while s'.main.Drain? && left > 0
      invariant Drives(t', s') && Continues(t, t', MainThread, acts) && acts + left >= horizon
      invariant s'.main.Drain? || (s'.main.LoadAccepted? && acts > 0)
      invariant s'.running == (s.running && acts <= if s'.main.Drain? then 0 else 1)
      decreases left
    {
      left := left - 1;
      ghost var mid;
      ghost var t1 := t';
      mid, s', t' := Bump(s', t1);
      ContinuesOn(t, t1, t', MainThread, acts, 1);
      acts := acts + 1;
    }
    done := s'.main.LoadAccepted?;
  }

  /** The first two loads of stats(), in the order of `snapshot`. */
  method Snapshot(s: State, ghost t: Trace) returns (accepted: nat, closed: nat, s': State, ghost t': Trace)
    requires Drives(t, s) && s.main.LoadAccepted?
    ensures Drives(t', s') && Continues(t, t', MainThread, 2) && s'.main == Stop(accepted, closed)
    ensures closed <= accepted
  {
    hide Drives, Continues;
    ghost var mid;
    ghost var t1;
    mid, s', t1 := Bump(s, t);
    accepted := s'.main.accepted;
    mid, s', t' := Bump(s', t1);
    closed := s'.main.closed;
    ContinuesOn(t, t1, t', MainThread, 1, 1);
    SnapshotFacts(t', s');
  }

  lemma SnapshotFacts(t: Trace, s: State)
    requires Drives(t, s) && s.main.Stop?
    ensures s.main.closed <= s.main.accepted
  {
    hide Workers, Owners, Tallied, TableInv, Drives;
    DrivenInvariant(t, s);
  }

  /** The destructor: clear the flag and join every worker in turn.  It waits only at a worker that lives, here
      for `patience` rounds of the other threads in all. */
  method Destroy(s: State, ghost t: Trace, patience: nat)
    returns (done: bool, s': State, ghost t': Trace, ghost acts: nat)
    requires Drives(t, s) && s.main.Stop?
    ensures Drives(t', s') && Continues(t, t', MainThread, acts) && !s'.running
    ensures done ==> s'.main.Gone? && forall i | 0 <= i < |s'.workers| :: s'.workers[i].pc.Exited?
    ensures !done ==> s'.main.Join? && s'.main.k < |s'.workers| && !s'.workers[s'.main.k].pc.Exited?
  {
    hide Drives, Continues;
    ghost var was;
    was, s', t' := Bump(s, t);
    acts := 1;
    var k := 0;
    var left := patience;
    var accepted, closed := s'.main.accepted, s'.main.closed;
    while k < |s'.workers|
      invariant Drives(t', s') && Continues(t, t', MainThread, acts)
      invariant !s'.running && k <= |s'.workers| && s'.main == Join(k, accepted, closed)
      invariant forall i | 0 <= i < k :: s'.workers[i].pc.Exited?
      decreases |s'.workers| - k, left
    {
      var mid, t1 := WorkersMove(s', t');
      if mid.workers[k].pc.Exited? {
        s' := mid.(main := Join(k + 1, accepted, closed));
        ghost var t2 := MainActs(t', t1, mid, s', mid.net, Ok(0), PollFailed(true));
        ContinuesOn(t, t', t2, MainThread, acts, 1);
        t', acts := t2, acts + 1;
        k := k + 1;
      } else {
        ContinuesOn(t, t', t1, MainThread, acts, 0);
        s', t' := mid, t1;
        if left == 0 {
          return false, s', t', acts;
        }
        left := left - 1;
      }
    }
    var last := s'.(main := Gone(accepted, closed));
    ContinuesItself(t', MainThread);
    ghost var t2 := MainActs(t', t', s', last, s'.net, Ok(0), PollFailed(true));
    ContinuesOn(t, t', t2, MainThread, acts, 1);
    done, s', t', acts := true, last, t2, acts + 1;
  }
}
