/**
 What the thread server's counters count, what its shutdown still lets happen,
 and what its snapshot shows, over all interleavings and from their labels: the
 calls that were made, whichever thread made them.
 */
module ThreadCounts {
  import opened EchoSpec
  import opened Net
  import opened Runs
  import opened Counters
  import opened Threads
  import opened ThreadRuns
  import opened ThreadProgress

  // ---------------------------------------------------------------- the calls made

  predicate IsRead(s: State, l: Label) {
    l.OfWorker? && l.i < |s.workers| && s.workers[l.i].pc.Read?
  }

  predicate IsFruitful(s: State, l: Label) {
    IsRead(s, l) && l.a.Ok? && l.a.n > 0
  }

  predicate IsWrite(s: State, l: Label) {
    l.OfWorker? && l.i < |s.workers| && s.workers[l.i].pc.Write?
  }

  predicate IsPoll(s: State, l: Label) {
    l.OfMain? && s.main.Polling?
  }

  predicate IsAccept(s: State, l: Label) {
    l.OfMain? && s.main.Accept? && l.a.Ok?
  }

  // ---- made and not yet counted

  function ReadPending(w: Worker): nat {
    if w.pc.CountRead? then 1 else 0
  }

  function WritePending(w: Worker): nat {
    if w.pc.CountWrite? then 1 else 0
  }

  function RequestPending(w: Worker): nat {
    if (w.pc.CountRead? || w.pc.CountReadCall? || w.pc.CountRequest?) && w.data != [] then 1 else 0
  }

  /** Each counter is the number of its calls, less those made and not yet counted. */
  ghost predicate Exact(t: Trace)
    requires |t.states| == |t.labels| + 1
  {
    var s := End(t);
    && s.stats.readCalls + Sum(s.workers, ReadPending) == Count(t, IsRead)
    && s.stats.writeCalls + Sum(s.workers, WritePending) == Count(t, IsWrite)
    && s.stats.requests + Sum(s.workers, RequestPending) == Count(t, IsFruitful)
    && s.stats.waitCalls + (if s.main.CountWait? then 1 else 0) == Count(t, IsPoll)
    && s.stats.accepted + (if s.main.CountAccepted? then 1 else 0) == Count(t, IsAccept)
    && s.stats.threadsSpawned + (if s.main.CountAccepted? || s.main.CountSpawned? then 1 else 0) == Count(t, IsAccept)
  }

  function One(b: bool): nat {
    if b then 1 else 0
  }

  /** What one step adds to each side. */
  ghost predicate Adds(s: State, l: Label, s': State) {
    && s'.stats.readCalls + Sum(s'.workers, ReadPending)
       == s.stats.readCalls + Sum(s.workers, ReadPending) + One(IsRead(s, l))
    && s'.stats.writeCalls + Sum(s'.workers, WritePending)
       == s.stats.writeCalls + Sum(s.workers, WritePending) + One(IsWrite(s, l))
    && s'.stats.requests + Sum(s'.workers, RequestPending)
       == s.stats.requests + Sum(s.workers, RequestPending) + One(IsFruitful(s, l))
    && s'.stats.waitCalls + One(s'.main.CountWait?) == s.stats.waitCalls + One(s.main.CountWait?) + One(IsPoll(s, l))
    && s'.stats.accepted + One(s'.main.CountAccepted?)
       == s.stats.accepted + One(s.main.CountAccepted?) + One(IsAccept(s, l))
    && s'.stats.threadsSpawned + One(s'.main.CountAccepted? || s'.main.CountSpawned?)
       == s.stats.threadsSpawned + One(s.main.CountAccepted? || s.main.CountSpawned?) + One(IsAccept(s, l))
  }

  lemma StepAdds(s: State, l: Label, s': State)
    requires Inv(s) && Step(s, s', l)
    ensures Adds(s, l, s')
  {
    hide Inv, WorkerStep, MainStep, Peers, Adds;
    match l
    case OfWorker(i, net', a, data) =>
      WorkerFacts(s, i);
      WorkerAdds(s, s', i, net', a, data);
    case OfMain(net', a, poll) => MainAdds(s, s', net', a, poll);
    case Outside(net', signals') => OutsideAdds(s, s', l);
  }

  lemma OutsideAdds(s: State, s': State, l: Label)
    requires l.Outside? && Step(s, s', l)
    ensures Adds(s, l, s')
  {
    hide Peers, Sum;
  }

  lemma WorkerAdds(s: State, s': State, i: nat, net': Sockets, a: Answer, data: seq<Byte>)
    requires i < |s.workers| && WorkerStep(s, s', i, net', a, data)
    requires WorkerOk(s.net, s.running, s.cap, s.workers[i])
    ensures Adds(s, OfWorker(i, net', a, data), s')
  {
    var w, w' := s.workers[i], NextWorker(s.workers[i], s.running, a, data);
    WorkerMove(s.net, net', s.running, s.cap, s.stats, w, a, data);
    SumUpdate(s.workers, i, w', ReadPending);
    SumUpdate(s.workers, i, w', WritePending);
    SumUpdate(s.workers, i, w', RequestPending);
    hide Sum, WorkerOk, NextWorker, NextStats, Calls, ReadPending, WritePending, RequestPending;
  }

  lemma WorkerMove(net: Sockets, net': Sockets, running: bool, cap: nat, st: Stats, w: Worker, a: Answer,
                   data: seq<Byte>)
    requires WorkerOk(net, running, cap, w) && Calls(net, net', cap, w, a, data)
    ensures var w', st' := NextWorker(w, running, a, data), NextStats(st, w);
            && st'.readCalls + ReadPending(w') == st.readCalls + ReadPending(w) + One(w.pc.Read?)
            && st'.writeCalls + WritePending(w') == st.writeCalls + WritePending(w) + One(w.pc.Write?)
            && st'.requests + RequestPending(w')
               == st.requests + RequestPending(w) + One(w.pc.Read? && a.Ok? && a.n > 0)
            && st'.waitCalls == st.waitCalls && st'.accepted == st.accepted && st'.threadsSpawned == st.threadsSpawned
  {
    hide Writes, Net.Close;
    if w.pc.Read? {
      ReadBrings(net, net', cap, w, a, data);
      hide Reads;
    }
  }

  lemma ReadBrings(net: Sockets, net': Sockets, cap: nat, w: Worker, a: Answer, data: seq<Byte>)
    requires w.pc.Read? && Calls(net, net', cap, w, a, data)
    ensures a.Ok? && a.n > 0 <==> data != []
  {
  }

  lemma MainAdds(s: State, s': State, net': Sockets, a: Answer, poll: Poll)
    requires MainStep(s, s', net', a, poll)
    ensures Adds(s, OfMain(net', a, poll), s')
  {
    hide Sum, Accepts;
    if s.main.Spawn? {
      var w := s'.workers[|s.workers|];
      SumAppend(s.workers, w, ReadPending);
      SumAppend(s.workers, w, WritePending);
      SumAppend(s.workers, w, RequestPending);
    }
  }

  /** In every interleaving read_calls, write_calls, requests, wait_calls, accepted and threads_spawned are the numbers
      of the reads, writes, reads that brought bytes, polls and accepts that were made, less those of threads that are
      just about to count them. */
  lemma {:induction false} CallsAreCounted(cap: nat, t: Trace)
    requires IsRun(cap, t)
    ensures Exact(t)
    decreases |t.labels|
  {
    hide Step, Adds, Inv;
    if t.labels == [] {
      NothingCounted(cap, t);
    } else {
      BeforeIsRun(cap, t);
      CallsAreCounted(cap, Before(t));
      RunInvariant(cap, Before(t));
      StepAdds(Now(Before(t)), t.labels[|t.labels| - 1], Now(t));
      ExactOn(t);
    }
  }

  lemma NothingCounted(cap: nat, t: Trace)
    requires IsRun(cap, t) && t.labels == []
    ensures Exact(t)
  {
  }

  lemma ExactOn(t: Trace)
    requires |t.states| == |t.labels| + 1 && t.labels != [] && Exact(Before(t))
    requires Adds(End(Before(t)), t.labels[|t.labels| - 1], End(t))
    ensures Exact(t)
  {
    hide Sum, IsRead, IsWrite, IsFruitful, IsPoll, IsAccept;
  }

  /** And once all workers have been joined they are exactly those numbers: what is printed at the exit. */
  lemma FinalCounters(cap: nat, t: Trace)
    requires IsRun(cap, t) && Now(t).main.Gone?
    ensures var st := Now(t).stats;
            && |t.states| == |t.labels| + 1
            && st.readCalls == Count(t, IsRead) && st.writeCalls == Count(t, IsWrite)
            && st.requests == Count(t, IsFruitful) && st.waitCalls == Count(t, IsPoll)
            && st.accepted == st.threadsSpawned == st.closed == Count(t, IsAccept)
  {
    hide Count, IsRun, Step;
    CallsAreCounted(cap, t);
    IsRunFacts(cap, t);
    AfterTheJoins(t.states, t.labels, |t.labels|);
    AllExited(cap, t);
    SumZero(Now(t).workers, ReadPending);
    SumZero(Now(t).workers, WritePending);
    SumZero(Now(t).workers, RequestPending);
  }

  lemma AllExited(cap: nat, t: Trace)
    requires IsRun(cap, t) && Now(t).main.Gone?
    ensures forall w | w in Now(t).workers :: w.pc.Exited?
  {
    hide IsRun, TableInv, Workers, Owners, Tallied;
    RunInvariant(cap, t);
  }

  // ---------------------------------------------------------------- the shutdown

  predicate IsReadOf(i: nat, s: State, l: Label) {
    l.OfWorker? && l.i == i && i < |s.workers| && s.workers[i].pc.Read?
  }

  ghost function ReadsOf(i: nat): (State, Label) -> bool {
    (s, l) => IsReadOf(i, s, l)
  }

  /** Worker `i` has tested the flag and will read. */
  predicate WillRead(s: State, i: nat) {
    i < |s.workers| && s.workers[i].pc.Read?
  }

  /** Once the flag is cleared it stays so, and every worker, whatever the interleaving, makes at most one more read:
      the one that its last test of the flag has let it make. */
  lemma {:induction false} AtMostOneMoreRead(cap: nat, t: Trace, n: nat, i: nat)
    requires IsRun(cap, t) && n <= |t.labels| && !t.states[n].running
    ensures |t.states| == |t.labels| + 1 && !Now(t).running
    ensures Count(t, ReadsOf(i)) + One(WillRead(Now(t), i))
            <= Count(Upto(t, n), ReadsOf(i)) + One(WillRead(t.states[n], i))
    ensures Count(t, ReadsOf(i)) <= Count(Upto(t, n), ReadsOf(i)) + 1
    decreases |t.labels|
  {
    hide Step, IsReadOf, WillRead;
    IsRunFacts(cap, t);
    if n < |t.labels| {
      BeforeIsRun(cap, t);
      var q := Before(t);
      assert Upto(q, n) == Upto(t, n) && q.states[n] == t.states[n];
      AtMostOneMoreRead(cap, q, n, i);
      StepReads(Now(q), t.labels[|t.labels| - 1], Now(t), i);
    } else {
      assert Upto(t, n) == t;
    }
  }

  lemma StepReads(s: State, l: Label, s': State, i: nat)
    requires Step(s, s', l) && !s.running
    ensures !s'.running && One(IsReadOf(i, s, l)) + One(WillRead(s', i)) <= One(WillRead(s, i))
  {
    hide Reads, Writes, Peers, Accepts, Net.Close;
  }

  // ---------------------------------------------------------------- the loop's end and the snapshot

  /** A signal or a failure has been reported, or the loop has been left. */
  predicate Leaving(main: MainPc) {
    match main
    case CountWait(p) => if p.Ready? then p.signal else !p.interrupted
    case CountWaitCall(p) => if p.Ready? then p.signal else !p.interrupted
    case Drain => true
    case LoadAccepted => true
    case LoadClosed(_) => true
    case Stop(_, _) => true
    case Join(_, _, _) => true
    case Gone(_, _) => true
    case _ => false
  }

  /** After poll has reported a signal, or failed for another reason than an interruption, the main thread neither polls
      nor accepts any more. */
  lemma {:induction false} SignalsEndTheLoop(cap: nat, t: Trace, n: nat)
    requires IsRun(cap, t) && n <= |t.labels|
    requires t.states[n].main.CountWait?
    requires var p := t.states[n].main.poll; if p.Ready? then p.signal else !p.interrupted
    ensures Leaving(Now(t).main) && !Now(t).main.Polling? && !Now(t).main.Accept?
    decreases |t.labels|
  {
    hide Step;
    IsRunFacts(cap, t);
    if n < |t.labels| {
      BeforeIsRun(cap, t);
      SignalsEndTheLoop(cap, Before(t), n);
      StepLeaves(Now(Before(t)), t.labels[|t.labels| - 1], Now(t));
    }
  }

  lemma StepLeaves(s: State, l: Label, s': State)
    requires Step(s, s', l) && Leaving(s.main)
    ensures Leaving(s'.main)
  {
    hide Calls, Peers, Accepts;
  }

  /** What the snapshot shows are the two counters as they were at two moments, `accepted` at the earlier one, both
      after the loop; and from the joins on the flag is cleared. */
  lemma {:induction false} SnapshotShows(cap: nat, t: Trace) returns (i: nat, j: nat)
    requires IsRun(cap, t) && (Now(t).main.Stop? || Now(t).main.Join? || Now(t).main.Gone?)
    ensures i < j < |t.states| && t.states[i].main.LoadAccepted? && t.states[j].main.LoadClosed?
    ensures t.states[i].stats.accepted == Now(t).main.accepted && t.states[j].stats.closed == Now(t).main.closed
    ensures Now(t).main.Stop? || !Now(t).running
    decreases |t.labels|
  {
    hide Step;
    IsRunFacts(cap, t);
    BeforeIsRun(cap, t);
    var q, l := Before(t), t.labels[|t.labels| - 1];
    SnapshotMove(Now(q), l, Now(t));
    if Now(q).main.LoadClosed? {
      i := AcceptedLoaded(cap, q);
      j := |t.labels| - 1;
    } else {
      i, j := SnapshotShows(cap, q);
    }
  }

  lemma SnapshotMove(s: State, l: Label, s': State)
    requires Step(s, s', l) && (s'.main.Stop? || s'.main.Join? || s'.main.Gone?)
    ensures if s.main.LoadClosed? then
              s'.main.Stop? && s'.main.accepted == s.main.accepted && s'.main.closed == s.stats.closed
            else
              && (s.main.Stop? || s.main.Join? || s.main.Gone?)
              && s'.main.accepted == s.main.accepted && s'.main.closed == s.main.closed
              && (!s.running ==> !s'.running)
              && (s.main.Stop? && !s'.main.Stop? ==> !s'.running)
              && (s'.main.Stop? ==> s.main.Stop?)
  {
    hide Calls, Peers, Accepts;
  }

  lemma {:induction false} AcceptedLoaded(cap: nat, t: Trace) returns (i: nat)
    requires IsRun(cap, t) && Now(t).main.LoadClosed?
    ensures i < |t.states| - 1 && t.states[i].main.LoadAccepted?
    ensures t.states[i].stats.accepted == Now(t).main.accepted
    decreases |t.labels|
  {
    hide Step;
    IsRunFacts(cap, t);
    BeforeIsRun(cap, t);
    var q, l := Before(t), t.labels[|t.labels| - 1];
    AcceptedMove(Now(q), l, Now(t));
    if Now(q).main.LoadAccepted? {
      i := |t.labels| - 1;
    } else {
      i := AcceptedLoaded(cap, q);
    }
  }

  lemma AcceptedMove(s: State, l: Label, s': State)
    requires Step(s, s', l) && s'.main.LoadClosed?
    ensures if s.main.LoadAccepted? then s'.main.accepted == s.stats.accepted
            else s.main.LoadClosed? && s'.main.accepted == s.main.accepted
  {
    hide Calls, Peers, Accepts;
  }
}
