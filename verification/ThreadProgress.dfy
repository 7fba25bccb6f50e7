/**
 How long the threads take to come to rest when the outside world does: whatever
 the interleaving, every step that the kernel grants uses up some of a finite
 budget of work, and a state in which every thread waits or has ended is
 reached.
 */
module ThreadProgress {
  import opened EchoSpec
  import opened Net
  import opened Runs
  import opened Workload
  import opened Threads
  import opened ThreadRuns

  // ---------------------------------------------------------------- the work left

  /** What is left of a worker's chunk. */
  function Remaining(w: Worker): nat {
    if w.written <= |w.data| then |w.data| - w.written else 0
  }

  /** How far a worker is from the end of its loop's body; a call that brought nothing is made again. */
  function WorkerRank(w: Worker): nat {
    match w.pc
    case Exited => 0
    case Close => 1
    case CountClosed => 2
    case Read => 5
    case Test => 6
    case CountRead => 1 + AnswerRank(w)
    case CountReadCall => AnswerRank(w)
    case CountRequest => 8 + 3 * |w.data|
    case CountBytes => 7 + 3 * |w.data|
    case Write => 6 + 3 * Remaining(w)
    case CountWrite => (if Again(w.answer) then 8 else 5) + 3 * Remaining(w)
    case CountWriteCall => (if Again(w.answer) then 7 else 4) + 3 * Remaining(w)
  }

  /** A write that has to be made again as it was. */
  predicate Again(a: Answer) {
    a == Err(EINTR) || a == Ok(0)
  }

  function AnswerRank(w: Worker): nat {
    if w.answer == Err(EINTR) then 7 else if w.answer.Err? || w.answer.n == 0 then 3 else 9 + 3 * |w.data|
  }

  /** How far the main thread is from its end, or from its next poll. */
  function MainRank(main: MainPc, waiting: bool, workers: nat): nat {
    match main
    case CountWaitCall(p) => 1 + PlaceRank(AfterPoll(p), waiting, workers)
    case CountWait(p) => 2 + PlaceRank(AfterPoll(p), waiting, workers)
    case _ => PlaceRank(main, waiting, workers)
  }

  /** The same away from the bumps after poll. */
  function PlaceRank(main: MainPc, waiting: bool, workers: nat): nat {
    match main
    case Join(k, _, _) => 1 + (if k <= workers then workers - k else 0)
    case Stop(_, _) => workers + 2
    case LoadClosed(_) => workers + 3
    case LoadAccepted => workers + 4
    case Drain => workers + 5
    case Accept => workers + (if waiting then 10 else 21)
    case Polling => workers + 19
    case MainTest => workers + 20
    case Spawn(_) => workers + 30
    case CountSpawned(_) => workers + 31
    case CountAccepted(_) => workers + 32
    case _ => 0
  }

  function AfterPoll(p: Poll): MainPc {
    if p.PollFailed? then (if p.interrupted then MainTest else LoadAccepted) else if p.signal then Drain else Accept
  }

  /** Every step that is granted makes this less, whichever thread takes it. */
  ghost function Measure(s: State): nat {
    30 * (Load(s.net) + s.signals) + Sum(s.workers, WorkerRank) + MainRank(s.main, s.net.backlog != [], |s.workers|)
  }

  // ---------------------------------------------------------------- what each step uses up

  lemma CallAdvances(net: Sockets, net': Sockets, running: bool, cap: nat, w: Worker, a: Answer, data: seq<Byte>)
    requires TableInv(net) && WorkerOk(net, running, cap, w) && Calls(net, net', cap, w, a, data)
    requires w.pc.Read? || w.pc.Write? ==> a != Err(EINTR)
    ensures 30 * Load(net') + WorkerRank(NextWorker(w, running, a, data)) < 30 * Load(net) + WorkerRank(w)
    ensures net'.backlog == net.backlog
  {
    hide Load, Reads, Writes, TableInv, WorkerRank, NextWorker, WorkerOk;
    match w.pc
    case Read => ReadAdvances(net, net', running, cap, w, a, data);
    case Write => WriteAdvances(net, net', running, cap, w, a, data);
    case Close => CloseAdvances(net, running, w, a, data);
    case _ => CountingAdvances(net, running, cap, w, a, data);
  }

  lemma ReadAdvances(net: Sockets, net': Sockets, running: bool, cap: nat, w: Worker, a: Answer, data: seq<Byte>)
    requires TableInv(net) && w.pc.Read? && Calls(net, net', cap, w, a, data) && a != Err(EINTR)
    ensures 30 * Load(net') + WorkerRank(NextWorker(w, running, a, data)) < 30 * Load(net) + WorkerRank(w)
    ensures net'.backlog == net.backlog
  {
    hide Load, TableInv;
    ReadUses(net, net', w.fd, cap, a, data);
  }

  lemma WriteAdvances(net: Sockets, net': Sockets, running: bool, cap: nat, w: Worker, a: Answer, data: seq<Byte>)
    requires TableInv(net) && w.pc.Write? && Calls(net, net', cap, w, a, data) && a != Err(EINTR)
    ensures 30 * Load(net') + WorkerRank(NextWorker(w, running, a, data)) < 30 * Load(net) + WorkerRank(w)
    ensures net'.backlog == net.backlog
  {
    hide Load, TableInv;
    WriteUses(net, net', w.fd, w.data[w.written..], a);
  }

  lemma CloseAdvances(net: Sockets, running: bool, w: Worker, a: Answer, data: seq<Byte>)
    requires TableInv(net) && w.pc.Close? && w.fd in net.fds && net.fds[w.fd] in net.conns
    ensures 30 * Load(Net.Close(net, w.fd)) + WorkerRank(NextWorker(w, running, a, data))
            < 30 * Load(net) + WorkerRank(w)
    ensures Net.Close(net, w.fd).backlog == net.backlog
  {
    hide Load, TableInv;
    CloseUses(net, w.fd);
  }

  /** Between two calls a worker only counts and decides. */
  lemma CountingAdvances(net: Sockets, running: bool, cap: nat, w: Worker, a: Answer, data: seq<Byte>)
    requires WorkerOk(net, running, cap, w) && !w.pc.Read? && !w.pc.Write? && !w.pc.Close? && !w.pc.Exited?
    ensures WorkerRank(NextWorker(w, running, a, data)) < WorkerRank(w)
  {
    AnswerCases(w.answer);
  }

  lemma WorkerAdvances(s: State, s': State, i: nat, net': Sockets, a: Answer, data: seq<Byte>)
    requires Inv(s) && i < |s.workers| && WorkerStep(s, s', i, net', a, data)
    requires s.workers[i].pc.Read? || s.workers[i].pc.Write? ==> a != Err(EINTR)
    ensures Measure(s') < Measure(s)
  {
    hide Inv, Load, Calls, NextWorker, NextStats, WorkerRank, MainRank, Sum, WorkerOk, TableInv;
    InvParts(s);
    WorkerIsOk(s, i);
    CallAdvances(s.net, net', s.running, s.cap, s.workers[i], a, data);
    SumUpdate(s.workers, i, NextWorker(s.workers[i], s.running, a, data), WorkerRank);
  }

  lemma MainAdvances(s: State, s': State, net': Sockets, a: Answer, poll: Poll)
    requires TableInv(s.net) && MainStep(s, s', net', a, poll)
    requires s.main.Polling? ==> poll != PollFailed(true)
    requires s.main.Accept? ==> a.Ok? || a == Err(EAGAIN)
    ensures Measure(s') < Measure(s)
  {
    hide Load, Sum, MainStep, Measure, WorkerRank, MainRank, TableInv;
    if s.main.Accept? {
      AcceptAdvances(s, s', net', a, poll);
    } else if s.main.Spawn? {
      SpawnAdvances(s, s', net', a, poll);
    } else {
      PlainAdvances(s, s', net', a, poll);
    }
  }

  lemma AcceptAdvances(s: State, s': State, net': Sockets, a: Answer, poll: Poll)
    requires TableInv(s.net) && s.main.Accept? && MainStep(s, s', net', a, poll) && (a.Ok? || a == Err(EAGAIN))
    ensures Measure(s') < Measure(s)
  {
    hide Load, Sum, WorkerRank, TableInv;
    AcceptUses(s.net, net', a);
  }

  lemma SpawnAdvances(s: State, s': State, net': Sockets, a: Answer, poll: Poll)
    requires s.main.Spawn? && MainStep(s, s', net', a, poll)
    ensures Measure(s') < Measure(s)
  {
    hide Load, Sum;
    SumAppend(s.workers, s'.workers[|s.workers|], WorkerRank);
  }

  lemma PlainAdvances(s: State, s': State, net': Sockets, a: Answer, poll: Poll)
    requires MainStep(s, s', net', a, poll) && !s.main.Accept? && !s.main.Spawn?
    requires s.main.Polling? ==> poll != PollFailed(true)
    ensures Measure(s') < Measure(s)
  {
    hide Load, Sum, WorkerRank, MainRank, MainStep;
    RankFalls(s, s', net', a, poll);
  }

  /** Either another record of the signal descriptor has been read, or the main thread is further on. */
  ghost predicate Further(s: State, s': State) {
    && s'.net == s.net && s'.workers == s.workers
    && if s'.main == s.main then s'.signals < s.signals
       else
         && s'.signals <= s.signals
         && MainRank(s'.main, s.net.backlog != [], |s.workers|) < MainRank(s.main, s.net.backlog != [], |s.workers|)
  }

  lemma RankFalls(s: State, s': State, net': Sockets, a: Answer, poll: Poll)
    requires MainStep(s, s', net', a, poll) && !s.main.Accept? && !s.main.Spawn?
    requires s.main.Polling? ==> poll != PollFailed(true)
    ensures Further(s, s')
  {
    hide Further, MainStep, MainRank;
    if s.main.Polling? || s.main.CountWait? || s.main.CountWaitCall? {
      PollFalls(s, s', net', a, poll);
    } else {
      OtherFalls(s, s', net', a, poll);
    }
  }

  lemma PollFalls(s: State, s': State, net': Sockets, a: Answer, poll: Poll)
    requires MainStep(s, s', net', a, poll) && (s.main.Polling? || s.main.CountWait? || s.main.CountWaitCall?)
    requires s.main.Polling? ==> poll != PollFailed(true)
    ensures Further(s, s')
  {
    hide Accepts;
  }

  lemma OtherFalls(s: State, s': State, net': Sockets, a: Answer, poll: Poll)
    requires MainStep(s, s', net', a, poll) && !s.main.Accept? && !s.main.Spawn?
    requires !s.main.Polling? && !s.main.CountWait? && !s.main.CountWaitCall?
    ensures Further(s, s')
  {
    hide Accepts;
  }

  /** Every step that the kernel grants uses up some of the work. */
  lemma GrantedStepsAdvance(s: State, l: Label, s': State)
    requires Inv(s) && Step(s, s', l) && Granted(s, l)
    ensures Measure(s') < Measure(s)
  {
    hide Inv, Measure, WorkerStep, MainStep, Peers;
    InvParts(s);
    match l
    case OfWorker(i, net', a, data) => WorkerAdvances(s, s', i, net', a, data);
    case OfMain(net', a, poll) => MainAdvances(s, s', net', a, poll);
  }

  // ---------------------------------------------------------------- coming to rest

  /** While the outside world is quiet and no call is interrupted, all threads together make no more steps than
      the measure was, in whatever order they run. */
  lemma {:induction false} RestIsReached(cap: nat, t: Trace, n: nat)
    requires IsRun(cap, t) && n <= |t.labels| && Since(t, n, Granted)
    ensures Measure(t.states[n]) >= |t.labels| - n + Measure(Now(t))
    decreases |t.labels|
  {
    hide Inv, Step, Granted, Measure;
    if n < |t.labels| {
      BeforeIsRun(cap, t);
      SinceBefore(t, n, Granted);
      RestIsReached(cap, Before(t), n);
      RunInvariant(cap, Before(t));
      GrantedStepsAdvance(Now(Before(t)), t.labels[|t.labels| - 1], Now(t));
    }
  }

  lemma BeforeIsRun(cap: nat, t: Trace)
    requires IsRun(cap, t) && t.labels != []
    ensures IsRun(cap, Before(t))
    ensures Step(Now(Before(t)), Now(t), t.labels[|t.labels| - 1])
    ensures Now(Before(t)) == t.states[|t.labels| - 1]
  {
    hide Step;
    BeforeFollows(t, Initial(cap), Steps());
  }

  // ---------------------------------------------------------------- steps in which nothing fails

  /** The main thread goes round its loop. */
  predicate InLoop(main: MainPc) {
    match main
    case MainTest => true
    case Polling => true
    case CountWait(p) => if p.PollFailed? then p.interrupted else !p.signal
    case CountWaitCall(p) => if p.PollFailed? then p.interrupted else !p.signal
    case Accept => true
    case CountAccepted(_) => true
    case CountSpawned(_) => true
    case Spawn(_) => true
    case _ => false
  }

  /** It does, and no signal tells it to end. */
  ghost predicate Serving(s: State) {
    s.running && s.signals == 0 && InLoop(s.main)
  }

  /** Nobody has connected, sent, hung up or failed, and the loop has ended at most because of a signal. */
  ghost predicate Undisturbed(s: State, s': State) {
    && Calm(s.net, s'.net)
    && (s'.running ==> s.running)
    && (Serving(s) ==> Serving(s'))
  }

  lemma NothingDisturbs(s: State)
    ensures Undisturbed(s, s)
  {
  }

  lemma UndisturbedOn(s: State, s1: State, s2: State)
    requires Undisturbed(s, s1) && Undisturbed(s1, s2)
    ensures Undisturbed(s, s2)
  {
    hide Calm, Serving;
    CalmOn(s.net, s1.net, s2.net);
  }

  lemma KindStepsDisturbNobody(s: State, l: Label, s': State)
    requires Inv(s) && Step(s, s', l) && Kind(s, l)
    ensures Undisturbed(s, s')
  {
    hide Inv, WorkerStep, MainStep, Undisturbed, Peers, IsBroken;
    match l
    case OfWorker(i, net', a, data) =>
      WorkerFacts(s, i);
      WorkerDisturbsNobody(s, s', i, net', a, data);
    case OfMain(net', a, poll) => MainDisturbsNobody(s, s', net', a, poll);
  }

  lemma WorkerDisturbsNobody(s: State, s': State, i: nat, net': Sockets, a: Answer, data: seq<Byte>)
    requires i < |s.workers| && WorkerStep(s, s', i, net', a, data)
    requires WorkerOk(s.net, s.running, s.cap, s.workers[i])
    requires s.workers[i].pc.Read? ==> a.Ok? || (a == Err(EOTHER) && IsBroken(s, s.workers[i]))
    requires s.workers[i].pc.Write? ==> a.Ok?
    ensures Undisturbed(s, s')
  {
    hide Calm, NextWorker, NextStats, Reads, Writes, Net.Close;
    var w := s.workers[i];
    match w.pc
    case Read => ReadIsCalm(s.net, net', w.fd, s.cap, a, data);
    case Write => WriteIsCalm(s.net, net', w.fd, w.data[w.written..], a);
    case Close => CloseIsCalm(s.net, w.fd);
    case _ => NothingIsCalm(s.net);
  }

  lemma NothingIsCalm(net: Sockets)
    ensures Calm(net, net)
  {
  }

  lemma MainDisturbsNobody(s: State, s': State, net': Sockets, a: Answer, poll: Poll)
    requires MainStep(s, s', net', a, poll)
    requires (s.main.Polling? ==> poll.Ready?) && (s.main.Accept? ==> a.Ok? || a == Err(EAGAIN))
    ensures Undisturbed(s, s')
  {
    hide Calm, Accepts;
    NothingIsCalm(s.net);
    if s.main.Accept? {
      AcceptIsCalm(s.net, net', a);
    }
  }

  /** A schedule in which nothing fails leaves all streams as the peers have left them. */
  lemma {:induction false} KindRunsDisturbNobody(cap: nat, t: Trace, n: nat)
    requires IsRun(cap, t) && n <= |t.labels| && Since(t, n, Kind)
    ensures Undisturbed(t.states[n], Now(t))
    decreases |t.labels|
  {
    hide Inv, Step, Kind, Undisturbed;
    if n < |t.labels| {
      BeforeIsRun(cap, t);
      SinceBefore(t, n, Kind);
      KindRunsDisturbNobody(cap, Before(t), n);
      RunInvariant(cap, Before(t));
      KindStepsDisturbNobody(Now(Before(t)), t.labels[|t.labels| - 1], Now(t));
      UndisturbedOn(t.states[n], Now(Before(t)), Now(t));
    } else {
      NothingDisturbs(Now(t));
    }
  }

  /** It is no longer than the measure was. */
  lemma KindRunsEnd(cap: nat, t: Trace, n: nat)
    requires IsRun(cap, t) && n <= |t.labels| && Since(t, n, Kind)
    ensures |t.labels| - n <= Measure(t.states[n])
  {
    hide *;
    IsRunFacts(cap, t);
    forall s, l | Kind(s, l) ensures Granted(s, l) {
      KindIsGranted(s, l);
    }
    SinceWeaker(t, n, Granted, Kind);
    RestIsReached(cap, t, n);
  }

  /** And a settled state is reached, without a failure: from every state of every run the threads come to rest by
      themselves, with all streams as the peers have left them, and unless a signal tells them to end it is the wait
      for news that they come to rest in. */
  lemma {:induction false} ComesToRest(cap: nat, t: Trace) returns (t': Trace)
    requires IsRun(cap, t)
    ensures IsRun(cap, t') && Longer(t, t') && Settled(Now(t')) && Since(t', |t.labels|, Kind)
    ensures Undisturbed(Now(t), Now(t'))
    ensures Serving(Now(t)) ==> Quiet(Now(t'))
    decreases Measure(Now(t))
  {
    hide Inv, Step, Kind, Granted, Measure, Settled, Undisturbed, Serving, Quiet;
    t' := t;
    if !Settled(Now(t)) {
      RunInvariant(cap, t);
      var s', l := UnsettledCanMove(Now(t));
      OwnStepIs(Now(t), s', l);
      var t1 := Then(t, l, s');
      ThenIsRun(cap, t, l, s');
      KindIsGranted(Now(t), l);
      GrantedStepsAdvance(Now(t), l, s');
      t' := ComesToRest(cap, t1);
      SinceOn(t, t1, t', l, Kind);
      KindStepsDisturbNobody(Now(t), l, s');
      UndisturbedOn(Now(t), s', Now(t'));
    } else {
      NothingDisturbs(Now(t));
    }
    ServesOn(Now(t), Now(t'));
  }

  lemma ServesOn(s: State, s': State)
    requires Undisturbed(s, s') && Settled(s')
    ensures Serving(s) ==> Quiet(s')
  {
    hide Waiting;
  }
}
