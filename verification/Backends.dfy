/**
 The four back-ends against each other.  Each is a machine of its own, with
 its own scheduling, chunking and short writes; all are measured by the bytes
 their peers have sent and received.
 */
module Backends {
  import opened EchoSpec
  import opened Net
  import opened Runs
  import opened Workload
  import opened History
  import EM = EpollModel
  import E = EpollMachine
  import ER = EpollRuns
  import EP = EpollProgress
  import UM = UringModel
  import U = UringMachine
  import US = UringSteps
  import UR = UringRuns
  import UP = UringRest
  import T = Threads
  import TR = ThreadRuns
  import TP = ThreadProgress

  /** The connection has delivered `sent` and has not failed.  That the server has not dropped it is not assumed. */
  ghost predicate Healthy(net: Sockets, id: Id, sent: seq<Byte>) {
    id in net.conns && net.conns[id].sent == sent && !net.conns[id].broken
  }

  /** The event loop would block in epoll_wait; no registration has been refused. */
  ghost predicate EpollSettled(cfg: E.Config, t: E.Trace) {
    && E.Source(cfg) && cfg.bufferSize > 0 && E.IsRun(cfg, t)
    && E.Now(t).pc.Waiting? && EM.WouldBlock(E.Now(t).p) && E.Now(t).refusals == 0
  }

  /** The ring loop would block in io_uring_submit_and_wait; no flush has been refused. */
  ghost predicate UringSettled(n: nat, t: U.Trace) {
    n > 0 && U.IsRun(n, t) && US.Quiet(U.Now(t).r, U.Now(t).w) && U.Now(t).w.tally.refused == 0
  }

  /** All threads would block. */
  ghost predicate ThreadsSettled(cap: nat, t: TR.Trace) {
    cap > 0 && TR.IsRun(cap, t) && T.Quiet(TR.Now(t))
  }

  lemma NotDropped(conns: map<Id, Conn>, id: Id)
    requires Dropped(conns) == {} && id in conns
    ensures !conns[id].dropped
  {
    assert id !in Dropped(conns);
  }

  lemma EpollOut(cfg: E.Config, t: E.Trace, id: Id, sent: seq<Byte>)
    requires EpollSettled(cfg, t) && Healthy(E.Now(t).p.net, id, sent)
    ensures E.Now(t).p.net.conns[id].out == sent
  {
    hide E.IsRun, EM.WouldBlock, E.MachineInv, Dropped;
    E.RunKeepsMachine(cfg, t);
    ER.QuietStateIsEchoed(cfg, E.Now(t));
    ER.DropsAreRefusals(cfg, t);
    NotDropped(E.Now(t).p.net.conns, id);
  }

  lemma UringOut(n: nat, t: U.Trace, id: Id, sent: seq<Byte>)
    requires UringSettled(n, t) && Healthy(U.Now(t).r.net, id, sent)
    ensures U.Now(t).r.net.conns[id].out == sent
  {
    hide U.IsRun, US.Quiet, Dropped, UR.Cost, U.MachineInv, NetInv;
    UR.QuietRunIsEchoed(n, t, id);
    UR.DropsAreRefusals(n, t);
    NotDropped(U.Now(t).r.net.conns, id);
    U.RunKeepsMachine(n, t);
    UringTable(n, U.Now(t));
    QueuedAreInBacklog(U.Now(t).r.net, id);
  }

  lemma UringTable(n: nat, x: U.State)
    requires U.MachineInv(n, x)
    ensures TableInv(x.r.net)
  {
    hide *;
    U.MachineParts(n, x);
    UM.InvParts(x.r, x.w);
  }

  lemma QueuedAreInBacklog(net: Sockets, id: Id)
    requires TableInv(net) && id in net.conns && net.backlog == []
    ensures !net.conns[id].at.Queued?
  {
  }

  lemma ThreadsOut(cap: nat, t: TR.Trace, id: Id, sent: seq<Byte>)
    requires ThreadsSettled(cap, t) && Healthy(TR.Now(t).net, id, sent)
    ensures TR.Now(t).net.conns[id].out == sent
  {
    hide TR.IsRun, T.Inv, Dropped;
    TR.RunInvariant(cap, t);
    TR.DropsAreTheShutdown(cap, t);
    NotDropped(TR.Now(t).net.conns, id);
    T.QuietMeansEchoed(TR.Now(t), id);
  }

  // ---------------------------------------------------------------- the quiescence is reached

  /** What the peers of `net` that have not failed had sent has come back to them by `net'`. */
  ghost predicate Echoed(net: Sockets, net': Sockets) {
    forall id | id in net.conns && !net.conns[id].broken ::
      id in net'.conns && !net'.conns[id].broken && net'.conns[id].out == net'.conns[id].sent == net.conns[id].sent
  }

  /** A connection that had not failed when the outside world came to rest has not failed since. */
  lemma StillHealthy(net: Sockets, net': Sockets, id: Id)
    requires Calm(net, net') && id in net.conns && !net.conns[id].broken
    ensures Healthy(net', id, net.conns[id].sent)
  {
  }

  lemma EpollAllOut(cfg: E.Config, t: E.Trace, was: Sockets)
    requires EpollSettled(cfg, t) && Calm(was, E.Now(t).p.net)
    ensures Echoed(was, E.Now(t).p.net)
  {
    hide EpollSettled, Calm, Healthy;
    var net := E.Now(t).p.net;
    forall id | id in was.conns && !was.conns[id].broken
      ensures id in net.conns && !net.conns[id].broken && net.conns[id].out == net.conns[id].sent == was.conns[id].sent
    {
      StillHealthy(was, net, id);
      HealthyFacts(net, id, was.conns[id].sent);
      EpollOut(cfg, t, id, was.conns[id].sent);
    }
  }

  lemma UringAllOut(n: nat, t: U.Trace, was: Sockets)
    requires UringSettled(n, t) && Calm(was, U.Now(t).r.net)
    ensures Echoed(was, U.Now(t).r.net)
  {
    hide UringSettled, Calm, Healthy;
    var net := U.Now(t).r.net;
    forall id | id in was.conns && !was.conns[id].broken
      ensures id in net.conns && !net.conns[id].broken && net.conns[id].out == net.conns[id].sent == was.conns[id].sent
    {
      StillHealthy(was, net, id);
      HealthyFacts(net, id, was.conns[id].sent);
      UringOut(n, t, id, was.conns[id].sent);
    }
  }

  lemma ThreadsAllOut(cap: nat, t: TR.Trace, was: Sockets)
    requires ThreadsSettled(cap, t) && Calm(was, TR.Now(t).net)
    ensures Echoed(was, TR.Now(t).net)
  {
    hide ThreadsSettled, Calm, Healthy;
    var net := TR.Now(t).net;
    forall id | id in was.conns && !was.conns[id].broken
      ensures id in net.conns && !net.conns[id].broken && net.conns[id].out == net.conns[id].sent == was.conns[id].sent
    {
      StillHealthy(was, net, id);
      HealthyFacts(net, id, was.conns[id].sent);
      ThreadsOut(cap, t, id, was.conns[id].sent);
    }
  }

  /** Any schedule of the event loop in which nothing fails, from the `n`-th state of any run on: it is no longer than
      the budget was; it cannot go on exactly if the loop has settled; and then every connection that had not failed
      has got back all that its peer had sent. */
  lemma EpollSettles(cfg: E.Config, t: E.Trace, n: nat)
    requires E.Source(cfg) && cfg.bufferSize > 0 && cfg.maxEvents > 0 && E.IsRun(cfg, t)
    requires n <= |t.labels| && Since(t, n, ER.Kind) && EP.Serving(t.states[n]) && t.states[n].refusals == 0
    ensures |t.labels| - n <= EP.Budget(cfg, t.states[n])
    ensures EpollSettled(cfg, t) <==> forall l | E.Enabled(cfg, E.Now(t), l) :: !ER.Kind(E.Now(t), l)
    ensures EpollSettled(cfg, t) ==> Echoed(t.states[n].p.net, E.Now(t).p.net)
  {
    hide E.IsRun, E.MachineInv, E.Enabled, ER.Kind, EM.WouldBlock, EP.Budget, Calm, Echoed;
    EP.TraceShape(cfg, t);
    EP.KindRunsEnd(cfg, t, n);
    EP.KindRunsDisturbNobody(cfg, t, n);
    E.RunKeepsMachine(cfg, t);
    ER.SettledExactly(cfg, E.Now(t));
    if EpollSettled(cfg, t) {
      EpollAllOut(cfg, t, t.states[n].p.net);
    }
  }

  /** And there is such a schedule: whatever has happened before, when the outside world comes to rest the event loop
      settles, with everything echoed. */
  lemma EpollEchoes(cfg: E.Config, t: E.Trace) returns (t': E.Trace)
    requires E.Source(cfg) && cfg.bufferSize > 0 && cfg.maxEvents > 0 && E.IsRun(cfg, t)
    requires EP.Serving(E.Now(t)) && E.Now(t).refusals == 0
    ensures EpollSettled(cfg, t') && Longer(t, t') && Since(t', |t.labels|, ER.Kind)
    ensures Echoed(E.Now(t).p.net, E.Now(t').p.net)
  {
    hide E.IsRun, E.MachineInv, ER.Kind, EM.WouldBlock, EP.Serving, EP.Undisturbed, Calm, Echoed;
    t' := EP.ComesToRest(cfg, t);
    EP.RefusesNone(E.Now(t), E.Now(t'));
    EpollAllOut(cfg, t', E.Now(t).p.net);
  }

  /** The same for the ring and the kernel that completes its operations.  `c` is an object that is not in use. */
  lemma UringSettles(n: nat, t: U.Trace, k: nat, c: UM.Conn)
    requires n > 0 && U.IsRun(n, t) && c !in U.Now(t).w.mem
    requires k <= |t.labels| && Since(t, k, UR.Kind) && UP.Serving(t.states[k]) && t.states[k].w.tally.refused == 0
    ensures |t.labels| - k <= UP.Measure(t.states[k])
    ensures U.Now(t).pc.Waiting? && UringSettled(n, t) <==>
              forall l | U.Enabled(n, U.Now(t), l) :: !UR.Kind(U.Now(t), l)
    ensures UringSettled(n, t) ==> Echoed(t.states[k].r.net, U.Now(t).r.net)
  {
    hide U.IsRun, U.MachineInv, U.Enabled, UR.Kind, US.Quiet, UP.Measure, Calm, Echoed;
    UP.TraceShape(n, t);
    UP.KindRunsEnd(n, t, k);
    UP.KindRunsDisturbNobody(n, t, k);
    U.RunKeepsMachine(n, t);
    UR.SettledExactly(n, U.Now(t), c);
    if UringSettled(n, t) {
      UringAllOut(n, t, t.states[k].r.net);
    }
  }

  /** `spare` are objects for the connections still to be adopted. */
  lemma UringEchoes(n: nat, t: U.Trace, spare: seq<UM.Conn>) returns (t': U.Trace)
    requires n > 0 && U.IsRun(n, t) && UP.Serving(U.Now(t)) && U.Now(t).w.tally.refused == 0
    requires Distinct(spare) && |spare| > UP.Measure(U.Now(t)) && forall c | c in spare :: c !in U.Now(t).w.mem
    ensures UringSettled(n, t') && U.Now(t').pc.Waiting? && Longer(t, t') && Since(t', |t.labels|, UR.Kind)
    ensures Echoed(U.Now(t).r.net, U.Now(t').r.net)
  {
    hide U.IsRun, U.MachineInv, UR.Kind, US.Quiet, UP.Measure, UP.Serving, UP.Undisturbed, Calm, Echoed;
    t' := UP.ComesToRest(n, t, spare);
    UP.RefusesNone(U.Now(t), U.Now(t'));
    UringAllOut(n, t', U.Now(t).r.net);
  }

  /** The same for any interleaving of the threads. */
  lemma ThreadsSettle(cap: nat, t: TR.Trace, n: nat)
    requires cap > 0 && TR.IsRun(cap, t)
    requires n <= |t.labels| && Since(t, n, TR.Kind) && TP.Serving(t.states[n])
    ensures |t.labels| - n <= TP.Measure(t.states[n])
    ensures ThreadsSettled(cap, t) <==> forall s', l | T.Step(TR.Now(t), s', l) :: !TR.Kind(TR.Now(t), l)
    ensures ThreadsSettled(cap, t) ==> Echoed(t.states[n].net, TR.Now(t).net)
  {
    hide TR.IsRun, T.Inv, T.Step, TR.Kind, T.Waiting, TP.Measure, Calm, Echoed;
    TR.IsRunFacts(cap, t);
    TP.KindRunsEnd(cap, t, n);
    TP.KindRunsDisturbNobody(cap, t, n);
    TR.RunInvariant(cap, t);
    TR.SettledExactly(TR.Now(t));
    if ThreadsSettled(cap, t) {
      ThreadsAllOut(cap, t, t.states[n].net);
    }
  }

  lemma ThreadsEcho(cap: nat, t: TR.Trace) returns (t': TR.Trace)
    requires cap > 0 && TR.IsRun(cap, t) && TP.Serving(TR.Now(t))
    ensures ThreadsSettled(cap, t') && Longer(t, t') && Since(t', |t.labels|, TR.Kind)
    ensures Echoed(TR.Now(t).net, TR.Now(t').net)
  {
    hide TR.IsRun, T.Inv, TR.Kind, T.Quiet, TP.Serving, Calm, Echoed;
    t' := TP.ComesToRest(cap, t);
    ThreadsAllOut(cap, t', TR.Now(t).net);
  }

  /** All that is asked of the states these schedules begin in holds at the boot, before anybody has connected. */
  lemma ServingFromTheBoot(cfg: E.Config, n: nat, cap: nat)
    ensures E.IsRun(cfg, E.Begun) && EP.Serving(E.Now(E.Begun)) && E.Now(E.Begun).refusals == 0
    ensures U.IsRun(n, U.Begun) && UP.Serving(U.Now(U.Begun)) && U.Now(U.Begun).w.tally.refused == 0
    ensures U.Now(U.Begun).w.mem == map[]
    ensures TR.IsRun(cap, TR.Begun(cap)) && TP.Serving(TR.Now(TR.Begun(cap)))
  {
    E.BegunIsRun(cfg);
    U.BegunIsRun(n);
    TR.BegunIsRun(cap);
  }

  // ---------------------------------------------------------------- the four agree

  /** Level-triggered, edge-triggered, ring and threads: give the same bytes to a connection of each, in any run of
      each, and once all four have settled their peers have received the same bytes, namely those they sent. */
  lemma BackendsAgree(lcfg: E.Config, level: E.Trace, a: Id, ecfg: E.Config, edge: E.Trace, b: Id,
                      n: nat, ring: U.Trace, c: Id, cap: nat, threads: TR.Trace, d: Id, sent: seq<Byte>)
    requires lcfg.mode.Level? && EpollSettled(lcfg, level) && Healthy(E.Now(level).p.net, a, sent)
    requires ecfg.mode.Edge? && EpollSettled(ecfg, edge) && Healthy(E.Now(edge).p.net, b, sent)
    requires UringSettled(n, ring) && Healthy(U.Now(ring).r.net, c, sent)
    requires ThreadsSettled(cap, threads) && Healthy(TR.Now(threads).net, d, sent)
    ensures a in E.Now(level).p.net.conns && b in E.Now(edge).p.net.conns
    ensures c in U.Now(ring).r.net.conns && d in TR.Now(threads).net.conns
    ensures E.Now(level).p.net.conns[a].out == E.Now(edge).p.net.conns[b].out
            == U.Now(ring).r.net.conns[c].out == TR.Now(threads).net.conns[d].out == sent
  {
    hide *;
    HealthyFacts(E.Now(level).p.net, a, sent);
    HealthyFacts(E.Now(edge).p.net, b, sent);
    HealthyFacts(U.Now(ring).r.net, c, sent);
    HealthyFacts(TR.Now(threads).net, d, sent);
    EpollOut(lcfg, level, a, sent);
    EpollOut(ecfg, edge, b, sent);
    UringOut(n, ring, c, sent);
    ThreadsOut(cap, threads, d, sent);
  }

  lemma HealthyFacts(net: Sockets, id: Id, sent: seq<Byte>)
    requires Healthy(net, id, sent)
    ensures id in net.conns && !net.conns[id].broken && net.conns[id].sent == sent
  {
  }

  /** At every moment of a run of any back-end, settled or not, dropped or not, with errors or without, no peer has
      received anything but a prefix of what it sent. */
  lemma OutIsAlwaysAPrefix(h: seq<Moment>, id: Id)
    requires Behaves(h) && id in h[|h| - 1].net.conns
    ensures var c := h[|h| - 1].net.conns[id]; c.out <= c.given <= c.sent
  {
    hide Behaves;
    ProjectionIsServerRun(h, id);
    var run := Projection(h, id);
    ServerRunIsSound(run, |run| - 1);
  }
}
