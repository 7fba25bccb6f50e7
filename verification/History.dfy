/**
 Histories of a whole server: the kernel's sockets and what the server holds,
 from the boot of the server on.  Looking at one connection alone turns a
 history into a run of that connection.
 */
module History {
  import opened EchoSpec
  import opened Net

  datatype Moment = Moment(net: Sockets, held: Holdings)

  /** From no connections at all, every step moves every connection by at most one step of a server. */
  ghost predicate Behaves(h: seq<Moment>) {
    && |h| > 0 && h[0].net.conns == map[]
    && forall i | 0 < i < |h| :: Refines(h[i-1].net, h[i-1].held, h[i].net, h[i].held)
  }

  /** The states of connection `id`, from the moment it appears. */
  ghost function Projection(h: seq<Moment>, id: Id): seq<(Conn, seq<Byte>)> {
    if h == [] then []
    else
      var now := h[|h| - 1];
      Projection(h[..|h| - 1], id)
      + (if id in now.net.conns then [(now.net.conns[id], Held(now.held, id))] else [])
  }

  lemma BehavesSplits(h: seq<Moment>)
    requires Behaves(h) && |h| > 1
    ensures Behaves(h[..|h| - 1])
    ensures var m, now := h[|h| - 2], h[|h| - 1]; Refines(m.net, m.held, now.net, now.held)
    ensures h[..|h| - 1][|h| - 2] == h[|h| - 2]
  {
    hide Refines;
  }

  lemma {:induction false} NotThereYet(h: seq<Moment>, id: Id)
    requires Behaves(h) && id !in h[|h| - 1].net.conns
    ensures Projection(h, id) == []
  {
    if |h| > 1 {
      BehavesSplits(h);
      NotThereYet(h[..|h| - 1], id);
    } else {
      assert h[..0] == [];
    }
  }

  /** Projecting any history onto any of its connections gives a run of that connection with a server, which
      ends in the connection's present state. */
  lemma {:induction false} ProjectionIsServerRun(h: seq<Moment>, id: Id)
    requires Behaves(h) && id in h[|h| - 1].net.conns
    ensures ServerRun(Projection(h, id))
    ensures var run, now := Projection(h, id), h[|h| - 1];
            |run| > 0 && run[|run| - 1] == (now.net.conns[id], Held(now.held, id))
  {
    hide ServerStep;
    var now := h[|h| - 1];
    if |h| > 1 {
      BehavesSplits(h);
      var before := h[..|h| - 1];
      if id in before[|before| - 1].net.conns {
        ProjectionIsServerRun(before, id);
        hide Refines;
        OneMoreStep(Projection(before, id), (now.net.conns[id], Held(now.held, id)));
      } else {
        NotThereYet(before, id);
      }
    }
  }

  lemma OneMoreStep(run: seq<(Conn, seq<Byte>)>, next: (Conn, seq<Byte>))
    requires ServerRun(run) && ServerStep(run[|run| - 1].0, run[|run| - 1].1, next.0, next.1)
    ensures ServerRun(run + [next])
  {
    hide ServerStep;
  }

  /** The projection is a run of the echo service of RFC 862 if and only if the server has not dropped the
      connection. */
  lemma ProjectionIsEchoRun(h: seq<Moment>, id: Id)
    requires Behaves(h) && id in h[|h| - 1].net.conns
    ensures EchoRun(Projection(h, id)) <==> !h[|h| - 1].net.conns[id].dropped
  {
    hide *;
    ProjectionIsServerRun(h, id);
    EchoRunExactlyIfNotDropped(Projection(h, id));
  }
}
