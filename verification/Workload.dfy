/**
 What is left to do behind the descriptors.  Every unread byte, every close and
 every accept that is still to come counts one; the calls that the kernel
 grants use it up, and only peers add to it.  The progress modules bound the
 steps of their servers by it.
 */
module Workload {
  import opened EchoSpec
  import opened Net

  /** What a connection has still to go through: its unread bytes, its close, and its accept. */
  function Weight(c: Conn): nat {
    if c.at.Closed? then 0
    else (if |c.given| <= |c.sent| then |c.sent| - |c.given| else 0) + (if c.at.Queued? then 2 else 1)
  }

  /** The bytes read from a connection and not yet written back. */
  function Unsent(c: Conn): nat {
    if c.at.Closed? || |c.given| < |c.out| then 0 else |c.given| - |c.out|
  }

  ghost function Load(net: Sockets): nat {
    Total(net.conns, Weight)
  }

  ghost function Owing(net: Sockets): nat {
    Total(net.conns, Unsent)
  }

  lemma ReadUses(net: Sockets, net': Sockets, fd: Fd, cap: nat, a: Answer, data: seq<Byte>)
    requires TableInv(net) && fd in net.fds && net.fds[fd] in net.conns && Reads(net, net', fd, cap, a, data)
    ensures Load(net') == Load(net) - |data|
    ensures |net.conns[net.fds[fd]].out| <= |net.conns[net.fds[fd]].given| ==> Owing(net') == Owing(net) + |data|
    ensures net'.backlog == net.backlog && net'.fds == net.fds
    ensures (a.Ok? ==> a.n == |data|) && (!a.Ok? ==> data == [])
  {
    var id := net.fds[fd];
    var c' := net'.conns[id];
    ReadShape(net, net', fd, cap, a, data);
    assert c'.given == net.conns[id].given + data;
    TotalUpdate(net.conns, Weight, id, c');
    TotalUpdate(net.conns, Unsent, id, c');
  }

  lemma WriteUses(net: Sockets, net': Sockets, fd: Fd, data: seq<Byte>, a: Answer)
    requires TableInv(net) && fd in net.fds && net.fds[fd] in net.conns && Writes(net, net', fd, data, a)
    ensures Load(net') == Load(net)
    ensures |net'.conns[net.fds[fd]].out| <= |net.conns[net.fds[fd]].given| ==> Owing(net') == Owing(net) - Written(a)
    ensures net'.backlog == net.backlog && net'.fds == net.fds
    ensures Written(a) <= |data| && (a.Ok? ==> a.n >= 1)
  {
    var id := net.fds[fd];
    var c' := net'.conns[id];
    WriteShape(net, net', fd, data, a);
    TotalUpdate(net.conns, Weight, id, c');
    TotalUpdate(net.conns, Unsent, id, c');
  }

  lemma AcceptUses(net: Sockets, net': Sockets, a: Answer)
    requires TableInv(net) && Accepts(net, net', a)
    ensures Load(net') == Load(net) - (if a.Ok? then 1 else 0) && Owing(net') == Owing(net)
  {
    if a.Ok? {
      var id := net.backlog[0];
      assert id in net.backlog;
      TotalUpdate(net.conns, Weight, id, net.conns[id].(at := Open(a.n)));
      TotalUpdate(net.conns, Unsent, id, net.conns[id].(at := Open(a.n)));
    }
  }

  /** A close takes a whole connection away. */
  lemma CloseUses(net: Sockets, fd: Fd)
    requires TableInv(net) && fd in net.fds && net.fds[fd] in net.conns
    ensures Load(Close(net, fd)) < Load(net) && Owing(Close(net, fd)) <= Owing(net)
    ensures Close(net, fd).backlog == net.backlog
  {
    var id := net.fds[fd];
    var c := net.conns[id];
    TotalUpdate(net.conns, Weight, id, c.(at := Closed, dropped := !Finished(c)));
    TotalUpdate(net.conns, Unsent, id, c.(at := Closed, dropped := !Finished(c)));
  }

  // ---------------------------------------------------------------- a quiet outside world

  /** Nobody has connected, sent, hung up or failed. */
  ghost predicate Calm(net: Sockets, net': Sockets) {
    && net'.conns.Keys == net.conns.Keys
    && forall id | id in net.conns ::
         && net'.conns[id].sent == net.conns[id].sent
         && net'.conns[id].fin == net.conns[id].fin
         && net'.conns[id].broken == net.conns[id].broken
  }

  lemma CalmOn(net: Sockets, net1: Sockets, net2: Sockets)
    requires Calm(net, net1) && Calm(net1, net2)
    ensures Calm(net, net2)
  {
  }

  /** A read fails only where the connection has failed before. */
  lemma ReadIsCalm(net: Sockets, net': Sockets, fd: Fd, cap: nat, a: Answer, data: seq<Byte>)
    requires fd in net.fds && net.fds[fd] in net.conns && Reads(net, net', fd, cap, a, data)
    requires a == Err(EOTHER) ==> net.conns[net.fds[fd]].broken
    ensures Calm(net, net')
  {
  }

  lemma WriteIsCalm(net: Sockets, net': Sockets, fd: Fd, data: seq<Byte>, a: Answer)
    requires fd in net.fds && net.fds[fd] in net.conns && Writes(net, net', fd, data, a) && a != Err(EOTHER)
    ensures Calm(net, net')
  {
  }

  lemma AcceptIsCalm(net: Sockets, net': Sockets, a: Answer)
    requires Accepts(net, net', a)
    ensures Calm(net, net')
  {
  }

  lemma CloseIsCalm(net: Sockets, fd: Fd)
    requires fd in net.fds && net.fds[fd] in net.conns
    ensures Calm(net, Close(net, fd))
  {
  }
}
