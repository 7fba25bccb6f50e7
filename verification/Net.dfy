/**
 The kernel's side of TCP as the servers see it: a listen backlog, a descriptor
 table that recycles numbers, and one ordered byte stream per connection
 (section 2.2 of RFC 9293).  Each system call is a relation between the state
 before and after, so the assumptions about the kernel are exactly these
 predicates:
   - a read hands over between 1 and `cap` of the oldest unread bytes; it
     answers 0 only at the end of the stream or for an empty buffer;
   - a write of a non-empty range takes between 1 and all of its bytes, or fails;
   - accept returns a descriptor number that is not in use.
 */
module Net {
  import opened EchoSpec

  const LISTENER: Fd := 3
  const SIGNALS: Fd := 4

  datatype Errno = EAGAIN | EINTR | EOTHER

  /** A system call's result: a count or descriptor, or -1 with an errno. */
  datatype Answer = Ok(n: nat) | Err(errno: Errno)

  datatype Sockets = Sockets(conns: map<Id, Conn>, backlog: seq<Id>, fds: map<Fd, Id>)

  const NoSockets := Sockets(map[], [], map[])

  /** The bytes a server holds for each connection: read from it and not yet written back. */
  type Holdings = map<Id, seq<Byte>>

  function Held(held: Holdings, id: Id): seq<Byte> {
    if id in held then held[id] else []
  }

  predicate FreshConn(c: Conn) {
    c.given == [] && c.out == [] && !c.dropped && c.at.Queued?
  }

  ghost predicate Distinct<T>(s: seq<T>) {
    forall i, j | 0 <= i < j < |s| :: s[i] != s[j]
  }

  /** The descriptor table, the backlog and the connections agree. */
  ghost predicate TableInv(net: Sockets) {
    && (forall fd | fd in net.fds :: net.fds[fd] in net.conns && net.conns[net.fds[fd]].at == Open(fd))
    && (forall id | id in net.conns && net.conns[id].at.Open? ::
          net.conns[id].at.fd in net.fds && net.fds[net.conns[id].at.fd] == id)
    && (forall id | id in net.backlog :: id in net.conns && net.conns[id].at.Queued?)
    && (forall id | id in net.conns && net.conns[id].at.Queued? :: id in net.backlog)
    && Distinct(net.backlog)
    && LISTENER !in net.fds && SIGNALS !in net.fds
  }

  ghost predicate SoundInv(net: Sockets, held: Holdings) {
    forall id | id in net.conns :: Sound(net.conns[id], Held(held, id))
  }

  ghost predicate NetInv(net: Sockets, held: Holdings) {
    TableInv(net) && SoundInv(net, held)
  }

  /** Every connection makes one step of a server (possibly none), and new ones start empty. */
  ghost predicate Refines(net: Sockets, held: Holdings, net': Sockets, held': Holdings) {
    && (forall id | id in net.conns ::
          id in net'.conns && ServerStep(net.conns[id], Held(held, id), net'.conns[id], Held(held', id)))
    && (forall id | id in net'.conns && id !in net.conns ::
          FreshConn(net'.conns[id]) && Held(held', id) == [])
  }

  lemma RefinementKeepsSound(net: Sockets, held: Holdings, net': Sockets, held': Holdings)
    requires SoundInv(net, held) && Refines(net, held, net', held')
    ensures SoundInv(net', held')
  {
    forall id | id in net'.conns ensures Sound(net'.conns[id], Held(held', id)) {
      if id in net.conns {
        ServerStepKeepsSound(net.conns[id], Held(held, id), net'.conns[id], Held(held', id));
      }
    }
  }

  /** What is held for each connection counts, not how it is recorded. */
  ghost predicate SameHeld(held: Holdings, held': Holdings) {
    forall id :: Held(held, id) == Held(held', id)
  }

  lemma SameHeldRefines(net: Sockets, held: Holdings, net': Sockets, held': Holdings, held2: Holdings)
    requires Refines(net, held, net', held') && SameHeld(held', held2)
    ensures Refines(net, held, net', held2)
  {
    hide ServerStep;
  }

  /** Replacing one connection, at its place, by the result of one of its own steps. */
  lemma UpdateKeeps(net: Sockets, id: Id, c': Conn, held: Holdings, rest': seq<Byte>)
    requires NetInv(net, held) && id in net.conns
    requires c'.at == net.conns[id].at
    requires ServerStep(net.conns[id], Held(held, id), c', rest')
    ensures var net' := net.(conns := net.conns[id := c']);
            && NetInv(net', held[id := rest'])
            && Refines(net, held, net', held[id := rest'])
            && net'.conns.Keys == net.conns.Keys
  {
    var net', held' := net.(conns := net.conns[id := c']), held[id := rest'];
    UpdateRefines(net, id, c', held, rest');
    UpdateKeepsTable(net, id, c');
    RefinementKeepsSound(net, held, net', held');
  }

  lemma UpdateRefines(net: Sockets, id: Id, c': Conn, held: Holdings, rest': seq<Byte>)
    requires id in net.conns
    requires ServerStep(net.conns[id], Held(held, id), c', rest')
    ensures Refines(net, held, net.(conns := net.conns[id := c']), held[id := rest'])
  {
    var conns', held' := net.conns[id := c'], held[id := rest'];
    forall x | x in net.conns
      ensures ServerStep(net.conns[x], Held(held, x), conns'[x], Held(held', x))
    {
      if x == id {
        assert conns'[x] == c' && Held(held', x) == rest';
      } else {
        assert conns'[x] == net.conns[x] && Held(held', x) == Held(held, x);
        StutterIsEchoStep(net.conns[x], Held(held, x));
      }
    }
  }

  lemma StutterIsEchoStep(c: Conn, rest: seq<Byte>)
    ensures EchoStep(c, rest, c, rest)
  {
    assert PeerStep(c, c);
  }

  lemma NothingMoves(net: Sockets, held: Holdings, held': Holdings)
    requires SameHeld(held, held')
    ensures Refines(net, held, net, held')
  {
    forall id | id in net.conns ensures ServerStep(net.conns[id], Held(held, id), net.conns[id], Held(held', id)) {
      StutterIsEchoStep(net.conns[id], Held(held, id));
    }
  }

  lemma UpdateKeepsTable(net: Sockets, id: Id, c': Conn)
    requires TableInv(net) && id in net.conns
    requires c'.at == net.conns[id].at
    ensures TableInv(net.(conns := net.conns[id := c']))
  {
  }

  /** Answers that change nothing. */
  lemma StutterKeeps(net: Sockets, id: Id, held: Holdings)
    requires NetInv(net, held) && id in net.conns
    ensures NetInv(net, held[id := Held(held, id)])
    ensures Refines(net, held, net, held[id := Held(held, id)])
  {
    hide *;
    StutterIsEchoStep(net.conns[id], Held(held, id));
    UpdateKeeps(net, id, net.conns[id], held, Held(held, id));
    assert net.(conns := net.conns[id := net.conns[id]]) == net;
  }

  // ---------------------------------------------------------------- totals

  /** The sum of `f` over all connections, open or closed. */
  ghost function Total(conns: map<Id, Conn>, f: Conn -> nat): nat {
    if conns == map[] then 0
    else
      var id :| id in conns;
      f(conns[id]) + Total(conns - {id}, f)
  }

  lemma {:induction false} TotalPick(conns: map<Id, Conn>, f: Conn -> nat, id: Id)
    requires id in conns
    ensures Total(conns, f) == f(conns[id]) + Total(conns - {id}, f)
    decreases |conns|
  {
    var x :| x in conns && Total(conns, f) == f(conns[x]) + Total(conns - {x}, f);
    if x != id {
      TotalPick(conns - {x}, f, id);
      TotalPick(conns - {id}, f, x);
      assert conns - {x} - {id} == conns - {id} - {x};
    }
  }

  lemma TotalUpdate(conns: map<Id, Conn>, f: Conn -> nat, id: Id, c: Conn)
    requires id in conns
    ensures Total(conns[id := c], f) == Total(conns, f) - f(conns[id]) + f(c)
  {
    TotalPick(conns, f, id);
    TotalPick(conns[id := c], f, id);
    assert conns[id := c] - {id} == conns - {id};
  }

  lemma {:induction false} TotalFrame(conns: map<Id, Conn>, conns': map<Id, Conn>, f: Conn -> nat)
    requires conns.Keys <= conns'.Keys
    requires forall id | id in conns :: f(conns'[id]) == f(conns[id])
    requires forall id | id in conns' && id !in conns :: f(conns'[id]) == 0
    ensures Total(conns', f) == Total(conns, f)
    decreases |conns'|
  {
    if conns' != map[] {
      var id :| id in conns';
      TotalPick(conns', f, id);
      if id in conns {
        TotalPick(conns, f, id);
      } else {
        assert conns - {id} == conns;
      }
      TotalFrame(conns - {id}, conns' - {id}, f);
    } else {
      assert conns == map[];
    }
  }

  function GivenTo(c: Conn): nat {
    |c.given|
  }

  /** All the bytes the server has ever read. */
  ghost function TotalGiven(conns: map<Id, Conn>): nat {
    Total(conns, GivenTo)
  }

  lemma TotalGivenUpdate(conns: map<Id, Conn>, id: Id, c: Conn)
    requires id in conns
    ensures TotalGiven(conns[id := c]) == TotalGiven(conns) - |conns[id].given| + |c.given|
  {
    TotalUpdate(conns, GivenTo, id, c);
  }

  lemma TotalGivenFrame(conns: map<Id, Conn>, conns': map<Id, Conn>)
    requires conns.Keys <= conns'.Keys
    requires forall id | id in conns :: conns'[id].given == conns[id].given
    requires forall id | id in conns' && id !in conns :: conns'[id].given == []
    ensures TotalGiven(conns') == TotalGiven(conns)
  {
    TotalFrame(conns, conns', GivenTo);
  }

  // ---------------------------------------------------------------- peers

  /** Any number of moves of the peers and the network. */
  predicate Peers(net: Sockets, net': Sockets) {
    && net'.fds == net.fds
    && net.backlog <= net'.backlog
    && net.conns.Keys <= net'.conns.Keys
    && (forall id | id in net.conns :: PeerStep(net.conns[id], net'.conns[id]))
    && (forall i | |net.backlog| <= i < |net'.backlog| ::
          && net'.backlog[i] !in net.conns && net'.backlog[i] in net'.conns
          && forall j | 0 <= j < i :: net'.backlog[j] != net'.backlog[i])
    && (forall id | id in net'.conns && id !in net.conns ::
          FreshConn(net'.conns[id]) && id in net'.backlog)
  }

  lemma PeersKeepTable(net: Sockets, net': Sockets)
    requires TableInv(net) && Peers(net, net')
    ensures TableInv(net')
  {
    forall id | id in net'.backlog ensures id in net'.conns && net'.conns[id].at.Queued? {
      var i :| 0 <= i < |net'.backlog| && net'.backlog[i] == id;
      if i < |net.backlog| {
        assert net.backlog[i] == id && id in net.backlog;
      }
    }
    forall id | id in net'.conns && net'.conns[id].at.Queued? ensures id in net'.backlog {
      if id in net.conns {
        var i :| 0 <= i < |net.backlog| && net.backlog[i] == id;
        assert net'.backlog[i] == id;
      }
    }
  }

  lemma PeersKeep(net: Sockets, net': Sockets, held: Holdings)
    requires NetInv(net, held) && Peers(net, net')
    requires forall id | id in held :: id in net.conns
    ensures NetInv(net', held) && Refines(net, held, net', held)
  {
    PeersKeepTable(net, net');
    hide TableInv;
    RefinementKeepsSound(net, held, net', held);
  }

  // ---------------------------------------------------------------- accept

  predicate Accepts(net: Sockets, net': Sockets, a: Answer) {
    match a
    case Ok(fd) =>
      && |net.backlog| > 0 && net.backlog[0] in net.conns
      && fd !in net.fds && fd != LISTENER && fd != SIGNALS
      && var id := net.backlog[0];
         net' == Sockets(net.conns[id := net.conns[id].(at := Open(fd))], net.backlog[1..], net.fds[fd := id])
    case Err(e) => net' == net && (e == EAGAIN ==> net.backlog == [])
  }

  lemma AcceptKeeps(net: Sockets, net': Sockets, a: Answer, held: Holdings)
    requires NetInv(net, held) && Accepts(net, net', a)
    ensures NetInv(net', held) && Refines(net, held, net', held)
    ensures net'.conns.Keys == net.conns.Keys
  {
    hide *;
    AcceptRefines(net, net', a, held);
    NetInvIs(net, held);
    if a.Ok? {
      AcceptKeepsTable(net, net', a);
    } else {
      FailedAcceptIsNothing(net, net', a);
    }
    RefinementKeepsSound(net, held, net', held);
    NetInvIs(net', held);
  }

  lemma NetInvIs(net: Sockets, held: Holdings)
    ensures NetInv(net, held) <==> TableInv(net) && SoundInv(net, held)
  {
  }

  lemma FailedAcceptIsNothing(net: Sockets, net': Sockets, a: Answer)
    requires Accepts(net, net', a) && !a.Ok?
    ensures net' == net
  {
  }

  lemma AcceptRefines(net: Sockets, net': Sockets, a: Answer, held: Holdings)
    requires NetInv(net, held) && Accepts(net, net', a)
    ensures Refines(net, held, net', held) && net'.conns.Keys == net.conns.Keys
  {
    forall x | x in net.conns
      ensures x in net'.conns && ServerStep(net.conns[x], Held(held, x), net'.conns[x], Held(held, x))
    {
      if net.conns[x] == net'.conns[x] {
        assert PeerStep(net.conns[x], net'.conns[x]);
      } else {
        assert AcceptStep(net.conns[x], Held(held, x), net'.conns[x], Held(held, x));
      }
    }
  }

  lemma AcceptKeepsTable(net: Sockets, net': Sockets, a: Answer)
    requires TableInv(net) && Accepts(net, net', a) && a.Ok?
    ensures TableInv(net')
  {
    AcceptKeepsBacklog(net, net', a);
    AcceptKeepsFds(net, net', a);
    hide Accepts;
  }

  lemma AcceptKeepsBacklog(net: Sockets, net': Sockets, a: Answer)
    requires TableInv(net) && Accepts(net, net', a) && a.Ok?
    ensures Distinct(net'.backlog)
    ensures forall id | id in net'.backlog :: id in net'.conns && net'.conns[id].at.Queued?
    ensures forall id | id in net'.conns && net'.conns[id].at.Queued? :: id in net'.backlog
  {
    var id := net.backlog[0];
    assert id in net.backlog;
    assert net.backlog == [id] + net'.backlog;
    assert id !in net'.backlog;
  }

  lemma AcceptKeepsFds(net: Sockets, net': Sockets, a: Answer)
    requires TableInv(net) && Accepts(net, net', a) && a.Ok?
    ensures forall fd | fd in net'.fds :: net'.fds[fd] in net'.conns && net'.conns[net'.fds[fd]].at == Open(fd)
    ensures forall id | id in net'.conns && net'.conns[id].at.Open? ::
              net'.conns[id].at.fd in net'.fds && net'.fds[net'.conns[id].at.fd] == id
    ensures LISTENER !in net'.fds && SIGNALS !in net'.fds
  {
    assert net.backlog[0] in net.backlog;
  }

  /** There is always a descriptor number that is not in use. */
  lemma {:induction false} FreshFd(fds: set<Fd>, low: Fd) returns (fd: Fd)
    ensures fd >= low && fd !in fds
    decreases |fds|
  {
    fd := low;
    if fd in fds {
      fd := FreshFd(fds - {fd}, low + 1);
    }
  }

  // ---------------------------------------------------------------- read

  predicate Reads(net: Sockets, net': Sockets, fd: Fd, cap: nat, a: Answer, data: seq<Byte>)
    requires fd in net.fds && net.fds[fd] in net.conns
  {
    var id := net.fds[fd];
    var c := net.conns[id];
    && c.given <= c.sent
    && match a
       case Ok(n) =>
         && n == |data| && n <= cap && data <= Unread(c)
         && (n == 0 ==> cap == 0 || (c.fin && Unread(c) == []))
         && net' == net.(conns := net.conns[id := c.(given := c.given + data)])
       case Err(EAGAIN) => data == [] && net' == net && Unread(c) == [] && !c.fin && !c.broken
       case Err(EINTR) => data == [] && net' == net
       case Err(EOTHER) => data == [] && net' == net.(conns := net.conns[id := c.(broken := true)])
  }

  lemma ReadShape(net: Sockets, net': Sockets, fd: Fd, cap: nat, a: Answer, data: seq<Byte>)
    requires fd in net.fds && net.fds[fd] in net.conns && Reads(net, net', fd, cap, a, data)
    ensures net' == net.(conns := net.conns[net.fds[fd] := net'.conns[net.fds[fd]]])
    ensures var c, c' := net.conns[net.fds[fd]], net'.conns[net.fds[fd]];
            && c'.at == c.at && c'.sent == c.sent && c'.fin == c.fin && c'.dropped == c.dropped
            && c'.broken == (c.broken || a == Err(EOTHER))
            && (c.given == c.sent ==> c'.given == c'.sent)
    ensures TotalGiven(net'.conns) == TotalGiven(net.conns) + |data|
  {
    var id := net.fds[fd];
    var c' := net'.conns[id];
    assert net'.conns == net.conns[id := c'];
    TotalGivenUpdate(net.conns, id, c');
  }

  /** A read is a step of the echo service only when the server owes this connection nothing. */
  lemma ReadKeeps(net: Sockets, net': Sockets, fd: Fd, cap: nat, a: Answer, data: seq<Byte>, held: Holdings)
    requires NetInv(net, held) && fd in net.fds && Reads(net, net', fd, cap, a, data)
    requires Held(held, net.fds[fd]) == []
    ensures NetInv(net', held[net.fds[fd] := data])
    ensures Refines(net, held, net', held[net.fds[fd] := data])
  {
    var id := net.fds[fd];
    var c, c' := net.conns[id], net'.conns[id];
    if net' == net {
      StutterKeeps(net, id, held);
    } else {
      if a.Ok? {
        assert TakeStep(c, [], c', data);
      } else {
        assert BreakStep(c, [], c', []);
      }
      UpdateKeeps(net, id, c', held, data);
    }
  }

  // ---------------------------------------------------------------- write

  predicate Writes(net: Sockets, net': Sockets, fd: Fd, data: seq<Byte>, a: Answer)
    requires fd in net.fds && net.fds[fd] in net.conns
  {
    var id := net.fds[fd];
    var c := net.conns[id];
    match a
    case Ok(n) => 1 <= n <= |data| && net' == net.(conns := net.conns[id := c.(out := c.out + data[..n])])
    case Err(EOTHER) => net' == net.(conns := net.conns[id := c.(broken := true)])
    case Err(_) => net' == net
  }

  function Written(a: Answer): nat {
    if a.Ok? then a.n else 0
  }

  lemma WrittenIs(a: Answer)
    ensures Written(a) == if a.Ok? then a.n else 0
  {
  }

  lemma WriteShape(net: Sockets, net': Sockets, fd: Fd, data: seq<Byte>, a: Answer)
    requires fd in net.fds && net.fds[fd] in net.conns && Writes(net, net', fd, data, a)
    ensures net' == net.(conns := net.conns[net.fds[fd] := net'.conns[net.fds[fd]]])
    ensures var c, c' := net.conns[net.fds[fd]], net'.conns[net.fds[fd]];
            && c'.at == c.at && c'.sent == c.sent && c'.given == c.given && c'.fin == c.fin && c'.dropped == c.dropped
            && Written(a) <= |data| && c'.out == c.out + data[..Written(a)]
            && c'.broken == (c.broken || a == Err(EOTHER))
    ensures TotalGiven(net'.conns) == TotalGiven(net.conns)
  {
    var id := net.fds[fd];
    var c' := net'.conns[id];
    assert net'.conns == net.conns[id := c'];
    TotalGivenUpdate(net.conns, id, c');
  }

  /** Writing is a step of the echo service when the bytes offered are exactly those the server owes. */
  lemma WriteKeeps(net: Sockets, net': Sockets, fd: Fd, data: seq<Byte>, a: Answer, held: Holdings)
    requires NetInv(net, held) && fd in net.fds && Writes(net, net', fd, data, a)
    requires data == Held(held, net.fds[fd])
    ensures Written(a) <= |data|
    ensures NetInv(net', held[net.fds[fd] := data[Written(a)..]])
    ensures Refines(net, held, net', held[net.fds[fd] := data[Written(a)..]])
  {
    var id := net.fds[fd];
    var c, c', rest' := net.conns[id], net'.conns[id], data[Written(a)..];
    assert c.at.Open?;
    WriteIsEchoStep(c, c', data, a);
    assert net'.conns == net.conns[id := c'];
    hide *;
    UpdateKeeps(net, id, c', held, rest');
  }

  lemma WriteIsEchoStep(c: Conn, c': Conn, data: seq<Byte>, a: Answer)
    requires c.at.Open? && Written(a) <= |data|
    requires match a
             case Ok(n) => 1 <= n <= |data| && c' == c.(out := c.out + data[..n])
             case Err(EOTHER) => c' == c.(broken := true)
             case Err(_) => c' == c
    ensures c'.at == c.at && EchoStep(c, data, c', data[Written(a)..])
  {
    if a.Ok? {
      assert ReplyStep(c, data, c', data[a.n..]);
    } else {
      assert data[0..] == data;
      if a == Err(EOTHER) {
        assert BreakStep(c, data, c', data);
      } else {
        StutterIsEchoStep(c, data);
      }
    }
  }

  // ---------------------------------------------------------------- close

  /** Closing; a connection the server was not finished with is dropped by it. */
  function Close(net: Sockets, fd: Fd): Sockets
    requires fd in net.fds && net.fds[fd] in net.conns
  {
    var id := net.fds[fd];
    var c := net.conns[id];
    net.(conns := net.conns[id := c.(at := Closed, dropped := !Finished(c))], fds := net.fds - {fd})
  }

  /** Closing is a step of the echo service, or a drop. */
  lemma CloseKeeps(net: Sockets, fd: Fd, held: Holdings)
    requires NetInv(net, held) && fd in net.fds
    ensures NetInv(Close(net, fd), held - {net.fds[fd]})
    ensures Refines(net, held, Close(net, fd), held - {net.fds[fd]})
    ensures Close(net, fd).conns.Keys == net.conns.Keys
  {
    var id := net.fds[fd];
    var net', held' := Close(net, fd), held - {id};
    CloseIsServerStep(net.conns[id], Held(held, id), net'.conns[id]);
    CloseKeepsTable(net, fd);
    forall x | x in net.conns
      ensures ServerStep(net.conns[x], Held(held, x), net'.conns[x], Held(held', x))
    {
      if x != id {
        StutterIsEchoStep(net.conns[x], Held(held, x));
      }
    }
    hide *;
    RefinementKeepsSound(net, held, net', held');
  }

  lemma CloseIsServerStep(c: Conn, rest: seq<Byte>, c': Conn)
    requires Sound(c, rest) && c.at.Open? && c' == c.(at := Closed, dropped := !Finished(c))
    ensures ServerStep(c, rest, c', [])
    ensures EchoStep(c, rest, c', []) <==> Finished(c)
  {
    if Finished(c) {
      assert CloseStep(c, rest, c', []);
    } else {
      assert DropStep(c, rest, c', []);
    }
  }

  lemma CloseKeepsTable(net: Sockets, fd: Fd)
    requires TableInv(net) && fd in net.fds
    ensures TableInv(Close(net, fd))
  {
  }

  // ---------------------------------------------------------------- dropped connections

  ghost function Dropped(conns: map<Id, Conn>): set<Id> {
    set id | id in conns && conns[id].dropped
  }

  lemma DroppedFrame(conns: map<Id, Conn>, conns': map<Id, Conn>)
    requires forall id | id in conns :: id in conns' && conns'[id].dropped == conns[id].dropped
    requires forall id | id in conns' && id !in conns :: !conns'[id].dropped
    ensures Dropped(conns') == Dropped(conns)
  {
  }

  lemma PeersDropNobody(net: Sockets, net': Sockets)
    requires Peers(net, net')
    ensures Dropped(net'.conns) == Dropped(net.conns)
  {
    DroppedFrame(net.conns, net'.conns);
  }

  lemma AcceptsDropNobody(net: Sockets, net': Sockets, a: Answer)
    requires Accepts(net, net', a)
    ensures Dropped(net'.conns) == Dropped(net.conns)
  {
    DroppedFrame(net.conns, net'.conns);
  }

  lemma ReadsDropNobody(net: Sockets, net': Sockets, fd: Fd, cap: nat, a: Answer, data: seq<Byte>)
    requires fd in net.fds && net.fds[fd] in net.conns && Reads(net, net', fd, cap, a, data)
    ensures Dropped(net'.conns) == Dropped(net.conns)
  {
    DroppedFrame(net.conns, net'.conns);
  }

  lemma WritesDropNobody(net: Sockets, net': Sockets, fd: Fd, data: seq<Byte>, a: Answer)
    requires fd in net.fds && net.fds[fd] in net.conns && Writes(net, net', fd, data, a)
    ensures Dropped(net'.conns) == Dropped(net.conns)
  {
    DroppedFrame(net.conns, net'.conns);
  }

  /** Closing drops the connection exactly if the server was not finished with it, and no other. */
  lemma CloseDrops(net: Sockets, fd: Fd)
    requires fd in net.fds && net.fds[fd] in net.conns && !net.conns[net.fds[fd]].dropped
    ensures var id := net.fds[fd];
            && Dropped(Close(net, fd).conns) ==
               (if Finished(net.conns[id]) then Dropped(net.conns) else Dropped(net.conns) + {id})
            && |Dropped(Close(net, fd).conns)| ==
               |Dropped(net.conns)| + (if Finished(net.conns[id]) then 0 else 1)
  {
    var id := net.fds[fd];
    assert id !in Dropped(net.conns);
    assert Dropped(Close(net, fd).conns) ==
           if Finished(net.conns[id]) then Dropped(net.conns) else Dropped(net.conns) + {id};
  }
}
