/**
 The TCP based echo service of RFC 862, for one connection: "any data received
 is sent back".  All four back-ends of evserver are measured against the one
 step relation `EchoStep` below.
 */
module EchoSpec {

  newtype Byte = b: int | 0 <= b < 256

  type Fd = nat

  /** Identity of a connection.  Descriptor numbers are recycled, identities are not. */
  type Id = nat

  /** Where a connection is: in the listen backlog, in the server's descriptor table, or closed by the server. */
  datatype Place = Queued | Open(fd: Fd) | Closed

  /** The whole history of a connection.
      `sent`: bytes of the peer that have arrived, `given`: those the server has
      taken out of the socket, `out`: those the server has written back. */
  datatype Conn = Conn(
    sent: seq<Byte>,
    given: seq<Byte>,
    out: seq<Byte>,
    fin: bool,      // the peer has closed its direction: `sent` is final
    broken: bool,   // a connection error: reset, or a failed read or write
    dropped: bool,  // the server has closed it although it was not finished with
    at: Place)

  function Unread(c: Conn): (u: seq<Byte>)
    requires c.given <= c.sent
    ensures c.sent == c.given + u
  {
    c.sent[|c.given|..]
  }

  /** The server is finished with the connection: it has failed, or its stream has ended and is echoed. */
  predicate Finished(c: Conn) {
    c.broken || (c.fin && c.out == c.sent)
  }

  /** What every server keeps for a connection of which it holds `rest`, bytes read and not yet written back. */
  ghost predicate Sound(c: Conn, rest: seq<Byte>) {
    && c.given <= c.sent
    && c.out <= c.given
    && (!c.at.Closed? ==> c.given == c.out + rest && !c.dropped)
    && (c.at.Queued? ==> c.given == [] && rest == [])
    && (c.at.Closed? ==> rest == [])
    && (c.at.Closed? && !c.dropped ==> Finished(c))
  }

  /** Moves of the peer and of the network: more bytes arrive, the stream ends, the connection breaks. */
  predicate PeerStep(c: Conn, c': Conn) {
    && c.sent <= c'.sent
    && (c.fin ==> c'.fin && c'.sent == c.sent)
    && (c.broken ==> c'.broken)
    && c' == c.(sent := c'.sent, fin := c'.fin, broken := c'.broken)
  }

  ghost predicate AcceptStep(c: Conn, rest: seq<Byte>, c': Conn, rest': seq<Byte>) {
    c.at.Queued? && c'.at.Open? && c' == c.(at := c'.at) && rest' == rest
  }

  /** The server takes the next bytes, and only when it owes none. */
  ghost predicate TakeStep(c: Conn, rest: seq<Byte>, c': Conn, rest': seq<Byte>) {
    && c.at.Open? && rest == []
    && c.given <= c.sent && rest' <= Unread(c)
    && c' == c.(given := c.given + rest')
  }

  /** The server writes the oldest of the bytes it owes. */
  ghost predicate ReplyStep(c: Conn, rest: seq<Byte>, c': Conn, rest': seq<Byte>) {
    && c.at.Open?
    && |c.out| <= |c'.out| <= |c.out| + |rest|
    && var n := |c'.out| - |c.out|;
       rest' == rest[n..] && c' == c.(out := c.out + rest[..n])
  }

  ghost predicate BreakStep(c: Conn, rest: seq<Byte>, c': Conn, rest': seq<Byte>) {
    c.at.Open? && c' == c.(broken := true) && rest' == rest
  }

  /** A connection is closed when the server is finished with it. */
  ghost predicate CloseStep(c: Conn, rest: seq<Byte>, c': Conn, rest': seq<Byte>) {
    c.at.Open? && Finished(c) && rest' == [] && c' == c.(at := Closed)
  }

  /** One step of the echo service, for one connection. */
  ghost predicate EchoStep(c: Conn, rest: seq<Byte>, c': Conn, rest': seq<Byte>) {
    || (PeerStep(c, c') && rest' == rest)
    || AcceptStep(c, rest, c', rest')
    || TakeStep(c, rest, c', rest')
    || ReplyStep(c, rest, c', rest')
    || BreakStep(c, rest, c', rest')
    || CloseStep(c, rest, c', rest')
  }

  /** What the service forbids: a connection is closed that is not finished with. */
  ghost predicate DropStep(c: Conn, rest: seq<Byte>, c': Conn, rest': seq<Byte>) {
    c.at.Open? && !Finished(c) && rest' == [] && c' == c.(at := Closed, dropped := true)
  }

  /** One step of a server: a step of the service, or a drop. */
  ghost predicate ServerStep(c: Conn, rest: seq<Byte>, c': Conn, rest': seq<Byte>) {
    EchoStep(c, rest, c', rest') || DropStep(c, rest, c', rest')
  }

  lemma ServerStepKeepsSound(c: Conn, rest: seq<Byte>, c': Conn, rest': seq<Byte>)
    requires Sound(c, rest) && ServerStep(c, rest, c', rest')
    ensures Sound(c', rest')
    ensures c.given <= c'.given && c.out <= c'.out && (c.dropped ==> c'.dropped)
  {
    if PeerStep(c, c') && rest' == rest {
      assert Sound(c', rest');
    } else if TakeStep(c, rest, c', rest') {
      TakeKeepsSound(c, c', rest');
    } else if ReplyStep(c, rest, c', rest') {
      ReplyKeepsSound(c, rest, c', rest');
    } else if CloseStep(c, rest, c', rest') || DropStep(c, rest, c', rest') {
      assert c.out <= c.given;
    }
  }

  /** A step of a server is a step of the echo service exactly if it does not drop the connection. */
  lemma DropsAreNoEchoSteps(c: Conn, rest: seq<Byte>, c': Conn, rest': seq<Byte>)
    requires Sound(c, rest) && ServerStep(c, rest, c', rest')
    ensures EchoStep(c, rest, c', rest') <==> c'.dropped == c.dropped
  {
  }

  lemma TakeKeepsSound(c: Conn, c': Conn, rest': seq<Byte>)
    requires Sound(c, []) && TakeStep(c, [], c', rest')
    ensures Sound(c', rest')
  {
    assert c.given == c.out;
    assert c.given + rest' <= c.sent;
  }

  lemma ReplyKeepsSound(c: Conn, rest: seq<Byte>, c': Conn, rest': seq<Byte>)
    requires Sound(c, rest) && ReplyStep(c, rest, c', rest')
    ensures Sound(c', rest')
  {
    var n := |c'.out| - |c.out|;
    assert rest == rest[..n] + rest[n..];
    assert c.given == c'.out + rest';
  }

  /** A connection's history with a server: what the server holds is recorded beside each state. */
  ghost predicate ServerRun(run: seq<(Conn, seq<Byte>)>) {
    && |run| > 0 && Starts(run[0])
    && forall i | 0 < i < |run| :: ServerStep(run[i-1].0, run[i-1].1, run[i].0, run[i].1)
  }

  predicate Starts(first: (Conn, seq<Byte>)) {
    first.0.at.Queued? && first.0.given == [] && first.0.out == [] && !first.0.dropped && first.1 == []
  }

  /** A history that the echo service allows. */
  ghost predicate EchoRun(run: seq<(Conn, seq<Byte>)>) {
    && |run| > 0 && Starts(run[0])
    && forall i | 0 < i < |run| :: EchoStep(run[i-1].0, run[i-1].1, run[i].0, run[i].1)
  }

  lemma {:induction false} ServerRunIsSound(run: seq<(Conn, seq<Byte>)>, i: nat)
    requires ServerRun(run) && i < |run|
    ensures Sound(run[i].0, run[i].1)
  {
    if i > 0 {
      ServerRunIsSound(run, i - 1);
      ServerStepKeepsSound(run[i-1].0, run[i-1].1, run[i].0, run[i].1);
    }
  }

  lemma ServerRunSplits(run: seq<(Conn, seq<Byte>)>, n: nat)
    requires 0 < n <= |run|
    ensures ServerRun(run) ==> ServerRun(run[..n])
    ensures EchoRun(run) ==> EchoRun(run[..n])
    ensures n + 1 == |run| ==>
              (EchoRun(run) <==> EchoRun(run[..n]) && EchoStep(run[n-1].0, run[n-1].1, run[n].0, run[n].1))
  {
    hide EchoStep, ServerStep, Starts;
    var part := run[..n];
    forall i | 0 <= i < n ensures part[i] == run[i] {
    }
  }

  /** The history is one of the echo service if and only if the server has not dropped the connection. */
  lemma {:induction false} EchoRunExactlyIfNotDropped(run: seq<(Conn, seq<Byte>)>)
    requires ServerRun(run)
    ensures EchoRun(run) <==> !run[|run|-1].0.dropped
    decreases |run|
  {
    hide EchoStep, ServerStep, Sound;
    var n := |run| - 1;
    if n > 0 {
      ServerRunSplits(run, n);
      EchoRunExactlyIfNotDropped(run[..n]);
      ServerRunIsSound(run, n - 1);
      assert ServerStep(run[n-1].0, run[n-1].1, run[n].0, run[n].1);
      DropsAreNoEchoSteps(run[n-1].0, run[n-1].1, run[n].0, run[n].1);
      ServerStepKeepsSound(run[n-1].0, run[n-1].1, run[n].0, run[n].1);
    }
  }

  /** RFC 862 over whole runs: at every moment the bytes written back are a prefix of the bytes received,
      and once the server has closed a healthy connection they are all of them. */
  lemma EchoRunIsFaithful(run: seq<(Conn, seq<Byte>)>, i: nat)
    requires EchoRun(run) && i < |run|
    ensures Sound(run[i].0, run[i].1)
    ensures run[i].0.out <= run[i].0.sent
    ensures run[i].0.at.Closed? && !run[i].0.broken ==> run[i].0.fin && run[i].0.out == run[i].0.sent
  {
    hide EchoStep;
    EchoRunIsServerRun(run);
    ServerRunSplits(run, i + 1);
    EchoRunIsServerRun(run[..i+1]);
    EchoRunExactlyIfNotDropped(run[..i+1]);
    ServerRunIsSound(run, i);
  }

  lemma EchoRunIsServerRun(run: seq<(Conn, seq<Byte>)>)
    requires EchoRun(run)
    ensures ServerRun(run)
  {
    hide EchoStep;
  }
}
