/**
 The closed loop of loadgen.cpp and a single-threaded echo server.

 A client writes its whole payload before it reads anything; the server reads
 nothing more until the chunk in its hand is written back.  Every connection
 has two bounded channels.  Reads and writes move any number of bytes from one
 upwards.
 */
module ClosedLoop {
  import opened EchoSpec

  /** Capacities of the two channels, the server's buffer size and the payload size. */
  datatype Config = Config(up: nat, down: nat, buffer: nat, size: nat) {
    predicate Valid() {
      up >= 1 && down >= 1 && buffer >= 1
    }
  }

  /** One connection: what is not yet written, what is in transit each way, and what has come back.
      `moved` counts byte moves of the current request, `requests` the finished ones. */
  datatype Client = Client(payload: seq<Byte>, unwritten: seq<Byte>, up: seq<Byte>, down: seq<Byte>, got: seq<Byte>,
                           moved: nat, requests: nat)

  /** The chunk the server has read and not completely written back. */
  datatype Hand = Idle | Busy(i: nat, rest: seq<Byte>)

  datatype State = State(clients: seq<Client>, hand: Hand)

  datatype Label =
    | Write(i: nat, n: nat)   // client i's write transfers n more bytes
    | Take(i: nat, n: nat)    // the server reads n bytes of connection i
    | Reply(n: nat)           // the server writes n bytes of the chunk in hand
    | Read(i: nat, n: nat)    // client i, done writing, reads n bytes
    | Begin(i: nat, payload: seq<Byte>) // the reply is complete: count it and start over

  // ---------------------------------------------------------------- steps

  function Fresh(payload: seq<Byte>, requests: nat): Client {
    Client(payload, payload, [], [], [], 0, requests)
  }

  predicate CanWrite(cfg: Config, s: State, i: nat, n: nat) {
    i < |s.clients| && 1 <= n <= |s.clients[i].unwritten| && |s.clients[i].up| + n <= cfg.up
  }

  predicate CanTake(cfg: Config, s: State, i: nat, n: nat) {
    s.hand.Idle? && i < |s.clients| && 1 <= n <= |s.clients[i].up| && n <= cfg.buffer
  }

  predicate CanReply(cfg: Config, s: State, n: nat) {
    s.hand.Busy? && s.hand.i < |s.clients| && 1 <= n <= |s.hand.rest|
    && |s.clients[s.hand.i].down| + n <= cfg.down
  }

  predicate CanRead(cfg: Config, s: State, i: nat, n: nat) {
    i < |s.clients| && s.clients[i].unwritten == [] && 1 <= n <= |s.clients[i].down|
  }

  predicate CanBegin(cfg: Config, s: State, i: nat, payload: seq<Byte>) {
    i < |s.clients| && |s.clients[i].got| == |s.clients[i].payload| && |payload| == cfg.size
  }

  predicate Enabled(cfg: Config, s: State, l: Label) {
    match l
    case Write(i, n) => CanWrite(cfg, s, i, n)
    case Take(i, n) => CanTake(cfg, s, i, n)
    case Reply(n) => CanReply(cfg, s, n)
    case Read(i, n) => CanRead(cfg, s, i, n)
    case Begin(i, payload) => CanBegin(cfg, s, i, payload)
  }

  /** Which connection a step belongs to. */
  function Who(s: State, l: Label): nat {
    match l
    case Write(i, _) => i
    case Take(i, _) => i
    case Reply(_) => if s.hand.Busy? then s.hand.i else 0
    case Read(i, _) => i
    case Begin(i, _) => i
  }

  function NextClient(c: Client, hand: Hand, l: Label): Client
    requires l.Write? ==> l.n <= |c.unwritten|
    requires l.Take? ==> l.n <= |c.up|
    requires l.Reply? ==> hand.Busy? && l.n <= |hand.rest|
    requires l.Read? ==> l.n <= |c.down|
  {
    match l
    case Write(_, n) => c.(unwritten := c.unwritten[n..], up := c.up + c.unwritten[..n], moved := c.moved + n)
    case Take(_, n) => c.(up := c.up[n..], moved := c.moved + n)
    case Reply(n) => c.(down := c.down + hand.rest[..n], moved := c.moved + n)
    case Read(_, n) => c.(down := c.down[n..], got := c.got + c.down[..n], moved := c.moved + n)
    case Begin(_, payload) => Fresh(payload, c.requests + 1)
  }

  function NextHand(c: Client, hand: Hand, l: Label): Hand
    requires l.Take? ==> l.n <= |c.up|
    requires l.Reply? ==> hand.Busy? && l.n <= |hand.rest|
  {
    match l
    case Take(i, n) => Busy(i, c.up[..n])
    case Reply(n) => if n == |hand.rest| then Idle else Busy(hand.i, hand.rest[n..])
    case _ => hand
  }

  function Next(cfg: Config, s: State, l: Label): State
    requires Enabled(cfg, s, l)
  {
    var i := Who(s, l);
    State(s.clients[i := NextClient(s.clients[i], s.hand, l)], NextHand(s.clients[i], s.hand, l))
  }

  // ---------------------------------------------------------------- request isolation

  /** The part of the chunk in the server's hand that belongs to connection `i`. */
  function Pending(hand: Hand, i: nat): seq<Byte> {
    if hand.Busy? && hand.i == i then hand.rest else []
  }

  /** Every byte of the current request is in exactly one place, in order, and no byte of any other. */
  ghost predicate Isolated(c: Client, pending: seq<Byte>) {
    && c.payload == c.got + c.down + pending + c.up + c.unwritten
    && (c.unwritten != [] ==> c.got == [])
    && c.moved + 4 * |c.unwritten| + 3 * |c.up| + 2 * |pending| + |c.down| == 4 * |c.payload|
  }

  ghost predicate Inv(cfg: Config, s: State) {
    && (s.hand.Busy? ==> s.hand.i < |s.clients| && s.hand.rest != [])
    && forall i | 0 <= i < |s.clients| ::
         && Isolated(s.clients[i], Pending(s.hand, i))
         && |s.clients[i].up| <= cfg.up && |s.clients[i].down| <= cfg.down
         && |s.clients[i].payload| == cfg.size
  }

  /** Moving a boundary between two neighbouring stretches keeps the whole. */
  lemma Shift(front: seq<Byte>, a: seq<Byte>, b: seq<Byte>, back: seq<Byte>, n: nat)
    requires n <= |b|
    ensures front + a + b + back == front + (a + b[..n]) + b[n..] + back
  {
    assert b == b[..n] + b[n..];
  }

  lemma WriteIsolates(c: Client, pending: seq<Byte>, n: nat)
    requires Isolated(c, pending) && 1 <= n <= |c.unwritten|
    ensures Isolated(c.(unwritten := c.unwritten[n..], up := c.up + c.unwritten[..n], moved := c.moved + n), pending)
  {
    Shift(c.got + c.down + pending, c.up, c.unwritten, [], n);
    assert c.got + c.down + pending + c.up + c.unwritten + [] == c.payload;
  }

  lemma TakeIsolates(c: Client, n: nat)
    requires Isolated(c, []) && 1 <= n <= |c.up|
    ensures Isolated(c.(up := c.up[n..], moved := c.moved + n), c.up[..n])
  {
    Shift(c.got + c.down, [], c.up, c.unwritten, n);
    assert [] + c.up[..n] == c.up[..n];
  }

  lemma ReplyIsolates(c: Client, rest: seq<Byte>, n: nat)
    requires Isolated(c, rest) && 1 <= n <= |rest|
    ensures Isolated(c.(down := c.down + rest[..n], moved := c.moved + n), rest[n..])
  {
    Shift(c.got, c.down, rest, c.up + c.unwritten, n);
    SplitTail(c.got + c.down + rest, c.up, c.unwritten);
    SplitTail(c.got + (c.down + rest[..n]) + rest[n..], c.up, c.unwritten);
  }

  lemma SplitTail(front: seq<Byte>, a: seq<Byte>, b: seq<Byte>)
    ensures front + (a + b) == front + a + b
  {
  }

  lemma ReadIsolates(c: Client, pending: seq<Byte>, n: nat)
    requires Isolated(c, pending) && c.unwritten == [] && 1 <= n <= |c.down|
    ensures Isolated(c.(down := c.down[n..], got := c.got + c.down[..n], moved := c.moved + n), pending)
  {
    var tail := pending + c.up + c.unwritten;
    Shift([], c.got, c.down, tail, n);
    assert [] + c.got + c.down + tail == c.payload;
    var got := c.got + c.down[..n];
    assert [] + got + c.down[n..] + tail == got + c.down[n..] + pending + c.up + c.unwritten;
  }

  lemma StepKeepsIsolation(cfg: Config, s: State, l: Label)
    requires Inv(cfg, s) && Enabled(cfg, s, l)
    ensures Who(s, l) < |s.clients|
    ensures var i := Who(s, l);
            Isolated(NextClient(s.clients[i], s.hand, l), Pending(NextHand(s.clients[i], s.hand, l), i))
  {
    hide Isolated;
    var i := Who(s, l);
    var c := s.clients[i];
    assert Isolated(c, Pending(s.hand, i));
    match l
    case Write(_, n) => WriteIsolates(c, Pending(s.hand, i), n);
    case Take(_, n) => TakeIsolates(c, n);
    case Reply(n) => ReplyIsolates(c, s.hand.rest, n);
    case Read(_, n) => ReadIsolates(c, Pending(s.hand, i), n);
    case Begin(_, payload) =>
      CompleteMeansEmpty(c, Pending(s.hand, i));
      FreshIsIsolated(payload, c.requests + 1);
  }

  lemma FreshIsIsolated(payload: seq<Byte>, requests: nat)
    ensures Isolated(Fresh(payload, requests), [])
  {
  }

  /** When the reply is complete nothing of the request is left anywhere, and the reply is the request. */
  lemma CompleteMeansEmpty(c: Client, pending: seq<Byte>)
    requires Isolated(c, pending) && |c.got| == |c.payload|
    ensures c.got == c.payload && c.down == [] && pending == [] && c.up == [] && c.unwritten == []
    ensures c.moved == 4 * |c.payload|
  {
    assert c.payload[..|c.got|] == c.got;
  }

  lemma StepKeepsInv(cfg: Config, s: State, l: Label)
    requires Inv(cfg, s) && Enabled(cfg, s, l)
    ensures Inv(cfg, Next(cfg, s, l))
  {
    hide Isolated;
    StepKeepsIsolation(cfg, s, l);
    var s', k := Next(cfg, s, l), Who(s, l);
    forall i | 0 <= i < |s'.clients|
      ensures Isolated(s'.clients[i], Pending(s'.hand, i))
      ensures |s'.clients[i].up| <= cfg.up && |s'.clients[i].down| <= cfg.down && |s'.clients[i].payload| == cfg.size
    {
      if i != k {
        assert s'.clients[i] == s.clients[i] && Pending(s'.hand, i) == Pending(s.hand, i);
      }
    }
  }

  // ---------------------------------------------------------------- runs

  function Start(payloads: seq<seq<Byte>>): State {
    State(seq(|payloads|, i requires 0 <= i < |payloads| => Fresh(payloads[i], 0)), Idle)
  }

  ghost predicate Begins(cfg: Config, payloads: seq<seq<Byte>>) {
    cfg.Valid() && forall i | 0 <= i < |payloads| :: |payloads[i]| == cfg.size
  }

  /** The labels can be taken one after another from `s`. */
  ghost predicate Run(cfg: Config, s: State, labels: seq<Label>)
    decreases |labels|
  {
    labels == [] || (Enabled(cfg, s, labels[0]) && Run(cfg, Next(cfg, s, labels[0]), labels[1..]))
  }

  ghost function After(cfg: Config, s: State, labels: seq<Label>): State
    requires Run(cfg, s, labels)
    decreases |labels|
  {
    if labels == [] then s else After(cfg, Next(cfg, s, labels[0]), labels[1..])
  }

  lemma {:induction false} RunKeepsInv(cfg: Config, s: State, labels: seq<Label>)
    requires Inv(cfg, s) && Run(cfg, s, labels)
    ensures Inv(cfg, After(cfg, s, labels)) && |After(cfg, s, labels).clients| == |s.clients|
    decreases |labels|
  {
    if labels != [] {
      StepKeepsInv(cfg, s, labels[0]);
      RunKeepsInv(cfg, Next(cfg, s, labels[0]), labels[1..]);
    }
  }

  lemma StartIsInv(cfg: Config, payloads: seq<seq<Byte>>)
    requires Begins(cfg, payloads)
    ensures Inv(cfg, Start(payloads))
  {
  }

  /** Request isolation over whole runs: whatever other clients do, a reply that is complete equals its
      request, took 4 moves per byte, and leaves both channels and the server's hand free of this client. */
  lemma RepliesNeverMix(cfg: Config, payloads: seq<seq<Byte>>, labels: seq<Label>, i: nat)
    requires Begins(cfg, payloads) && Run(cfg, Start(payloads), labels) && i < |payloads|
    ensures var s := After(cfg, Start(payloads), labels);
            && i < |s.clients| && s.clients[i].moved <= 4 * |s.clients[i].payload|
            && (|s.clients[i].got| == |s.clients[i].payload| ==>
                  && s.clients[i].got == s.clients[i].payload
                  && s.clients[i].up == [] && s.clients[i].down == [] && Pending(s.hand, i) == []
                  && s.clients[i].moved == 4 * |s.clients[i].payload|)
  {
    StartIsInv(cfg, payloads);
    RunKeepsInv(cfg, Start(payloads), labels);
    var s := After(cfg, Start(payloads), labels);
    if |s.clients[i].got| == |s.clients[i].payload| {
      CompleteMeansEmpty(s.clients[i], Pending(s.hand, i));
    }
  }

  // ---------------------------------------------------------------- the threshold

  predicate Complete(c: Client) {
    |c.got| == |c.payload|
  }

  /** No byte can move anywhere. */
  ghost predicate Stuck(cfg: Config, s: State) {
    forall l: Label :: !l.Begin? ==> !Enabled(cfg, s, l)
  }

  ghost predicate Deadlock(cfg: Config, s: State) {
    Stuck(cfg, s) && exists i :: 0 <= i < |s.clients| && !Complete(s.clients[i])
  }

  /** Below the threshold a byte can always move. */
  lemma SomethingMoves(cfg: Config, s: State, i: nat) returns (l: Label)
    requires cfg.Valid() && Inv(cfg, s) && cfg.size <= cfg.up + cfg.down + 1
    requires i < |s.clients| && !Complete(s.clients[i])
    ensures !l.Begin? && Enabled(cfg, s, l)
  {
    if s.hand.Busy? {
      var c, k := s.clients[s.hand.i], s.hand.i;
      assert Isolated(c, s.hand.rest);
      if |c.down| < cfg.down {
        l := Reply(1);
      } else if c.unwritten == [] {
        l := Read(k, 1);
      } else {
        assert |c.up| < cfg.up by {
          assert |c.payload| == |c.down| + |s.hand.rest| + |c.up| + |c.unwritten|;
        }
        l := Write(k, 1);
      }
    } else {
      var c := s.clients[i];
      assert Isolated(c, []);
      if c.up != [] {
        l := Take(i, 1);
      } else if c.unwritten != [] {
        l := Write(i, 1);
      } else {
        assert c.payload == c.got + c.down;
        l := Read(i, 1);
      }
    }
  }

  // ---- above it, a schedule that ends in deadlock

  /** Client 0 with `k` bytes back in its receive channel and the rest not yet written. */
  function Echoed(payload: seq<Byte>, k: nat): Client
    requires k <= |payload|
  {
    Client(payload, payload[k..], [], payload[..k], [], 3 * k, 0)
  }

  lemma {:induction false} RunConcat(cfg: Config, s: State, a: seq<Label>, b: seq<Label>)
    requires Run(cfg, s, a) && Run(cfg, After(cfg, s, a), b)
    ensures Run(cfg, s, a + b) && After(cfg, s, a + b) == After(cfg, After(cfg, s, a), b)
    decreases |a|
  {
    if a == [] {
      assert a + b == b;
    } else {
      RunConcat(cfg, Next(cfg, s, a[0]), a[1..], b);
      assert (a + b)[0] == a[0] && (a + b)[1..] == a[1..] + b;
    }
  }

  lemma RunOne(cfg: Config, s: State, l: Label)
    requires Enabled(cfg, s, l)
    ensures Run(cfg, s, [l]) && After(cfg, s, [l]) == Next(cfg, s, l)
  {
    assert [l][1..] == [];
    assert Run(cfg, Next(cfg, s, l), []);
  }

  /** One more byte of client 0 goes all the way round. */
  lemma EchoOneByte(cfg: Config, s: State, payload: seq<Byte>, k: nat) returns (labels: seq<Label>)
    requires cfg.Valid() && |payload| == cfg.size && k < |payload| && k < cfg.down
    requires |s.clients| > 0 && s.hand == Idle && s.clients[0] == Echoed(payload, k)
    ensures Run(cfg, s, labels)
    ensures After(cfg, s, labels) == s.(clients := s.clients[0 := Echoed(payload, k + 1)])
  {
    var s1 := Next(cfg, s, Write(0, 1));
    var s2 := Next(cfg, s1, Take(0, 1));
    var s3 := Next(cfg, s2, Reply(1));
    RunOne(cfg, s, Write(0, 1));
    RunOne(cfg, s1, Take(0, 1));
    RunOne(cfg, s2, Reply(1));
    RunConcat(cfg, s1, [Take(0, 1)], [Reply(1)]);
    RunConcat(cfg, s, [Write(0, 1)], [Take(0, 1)] + [Reply(1)]);
    labels := [Write(0, 1)] + ([Take(0, 1)] + [Reply(1)]);
    assert payload[..k] + [payload[k]] == payload[..k + 1];
    assert s3.clients[0] == Echoed(payload, k + 1);
    assert s3.clients == s.clients[0 := Echoed(payload, k + 1)];
  }

  lemma {:induction false} EchoBytes(cfg: Config, s: State, payload: seq<Byte>, k: nat) returns (labels: seq<Label>)
    requires cfg.Valid() && |payload| == cfg.size && k <= cfg.down < |payload|
    requires |s.clients| > 0 && s.hand == Idle && s.clients[0] == Fresh(payload, 0)
    ensures Run(cfg, s, labels)
    ensures After(cfg, s, labels) == s.(clients := s.clients[0 := Echoed(payload, k)])
  {
    if k == 0 {
      labels := [];
      assert Echoed(payload, 0) == Fresh(payload, 0);
      assert s.clients[0 := s.clients[0]] == s.clients;
    } else {
      var before := EchoBytes(cfg, s, payload, k - 1);
      var last := EchoOneByte(cfg, After(cfg, s, before), payload, k - 1);
      RunConcat(cfg, s, before, last);
      labels := before + last;
      assert s.clients[0 := Echoed(payload, k - 1)][0 := Echoed(payload, k)] == s.clients[0 := Echoed(payload, k)];
    }
  }

  /** Blocked in write: the channel to the server is full and the payload is not all written. */
  predicate Filled(cfg: Config, c: Client) {
    |c.up| == cfg.up && c.unwritten != []
  }

  /** A client that blocks in write at once, because nobody reads from it. */
  predicate Eager(cfg: Config, c: Client) {
    c.up == [] && |c.unwritten| > cfg.up
  }

  lemma {:induction false} FillOthers(cfg: Config, s: State, j: nat) returns (labels: seq<Label>)
    requires cfg.Valid() && 1 <= j <= |s.clients|
    requires forall m | 1 <= m < j :: Filled(cfg, s.clients[m])
    requires forall m | j <= m < |s.clients| :: Eager(cfg, s.clients[m])
    ensures Run(cfg, s, labels)
    ensures var s' := After(cfg, s, labels);
            && |s'.clients| == |s.clients| && s'.hand == s.hand && s'.clients[0] == s.clients[0]
            && forall m | 1 <= m < |s'.clients| :: Filled(cfg, s'.clients[m])
    decreases |s.clients| - j
  {
    if j == |s.clients| {
      labels := [];
    } else {
      var l := Write(j, cfg.up);
      var rest := FillOthers(cfg, Next(cfg, s, l), j + 1);
      RunOne(cfg, s, l);
      RunConcat(cfg, s, [l], rest);
      labels := [l] + rest;
    }
  }

  /** Client 0 with both channels full, a byte of it in the server's hand and more to write. */
  ghost predicate Clogged(cfg: Config, s: State) {
    && |s.clients| > 0 && s.hand.Busy? && s.hand.i == 0
    && |s.clients[0].down| == cfg.down && Filled(cfg, s.clients[0])
  }

  lemma Clog(cfg: Config, s: State, payload: seq<Byte>) returns (labels: seq<Label>)
    requires cfg.Valid() && |payload| == cfg.size >= cfg.up + cfg.down + 2
    requires |s.clients| > 0 && s.hand == Idle && s.clients[0] == Echoed(payload, cfg.down)
    ensures Run(cfg, s, labels) && Clogged(cfg, After(cfg, s, labels))
    ensures var s' := After(cfg, s, labels);
            |s'.clients| == |s.clients| && s'.clients[1..] == s.clients[1..]
  {
    var a, b, c := Write(0, 1), Take(0, 1), Write(0, cfg.up);
    var s1 := Next(cfg, s, a);
    var s2 := Next(cfg, s1, b);
    var s3 := Next(cfg, s2, c);
    RunOne(cfg, s, a);
    RunOne(cfg, s1, b);
    RunOne(cfg, s2, c);
    RunConcat(cfg, s1, [b], [c]);
    RunConcat(cfg, s, [a], [b] + [c]);
    labels := [a] + ([b] + [c]);
  }

  /** With every other client blocked in write as well, nothing moves any more. */
  lemma CloggedIsDeadlock(cfg: Config, s: State)
    requires Inv(cfg, s) && Clogged(cfg, s)
    requires forall m | 1 <= m < |s.clients| :: Filled(cfg, s.clients[m])
    ensures Deadlock(cfg, s)
  {
    hide Isolated;
    NotComplete(s.clients[0], Pending(s.hand, 0));
  }

  lemma NotComplete(c: Client, pending: seq<Byte>)
    requires Isolated(c, pending) && c.unwritten != []
    ensures !Complete(c)
  {
  }

  lemma DeadlockIsReachable(cfg: Config, payloads: seq<seq<Byte>>) returns (labels: seq<Label>)
    requires Begins(cfg, payloads) && payloads != [] && cfg.size >= cfg.up + cfg.down + 2
    ensures Run(cfg, Start(payloads), labels) && Deadlock(cfg, After(cfg, Start(payloads), labels))
  {
    hide Run, After, Deadlock, Inv, Clogged, Filled;
    var s0 := Start(payloads);
    var first := EchoBytes(cfg, s0, payloads[0], cfg.down);
    var s1 := After(cfg, s0, first);
    var second := Clog(cfg, s1, payloads[0]);
    RunConcat(cfg, s0, first, second);
    var s2 := After(cfg, s0, first + second);
    forall m | 1 <= m < |s2.clients| ensures Eager(cfg, s2.clients[m]) {
      assert s2.clients[m] == s2.clients[1..][m - 1] == s1.clients[1..][m - 1] == Fresh(payloads[m], 0);
    }
    CloggedIsNonEmpty(cfg, s2);
    var third := FillOthers(cfg, s2, 1);
    RunConcat(cfg, s0, first + second, third);
    labels := first + second + third;
    StartIsInv(cfg, payloads);
    RunKeepsInv(cfg, s0, labels);
    StillClogged(cfg, s2, After(cfg, s0, labels));
    CloggedIsDeadlock(cfg, After(cfg, s0, labels));
  }

  lemma CloggedIsNonEmpty(cfg: Config, s: State)
    requires Clogged(cfg, s)
    ensures |s.clients| > 0
  {
  }

  lemma StillClogged(cfg: Config, s: State, s': State)
    requires Clogged(cfg, s) && |s'.clients| == |s.clients| && s'.hand == s.hand && s'.clients[0] == s.clients[0]
    ensures Clogged(cfg, s')
  {
  }

  /** The exact threshold: a deadlock is reachable exactly when the payload is at least two bytes longer than
      both channels together, whatever the bytes and however many clients there are. */
  lemma DeadlockThreshold(cfg: Config, payloads: seq<seq<Byte>>)
    requires Begins(cfg, payloads) && payloads != []
    ensures (exists labels :: Run(cfg, Start(payloads), labels) && Deadlock(cfg, After(cfg, Start(payloads), labels)))
            <==> cfg.size >= cfg.up + cfg.down + 2
  {
    if cfg.size >= cfg.up + cfg.down + 2 {
      var labels := DeadlockIsReachable(cfg, payloads);
    } else {
      forall labels | Run(cfg, Start(payloads), labels)
        ensures !Deadlock(cfg, After(cfg, Start(payloads), labels))
      {
        StartIsInv(cfg, payloads);
        RunKeepsInv(cfg, Start(payloads), labels);
        NeverStuck(cfg, After(cfg, Start(payloads), labels));
      }
    }
  }

  lemma NeverStuck(cfg: Config, s: State)
    requires cfg.Valid() && Inv(cfg, s) && cfg.size <= cfg.up + cfg.down + 1
    ensures !Deadlock(cfg, s)
  {
    hide Inv, Enabled;
    if Deadlock(cfg, s) {
      var i :| 0 <= i < |s.clients| && !Complete(s.clients[i]);
      var l := SomethingMoves(cfg, s, i);
      assert false;
    }
  }

  // ---------------------------------------------------------------- termination

  /** Byte moves still to be made, over all clients. */
  ghost function Left(clients: seq<Client>): int {
    if clients == [] then 0 else 4 * |clients[0].payload| - clients[0].moved + Left(clients[1..])
  }

  lemma {:induction false} LeftUpdate(clients: seq<Client>, i: nat, c: Client)
    requires i < |clients|
    ensures Left(clients[i := c]) ==
            Left(clients) - (4 * |clients[i].payload| - clients[i].moved) + (4 * |c.payload| - c.moved)
  {
    if i == 0 {
      assert clients[i := c][1..] == clients[1..];
    } else {
      LeftUpdate(clients[1..], i - 1, c);
      assert clients[i := c][1..] == clients[1..][i - 1 := c];
    }
  }

  lemma {:induction false} LeftIsNatural(clients: seq<Client>)
    requires forall i | 0 <= i < |clients| :: clients[i].moved <= 4 * |clients[i].payload|
    ensures Left(clients) >= 0
  {
    if clients != [] {
      LeftIsNatural(clients[1..]);
    }
  }

  /** Without new requests a run is finite: every step moves at least one byte one stage further. */
  lemma {:induction false} RunsEnd(cfg: Config, s: State, labels: seq<Label>)
    requires Inv(cfg, s) && Run(cfg, s, labels) && forall l | l in labels :: !l.Begin?
    ensures |labels| <= Left(s.clients)
    decreases |labels|
  {
    if labels == [] {
      MovedIsBounded(cfg, s);
      LeftIsNatural(s.clients);
    } else {
      hide Inv, Enabled, Next, Left;
      StepKeepsInv(cfg, s, labels[0]);
      StepUsesBytes(cfg, s, labels[0]);
      RunsEnd(cfg, Next(cfg, s, labels[0]), labels[1..]);
    }
  }

  lemma StepUsesBytes(cfg: Config, s: State, l: Label)
    requires Enabled(cfg, s, l) && !l.Begin?
    ensures Left(Next(cfg, s, l).clients) < Left(s.clients)
  {
    var i := Who(s, l);
    LeftUpdate(s.clients, i, NextClient(s.clients[i], s.hand, l));
    hide Left;
  }

  lemma MovedIsBounded(cfg: Config, s: State)
    requires Inv(cfg, s)
    ensures forall i | 0 <= i < |s.clients| :: s.clients[i].moved <= 4 * |s.clients[i].payload|
  {
    forall i | 0 <= i < |s.clients| ensures s.clients[i].moved <= 4 * |s.clients[i].payload| {
      assert Isolated(s.clients[i], Pending(s.hand, i));
    }
  }

  /** Below the threshold every run that nobody extends has answered every request. */
  lemma EveryRequestFinishes(cfg: Config, payloads: seq<seq<Byte>>, labels: seq<Label>)
    requires Begins(cfg, payloads) && cfg.size <= cfg.up + cfg.down + 1
    requires Run(cfg, Start(payloads), labels) && Stuck(cfg, After(cfg, Start(payloads), labels))
    ensures var s := After(cfg, Start(payloads), labels);
            forall i | 0 <= i < |s.clients| :: s.clients[i].got == s.clients[i].payload
  {
    StartIsInv(cfg, payloads);
    RunKeepsInv(cfg, Start(payloads), labels);
    var s := After(cfg, Start(payloads), labels);
    NeverStuck(cfg, s);
    forall i | 0 <= i < |s.clients| ensures s.clients[i].got == s.clients[i].payload {
      assert Complete(s.clients[i]);
      CompleteMeansEmpty(s.clients[i], Pending(s.hand, i));
    }
  }

  // ---------------------------------------------------------------- the client's own loop

  class Result {
    var requests: nat

    constructor ()
      ensures requests == 0
    {
      requests := 0;
    }
  }

  /** The labels lead from `s` to `s'`. */
  ghost predicate Leads(cfg: Config, s: State, labels: seq<Label>, s': State) {
    Run(cfg, s, labels) && After(cfg, s, labels) == s'
  }

  lemma LeadsNowhere(cfg: Config, s: State)
    ensures Leads(cfg, s, [], s)
  {
  }

  lemma LeadsOn(cfg: Config, s: State, labels: seq<Label>, s': State, l: Label)
    requires Leads(cfg, s, labels, s') && Enabled(cfg, s', l)
    ensures Leads(cfg, s, labels + [l], Next(cfg, s', l))
  {
    hide Enabled, Next;
    RunOne(cfg, s', l);
    RunConcat(cfg, s, labels, [l]);
  }

  lemma LeadsFurther(cfg: Config, s: State, a: seq<Label>, s1: State, b: seq<Label>, s2: State)
    requires Leads(cfg, s, a, s1) && Leads(cfg, s1, b, s2)
    ensures Leads(cfg, s, a + b, s2)
  {
    RunConcat(cfg, s, a, b);
  }

  /** The client's blocking call cannot move a byte: the channel it writes to is full, or the one it reads from is
      empty. */
  predicate Waits(cfg: Config, c: Client) {
    if c.unwritten != [] then |c.up| == cfg.up else c.down == [] && !Complete(c)
  }

  /** Any steps of the server, and of the other clients; what client `i` has in transit may move on. */
  method Others(cfg: Config, s: State, i: nat) returns (s': State, ghost labels: seq<Label>)
    requires Inv(cfg, s) && i < |s.clients|
    ensures Inv(cfg, s') && SameClient(s, s', i) && Leads(cfg, s, labels, s')
  {
    hide Leads, Inv;
    var steps: nat := *;
    s', labels := s, [];
    LeadsNowhere(cfg, s);
    while steps > 0
      invariant Inv(cfg, s') && SameClient(s, s', i) && Leads(cfg, s, labels, s')
    {
      var l: Label := *;
      if Enabled(cfg, s', l) && (Who(s', l) != i || l.Take? || l.Reply?) {
        StepKeepsInv(cfg, s', l);
        LeadsOn(cfg, s, labels, s', l);
        s', labels := Next(cfg, s', l), labels + [l];
      }
      steps := steps - 1;
    }
  }

  /** What only client `i` itself changes. */
  predicate SameClient(s: State, s': State, i: nat) {
    && i < |s.clients| && |s'.clients| == |s.clients|
    && s'.clients[i].payload == s.clients[i].payload && s'.clients[i].unwritten == s.clients[i].unwritten
    && s'.clients[i].got == s.clients[i].got && s'.clients[i].requests == s.clients[i].requests
  }

  /** How much of `room` bytes a call moves is up to the kernel. */
  method SomeOf(room: nat) returns (n: nat)
    requires room > 0
    ensures 1 <= n <= room
  {
    n := *;
    if n < 1 || n > room {
      n := room;
    }
  }

  /** write(2) of the whole payload on a blocking socket: it returns when everything has been taken over.  It only
      waits while the channel is full, here for `patience` rounds of the others. */
  method WritePayload(cfg: Config, s: State, i: nat, patience: nat)
    returns (done: bool, s': State, ghost labels: seq<Label>)
    requires Inv(cfg, s) && i < |s.clients|
    ensures Inv(cfg, s') && |s'.clients| == |s.clients| && Leads(cfg, s, labels, s')
    ensures s'.clients[i].payload == s.clients[i].payload && s'.clients[i].got == s.clients[i].got
    ensures s'.clients[i].requests == s.clients[i].requests
    ensures if done then s'.clients[i].unwritten == [] else s'.clients[i].unwritten != [] && Waits(cfg, s'.clients[i])
  {
    hide Leads, Inv;
    s', labels := s, [];
    LeadsNowhere(cfg, s);
    var left := patience;
    while s'.clients[i].unwritten != []
      invariant Inv(cfg, s') && |s'.clients| == |s.clients| && Leads(cfg, s, labels, s')
      invariant s'.clients[i].payload == s.clients[i].payload && s'.clients[i].got == s.clients[i].got
      invariant s'.clients[i].requests == s.clients[i].requests
      decreases |s'.clients[i].unwritten|, left
    {
      var s1, more := Others(cfg, s', i);
      LeadsFurther(cfg, s, labels, s', more, s1);
      s', labels := s1, labels + more;
      WithinCapacity(cfg, s', i);
      var c := s'.clients[i];
      if |c.up| == cfg.up {
        if left == 0 {
          return false, s', labels;
        }
        left := left - 1;
      } else {
        var room := if cfg.up - |c.up| < |c.unwritten| then cfg.up - |c.up| else |c.unwritten|;
        var n := SomeOf(room);
        StepKeepsInv(cfg, s', Write(i, n));
        LeadsOn(cfg, s, labels, s', Write(i, n));
        s', labels := Next(cfg, s', Write(i, n)), labels + [Write(i, n)];
      }
    }
    done := true;
  }

  lemma WithinCapacity(cfg: Config, s: State, i: nat)
    requires Inv(cfg, s) && i < |s.clients|
    ensures |s.clients[i].up| <= cfg.up
    ensures |s.clients[i].got| + |s.clients[i].down| <= |s.clients[i].payload|
  {
    assert Isolated(s.clients[i], Pending(s.hand, i));
  }

  /** One request of `worker`: the payload is written, then the echo is read piece by piece into `reply`.
      When it returns true the reply is the payload, byte for byte; otherwise it waits for the others. */
  method Request(cfg: Config, s: State, i: nat, reply: array<Byte>, patience: nat)
    returns (done: bool, s': State, ghost labels: seq<Label>)
    requires Inv(cfg, s) && i < |s.clients|
    requires s.clients[i] == Fresh(s.clients[i].payload, s.clients[i].requests)
    requires reply.Length == |s.clients[i].payload|
    modifies reply
    ensures Inv(cfg, s') && |s'.clients| == |s.clients| && Leads(cfg, s, labels, s')
    ensures s'.clients[i].requests == s.clients[i].requests && s'.clients[i].payload == s.clients[i].payload
    ensures if done then reply[..] == s.clients[i].payload && Complete(s'.clients[i]) else Waits(cfg, s'.clients[i])
    ensures done ==> s'.clients[i].up == [] && s'.clients[i].down == [] && Pending(s'.hand, i) == []
  {
    hide Leads, Inv;
    done, s', labels := WritePayload(cfg, s, i, patience);
    if !done {
      return;
    }
    var got := 0;
    var left := patience;
    while got < reply.Length
      invariant Inv(cfg, s') && |s'.clients| == |s.clients| && Leads(cfg, s, labels, s')
      invariant s'.clients[i].unwritten == []
      invariant s'.clients[i].payload == s.clients[i].payload && s'.clients[i].requests == s.clients[i].requests
      invariant got <= reply.Length && reply[..got] == s'.clients[i].got
      decreases reply.Length - got, left
    {
      var s1, more := Others(cfg, s', i);
      LeadsFurther(cfg, s, labels, s', more, s1);
      s', labels := s1, labels + more;
      if s'.clients[i].down == [] {
        if left == 0 {
          return false, s', labels;
        }
        left := left - 1;
        continue;
      }
      WithinCapacity(cfg, s', i);
      var n := SomeOf(|s'.clients[i].down|);
      var data := s'.clients[i].down[..n];
      StepKeepsInv(cfg, s', Read(i, n));
      LeadsOn(cfg, s, labels, s', Read(i, n));
      s', labels := Next(cfg, s', Read(i, n)), labels + [Read(i, n)];
      Filling(reply, got, data);
      got := got + n;
    }
    done := true;
    assert reply[..] == reply[..got];
    CompleteIsEmpty(cfg, s', i);
  }

  /** The bytes read go behind those already there. */
  method Filling(reply: array<Byte>, got: nat, data: seq<Byte>)
    requires got + |data| <= reply.Length
    modifies reply
    ensures reply[..got + |data|] == old(reply[..got]) + data
  {
    forall k | 0 <= k < |data| {
      reply[got + k] := data[k];
    }
  }

  lemma CompleteIsEmpty(cfg: Config, s: State, i: nat)
    requires Inv(cfg, s) && i < |s.clients| && |s.clients[i].got| == |s.clients[i].payload|
    ensures var c := s.clients[i]; c.got == c.payload && c.down == [] && Pending(s.hand, i) == [] && c.up == []
  {
    CompleteMeansEmpty(s.clients[i], Pending(s.hand, i));
  }

  /** `worker`: one request after another; the flag `stop` is found clear `rounds` times.  Every counted request is
      one whose reply was its payload; if the worker has not come to its end, its next call waits. */
  method Worker(cfg: Config, s: State, i: nat, payload: seq<Byte>, out: Result, rounds: nat, patience: nat)
    returns (finished: bool, s': State, ghost labels: seq<Label>)
    requires Inv(cfg, s) && i < |s.clients| && |payload| == cfg.size
    requires s.clients[i] == Fresh(payload, out.requests)
    modifies out
    ensures Inv(cfg, s') && i < |s'.clients| && Leads(cfg, s, labels, s') && s'.clients[i].payload == payload
    ensures out.requests == s'.clients[i].requests
    ensures if finished then out.requests == old(out.requests) + rounds && s'.clients[i] == Fresh(payload, out.requests)
            else old(out.requests) <= out.requests < old(out.requests) + rounds && Waits(cfg, s'.clients[i])
  {
    hide Leads, Inv;
    s', labels := s, [];
    LeadsNowhere(cfg, s);
    var reply := new Byte[|payload|];
    var round := 0;
    while round < rounds
      invariant round <= rounds && Inv(cfg, s') && i < |s'.clients| && Leads(cfg, s, labels, s')
      invariant s'.clients[i] == Fresh(payload, out.requests) && out.requests == old(out.requests) + round
    {
      var done, s1;
      ghost var more;
      done, s1, more := Request(cfg, s', i, reply, patience);
      LeadsFurther(cfg, s, labels, s', more, s1);
      s', labels := s1, labels + more;
      if !done {
        return false, s', labels;
      }
      var l := Begin(i, payload);
      StepKeepsInv(cfg, s', l);
      LeadsOn(cfg, s, labels, s', l);
      s', labels := Next(cfg, s', l), labels + [l];
      out.requests := out.requests + 1;
      round := round + 1;
    }
    finished := true;
  }
}
