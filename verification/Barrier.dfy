/**
 container.cpp: the pipe that holds the child back until its limits are set.

 clone() copies the descriptor table, so parent and child each start with both
 ends of the pipe.  No byte is ever written; read returns when no copy of the
 write end is left.  Parent and child are interleaved in every way.  The child
 may be killed at any time; the parent is not.
 */
module Barrier {
  import opened Text
  import opened Runs
  import Numbers
  import C = Cgroups

  /** `closesOwn`: the child closes its own copy of the write end, as child_main does. */
  datatype Config = Config(memoryLimit: int, pidsLimit: int, closesOwn: bool)

  datatype Side = Parent | Child

  datatype Act = LimitMemory | LimitSwap | LimitPids | AddProcess

  datatype ParentPc =
    CloseRead | Create | SetMemory | SetSwap | SetPids | Add | Report | CloseWrite | Wait | Done

  datatype ChildPc = CloseOwn | ReadPipe | CloseEnd | SetHostname | SetupRoot | Exec | Running | Exited

  /** Which sides hold each end, whether the cgroup was created, and which of the acts on it were attempted and
      which of those worked. */
  datatype State = State(parent: ParentPc, child: ChildPc, writers: set<Side>, readers: set<Side>,
                         created: bool, tried: set<Act>, worked: set<Act>)

  predicate Limited(cfg: Config) {
    cfg.memoryLimit > 0 || cfg.pidsLimit > 0
  }

  /** The acts of set_memory_limit that are attempted: memory.swap.max only after memory.max has worked. */
  function OfMemory(cfg: Config, s: State): set<Act> {
    if cfg.memoryLimit <= 0 then {}
    else if LimitMemory in s.worked then {LimitMemory, LimitSwap}
    else {LimitMemory}
  }

  function OfPids(cfg: Config): set<Act> {
    if cfg.pidsLimit > 0 then {LimitPids} else {}
  }

  function AfterMemory(cfg: Config): ParentPc {
    if cfg.pidsLimit > 0 then SetPids else Add
  }

  /** Both processes right after clone(). */
  function Cloned(cfg: Config): State {
    State(CloseRead, if cfg.closesOwn then CloseOwn else ReadPipe, {Parent, Child}, {Parent, Child}, false, {}, {})
  }

  function Attempt(s: State, act: Act, ok: bool, next: ParentPc): State {
    s.(parent := next, tried := s.tried + {act}, worked := if ok then s.worked + {act} else s.worked)
  }

  /** The parent's next action; `ok` says whether it worked. */
  predicate ParentStep(cfg: Config, s: State, s': State, ok: bool) {
    match s.parent
    case CloseRead =>
      s' == s.(parent := if Limited(cfg) then Create else Report, readers := s.readers - {Parent})
    case Create =>
      s' == s.(created := ok,
               parent := if !ok then Report else if cfg.memoryLimit > 0 then SetMemory else SetPids)
    case SetMemory => s' == Attempt(s, LimitMemory, ok, if ok then SetSwap else AfterMemory(cfg))
    case SetSwap => s' == Attempt(s, LimitSwap, ok, AfterMemory(cfg))
    case SetPids => s' == Attempt(s, LimitPids, ok, Add)
    case Add => s' == Attempt(s, AddProcess, ok, Report)
    case Report => s' == s.(parent := CloseWrite)
    case CloseWrite => s' == s.(parent := Wait, writers := s.writers - {Parent})
    case Wait => s.child.Exited? && s' == s.(parent := Done)
    case Done => false
  }

  /** The child's next action.  read(2) returns 0 once nobody holds the write end; it has nothing else to return. */
  predicate ChildStep(s: State, s': State, ok: bool) {
    match s.child
    case CloseOwn => s' == s.(child := ReadPipe, writers := s.writers - {Child})
    case ReadPipe => s.writers == {} && s' == s.(child := CloseEnd)
    case CloseEnd => s' == s.(child := SetHostname, readers := s.readers - {Child})
    case SetHostname => s' == s.(child := if ok then SetupRoot else Exited)
    case SetupRoot => s' == s.(child := if ok then Exec else Exited)
    case Exec => s' == s.(child := if ok then Running else Exited)
    case Running => s' == s.(child := Exited)
    case Exited => false
  }

  /** The child is killed: the kernel closes everything it had open. */
  predicate Killed(s: State, s': State) {
    !s.child.Exited? && s' == s.(child := Exited, writers := s.writers - {Child}, readers := s.readers - {Child})
  }

  /** A step of either process, an interrupted system call included. */
  predicate Step(cfg: Config, s: State, s': State, ok: bool) {
    ParentStep(cfg, s, s', ok) || ChildStep(s, s', ok) || Killed(s, s') || s' == s
  }

  // ---------------------------------------------------------------- the invariant

  predicate ParentReleased(p: ParentPc) {
    p.Wait? || p.Done?
  }

  /** The child is past the barrier. */
  predicate Passed(c: ChildPc) {
    c.CloseEnd? || c.SetHostname? || c.SetupRoot? || c.Exec? || c.Running?
  }

  /** The acts on the cgroup the parent has behind it. */
  function Behind(cfg: Config, s: State): set<Act> {
    match s.parent
    case CloseRead => {}
    case Create => {}
    case SetMemory => {}
    case SetSwap => {LimitMemory}
    case SetPids => OfMemory(cfg, s)
    case Add => OfMemory(cfg, s) + OfPids(cfg)
    case _ => if s.created then OfMemory(cfg, s) + OfPids(cfg) + {AddProcess} else {}
  }

  ghost predicate Inv(cfg: Config, s: State) {
    && (Parent in s.writers <==> !ParentReleased(s.parent))
    && (s.child.CloseOwn? ==> cfg.closesOwn)
    && (s.child.CloseOwn? || (s.child.ReadPipe? && !cfg.closesOwn) ==> Child in s.writers)
    && (Child in s.writers ==> s.child.CloseOwn? || (s.child.ReadPipe? && !cfg.closesOwn))
    && (Passed(s.child) ==> ParentReleased(s.parent))
    && s.tried == Behind(cfg, s) && s.worked <= s.tried
    && (s.parent.SetMemory? ==> cfg.memoryLimit > 0 && s.created)
    && (s.parent.SetSwap? ==> cfg.memoryLimit > 0 && s.created && LimitMemory in s.worked)
    && (s.parent.SetPids? ==> cfg.pidsLimit > 0 && s.created)
    && (s.parent.Add? ==> s.created)
    && (s.parent.Create? ==> Limited(cfg) && !s.created)
    && (s.parent.CloseRead? ==> !s.created)
    && (s.created ==> Limited(cfg))
    && (s.parent.Done? ==> s.child.Exited?)
  }

  lemma ClonedIsInv(cfg: Config)
    ensures Inv(cfg, Cloned(cfg))
  {
  }

  lemma StepKeepsInv(cfg: Config, s: State, s': State, ok: bool)
    requires Inv(cfg, s) && Step(cfg, s, s', ok)
    ensures Inv(cfg, s')
  {
    if ParentStep(cfg, s, s', ok) {
      ParentKeepsInv(cfg, s, s', ok);
    }
  }

  lemma ParentKeepsInv(cfg: Config, s: State, s': State, ok: bool)
    requires Inv(cfg, s) && ParentStep(cfg, s, s', ok)
    ensures Inv(cfg, s')
  {
    match s.parent
    case SetMemory =>
      assert s'.tried == {LimitMemory};
    case SetSwap =>
      assert s'.tried == {LimitMemory, LimitSwap};
    case SetPids =>
      assert s'.tried == OfMemory(cfg, s') + OfPids(cfg);
    case Add =>
      assert s'.tried == OfMemory(cfg, s') + OfPids(cfg) + {AddProcess};
    case _ =>
  }

  // ---------------------------------------------------------------- runs

  ghost predicate Run(cfg: Config, states: seq<State>, oks: seq<bool>) {
    && |states| == |oks| + 1 && states[0] == Cloned(cfg)
    && forall k | 0 <= k < |oks| :: Step(cfg, states[k], states[k + 1], oks[k])
  }

  lemma {:induction false} RunKeepsInv(cfg: Config, states: seq<State>, oks: seq<bool>, k: nat)
    requires Run(cfg, states, oks) && k < |states|
    ensures Inv(cfg, states[k])
  {
    if k == 0 {
      ClonedIsInv(cfg);
    } else {
      RunKeepsInv(cfg, states, oks, k - 1);
      StepKeepsInv(cfg, states[k - 1], states[k], oks[k - 1]);
    }
  }

  /** In every interleaving the child is past the barrier only when every limit, and the move into the cgroup,
      has been attempted; what worked was in force before the child did anything else. */
  lemma PassesOnlyAfterTheLimits(cfg: Config, states: seq<State>, oks: seq<bool>, k: nat)
    requires Run(cfg, states, oks) && k < |states| && Passed(states[k].child)
    ensures var s := states[k];
            && s.writers == {} && (!s.created ==> s.tried == {})
            && (s.created ==>
                  && (LimitMemory in s.tried <==> cfg.memoryLimit > 0) && (LimitPids in s.tried <==> cfg.pidsLimit > 0)
                  && (LimitSwap in s.tried <==> LimitMemory in s.worked) && AddProcess in s.tried)
  {
    RunKeepsInv(cfg, states, oks, k);
    NoSides(states[k].writers);
  }

  lemma NoSides(ends: set<Side>)
    ensures Parent !in ends && Child !in ends ==> ends == {}
  {
    if Parent !in ends && Child !in ends {
      forall x: Side ensures x !in ends {
        match x
        case Parent =>
        case Child =>
      }
    }
  }

  /** Once the child has passed, nothing is attempted any more: what it finds is what it keeps. */
  lemma NothingChangesAfterPassing(cfg: Config, s: State, s': State, ok: bool)
    requires Inv(cfg, s) && Step(cfg, s, s', ok) && Passed(s.child)
    ensures s'.created == s.created && s'.tried == s.tried && s'.worked == s.worked
  {
  }

  // ---------------------------------------------------------------- deadlock

  /** Neither process can do anything by itself although they are not both finished. */
  ghost predicate Deadlock(cfg: Config, s: State) {
    && !(s.parent.Done? && s.child.Exited?)
    && forall s', ok :: !ParentStep(cfg, s, s', ok) && !ChildStep(s, s', ok)
  }

  function ParentNext(cfg: Config, s: State): State {
    match s.parent
    case CloseRead => s.(parent := if Limited(cfg) then Create else Report, readers := s.readers - {Parent})
    case Create => s.(created := true, parent := if cfg.memoryLimit > 0 then SetMemory else SetPids)
    case SetMemory => Attempt(s, LimitMemory, true, SetSwap)
    case SetSwap => Attempt(s, LimitSwap, true, AfterMemory(cfg))
    case SetPids => Attempt(s, LimitPids, true, Add)
    case Add => Attempt(s, AddProcess, true, Report)
    case Report => s.(parent := CloseWrite)
    case CloseWrite => s.(parent := Wait, writers := s.writers - {Parent})
    case _ => s.(parent := Done)
  }

  function ChildNext(s: State): State {
    match s.child
    case CloseOwn => s.(child := ReadPipe, writers := s.writers - {Child})
    case ReadPipe => s.(child := CloseEnd)
    case CloseEnd => s.(child := SetHostname, readers := s.readers - {Child})
    case SetHostname => s.(child := SetupRoot)
    case SetupRoot => s.(child := Exec)
    case Exec => s.(child := Running)
    case _ => s.(child := Exited)
  }

  /** A deadlock is exactly the child waiting in read for a write end that it holds itself. */
  lemma DeadlockIsExactly(cfg: Config, s: State)
    requires Inv(cfg, s)
    ensures Deadlock(cfg, s) <==> s.parent.Wait? && s.child.ReadPipe? && Child in s.writers
  {
    if s.parent.Wait? && s.child.ReadPipe? && Child in s.writers {
      assert s.writers != {};
    } else if !s.parent.Wait? && !s.parent.Done? {
      assert ParentStep(cfg, s, ParentNext(cfg, s), true);
    } else if s.child.Exited? {
      if s.parent.Wait? {
        assert ParentStep(cfg, s, ParentNext(cfg, s), true);
      }
    } else {
      NoSides(s.writers);
      assert ChildStep(s, ChildNext(s), true);
    }
  }

  /** The parent alone, up to waiting, when no limits are asked for. */
  lemma ParentAlone(closesOwn: bool) returns (states: seq<State>, oks: seq<bool>)
    ensures Run(Config(0, 0, closesOwn), states, oks) && |states| == 5
    ensures states[4].parent.Wait? && states[4].child == Cloned(Config(0, 0, closesOwn)).child
    ensures Child in states[4].writers
  {
    var cfg := Config(0, 0, closesOwn);
    var s0 := Cloned(cfg);
    var s1 := ParentNext(cfg, s0);
    var s2 := ParentNext(cfg, s1);
    var s3 := ParentNext(cfg, s2);
    states, oks := [s0, s1, s2, s3, s3], [true, true, true, true];
    assert forall k | 0 <= k < |oks| :: Step(cfg, states[k], states[k + 1], oks[k]);
  }

  /** No interleaving ever deadlocks exactly because the child closes its own copy of the write end. */
  lemma NoDeadlockExactlyIfChildCloses(closesOwn: bool)
    ensures (forall memory, pids, states, oks, k: nat ::
               Run(Config(memory, pids, closesOwn), states, oks) && k < |states| ==>
                 !Deadlock(Config(memory, pids, closesOwn), states[k]))
            <==> closesOwn
  {
    if closesOwn {
      forall memory, pids, states, oks, k: nat | Run(Config(memory, pids, closesOwn), states, oks) && k < |states|
        ensures !Deadlock(Config(memory, pids, closesOwn), states[k])
      {
        var cfg := Config(memory, pids, closesOwn);
        RunKeepsInv(cfg, states, oks, k);
        DeadlockIsExactly(cfg, states[k]);
      }
    } else {
      var states, oks := ParentAlone(false);
      var cfg := Config(0, 0, false);
      RunKeepsInv(cfg, states, oks, 4);
      DeadlockIsExactly(cfg, states[4]);
      assert Deadlock(cfg, states[4]);
    }
  }

  // ---------------------------------------------------------------- termination

  function ParentLeft(p: ParentPc): nat {
    match p
    case CloseRead => 9
    case Create => 8
    case SetMemory => 7
    case SetSwap => 6
    case SetPids => 5
    case Add => 4
    case Report => 3
    case CloseWrite => 2
    case Wait => 1
    case Done => 0
  }

  function ChildLeft(c: ChildPc): nat {
    match c
    case CloseOwn => 7
    case ReadPipe => 6
    case CloseEnd => 5
    case SetHostname => 4
    case SetupRoot => 3
    case Exec => 2
    case Running => 1
    case Exited => 0
  }

  /** Every action brings the end nearer, so a start-up takes at most 16 of them; with the absence of deadlocks,
      one that nobody extends has ended with the child reaped. */
  lemma StartUpEnds(cfg: Config, s: State, s': State, ok: bool)
    requires ParentStep(cfg, s, s', ok) || ChildStep(s, s', ok) || Killed(s, s')
    ensures ParentLeft(s'.parent) + ChildLeft(s'.child) < ParentLeft(s.parent) + ChildLeft(s.child)
  {
  }

  // ---------------------------------------------------------------- the processes and the cgroup tree

  function Name(pid: C.Pid): string {
    "mc-" + Numbers.Show(pid, 10)
  }

  function Leaf(pid: C.Pid): C.Path {
    C.PARENT + [Name(pid)]
  }

  /** The two processes, the cgroup tree, and where the parent is in `create`. */
  datatype World = World(s: State, x: C.State)

  datatype Label =
    | OfChild(ok: bool)
    | Kill
    | Elsewhere
    | InCreate(c: C.Call)
    | OfParent(ok: bool)
    | Interrupted // waitpid fails with EINTR

  /** What the parent's next action does to the tree. */
  ghost predicate Acts(cfg: Config, pid: C.Pid, p: ParentPc, x: C.State, ok: bool, t': C.Tree) {
    match p
    case Create => x.pc == C.Ended(ok) && t' == x.t
    case SetMemory => C.Limits(x.t, t', Leaf(pid), C.Memory, "memory.max", cfg.memoryLimit, ok)
    case SetSwap => C.Limits(x.t, t', Leaf(pid), C.Memory, "memory.swap.max", 0, ok)
    case SetPids => C.Limits(x.t, t', Leaf(pid), C.Pids, "pids.max", cfg.pidsLimit, ok)
    case Add => C.Moves(x.t, t', Leaf(pid), pid, ok)
    case _ => t' == x.t
  }

  /** One of the two processes moves, waitpid is interrupted, the parent makes a call of `create`, or other processes
      exit and fork. */
  ghost predicate Moves(cfg: Config, pid: C.Pid, w: World, l: Label, w': World) {
    match l
    case OfChild(ok) => ChildStep(w.s, w'.s, ok) && w'.x == w.x
    case Kill => Killed(w.s, w'.s) && w'.x == w.x
    case Elsewhere => w'.s == w.s && C.Interferes(w.x.t, w'.x.t) && w'.x.pc == w.x.pc
    case InCreate(c) => w.s.parent.Create? && w'.s == w.s && !c.Elsewhere? && C.Step(Name(pid), w.x, c, w'.x)
    case OfParent(ok) =>
      ParentStep(cfg, w.s, w'.s, ok) && w'.x.pc == w.x.pc && Acts(cfg, pid, w.s.parent, w.x, ok, w'.x.t)
    case Interrupted => w.s.parent.Wait? && w' == w
  }

  type Course = Walk<World, Label>

  ghost function Steps(cfg: Config, pid: C.Pid): (World, Label, World) -> bool {
    (w, l, w') => Moves(cfg, pid, w, l, w')
  }

  /** From clone() on, in the tree `t`. */
  ghost predicate IsCourse(cfg: Config, pid: C.Pid, t: C.Tree, run: Course) {
    Follows(run, World(Cloned(cfg), C.State(t, C.Checking)), Steps(cfg, pid))
  }

  /** What worked on the cgroup is in force: the limits, and, for a container that lives, the one cgroup it is in. */
  ghost predicate Confined(cfg: Config, s: State, pid: C.Pid, t: C.Tree) {
    && (LimitMemory in s.worked ==> C.HasLimit(t, Leaf(pid), "memory.max", cfg.memoryLimit))
    && (LimitSwap in s.worked ==> C.HasLimit(t, Leaf(pid), "memory.swap.max", 0))
    && (LimitPids in s.worked ==> C.HasLimit(t, Leaf(pid), "pids.max", cfg.pidsLimit))
    && (AddProcess in s.worked && pid in t.live ==> C.Holds(t, Leaf(pid), pid))
  }

  /** The processes that were in the root at the start, without the container once it has been moved. */
  function Early(s: State, pid: C.Pid, t0: C.Tree): set<C.Pid> {
    C.Procs(t0, C.ROOT) - (if AddProcess in s.worked then {pid} else {})
  }

  /** `create` is over before anything is done to the new cgroup; it is called if and only if a limit is asked for. */
  predicate InOrder(cfg: Config, w: World) {
    match w.s.parent
    case CloseRead => w.x.pc == C.Checking && !w.s.created
    case Create => !w.s.created
    case _ =>
      if cfg.memoryLimit > 0 || cfg.pidsLimit > 0 then
        w.x.pc.Ended? && (w.s.created <==> w.x.pc == C.Ended(true))
      else w.x.pc == C.Checking && !w.s.created
  }

  ghost predicate TreeSide(pid: C.Pid, t0: C.Tree, w: World) {
    && C.TreeInv(w.x.t) && C.SomeParent(w.x.pc) && C.Achieved(Name(pid), w.x.t, w.x.pc)
    && w.x.t.exempt == t0.exempt && w.x.t.available == t0.available
    && C.Within(w.x.t, Early(w.s, pid, t0), w.x.t.exempt || !C.PastRoot(w.x.pc))
  }

  /** A container that has been moved was alive then, and once dead its pid does not come back. */
  ghost predicate ForceSide(cfg: Config, pid: C.Pid, w: World) {
    Confined(cfg, w.s, pid, w.x.t) && (AddProcess in w.s.worked ==> pid in w.x.t.seen)
  }

  ghost predicate WorldInv(cfg: Config, pid: C.Pid, t0: C.Tree, w: World) {
    Inv(cfg, w.s) && InOrder(cfg, w) && TreeSide(pid, t0, w) && ForceSide(cfg, pid, w)
  }

  lemma WorldParts(cfg: Config, pid: C.Pid, t0: C.Tree, w: World)
    requires WorldInv(cfg, pid, t0, w)
    ensures Inv(cfg, w.s) && InOrder(cfg, w) && TreeSide(pid, t0, w) && ForceSide(cfg, pid, w)
    ensures C.TreeInv(w.x.t) && C.SomeParent(w.x.pc) && C.Achieved(Name(pid), w.x.t, w.x.pc)
    ensures C.Within(w.x.t, Early(w.s, pid, t0), w.x.t.exempt || !C.PastRoot(w.x.pc))
  {
  }

  lemma WorldFolds(cfg: Config, pid: C.Pid, t0: C.Tree, w: World)
    requires Inv(cfg, w.s) && InOrder(cfg, w) && TreeSide(pid, t0, w) && ForceSide(cfg, pid, w)
    ensures WorldInv(cfg, pid, t0, w)
  {
  }

  lemma ChildLeavesTheParent(s: State, s': State, ok: bool)
    requires ChildStep(s, s', ok) || Killed(s, s')
    ensures s'.parent == s.parent && s'.created == s.created && s'.tried == s.tried && s'.worked == s.worked
  {
  }

  lemma ChildKeepsWorld(cfg: Config, pid: C.Pid, t0: C.Tree, w: World, l: Label, w': World)
    requires WorldInv(cfg, pid, t0, w) && Moves(cfg, pid, w, l, w') && (l.OfChild? || l.Kill?)
    ensures WorldInv(cfg, pid, t0, w')
  {
    hide Inv, C.TreeInv, C.Within, C.Achieved, C.PastRoot, ChildStep, Killed;
    ChildLeavesTheParent(w.s, w'.s, l.OfChild? && l.ok);
    StepKeepsInv(cfg, w.s, w'.s, l.OfChild? && l.ok);
  }

  lemma ElsewhereKeepsWorld(cfg: Config, pid: C.Pid, t0: C.Tree, w: World, w': World)
    requires WorldInv(cfg, pid, t0, w) && Moves(cfg, pid, w, Elsewhere, w')
    ensures WorldInv(cfg, pid, t0, w')
  {
    hide *;
    WorldParts(cfg, pid, t0, w);
    ElsewhereIs(cfg, pid, w, w');
    var root := w.x.t.exempt || !C.PastRoot(w.x.pc);
    C.ElsewhereFacts(w.x.t, w'.x.t, Early(w.s, pid, t0), root);
    C.StepElsewhere(Name(pid), w.x, w'.x);
    C.RootIsThere(w.x.t);
    C.StepAchieves(Name(pid), w.x, C.Elsewhere, w'.x);
    TreeSideFolds(pid, t0, w, w');
    ElsewhereKeepsForce(cfg, pid, w, w');
    SameOrder(cfg, w, w');
    WorldFolds(cfg, pid, t0, w');
  }

  lemma ElsewhereIs(cfg: Config, pid: C.Pid, w: World, w': World)
    requires Moves(cfg, pid, w, Elsewhere, w')
    ensures w'.s == w.s && C.Interferes(w.x.t, w'.x.t) && w'.x.pc == w.x.pc
    ensures w'.x.t.exempt == w.x.t.exempt && w'.x.t.available == w.x.t.available
  {
  }

  lemma SameOrder(cfg: Config, w: World, w': World)
    requires InOrder(cfg, w) && w'.s == w.s && w'.x.pc == w.x.pc
    ensures InOrder(cfg, w')
  {
  }

  lemma TreeSideFolds(pid: C.Pid, t0: C.Tree, w: World, w': World)
    requires TreeSide(pid, t0, w) && w'.x.pc == w.x.pc
    requires C.TreeInv(w'.x.t) && C.Achieved(Name(pid), w'.x.t, w'.x.pc)
    requires w'.x.t.exempt == w.x.t.exempt && w'.x.t.available == w.x.t.available
    requires C.Within(w'.x.t, Early(w'.s, pid, t0), w.x.t.exempt || !C.PastRoot(w.x.pc))
    ensures TreeSide(pid, t0, w')
  {
    hide C.TreeInv, C.Within, C.Achieved, C.PastRoot, C.SomeParent, Early, Name;
  }

  lemma ElsewhereKeepsForce(cfg: Config, pid: C.Pid, w: World, w': World)
    requires ForceSide(cfg, pid, w) && C.TreeInv(w.x.t) && C.Interferes(w.x.t, w'.x.t) && w'.s == w.s
    requires w.x.t.seen <= w'.x.t.seen
    requires forall q, f, v | C.HasLimit(w.x.t, q, f, v) :: C.HasLimit(w'.x.t, q, f, v)
    ensures ForceSide(cfg, pid, w')
  {
    hide C.TreeInv, C.Interferes, C.HasLimit, C.Holds, Leaf;
    if pid in w'.x.t.live && AddProcess in w.s.worked {
      C.DeadStayDead(w.x.t, w'.x.t, pid);
      C.InterferenceKeepsHolds(w.x.t, w'.x.t, Leaf(pid), pid);
    }
  }

  // ---- the calls of create

  lemma CreateKeepsWorld(cfg: Config, pid: C.Pid, t0: C.Tree, w: World, c: C.Call, w': World)
    requires WorldInv(cfg, pid, t0, w) && Moves(cfg, pid, w, InCreate(c), w')
    ensures WorldInv(cfg, pid, t0, w')
  {
    hide *;
    WorldParts(cfg, pid, t0, w);
    CreateIs(cfg, pid, w, c, w');
    NothingWorkedYet(cfg, w.s);
    C.StepDoes(Name(pid), w.x, c, w'.x);
    C.DoesKeeps(w.x.t, c, w'.x.t);
    C.RootIsThere(w.x.t);
    C.StepAchieves(Name(pid), w.x, c, w'.x);
    C.StepKeepsParents(Name(pid), w.x, c, w'.x);
    C.DoesKeepsWithin(Name(pid), w.x, c, w'.x, Early(w.s, pid, t0));
    CreateTreeSide(pid, t0, w, w');
    NothingIsForced(cfg, pid, w');
    CreateOrder(cfg, w');
    WorldFolds(cfg, pid, t0, w');
  }

  lemma CreateIs(cfg: Config, pid: C.Pid, w: World, c: C.Call, w': World)
    requires Moves(cfg, pid, w, InCreate(c), w')
    ensures w.s.parent.Create? && w'.s == w.s && C.Step(Name(pid), w.x, c, w'.x)
  {
  }

  predicate OnTheCgroup(p: ParentPc) {
    p.SetMemory? || p.SetSwap? || p.SetPids? || p.Add?
  }

  lemma OnTheCgroupIs(p: ParentPc)
    ensures OnTheCgroup(p) <==> p.SetMemory? || p.SetSwap? || p.SetPids? || p.Add?
  {
  }

  lemma NothingWorkedYet(cfg: Config, s: State)
    requires Inv(cfg, s)
    ensures s.parent.CloseRead? || s.parent.Create? || s.parent.SetMemory? ==> s.worked == {}
    ensures s.parent.CloseRead? || s.parent.Create? ==> !s.created
    ensures s.parent.SetSwap? || s.parent.SetPids? || s.parent.Add? ==> AddProcess !in s.worked
    ensures s.parent.SetSwap? || s.parent.SetPids? ==> LimitPids !in s.worked
    ensures s.parent.SetSwap? ==> LimitSwap !in s.worked
    ensures OnTheCgroup(s.parent) ==> s.created
  {
  }

  lemma CreateTreeSide(pid: C.Pid, t0: C.Tree, w: World, w': World)
    requires TreeSide(pid, t0, w) && w'.s == w.s && C.SomeParent(w'.x.pc)
    requires C.TreeInv(w'.x.t) && C.Achieved(Name(pid), w'.x.t, w'.x.pc)
    requires w'.x.t.exempt == w.x.t.exempt && w'.x.t.available == w.x.t.available
    requires C.Within(w'.x.t, Early(w.s, pid, t0), w.x.t.exempt || !C.PastRoot(w'.x.pc))
    ensures TreeSide(pid, t0, w')
  {
    hide C.TreeInv, C.Within, C.Achieved, C.PastRoot, C.SomeParent, Early, Name;
  }

  lemma NothingIsForced(cfg: Config, pid: C.Pid, w: World)
    requires w.s.worked == {}
    ensures ForceSide(cfg, pid, w)
  {
  }

  lemma CreateOrder(cfg: Config, w: World)
    requires w.s.parent.Create? && !w.s.created
    ensures InOrder(cfg, w)
  {
  }

  // ---- the parent's own actions

  lemma ParentKeepsWorld(cfg: Config, pid: C.Pid, t0: C.Tree, w: World, ok: bool, w': World)
    requires WorldInv(cfg, pid, t0, w) && Moves(cfg, pid, w, OfParent(ok), w')
    ensures WorldInv(cfg, pid, t0, w')
  {
    hide *;
    WorldParts(cfg, pid, t0, w);
    ParentIs(cfg, pid, w, ok, w');
    NothingWorkedYet(cfg, w.s);
    ParentKeepsInv(cfg, w.s, w'.s, ok);
    ParentKeepsOrder(cfg, pid, w, ok, w');
    if OnTheCgroup(w.s.parent) {
      ActKeepsWorld(cfg, pid, t0, w, ok, w');
    } else {
      OtherActKeepsWorld(cfg, pid, t0, w, ok, w');
    }
    WorldFolds(cfg, pid, t0, w');
  }

  lemma ParentIs(cfg: Config, pid: C.Pid, w: World, ok: bool, w': World)
    requires Moves(cfg, pid, w, OfParent(ok), w')
    ensures ParentStep(cfg, w.s, w'.s, ok) && w'.x.pc == w.x.pc && Acts(cfg, pid, w.s.parent, w.x, ok, w'.x.t)
  {
  }

  lemma ParentKeepsOrder(cfg: Config, pid: C.Pid, w: World, ok: bool, w': World)
    requires Inv(cfg, w.s) && InOrder(cfg, w) && ParentStep(cfg, w.s, w'.s, ok) && w'.x.pc == w.x.pc
    requires Acts(cfg, pid, w.s.parent, w.x, ok, w'.x.t)
    ensures InOrder(cfg, w')
  {
    hide C.Limits, C.Moves;
  }

  lemma OtherActKeepsWorld(cfg: Config, pid: C.Pid, t0: C.Tree, w: World, ok: bool, w': World)
    requires TreeSide(pid, t0, w) && ForceSide(cfg, pid, w) && ParentStep(cfg, w.s, w'.s, ok) && w'.x.pc == w.x.pc
    requires Acts(cfg, pid, w.s.parent, w.x, ok, w'.x.t)
    requires !OnTheCgroup(w.s.parent)
    ensures TreeSide(pid, t0, w') && ForceSide(cfg, pid, w')
  {
    hide C.TreeInv, C.Within, C.Achieved, C.PastRoot, C.SomeParent, C.HasLimit, C.Holds, Name, Leaf;
  }

  /** The limits and the move: each that worked is in force, and nobody else is moved. */
  lemma ActKeepsWorld(cfg: Config, pid: C.Pid, t0: C.Tree, w: World, ok: bool, w': World)
    requires InOrder(cfg, w) && TreeSide(pid, t0, w) && ForceSide(cfg, pid, w)
    requires w.s.created && ParentStep(cfg, w.s, w'.s, ok) && w'.x.pc == w.x.pc
    requires w.s.parent.SetMemory? ==> w.s.worked == {}
    requires w.s.parent.SetSwap? || w.s.parent.SetPids? || w.s.parent.Add? ==> AddProcess !in w.s.worked
    requires w.s.parent.SetSwap? || w.s.parent.SetPids? ==> LimitPids !in w.s.worked
    requires w.s.parent.SetSwap? ==> LimitSwap !in w.s.worked
    requires Acts(cfg, pid, w.s.parent, w.x, ok, w'.x.t) && OnTheCgroup(w.s.parent)
    ensures TreeSide(pid, t0, w') && ForceSide(cfg, pid, w')
  {
    hide *;
    var early, root := Early(w.s, pid, t0), w.x.t.exempt || !C.PastRoot(w.x.pc);
    TreeSideParts(pid, t0, w);
    OnTheCgroupIs(w.s.parent);
    AfterCreate(cfg, w);
    if w.s.parent.SetMemory? {
      ActOfMemory(cfg, pid, w, ok, w');
      C.LimitFacts(w.x.t, w'.x.t, Leaf(pid), C.Memory, "memory.max", cfg.memoryLimit, ok, early, root);
      MemoryIsForced(cfg, pid, w, ok, w');
    } else if w.s.parent.SetSwap? {
      ActOfSwap(cfg, pid, w, ok, w');
      C.LimitFacts(w.x.t, w'.x.t, Leaf(pid), C.Memory, "memory.swap.max", 0, ok, early, root);
      SwapIsForced(cfg, pid, w, ok, w');
    } else if w.s.parent.SetPids? {
      ActOfPids(cfg, pid, w, ok, w');
      C.LimitFacts(w.x.t, w'.x.t, Leaf(pid), C.Pids, "pids.max", cfg.pidsLimit, ok, early, root);
      PidsAreForced(cfg, pid, w, ok, w');
    } else {
      ActOfAdd(cfg, pid, w, ok, w');
      C.AddFacts(w.x.t, w'.x.t, Leaf(pid), pid, ok, early, root);
      AddIsForced(cfg, pid, t0, w, ok, w');
    }
    C.GrowsKeepsSuccess(Name(pid), w.x.t, w'.x.t);
    C.SameTree(w.x.t, w'.x.t);
    TreeSideFolds(pid, t0, w, w');
  }

  lemma TreeSideParts(pid: C.Pid, t0: C.Tree, w: World)
    requires TreeSide(pid, t0, w)
    ensures C.TreeInv(w.x.t) && C.Achieved(Name(pid), w.x.t, w.x.pc)
    ensures C.Within(w.x.t, Early(w.s, pid, t0), w.x.t.exempt || !C.PastRoot(w.x.pc))
  {
  }

  lemma AfterCreate(cfg: Config, w: World)
    requires InOrder(cfg, w) && w.s.created && OnTheCgroup(w.s.parent)
    ensures w.x.pc == C.Ended(true)
  {
  }

  lemma ActOfMemory(cfg: Config, pid: C.Pid, w: World, ok: bool, w': World)
    requires w.s.parent.SetMemory? && ParentStep(cfg, w.s, w'.s, ok)
    requires Acts(cfg, pid, w.s.parent, w.x, ok, w'.x.t)
    ensures C.Limits(w.x.t, w'.x.t, Leaf(pid), C.Memory, "memory.max", cfg.memoryLimit, ok)
    ensures forall t0 :: Early(w'.s, pid, t0) == Early(w.s, pid, t0)
  {
  }

  lemma MemoryIsForced(cfg: Config, pid: C.Pid, w: World, ok: bool, w': World)
    requires w.s.parent.SetMemory? && ParentStep(cfg, w.s, w'.s, ok) && w.s.worked == {}
    requires ok ==> C.HasLimit(w'.x.t, Leaf(pid), "memory.max", cfg.memoryLimit)
    ensures ForceSide(cfg, pid, w')
  {
    hide Leaf;
  }

  lemma ActOfSwap(cfg: Config, pid: C.Pid, w: World, ok: bool, w': World)
    requires w.s.parent.SetSwap? && ParentStep(cfg, w.s, w'.s, ok)
    requires Acts(cfg, pid, w.s.parent, w.x, ok, w'.x.t)
    ensures C.Limits(w.x.t, w'.x.t, Leaf(pid), C.Memory, "memory.swap.max", 0, ok)
    ensures forall t0 :: Early(w'.s, pid, t0) == Early(w.s, pid, t0)
  {
  }

  lemma SwapIsForced(cfg: Config, pid: C.Pid, w: World, ok: bool, w': World)
    requires w.s.parent.SetSwap? && ParentStep(cfg, w.s, w'.s, ok) && ForceSide(cfg, pid, w)
    requires AddProcess !in w.s.worked && LimitPids !in w.s.worked && LimitSwap !in w.s.worked
    requires ok ==> C.HasLimit(w'.x.t, Leaf(pid), "memory.swap.max", 0)
    requires forall q, f, v | C.HasLimit(w.x.t, q, f, v) && (q != Leaf(pid) || f != "memory.swap.max") ::
               C.HasLimit(w'.x.t, q, f, v)
    ensures ForceSide(cfg, pid, w')
  {
    hide Leaf, C.HasLimit;
    FilesDiffer();
  }

  lemma FilesDiffer()
    ensures "memory.max" != "memory.swap.max" && "memory.max" != "pids.max" && "memory.swap.max" != "pids.max"
  {
    assert |"memory.max"| != |"pids.max"| && |"memory.max"| != |"memory.swap.max"|;
    assert |"memory.swap.max"| != |"pids.max"|;
  }

  lemma ActOfPids(cfg: Config, pid: C.Pid, w: World, ok: bool, w': World)
    requires w.s.parent.SetPids? && ParentStep(cfg, w.s, w'.s, ok)
    requires Acts(cfg, pid, w.s.parent, w.x, ok, w'.x.t)
    ensures C.Limits(w.x.t, w'.x.t, Leaf(pid), C.Pids, "pids.max", cfg.pidsLimit, ok)
    ensures forall t0 :: Early(w'.s, pid, t0) == Early(w.s, pid, t0)
  {
  }

  lemma PidsAreForced(cfg: Config, pid: C.Pid, w: World, ok: bool, w': World)
    requires w.s.parent.SetPids? && ParentStep(cfg, w.s, w'.s, ok) && ForceSide(cfg, pid, w)
    requires AddProcess !in w.s.worked && LimitPids !in w.s.worked
    requires ok ==> C.HasLimit(w'.x.t, Leaf(pid), "pids.max", cfg.pidsLimit)
    requires forall q, f, v | C.HasLimit(w.x.t, q, f, v) && (q != Leaf(pid) || f != "pids.max") ::
               C.HasLimit(w'.x.t, q, f, v)
    ensures ForceSide(cfg, pid, w')
  {
    hide Leaf, C.HasLimit;
    FilesDiffer();
  }

  lemma ActOfAdd(cfg: Config, pid: C.Pid, w: World, ok: bool, w': World)
    requires w.s.parent.Add? && ParentStep(cfg, w.s, w'.s, ok)
    requires Acts(cfg, pid, w.s.parent, w.x, ok, w'.x.t)
    ensures C.Moves(w.x.t, w'.x.t, Leaf(pid), pid, ok)
  {
  }

  lemma AddIsForced(cfg: Config, pid: C.Pid, t0: C.Tree, w: World, ok: bool, w': World)
    requires w.s.parent.Add? && ParentStep(cfg, w.s, w'.s, ok) && ForceSide(cfg, pid, w)
    requires AddProcess !in w.s.worked
    requires ok ==> C.Holds(w'.x.t, Leaf(pid), pid) && pid in w.x.t.seen
    requires w'.x.t.seen == w.x.t.seen
    requires forall q, f, v | C.HasLimit(w.x.t, q, f, v) :: C.HasLimit(w'.x.t, q, f, v)
    ensures ForceSide(cfg, pid, w')
    ensures Early(w'.s, pid, t0) == if ok then Early(w.s, pid, t0) - {pid} else Early(w.s, pid, t0)
  {
    hide Leaf, C.HasLimit, C.Holds, C.Procs;
  }

  // ---- whole courses

  lemma StepKeepsWorld(cfg: Config, pid: C.Pid, t0: C.Tree, w: World, l: Label, w': World)
    requires WorldInv(cfg, pid, t0, w) && Moves(cfg, pid, w, l, w')
    ensures WorldInv(cfg, pid, t0, w')
  {
    hide WorldInv, Moves;
    match l
    case OfChild(_) => ChildKeepsWorld(cfg, pid, t0, w, l, w');
    case Kill => ChildKeepsWorld(cfg, pid, t0, w, l, w');
    case Elsewhere => ElsewhereKeepsWorld(cfg, pid, t0, w, w');
    case InCreate(c) => CreateKeepsWorld(cfg, pid, t0, w, c, w');
    case OfParent(ok) => ParentKeepsWorld(cfg, pid, t0, w, ok, w');
    case Interrupted => InterruptedIs(cfg, pid, w, w');
  }

  lemma InterruptedIs(cfg: Config, pid: C.Pid, w: World, w': World)
    requires Moves(cfg, pid, w, Interrupted, w')
    ensures w' == w
  {
  }

  lemma StartsWell(cfg: Config, pid: C.Pid, t0: C.Tree)
    requires C.TreeInv(t0)
    ensures WorldInv(cfg, pid, t0, World(Cloned(cfg), C.State(t0, C.Checking)))
  {
    hide C.TreeInv, C.Within, C.PastRoot;
    ClonedIsInv(cfg);
    C.AllInRoot(t0);
    C.StartsBeforeRoot();
    C.NothingAchieved(Name(pid), t0);
    assert Early(Cloned(cfg), pid, t0) == C.Procs(t0, C.ROOT);
  }

  lemma {:induction false} CourseKeepsWorld(cfg: Config, pid: C.Pid, t: C.Tree, run: Course)
    requires C.TreeInv(t) && IsCourse(cfg, pid, t, run)
    ensures WorldInv(cfg, pid, t, End(run))
    decreases |run.labels|
  {
    hide WorldInv, Moves, C.TreeInv;
    if run.labels == [] {
      StartsWell(cfg, pid, t);
    } else {
      BeforeFollows(run, World(Cloned(cfg), C.State(t, C.Checking)), Steps(cfg, pid));
      CourseKeepsWorld(cfg, pid, t, Before(run));
      StepKeepsWorld(cfg, pid, t, End(Before(run)), run.labels[|run.labels| - 1], End(run));
    }
  }

  lemma ActsByLabel(cfg: Config, pid: C.Pid, w: World, l: Label, w': World)
    requires Moves(cfg, pid, w, l, w')
    ensures w'.s.created == if l.OfParent? && w.s.parent.Create? then l.ok else w.s.created
    ensures LimitMemory in w'.s.worked <==> LimitMemory in w.s.worked || (l == OfParent(true) && w.s.parent.SetMemory?)
    ensures LimitSwap in w'.s.worked <==> LimitSwap in w.s.worked || (l == OfParent(true) && w.s.parent.SetSwap?)
    ensures LimitPids in w'.s.worked <==> LimitPids in w.s.worked || (l == OfParent(true) && w.s.parent.SetPids?)
    ensures AddProcess in w'.s.worked <==> AddProcess in w.s.worked || (l == OfParent(true) && w.s.parent.Add?)
  {
    hide C.Interferes, C.Step, C.Limits, C.Moves;
  }

  /** What counts as having worked is exactly what has: a call of create, a limit or the move that was answered with
      success. */
  lemma {:induction false} WorkedIsWhatWorked(cfg: Config, pid: C.Pid, t: C.Tree, run: Course)
    requires C.TreeInv(t) && IsCourse(cfg, pid, t, run)
    ensures |run.states| == |run.labels| + 1
    ensures End(run).s.created <==> Succeeded(run, ParentPc.Create)
    ensures LimitMemory in End(run).s.worked <==> Succeeded(run, SetMemory)
    ensures LimitSwap in End(run).s.worked <==> Succeeded(run, SetSwap)
    ensures LimitPids in End(run).s.worked <==> Succeeded(run, SetPids)
    ensures AddProcess in End(run).s.worked <==> Succeeded(run, Add)
    decreases |run.labels|
  {
    hide Moves, C.TreeInv, WorldInv, Succeeded;
    if run.labels == [] {
      NothingSucceeded(run);
    } else {
      BeforeFollows(run, World(Cloned(cfg), C.State(t, C.Checking)), Steps(cfg, pid));
      WorkedIsWhatWorked(cfg, pid, t, Before(run));
      CourseKeepsWorld(cfg, pid, t, Before(run));
      NotYetCreated(cfg, pid, t, End(Before(run)));
      ActsByLabel(cfg, pid, End(Before(run)), run.labels[|run.labels| - 1], End(run));
      var now: ParentPc := End(Before(run)).s.parent;
      var works := run.labels[|run.labels| - 1] == OfParent(true);
      forall p: ParentPc ensures Succeeded(run, p) <==> (Succeeded(Before(run), p) || (works && now == p)) {
        SucceededOn(run, p);
      }
    }
  }

  /** The parent's action at `p` was answered with success. */
  ghost predicate Succeeded(run: Course, p: ParentPc)
    requires |run.states| == |run.labels| + 1
  {
    exists i :: 0 <= i < |run.labels| && run.labels[i] == OfParent(true) && run.states[i].s.parent == p
  }

  lemma NothingSucceeded(run: Course)
    requires |run.states| == |run.labels| + 1 && run.labels == []
    ensures forall p :: !Succeeded(run, p)
  {
  }

  lemma SucceededOn(run: Course, p: ParentPc)
    requires |run.states| == |run.labels| + 1 && run.labels != []
    ensures Succeeded(run, p) <==>
              (Succeeded(Before(run), p)
               || (run.labels[|run.labels| - 1] == OfParent(true) && End(Before(run)).s.parent == p))
  {
    var q, last := Before(run), |run.labels| - 1;
    assert End(q) == run.states[last];
    if Succeeded(q, p) {
      var i :| 0 <= i < |q.labels| && q.labels[i] == OfParent(true) && q.states[i].s.parent == p;
      assert run.labels[i] == q.labels[i] && run.states[i] == q.states[i];
    }
    if Succeeded(run, p) {
      var i :| 0 <= i < |run.labels| && run.labels[i] == OfParent(true) && run.states[i].s.parent == p;
      if i < last {
        assert run.labels[i] == q.labels[i] && run.states[i] == q.states[i];
      }
    }
  }

  lemma NotYetCreated(cfg: Config, pid: C.Pid, t0: C.Tree, w: World)
    requires WorldInv(cfg, pid, t0, w)
    ensures w.s.parent.Create? ==> !w.s.created
  {
    hide TreeSide, ForceSide;
  }

  // ---- a kernel that refuses nothing that its rules allow

  /** The leaf has been there before, delegating, so that it takes no process in. */
  predicate LeafDelegates(pid: C.Pid, t: C.Tree) {
    Leaf(pid) in t.dirs && t.dirs[Leaf(pid)].control != {}
  }

  /** The acts the parent has behind it have worked if and only if the rules allow them. */
  ghost predicate AsTheRulesSay(cfg: Config, pid: C.Pid, t0: C.Tree, w: World) {
    && C.Modest(w.x.pc) && pid in w.x.t.seen && (LeafDelegates(pid, w.x.t) ==> LeafDelegates(pid, t0))
    && (w.s.created ==>
          && (cfg.memoryLimit > 0 && ParentLeft(w.s.parent) < ParentLeft(SetMemory) ==>
                (LimitMemory in w.s.worked <==> C.Memory in t0.available))
          && (cfg.memoryLimit > 0 && ParentLeft(w.s.parent) < ParentLeft(SetSwap) ==>
                (LimitSwap in w.s.worked <==> C.Memory in t0.available))
          && (cfg.pidsLimit > 0 && ParentLeft(w.s.parent) < ParentLeft(SetPids) ==>
                (LimitPids in w.s.worked <==> C.Pids in t0.available))
          && (ParentLeft(w.s.parent) < ParentLeft(Add) ==>
                AddProcess in w.s.worked || pid !in w.x.t.live || LeafDelegates(pid, t0)))
  }

  lemma StepAsTheRulesSay(cfg: Config, pid: C.Pid, t0: C.Tree, w: World, l: Label, w': World)
    requires WorldInv(cfg, pid, t0, w) && Moves(cfg, pid, w, l, w') && !Refusal(pid, w, l)
    requires AsTheRulesSay(cfg, pid, t0, w)
    ensures AsTheRulesSay(cfg, pid, t0, w')
  {
    hide *;
    WorldParts(cfg, pid, t0, w);
    match l
    case OfChild(_) => ChildAsTheRulesSay(cfg, pid, t0, w, l, w');
    case Kill => ChildAsTheRulesSay(cfg, pid, t0, w, l, w');
    case Elsewhere => ElsewhereAsTheRulesSay(cfg, pid, t0, w, w');
    case InCreate(c) => CreateAsTheRulesSay(cfg, pid, t0, w, c, w');
    case OfParent(ok) => ParentAsTheRulesSay(cfg, pid, t0, w, ok, w');
    case Interrupted => InterruptedIs(cfg, pid, w, w');
  }

  lemma ChildAsTheRulesSay(cfg: Config, pid: C.Pid, t0: C.Tree, w: World, l: Label, w': World)
    requires Moves(cfg, pid, w, l, w') && (l.OfChild? || l.Kill?) && AsTheRulesSay(cfg, pid, t0, w)
    ensures AsTheRulesSay(cfg, pid, t0, w')
  {
    hide ChildStep, Killed, ParentLeft, LeafDelegates;
    ChildLeavesTheParent(w.s, w'.s, l.OfChild? && l.ok);
  }

  lemma ElsewhereAsTheRulesSay(cfg: Config, pid: C.Pid, t0: C.Tree, w: World, w': World)
    requires C.TreeInv(w.x.t) && Moves(cfg, pid, w, Elsewhere, w') && AsTheRulesSay(cfg, pid, t0, w)
    ensures AsTheRulesSay(cfg, pid, t0, w')
  {
    hide ParentLeft, Leaf, C.TreeInv, C.Interferes, LeafDelegates;
    LeafStays(pid, w.x.t, w'.x.t);
    if pid in w'.x.t.live {
      C.DeadStayDead(w.x.t, w'.x.t, pid);
    }
  }

  lemma LeafStays(pid: C.Pid, t: C.Tree, t': C.Tree)
    requires C.Interferes(t, t')
    ensures (LeafDelegates(pid, t') <==> LeafDelegates(pid, t)) && t.seen <= t'.seen
  {
    hide C.Partitioned, Leaf;
  }

  lemma CreateAsTheRulesSay(cfg: Config, pid: C.Pid, t0: C.Tree, w: World, c: C.Call, w': World)
    requires C.TreeInv(w.x.t) && Moves(cfg, pid, w, InCreate(c), w') && AsTheRulesSay(cfg, pid, t0, w)
    ensures AsTheRulesSay(cfg, pid, t0, w')
  {
    hide C.TreeInv, C.Step, C.Modest, LeafDelegates, C.Touched;
    C.StepTouches(Name(pid), w.x, c, w'.x);
    C.StepDoes(Name(pid), w.x, c, w'.x);
    SeenGrows(w.x.t, c, w'.x.t);
    LeafIsNotRoot(pid);
    TouchedLeaf(pid, w.x.t, w'.x.t);
  }

  lemma SeenGrows(t: C.Tree, c: C.Call, t': C.Tree)
    requires C.Does(t, c, t')
    ensures t.seen <= t'.seen
  {
    hide C.Partitioned;
  }

  lemma TouchedLeaf(pid: C.Pid, t: C.Tree, t': C.Tree)
    requires C.Touched(Name(pid), t, t') && Leaf(pid) == ["minicontainer", Name(pid)]
    ensures LeafDelegates(pid, t') ==> LeafDelegates(pid, t)
  {
    hide Leaf, Name;
    assert |Leaf(pid)| == 2;
  }

  lemma ParentAsTheRulesSay(cfg: Config, pid: C.Pid, t0: C.Tree, w: World, ok: bool, w': World)
    requires WorldInv(cfg, pid, t0, w) && Moves(cfg, pid, w, OfParent(ok), w') && !Refusal(pid, w, OfParent(ok))
    requires AsTheRulesSay(cfg, pid, t0, w)
    ensures AsTheRulesSay(cfg, pid, t0, w')
  {
    hide *;
    WorldParts(cfg, pid, t0, w);
    ParentIs(cfg, pid, w, ok, w');
    RefusalIs(pid, w.s, w.x.t, w.x.pc, ok);
    WorldIs(w);
    if OnTheCgroup(w.s.parent) {
      NothingWorkedYet(cfg, w.s);
      OnTheCgroupIs(w.s.parent);
      AfterCreate(cfg, w);
      Offers(pid, t0, w);
      LeafIsNotRoot(pid);
      ActAnswer(cfg, pid, w, ok, w');
      ActLeaf(cfg, pid, w, ok, w');
      ActAsTheRulesSay(cfg, pid, t0, w, ok, w');
    } else {
      OtherAsTheRulesSay(cfg, pid, t0, w, ok, w');
    }
  }

  lemma WorldIs(w: World)
    ensures w == World(w.s, C.State(w.x.t, w.x.pc))
  {
  }

  lemma Offers(pid: C.Pid, t0: C.Tree, w: World)
    requires TreeSide(pid, t0, w) && w.x.pc == C.Ended(true)
    ensures C.CanLimit(w.x.t, Leaf(pid), C.Memory) <==> C.Memory in t0.available
    ensures C.CanLimit(w.x.t, Leaf(pid), C.Pids) <==> C.Pids in t0.available
    ensures Leaf(pid) in w.x.t.dirs
  {
    hide C.TreeInv, C.Achieved, C.Within, Name, C.CanLimit;
    C.LimitsThatCanBeSet(Name(pid), w.x.t);
  }

  /** An act that works was allowed. */
  lemma ActAnswer(cfg: Config, pid: C.Pid, w: World, ok: bool, w': World)
    requires Acts(cfg, pid, w.s.parent, w.x, ok, w'.x.t)
    ensures ok && (w.s.parent.SetMemory? || w.s.parent.SetSwap?) ==> C.CanLimit(w.x.t, Leaf(pid), C.Memory)
    ensures ok && w.s.parent.SetPids? ==> C.CanLimit(w.x.t, Leaf(pid), C.Pids)
    ensures ok && w.s.parent.Add? ==> C.CanMove(w.x.t, Leaf(pid), pid)
  {
  }

  lemma ActLeaf(cfg: Config, pid: C.Pid, w: World, ok: bool, w': World)
    requires Acts(cfg, pid, w.s.parent, w.x, ok, w'.x.t) && OnTheCgroup(w.s.parent)
    ensures LeafDelegates(pid, w'.x.t) <==> LeafDelegates(pid, w.x.t)
    ensures w'.x.t.seen == w.x.t.seen && w'.x.t.live == w.x.t.live
  {
    hide Leaf;
  }

  lemma ActAsTheRulesSay(cfg: Config, pid: C.Pid, t0: C.Tree, w: World, ok: bool, w': World)
    requires Inv(cfg, w.s) && ParentStep(cfg, w.s, w'.s, ok) && OnTheCgroup(w.s.parent) && w'.x.pc == w.x.pc
    requires AsTheRulesSay(cfg, pid, t0, w) && w.s.created && Leaf(pid) in w.x.t.dirs && Leaf(pid) != C.ROOT
    requires w.s.parent.SetMemory? || w.s.parent.SetSwap? ==> (ok <==> C.Memory in t0.available)
    requires w.s.parent.SetPids? ==> (ok <==> C.Pids in t0.available)
    requires w.s.parent.Add? ==> (ok <==> C.CanMove(w.x.t, Leaf(pid), pid))
    requires LeafDelegates(pid, w'.x.t) <==> LeafDelegates(pid, w.x.t)
    requires w'.x.t.seen == w.x.t.seen && w'.x.t.live == w.x.t.live
    ensures AsTheRulesSay(cfg, pid, t0, w')
  {
    hide Leaf, C.Modest;
  }

  lemma OtherAsTheRulesSay(cfg: Config, pid: C.Pid, t0: C.Tree, w: World, ok: bool, w': World)
    requires Inv(cfg, w.s) && ParentStep(cfg, w.s, w'.s, ok) && !OnTheCgroup(w.s.parent) && w'.x.pc == w.x.pc
    requires Acts(cfg, pid, w.s.parent, w.x, ok, w'.x.t) && AsTheRulesSay(cfg, pid, t0, w)
    ensures AsTheRulesSay(cfg, pid, t0, w')
  {
    hide Leaf, C.Modest, LeafDelegates;
  }

  /** With a kernel that refuses nothing its rules allow, once the parent is done with the cgroup that create has made:
      the memory limits are set if and only if the root is offered memory, the limit on processes if and only if it is
      offered pids, and the container has been moved unless it is dead or its cgroup was there before, delegating. */
  lemma {:induction false} LimitsExactly(cfg: Config, pid: C.Pid, t: C.Tree, run: Course)
    requires C.TreeInv(t) && IsCourse(cfg, pid, t, run) && Generous(pid, run) && pid in t.seen
    ensures AsTheRulesSay(cfg, pid, t, End(run))
    ensures var s, now := End(run).s, End(run).x.t;
            s.created && (s.parent.Report? || s.parent.CloseWrite? || s.parent.Wait? || s.parent.Done?) ==>
              && (cfg.memoryLimit > 0 ==>
                    && (LimitMemory in s.worked <==> C.Memory in t.available)
                    && (LimitSwap in s.worked <==> C.Memory in t.available))
              && (cfg.pidsLimit > 0 ==> (LimitPids in s.worked <==> C.Pids in t.available))
              && (AddProcess in s.worked || pid !in now.live
                  || (Leaf(pid) in t.dirs && t.dirs[Leaf(pid)].control != {}))
    decreases |run.labels|
  {
    hide Moves, C.TreeInv, WorldInv, Refusal;
    if run.labels != [] {
      var q, last := Before(run), |run.labels| - 1;
      BeforeFollows(run, World(Cloned(cfg), C.State(t, C.Checking)), Steps(cfg, pid));
      assert Generous(pid, q) by {
        forall i | 0 <= i < last ensures !Refusal(pid, q.states[i], q.labels[i]) {
          assert q.states[i] == run.states[i] && q.labels[i] == run.labels[i];
        }
      }
      hide AsTheRulesSay;
      LimitsExactly(cfg, pid, t, q);
      CourseKeepsWorld(cfg, pid, t, q);
      assert !Refusal(pid, run.states[last], run.labels[last]);
      StepAsTheRulesSay(cfg, pid, t, End(q), run.labels[last], End(run));
    }
    var s := End(run).s;
    if s.created && (s.parent.Report? || s.parent.CloseWrite? || s.parent.Wait? || s.parent.Done?) {
      RulesSay(cfg, pid, t, End(run));
    }
  }

  lemma RulesSay(cfg: Config, pid: C.Pid, t0: C.Tree, w: World)
    requires AsTheRulesSay(cfg, pid, t0, w) && w.s.created
    requires w.s.parent.Report? || w.s.parent.CloseWrite? || w.s.parent.Wait? || w.s.parent.Done?
    ensures cfg.memoryLimit > 0 ==>
              && (LimitMemory in w.s.worked <==> C.Memory in t0.available)
              && (LimitSwap in w.s.worked <==> C.Memory in t0.available)
    ensures cfg.pidsLimit > 0 ==> (LimitPids in w.s.worked <==> C.Pids in t0.available)
    ensures AddProcess in w.s.worked || pid !in w.x.t.live || LeafDelegates(pid, t0)
  {
  }

  /** If a limit is asked for, create is called, to its end, before the parent does anything else, and the cgroup exists
      if and only if it has worked; if none is, not one call of create is made. */
  lemma CreateIsCalled(cfg: Config, pid: C.Pid, t: C.Tree, run: Course)
    requires C.TreeInv(t) && IsCourse(cfg, pid, t, run) && !End(run).s.parent.CloseRead? && !End(run).s.parent.Create?
    ensures var s, pc := End(run).s, End(run).x.pc;
            if cfg.memoryLimit > 0 || cfg.pidsLimit > 0 then pc.Ended? && (s.created <==> pc == C.Ended(true))
            else pc == C.Checking && !s.created
  {
    hide C.TreeInv, TreeSide, ForceSide, Inv;
    CourseKeepsWorld(cfg, pid, t, run);
  }

  /** The child's action at `c` was answered with success. */
  ghost predicate Managed(run: Course, c: ChildPc)
    requires |run.states| == |run.labels| + 1
  {
    exists i :: 0 <= i < |run.labels| && run.labels[i] == OfChild(true) && run.states[i].s.child == c
  }

  /** The child executes its program only if it has set its host name and its root, and runs it only if exec worked. */
  lemma {:induction false} ExecOnlyAfterSetup(cfg: Config, pid: C.Pid, t: C.Tree, run: Course)
    requires IsCourse(cfg, pid, t, run)
    ensures |run.states| == |run.labels| + 1
    ensures var c := End(run).s.child;
            && (c.SetupRoot? || c.Exec? || c.Running? ==> Managed(run, ChildPc.SetHostname))
            && (c.Exec? || c.Running? ==> Managed(run, SetupRoot))
            && (c.Running? ==> Managed(run, Exec))
    decreases |run.labels|
  {
    hide Moves, Managed;
    if run.labels != [] {
      BeforeFollows(run, World(Cloned(cfg), C.State(t, C.Checking)), Steps(cfg, pid));
      ExecOnlyAfterSetup(cfg, pid, t, Before(run));
      ChildByLabel(cfg, pid, End(Before(run)), run.labels[|run.labels| - 1], End(run));
      forall c: ChildPc
        ensures Managed(Before(run), c) ==> Managed(run, c)
        ensures run.labels[|run.labels| - 1] == OfChild(true) && End(Before(run)).s.child == c ==> Managed(run, c)
      {
        ManagedOn(run, c);
      }
    }
  }

  lemma ChildByLabel(cfg: Config, pid: C.Pid, w: World, l: Label, w': World)
    requires Moves(cfg, pid, w, l, w')
    ensures var c, c' := w.s.child, w'.s.child;
            && (c'.SetupRoot? ==> c' == c || (c.SetHostname? && l == OfChild(true)))
            && (c'.Exec? ==> c' == c || (c.SetupRoot? && l == OfChild(true)))
            && (c'.Running? ==> c' == c || (c.Exec? && l == OfChild(true)))
  {
    hide C.Interferes, C.Step, Acts;
  }

  lemma ManagedOn(run: Course, c: ChildPc)
    requires |run.states| == |run.labels| + 1 && run.labels != []
    ensures Managed(Before(run), c) ==> Managed(run, c)
    ensures run.labels[|run.labels| - 1] == OfChild(true) && End(Before(run)).s.child == c ==> Managed(run, c)
  {
    var q, last := Before(run), |run.labels| - 1;
    assert End(q) == run.states[last];
    if Managed(q, c) {
      var i :| 0 <= i < |q.labels| && q.labels[i] == OfChild(true) && q.states[i].s.child == c;
      assert run.labels[i] == q.labels[i] && run.states[i] == q.states[i];
    }
  }

  /** In every course of the two processes, from clone() on, whatever is refused and whatever other processes do: a
      child that has passed the barrier, at its exec and as long as it lives, finds every needed act attempted (if the
      cgroup was created) and every act that worked in force: its limits, and itself in its cgroup and in no other. */
  lemma ExecFindsTheLimits(cfg: Config, pid: C.Pid, t: C.Tree, run: Course)
    requires C.TreeInv(t) && IsCourse(cfg, pid, t, run) && Passed(End(run).s.child)
    ensures var s, now := End(run).s, End(run).x.t;
            && (!s.created ==> s.tried == {})
            && (s.created ==>
                  && (LimitMemory in s.tried <==> cfg.memoryLimit > 0) && (LimitPids in s.tried <==> cfg.pidsLimit > 0)
                  && (LimitSwap in s.tried <==> LimitMemory in s.worked) && AddProcess in s.tried)
            && (LimitMemory in s.worked ==> C.HasLimit(now, Leaf(pid), "memory.max", cfg.memoryLimit))
            && (LimitSwap in s.worked ==> C.HasLimit(now, Leaf(pid), "memory.swap.max", 0))
            && (LimitPids in s.worked ==> C.HasLimit(now, Leaf(pid), "pids.max", cfg.pidsLimit))
            && (AddProcess in s.worked && pid in now.live ==> C.Holds(now, Leaf(pid), pid))
  {
    hide C.TreeInv, TreeSide, Leaf, C.HasLimit, C.Holds;
    CourseKeepsWorld(cfg, pid, t, run);
  }

  /** create, the limits and add_process together: in every state of every course each live process is in exactly one
      cgroup, no non-exempt cgroup both holds processes and delegates, and every process that was in the root at the
      start and still lives is in the root or in init, and in init once the root delegates (unless the root is the
      system's own), except the container, which is in its cgroup once it has been added; and that cgroup is offered
      every one of memory and pids that the root is offered. */
  lemma NobodyElseIsMoved(cfg: Config, pid: C.Pid, t: C.Tree, run: Course)
    requires C.TreeInv(t) && IsCourse(cfg, pid, t, run)
    ensures C.TreeInv(End(run).x.t)
    ensures var s, x := End(run).s, End(run).x;
            && C.Within(x.t, Early(s, pid, t), t.exempt || !C.PastRoot(x.pc))
            && (AddProcess in s.worked && pid in x.t.live ==> C.Holds(x.t, Leaf(pid), pid))
            && (AddProcess in s.worked ==>
                  && C.Within(x.t, C.Procs(t, C.ROOT) - {pid}, t.exempt)
                  && Leaf(pid) in x.t.dirs && t.available * {C.Memory, C.Pids} <= C.Offered(x.t, Leaf(pid)))
  {
    hide C.TreeInv, C.Within, C.HasLimit, C.Holds, C.Procs;
    CourseKeepsWorld(cfg, pid, t, run);
    if AddProcess in End(run).s.worked {
      AddedIsCreated(cfg, End(run));
      var leaf := Leaf(pid);
      assert leaf[..|leaf| - 1] == C.PARENT;
    }
  }

  lemma AddedIsCreated(cfg: Config, w: World)
    requires Inv(cfg, w.s) && InOrder(cfg, w) && AddProcess in w.s.worked
    ensures w.x.pc == C.Ended(true) && C.PastRoot(w.x.pc)
  {
  }

  // ---------------------------------------------------------------- the parent's code

  /** The course has led to the processes `s`, the tree `t` and `pc`. */
  ghost predicate At(cfg: Config, pid: C.Pid, t0: C.Tree, run: Course, s: State, t: C.Tree, pc: C.Pc) {
    IsCourse(cfg, pid, t0, run) && End(run) == World(s, C.State(t, pc))
  }

  /** A call that the kernel's rules allow is refused. */
  ghost predicate Refusal(pid: C.Pid, w: World, l: Label) {
    match l
    case InCreate(c) => C.Denies(w.x.t, c)
    case OfParent(ok) =>
      && !ok
      && (match w.s.parent
          case SetMemory => C.CanLimit(w.x.t, Leaf(pid), C.Memory)
          case SetSwap => C.CanLimit(w.x.t, Leaf(pid), C.Memory)
          case SetPids => C.CanLimit(w.x.t, Leaf(pid), C.Pids)
          case Add => C.CanMove(w.x.t, Leaf(pid), pid)
          case _ => false)
    case _ => false
  }

  /** None is. */
  ghost predicate Generous(pid: C.Pid, run: Course) {
    |run.states| == |run.labels| + 1 && forall i | 0 <= i < |run.labels| :: !Refusal(pid, run.states[i], run.labels[i])
  }

  lemma RefusalIs(pid: C.Pid, s: State, t: C.Tree, pc: C.Pc, ok: bool)
    ensures Refusal(pid, World(s, C.State(t, pc)), OfParent(ok)) <==>
              && !ok
              && ((s.parent.SetMemory? && C.CanLimit(t, Leaf(pid), C.Memory))
                  || (s.parent.SetSwap? && C.CanLimit(t, Leaf(pid), C.Memory))
                  || (s.parent.SetPids? && C.CanLimit(t, Leaf(pid), C.Pids))
                  || (s.parent.Add? && C.CanMove(t, Leaf(pid), pid)))
  {
  }

  lemma OnlyTheParentIsRefused(pid: C.Pid, w: World)
    ensures !Refusal(pid, w, Kill) && !Refusal(pid, w, Elsewhere) && !Refusal(pid, w, Interrupted)
    ensures forall ok :: !Refusal(pid, w, OfChild(ok))
    ensures !Refusal(pid, w, OfParent(true))
    ensures forall c :: Refusal(pid, w, InCreate(c)) <==> C.Denies(w.x.t, c)
    ensures !OnTheCgroup(w.s.parent) ==> forall ok :: !Refusal(pid, w, OfParent(ok))
  {
    hide C.Denies;
  }

  /** How often waitpid was interrupted. */
  ghost function Retries(labels: seq<Label>): nat {
    if labels == [] then 0
    else Retries(labels[..|labels| - 1]) + (if labels[|labels| - 1].Interrupted? then 1 else 0)
  }

  lemma Begins(cfg: Config, pid: C.Pid, t: C.Tree)
    ensures At(cfg, pid, t, Single(World(Cloned(cfg), C.State(t, C.Checking))), Cloned(cfg), t, C.Checking)
  {
  }

  lemma GoesOn(cfg: Config, pid: C.Pid, t0: C.Tree, run: Course, s: State, t: C.Tree, pc: C.Pc,
               l: Label, s': State, t': C.Tree, pc': C.Pc)
    returns (run': Course)
    requires At(cfg, pid, t0, run, s, t, pc)
    requires Moves(cfg, pid, World(s, C.State(t, pc)), l, World(s', C.State(t', pc')))
    ensures At(cfg, pid, t0, run', s', t', pc')
    ensures Retries(run'.labels) == Retries(run.labels) + (if l.Interrupted? then 1 else 0)
    ensures Generous(pid, run) && !Refusal(pid, World(s, C.State(t, pc)), l) ==> Generous(pid, run')
  {
    hide Moves, Refusal;
    var w := World(s', C.State(t', pc'));
    run' := Extended(run, l, w);
    forall i | 0 <= i < |run.labels| ensures run'.states[i] == run.states[i] && run'.labels[i] == run.labels[i] {
    }
    ExtendedFollows(run, World(Cloned(cfg), C.State(t0, C.Checking)), Steps(cfg, pid), l, w);
    assert run'.labels[..|run.labels|] == run.labels;
  }

  lemma CourseInvariant(cfg: Config, pid: C.Pid, t0: C.Tree, run: Course, s: State, t: C.Tree, pc: C.Pc)
    requires C.TreeInv(t0) && At(cfg, pid, t0, run, s, t, pc)
    ensures WorldInv(cfg, pid, t0, World(s, C.State(t, pc))) && Inv(cfg, s) && C.TreeInv(t)
    ensures Confined(cfg, s, pid, t)
  {
    hide IsCourse, Inv, C.TreeInv, Confined, C.Within, C.Achieved;
    CourseKeepsWorld(cfg, pid, t0, run);
  }

  /** Other processes move. */
  lemma ElsewhereGoesOn(cfg: Config, pid: C.Pid, t0: C.Tree, run: Course, s: State, t: C.Tree, pc: C.Pc, t': C.Tree)
    returns (run': Course)
    requires At(cfg, pid, t0, run, s, t, pc) && C.Interferes(t, t')
    ensures At(cfg, pid, t0, run', s, t', pc) && Retries(run'.labels) == Retries(run.labels)
    ensures Generous(pid, run) ==> Generous(pid, run')
  {
    hide C.Interferes, At, Generous, Refusal;
    OnlyTheParentIsRefused(pid, World(s, C.State(t, pc)));
    run' := GoesOn(cfg, pid, t0, run, s, t, pc, Elsewhere, s, t', pc);
  }

  lemma RetryGoesOn(cfg: Config, pid: C.Pid, t0: C.Tree, run: Course, s: State, t: C.Tree, pc: C.Pc)
    returns (run': Course)
    requires At(cfg, pid, t0, run, s, t, pc) && s.parent.Wait?
    ensures At(cfg, pid, t0, run', s, t, pc) && Retries(run'.labels) == Retries(run.labels) + 1
    ensures Generous(pid, run) ==> Generous(pid, run')
  {
    hide At, Generous, Refusal;
    OnlyTheParentIsRefused(pid, World(s, C.State(t, pc)));
    run' := GoesOn(cfg, pid, t0, run, s, t, pc, Interrupted, s, t, pc);
  }

  /** The calls of `create`, from its first to the last of `log`, are part of the course. */
  lemma {:induction false} CreateGoesOn(cfg: Config, pid: C.Pid, t0: C.Tree, run: Course, s: State, t: C.Tree,
                                        log: C.Log)
    returns (run': Course)
    requires At(cfg, pid, t0, run, s, t, C.Checking) && s.parent.Create? && C.IsRun(Name(pid), t, log)
    ensures log.states != [] && At(cfg, pid, t0, run', s, C.Now(log).t, C.Now(log).pc)
    ensures Retries(run'.labels) == Retries(run.labels)
    ensures Generous(pid, run) && C.Unrefused(log) ==> Generous(pid, run')
    decreases |log.labels|
  {
    hide At, C.Step, Name, C.Denies, Generous, Refusal;
    if log.labels == [] {
      run' := run;
    } else {
      C.BeforeIsRun(Name(pid), t, log);
      var run1 := CreateGoesOn(cfg, pid, t0, run, s, t, Before(log));
      var x, c, x' := C.Now(Before(log)), log.labels[|log.labels| - 1], C.Now(log);
      CallIsMove(cfg, pid, s, x, c, x');
      OnlyTheParentIsRefused(pid, World(s, C.State(x.t, x.pc)));
      EarlierUnrefused(log);
      run' := GoesOn(cfg, pid, t0, run1, s, x.t, x.pc, if c.Elsewhere? then Elsewhere else InCreate(c), s, x'.t, x'.pc);
    }
  }

  lemma EarlierUnrefused(log: C.Log)
    requires C.Unrefused(log) ==> |log.states| == |log.labels| + 1
    ensures C.Unrefused(log) && log.labels != [] ==>
              C.Unrefused(Before(log)) && !C.Denies(log.states[|log.labels| - 1].t, log.labels[|log.labels| - 1])
  {
    hide C.Denies;
    if C.Unrefused(log) && log.labels != [] {
      var q := Before(log);
      forall i | 0 <= i < |q.labels| ensures !C.Denies(q.states[i].t, q.labels[i]) {
        assert q.states[i] == log.states[i] && q.labels[i] == log.labels[i];
      }
    }
  }

  lemma CallIsMove(cfg: Config, pid: C.Pid, s: State, x: C.State, c: C.Call, x': C.State)
    requires s.parent.Create? && C.Step(Name(pid), x, c, x')
    ensures Moves(cfg, pid, World(s, C.State(x.t, x.pc)), if c.Elsewhere? then Elsewhere else InCreate(c),
                  World(s, C.State(x'.t, x'.pc)))
  {
    hide C.Interferes;
  }

  /** The child runs on for a while, or is killed. */
  method ChildTurn(cfg: Config, ghost pid: C.Pid, ghost t0: C.Tree, ghost run: Course, s: State,
                   ghost t: C.Tree, ghost pc: C.Pc)
    returns (s': State, ghost run': Course)
    requires At(cfg, pid, t0, run, s, t, pc)
    ensures At(cfg, pid, t0, run', s', t, pc) && Retries(run'.labels) == Retries(run.labels)
    ensures s'.parent == s.parent && s'.created == s.created && s'.tried == s.tried && s'.worked == s.worked
    ensures Generous(pid, run) ==> Generous(pid, run')
  {
    hide At, Generous, Refusal;
    s', run' := s, run;
    var actions: nat := *;
    while actions > 0
      invariant At(cfg, pid, t0, run', s', t, pc) && Retries(run'.labels) == Retries(run.labels)
      invariant s'.parent == s.parent && s'.created == s.created && s'.tried == s.tried && s'.worked == s.worked
      invariant Generous(pid, run) ==> Generous(pid, run')
    {
      OnlyTheParentIsRefused(pid, World(s', C.State(t, pc)));
      var next: State, ok: bool := *, *;
      if ChildStep(s', next, ok) {
        ChildLeavesTheParent(s', next, ok);
        run' := GoesOn(cfg, pid, t0, run', s', t, pc, OfChild(ok), next, t, pc);
        s' := next;
      } else if Killed(s', next) {
        ChildLeavesTheParent(s', next, ok);
        run' := GoesOn(cfg, pid, t0, run', s', t, pc, Kill, next, t, pc);
        s' := next;
      }
      actions := actions - 1;
    }
  }

  /** The parent takes its next step, which has made `t'` of the tree, the child having run on in between. */
  method Advance(cfg: Config, ghost pid: C.Pid, ghost t0: C.Tree, ghost run: Course, s: State,
                 ghost t: C.Tree, ghost pc: C.Pc, ok: bool, ghost t': C.Tree)
    returns (s': State, ghost run': Course)
    requires At(cfg, pid, t0, run, s, t, pc) && !s.parent.Wait? && !s.parent.Done?
    requires Acts(cfg, pid, s.parent, C.State(t, pc), ok, t')
    ensures At(cfg, pid, t0, run', s', t', pc) && Retries(run'.labels) == Retries(run.labels)
    ensures s'.parent == Following(cfg, s.parent, ok)
    ensures s'.created == if s.parent.Create? then ok else s.created
    ensures Generous(pid, run) && !Refusal(pid, World(s, C.State(t, pc)), OfParent(ok)) ==> Generous(pid, run')
  {
    hide At, Acts, Generous, Refusal;
    var mid, run1 := ChildTurn(cfg, pid, t0, run, s, t, pc);
    s' := match mid.parent
      case CloseRead => mid.(parent := if Limited(cfg) then Create else Report, readers := mid.readers - {Parent})
      case Create =>
        mid.(created := ok, parent := if !ok then Report else if cfg.memoryLimit > 0 then SetMemory else SetPids)
      case SetMemory => Attempt(mid, LimitMemory, ok, if ok then SetSwap else AfterMemory(cfg))
      case SetSwap => Attempt(mid, LimitSwap, ok, AfterMemory(cfg))
      case SetPids => Attempt(mid, LimitPids, ok, Add)
      case Add => Attempt(mid, AddProcess, ok, Report)
      case Report => mid.(parent := CloseWrite)
      case _ => mid.(parent := Wait, writers := mid.writers - {Parent});
    RefusalIs(pid, s, t, pc, ok);
    RefusalIs(pid, mid, t, pc, ok);
    run' := GoesOn(cfg, pid, t0, run1, mid, t, pc, OfParent(ok), s', t', pc);
  }

  function Following(cfg: Config, p: ParentPc, ok: bool): ParentPc {
    match p
    case CloseRead => if Limited(cfg) then Create else Report
    case Create => if !ok then Report else if cfg.memoryLimit > 0 then SetMemory else SetPids
    case SetMemory => if ok then SetSwap else AfterMemory(cfg)
    case SetSwap => AfterMemory(cfg)
    case SetPids => Add
    case Add => Report
    case Report => CloseWrite
    case _ => Wait
  }

  lemma PlainAct(cfg: Config, pid: C.Pid, p: ParentPc, t: C.Tree, pc: C.Pc, ok: bool)
    ensures p.CloseRead? || p.Report? || p.CloseWrite? || p.Wait? || (p.Create? && pc == C.Ended(ok)) ==>
              Acts(cfg, pid, p, C.State(t, pc), ok, t)
  {
  }

  lemma ActsAre(cfg: Config, pid: C.Pid, p: ParentPc, t: C.Tree, pc: C.Pc, ok: bool, t': C.Tree)
    requires p.SetMemory? ==> C.Limits(t, t', Leaf(pid), C.Memory, "memory.max", cfg.memoryLimit, ok)
    requires p.SetSwap? ==> C.Limits(t, t', Leaf(pid), C.Memory, "memory.swap.max", 0, ok)
    requires p.SetPids? ==> C.Limits(t, t', Leaf(pid), C.Pids, "pids.max", cfg.pidsLimit, ok)
    requires p.Add? ==> C.Moves(t, t', Leaf(pid), pid, ok)
    requires OnTheCgroup(p)
    ensures Acts(cfg, pid, p, C.State(t, pc), ok, t')
  {
  }

  /** The limits and the move of the child, each attempted whatever became of the ones before. */
  method Confine(cfg: Config, pid: C.Pid, ghost t0: C.Tree, ghost run: Course, s: State, cgroup: C.Cgroup, t: C.Tree,
                 lenient: bool)
    returns (s': State, t': C.Tree, ghost run': Course)
    requires C.TreeInv(t0) && At(cfg, pid, t0, run, s, t, C.Ended(true)) && cgroup.path == Some(Leaf(pid))
    requires s.parent == (if cfg.memoryLimit > 0 then SetMemory else SetPids) && s.created
    requires lenient ==> Generous(pid, run)
    ensures lenient ==> Generous(pid, run')
    ensures At(cfg, pid, t0, run', s', t', C.Ended(true)) && s'.parent.Report? && s'.created
    ensures Retries(run'.labels) == Retries(run.labels)
  {
    hide At, Acts, C.TreeInv, C.Grows, C.Interferes, C.Limits, C.Moves, C.Holds, C.HasLimit, WorldInv,
         Inv, Confined, Leaf, Generous, Refusal, C.CanLimit, C.CanMove;
    LeafIsNotRoot(pid);
    CourseInvariant(cfg, pid, t0, run, s, t, C.Ended(true));
    PidsAreLimited(cfg, s);
    s', t', run' := s, t, run;
    if cfg.memoryLimit > 0 {
      s', t', run' := ConfineMemory(cfg, pid, t0, run', s', cgroup, t', lenient);
    }
    var ok, t1;
    ghost var mid;
    if cfg.pidsLimit > 0 {
      ok, t1, mid := cgroup.SetPidsLimit(t', cfg.pidsLimit, lenient);
      run' := ElsewhereGoesOn(cfg, pid, t0, run', s', t', C.Ended(true), mid);
      ActsAre(cfg, pid, s'.parent, mid, C.Ended(true), ok, t1);
      RefusalIs(pid, s', mid, C.Ended(true), ok);
      s', run' := Advance(cfg, pid, t0, run', s', mid, C.Ended(true), ok, t1);
      t' := t1;
    }
    ok, t1, mid := cgroup.AddProcess(t', pid, lenient);
    run' := ElsewhereGoesOn(cfg, pid, t0, run', s', t', C.Ended(true), mid);
    ActsAre(cfg, pid, s'.parent, mid, C.Ended(true), ok, t1);
    RefusalIs(pid, s', mid, C.Ended(true), ok);
    s', run' := Advance(cfg, pid, t0, run', s', mid, C.Ended(true), ok, t1);
    t' := t1;
  }

  /** Both writes of set_memory_limit. */
  method ConfineMemory(cfg: Config, pid: C.Pid, ghost t0: C.Tree, ghost run: Course, s: State, cgroup: C.Cgroup,
                       t: C.Tree, lenient: bool)
    returns (s': State, t': C.Tree, ghost run': Course)
    requires C.TreeInv(t0) && At(cfg, pid, t0, run, s, t, C.Ended(true)) && cgroup.path == Some(Leaf(pid))
    requires s.parent.SetMemory? && s.created && C.TreeInv(t) && (lenient ==> Generous(pid, run))
    ensures At(cfg, pid, t0, run', s', t', C.Ended(true)) && s'.parent == AfterMemory(cfg) && s'.created
    ensures Retries(run'.labels) == Retries(run.labels) && C.TreeInv(t') && (lenient ==> Generous(pid, run'))
  {
    hide At, Acts, C.TreeInv, C.Grows, C.Interferes, C.Limits, C.CanLimit, Leaf, Generous, Refusal;
    LeafIsNotRoot(pid);
    var ok, swap;
    ghost var mid, t1, mid1;
    ok, t', swap, mid, t1, mid1 := cgroup.SetMemoryLimit(t, cfg.memoryLimit, lenient);
    run' := ElsewhereGoesOn(cfg, pid, t0, run, s, t, C.Ended(true), mid);
    ActsAre(cfg, pid, s.parent, mid, C.Ended(true), ok, t1);
    RefusalIs(pid, s, mid, C.Ended(true), ok);
    s', run' := Advance(cfg, pid, t0, run', s, mid, C.Ended(true), ok, t1);
    if ok {
      run' := ElsewhereGoesOn(cfg, pid, t0, run', s', t1, C.Ended(true), mid1);
      ActsAre(cfg, pid, s'.parent, mid1, C.Ended(true), swap, t');
      RefusalIs(pid, s', mid1, C.Ended(true), swap);
      s', run' := Advance(cfg, pid, t0, run', s', mid1, C.Ended(true), swap, t');
    }
  }

  lemma PidsAreLimited(cfg: Config, s: State)
    requires Inv(cfg, s)
    ensures s.parent.SetPids? ==> cfg.pidsLimit > 0
  {
  }

  lemma LeafIsNotRoot(pid: C.Pid)
    ensures Leaf(pid) != C.ROOT && Leaf(pid) == C.PARENT + [Name(pid)] == ["minicontainer", Name(pid)]
  {
  }

  /** run_container after clone(): the parent makes every step of a course, in order, up to the release of the barrier;
      then waitpid is retried until the child is gone, and given up here only after `patience` interruptions. */
  method RunContainer(cfg: Config, pid: C.Pid, t: C.Tree, patience: nat, lenient: bool)
    returns (finished: bool, s: State, t': C.Tree, ghost pc: C.Pc, ghost run: Course)
    requires C.TreeInv(t)
    ensures At(cfg, pid, t, run, s, t', pc)
    ensures if finished then s.parent.Done? && s.child.Exited? && Retries(run.labels) <= patience
            else s.parent.Wait? && !s.child.Exited? && Retries(run.labels) == patience
    ensures Confined(cfg, s, pid, t') && (!s.created ==> s.tried == {})
    ensures s.created ==>
              && (LimitMemory in s.tried <==> cfg.memoryLimit > 0) && (LimitPids in s.tried <==> cfg.pidsLimit > 0)
              && (LimitSwap in s.tried <==> LimitMemory in s.worked) && AddProcess in s.tried
    ensures if cfg.memoryLimit > 0 || cfg.pidsLimit > 0 then pc.Ended? && (s.created <==> pc == C.Ended(true))
            else pc == C.Checking && !s.created
    ensures lenient ==> Generous(pid, run)
  {
    hide At, Acts, C.TreeInv, C.Grows, C.At, C.Interferes, Leaf, Name, Inv, Confined, WorldInv, Refusal, C.CanLimit,
         C.CanMove;
    Begins(cfg, pid, t);
    s, t', pc, run := Cloned(cfg), t, C.Checking, Single(World(Cloned(cfg), C.State(t, C.Checking)));
    assert Generous(pid, run);
    hide Generous;
    ParentIsNotRefused(pid);
    PlainAct(cfg, pid, s.parent, t', pc, true);
    s, run := Advance(cfg, pid, t, run, s, t', pc, true, t'); // close(ready_pipe[0])
    if cfg.memoryLimit > 0 || cfg.pidsLimit > 0 {
      s, t', pc, run := Limit(cfg, pid, t, run, s, lenient);
    }
    PlainAct(cfg, pid, s.parent, t', pc, true);
    s, run := Advance(cfg, pid, t, run, s, t', pc, true, t'); // the report
    PlainAct(cfg, pid, s.parent, t', pc, true);
    s, run := Advance(cfg, pid, t, run, s, t', pc, true, t'); // close(ready_pipe[1])
    var left := patience;
    while !s.child.Exited? && left > 0
      invariant At(cfg, pid, t, run, s, t', pc) && s.parent.Wait? && Retries(run.labels) + left == patience
      invariant lenient ==> Generous(pid, run)
      decreases left
    {
      left := left - 1;
      CourseInvariant(cfg, pid, t, run, s, t', pc);
      s, run := ChildTurn(cfg, pid, t, run, s, t', pc);
      var t1 := C.Others(t');
      run := ElsewhereGoesOn(cfg, pid, t, run, s, t', pc, t1);
      t' := t1;
      run := RetryGoesOn(cfg, pid, t, run, s, t', pc);
    }
    finished := s.child.Exited?;
    if finished {
      PlainAct(cfg, pid, s.parent, t', pc, true);
      var s1 := s.(parent := Done);
      run := GoesOn(cfg, pid, t, run, s, t', pc, OfParent(true), s1, t', pc);
      s := s1;
    }
    CourseInvariant(cfg, pid, t, run, s, t', pc);
    AllAttempted(cfg, s);
    AtEnd(cfg, pid, t, run, s, t', pc);
    CreateIsCalled(cfg, pid, t, run);
  }

  lemma AtEnd(cfg: Config, pid: C.Pid, t0: C.Tree, run: Course, s: State, t: C.Tree, pc: C.Pc)
    requires At(cfg, pid, t0, run, s, t, pc)
    ensures IsCourse(cfg, pid, t0, run) && End(run) == World(s, C.State(t, pc))
  {
  }

  lemma ParentIsNotRefused(pid: C.Pid)
    ensures forall w :: !Refusal(pid, w, OfParent(true))
  {
    forall w ensures !Refusal(pid, w, OfParent(true)) {
      OnlyTheParentIsRefused(pid, w);
    }
  }

  lemma AllAttempted(cfg: Config, s: State)
    requires Inv(cfg, s) && ParentReleased(s.parent)
    ensures !s.created ==> s.tried == {}
    ensures s.created ==>
              && (LimitMemory in s.tried <==> cfg.memoryLimit > 0) && (LimitPids in s.tried <==> cfg.pidsLimit > 0)
              && (LimitSwap in s.tried <==> LimitMemory in s.worked) && AddProcess in s.tried
  {
  }

  /** The cgroup is created, and if that has worked the child is confined in it. */
  method Limit(cfg: Config, pid: C.Pid, t: C.Tree, ghost run: Course, s: State, lenient: bool)
    returns (s': State, t': C.Tree, ghost pc: C.Pc, ghost run': Course)
    requires C.TreeInv(t) && At(cfg, pid, t, run, s, t, C.Checking) && s.parent.Create?
    requires lenient ==> Generous(pid, run)
    ensures lenient ==> Generous(pid, run')
    ensures At(cfg, pid, t, run', s', t', pc) && s'.parent.Report? && Retries(run'.labels) == Retries(run.labels)
  {
    hide At, Acts, C.TreeInv, C.Grows, C.At, C.Interferes, Leaf, Name, Generous, Refusal, C.Unrefused;
    var cgroup := new C.Cgroup();
    var created;
    ghost var log;
    created, t', log := cgroup.Create(t, "mc-" + Numbers.Show(pid, 10), lenient);
    LeafIsNotRoot(pid);
    NameIs(pid);
    C.AtFacts(Name(pid), t, log, t', C.Ended(created));
    pc := C.Ended(created);
    ghost var run1 := CreateGoesOn(cfg, pid, t, run, s, t, log);
    PlainAct(cfg, pid, s.parent, t', pc, created);
    RefusalIs(pid, s, t', pc, created);
    s', run' := Advance(cfg, pid, t, run1, s, t', pc, created, t');
    if created {
      s', t', run' := Confine(cfg, pid, t, run', s', cgroup, t', lenient);
    }
  }

  lemma NameIs(pid: C.Pid)
    ensures Name(pid) == "mc-" + Numbers.Show(pid, 10)
  {
  }
}
