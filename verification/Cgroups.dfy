/**
 cgroup.cpp: setting up a cgroup v2 tree around a container, against the
 kernel's rules: a cgroup that delegates controllers holds no processes (No
 Internal Process Constraint), and a controller is enabled below a cgroup only
 if it is enabled above (Top-down Constraint).

 Any processes may exist anywhere; between any two calls they may exit, and
 members of a cgroup may fork new members of it.  A process is identified by
 its pid; pids are not recycled while the tree is being set up.
 */
module Cgroups {
  import opened Text
  import opened Numbers
  import opened Runs

  datatype Controller = Memory | Pids | Other(name: string)

  type Pid = nat

  /** Names from the root down. */
  type Path = seq<string>

  const ROOT: Path := []
  const INIT: Path := ["init"]
  const PARENT: Path := ["minicontainer"]

  /** `control`: cgroup.subtree_control; `limits`: the interface files that were written. */
  datatype Dir = Dir(procs: set<Pid>, control: set<Controller>, limits: map<string, int>)

  /** `available`: the controllers offered to the root; `exempt`: the root seen here is the system's true root,
      to which the process constraint does not apply; `seen`: every pid there has ever been. */
  datatype Tree = Tree(dirs: map<Path, Dir>, available: set<Controller>, exempt: bool, live: set<Pid>, seen: set<Pid>)

  function Up(p: Path): Path
    requires p != ROOT
  {
    p[..|p| - 1]
  }

  /** cgroup.controllers: what the parent has enabled for its children. */
  function Offered(t: Tree, p: Path): set<Controller> {
    if p == ROOT then t.available else if Up(p) in t.dirs then t.dirs[Up(p)].control else {}
  }

  function Procs(t: Tree, p: Path): set<Pid> {
    if p in t.dirs then t.dirs[p].procs else {}
  }

  predicate Exempt(t: Tree, p: Path) {
    p == ROOT && t.exempt
  }

  // ---------------------------------------------------------------- the kernel's invariants

  ghost predicate Hierarchy(t: Tree) {
    && ROOT in t.dirs
    && (forall p | p in t.dirs && p != ROOT :: Up(p) in t.dirs)
    && (forall p | p in t.dirs :: t.dirs[p].control <= Offered(t, p))
  }

  ghost predicate NoInternalProcesses(t: Tree) {
    forall p | p in t.dirs && !Exempt(t, p) :: t.dirs[p].procs == {} || t.dirs[p].control == {}
  }

  predicate Somewhere(t: Tree, pid: Pid) {
    exists p :: p in t.dirs && pid in t.dirs[p].procs
  }

  /** Every live process is in exactly one cgroup. */
  predicate Partitioned(t: Tree) {
    && (forall pid | pid in t.live :: Somewhere(t, pid))
    && (forall p | p in t.dirs :: t.dirs[p].procs <= t.live)
    && (forall p, q, pid | p in t.dirs && q in t.dirs && pid in t.dirs[p].procs && pid in t.dirs[q].procs :: p == q)
    && t.live <= t.seen
  }

  ghost predicate TreeInv(t: Tree) {
    Hierarchy(t) && NoInternalProcesses(t) && Partitioned(t)
  }

  // ---------------------------------------------------------------- the kernel's operations

  datatype MkDirResult = Created | Exists | Refused

  predicate MkDirs(t: Tree, t': Tree, p: Path, r: MkDirResult) {
    match r
    case Created =>
      && p != ROOT && p !in t.dirs && Up(p) in t.dirs
      && t' == t.(dirs := t.dirs[p := Dir({}, {}, map[])])
    case Exists => p in t.dirs && t' == t
    case Refused => p !in t.dirs && t' == t
  }

  function Moved(t: Tree, p: Path, pid: Pid): Tree
    requires p in t.dirs
  {
    t.(dirs := map q | q in t.dirs ::
         t.dirs[q].(procs := if q == p then t.dirs[q].procs + {pid} else t.dirs[q].procs - {pid}))
  }

  /** Writing a pid to cgroup.procs: refused for a dead process, and with EBUSY where controllers are
      delegated; it may also be refused for other reasons. */
  predicate Moves(t: Tree, t': Tree, p: Path, pid: Pid, ok: bool) {
    if ok then p in t.dirs && pid in t.live && (t.dirs[p].control == {} || Exempt(t, p)) && t' == Moved(t, p, pid)
    else t' == t
  }

  /** Writing to cgroup.subtree_control: refused with EBUSY while the cgroup holds processes, and for
      controllers it is not offered. */
  predicate Enables(t: Tree, t': Tree, p: Path, cs: set<Controller>, ok: bool) {
    if ok then
      && p in t.dirs && cs <= Offered(t, p) && (t.dirs[p].procs == {} || Exempt(t, p))
      && t' == t.(dirs := t.dirs[p := t.dirs[p].(control := t.dirs[p].control + cs)])
    else t' == t
  }

  /** A limit file exists only where its controller is offered. */
  predicate Limits(t: Tree, t': Tree, p: Path, c: Controller, file: string, value: int, ok: bool) {
    if ok then
      && p in t.dirs && p != ROOT && c in Offered(t, p)
      && t' == t.(dirs := t.dirs[p := t.dirs[p].(limits := t.dirs[p].limits[file := value])])
    else t' == t
  }

  /** rmdir: only an empty leaf goes. */
  predicate RmDirs(t: Tree, t': Tree, p: Path, ok: bool) {
    if ok then
      && p in t.dirs && p != ROOT && t.dirs[p].procs == {} && (forall q | q in t.dirs && q != ROOT :: Up(q) != p)
      && t' == t.(dirs := t.dirs - {p})
    else t' == t
  }

  /** Other processes exit, and fork children into their own cgroups. */
  predicate Interferes(t: Tree, t': Tree) {
    && t'.dirs.Keys == t.dirs.Keys && t'.available == t.available && t'.exempt == t.exempt
    && (forall p | p in t.dirs ::
          && t'.dirs[p] == t.dirs[p].(procs := t'.dirs[p].procs)
          && (forall pid | pid in t'.dirs[p].procs :: pid in t.dirs[p].procs || pid !in t.seen)
          && (t'.dirs[p].procs != {} ==> t.dirs[p].procs != {}))
    && t.seen <= t'.seen && Partitioned(t')
  }

  lemma TreeParts(t: Tree)
    requires TreeInv(t)
    ensures Hierarchy(t) && NoInternalProcesses(t) && Partitioned(t)
  {
  }

  lemma TreeFolds(t: Tree)
    requires Hierarchy(t) && NoInternalProcesses(t) && Partitioned(t)
    ensures TreeInv(t)
  {
  }

  /** The processes of every cgroup that has any are where they were. */
  lemma SameProcs(t: Tree, t': Tree)
    requires Partitioned(t) && t'.live == t.live && t'.seen == t.seen
    requires forall p | p in t.dirs && t.dirs[p].procs != {} :: p in t'.dirs && t'.dirs[p].procs == t.dirs[p].procs
    requires forall p | p in t'.dirs && t'.dirs[p].procs != {} :: p in t.dirs && t'.dirs[p].procs == t.dirs[p].procs
    ensures Partitioned(t')
  {
    forall pid | pid in t'.live ensures Somewhere(t', pid) {
      assert Somewhere(t, pid);
      var q :| q in t.dirs && pid in t.dirs[q].procs;
      assert pid in t'.dirs[q].procs;
    }
    forall p, q, pid | p in t'.dirs && q in t'.dirs && pid in t'.dirs[p].procs && pid in t'.dirs[q].procs
      ensures p == q
    {
      assert pid in t.dirs[p].procs && pid in t.dirs[q].procs;
    }
  }

  /** Each kernel operation, succeeding or refused, keeps the tree in order. */
  lemma MkDirKeeps(t: Tree, t': Tree, p: Path, r: MkDirResult)
    requires TreeInv(t) && MkDirs(t, t', p, r)
    ensures TreeInv(t')
  {
    if r.Created? {
      hide Somewhere, Partitioned;
      TreeParts(t);
      SameProcs(t, t');
      MkDirHierarchy(t, t', p, r);
      hide *;
      TreeFolds(t');
    }
  }

  lemma MkDirHierarchy(t: Tree, t': Tree, p: Path, r: MkDirResult)
    requires Hierarchy(t) && NoInternalProcesses(t) && MkDirs(t, t', p, r) && r.Created?
    ensures Hierarchy(t') && NoInternalProcesses(t')
  {
  }

  lemma MoveKeeps(t: Tree, t': Tree, p: Path, pid: Pid, ok: bool)
    requires TreeInv(t) && Moves(t, t', p, pid, ok)
    ensures TreeInv(t')
  {
    if ok {
      TreeParts(t);
      MoveKeepsPartition(t, t', p, pid);
      MoveKeepsHierarchy(t, t', p, pid);
    }
  }

  lemma MoveKeepsHierarchy(t: Tree, t': Tree, p: Path, pid: Pid)
    requires Hierarchy(t) && NoInternalProcesses(t) && Moves(t, t', p, pid, true)
    ensures Hierarchy(t') && NoInternalProcesses(t')
  {
  }

  lemma MoveKeepsPartition(t: Tree, t': Tree, p: Path, pid: Pid)
    requires Partitioned(t) && Moves(t, t', p, pid, true)
    ensures Partitioned(t')
  {
    forall x | x in t'.live ensures Somewhere(t', x) {
      if x == pid {
        assert x in t'.dirs[p].procs;
      } else {
        assert Somewhere(t, x);
        var q :| q in t.dirs && x in t.dirs[q].procs;
        assert x in t'.dirs[q].procs;
      }
    }
  }

  lemma EnableKeeps(t: Tree, t': Tree, p: Path, cs: set<Controller>, ok: bool)
    requires TreeInv(t) && Enables(t, t', p, cs, ok)
    ensures TreeInv(t')
  {
    if ok {
      hide Somewhere, Partitioned;
      TreeParts(t);
      SameProcs(t, t');
      EnableHierarchy(t, t', p, cs);
    }
  }

  lemma EnableHierarchy(t: Tree, t': Tree, p: Path, cs: set<Controller>)
    requires Hierarchy(t) && NoInternalProcesses(t) && Enables(t, t', p, cs, true)
    ensures Hierarchy(t') && NoInternalProcesses(t')
  {
  }

  lemma LimitKeeps(t: Tree, t': Tree, p: Path, c: Controller, file: string, value: int, ok: bool)
    requires TreeInv(t) && Limits(t, t', p, c, file, value, ok)
    ensures TreeInv(t')
  {
    if ok {
      hide Somewhere, Partitioned;
      TreeParts(t);
      SameProcs(t, t');
      LimitHierarchy(t, t', p, c, file, value);
    }
  }

  lemma LimitHierarchy(t: Tree, t': Tree, p: Path, c: Controller, file: string, value: int)
    requires Hierarchy(t) && NoInternalProcesses(t) && Limits(t, t', p, c, file, value, true)
    ensures Hierarchy(t') && NoInternalProcesses(t')
  {
  }

  lemma RmDirKeeps(t: Tree, t': Tree, p: Path, ok: bool)
    requires TreeInv(t) && RmDirs(t, t', p, ok)
    ensures TreeInv(t')
  {
    if ok {
      TreeParts(t);
      hide Somewhere, Partitioned;
      SameProcs(t, t');
    }
  }

  lemma InterferenceKeeps(t: Tree, t': Tree)
    requires TreeInv(t) && Interferes(t, t')
    ensures TreeInv(t')
  {
    forall p | p in t'.dirs ensures t'.dirs[p].control <= Offered(t', p) {
      assert t'.dirs[p].control == t.dirs[p].control;
    }
  }

  // ---------------------------------------------------------------- vacating the root

  /** Each of the processes `was`, while it lives, has been moved to init, or (`root`) is still in the root. */
  ghost predicate Within(t: Tree, was: set<Pid>, root: bool) {
    && was <= t.seen
    && forall pid | pid in was && pid in t.live :: pid in Procs(t, INIT) || (root && pid in Procs(t, ROOT))
  }

  lemma MoveKeepsWithin(t: Tree, t': Tree, pid: Pid, ok: bool, was: set<Pid>, root: bool)
    requires Moves(t, t', INIT, pid, ok) && Within(t, was, root)
    ensures Within(t', was, root)
  {
  }

  lemma InterferenceKeepsWithin(t: Tree, t': Tree, was: set<Pid>, root: bool)
    requires TreeInv(t) && Interferes(t, t') && Within(t, was, root)
    ensures Within(t', was, root)
  {
    forall pid | pid in was && pid in t'.live ensures pid in Procs(t', INIT) || (root && pid in Procs(t', ROOT)) {
      assert Somewhere(t', pid);
      var p :| p in t'.dirs && pid in t'.dirs[p].procs;
      assert pid in t.dirs[p].procs;
    }
  }

  lemma SameProcsKeepWithin(t: Tree, t': Tree, was: set<Pid>, root: bool)
    requires Within(t, was, root) && t'.live == t.live && t'.seen == t.seen
    requires Procs(t, INIT) <= Procs(t', INIT) && Procs(t, ROOT) <= Procs(t', ROOT)
    ensures Within(t', was, root)
  {
  }

  /** Directories and delegated controllers only grow. */
  ghost predicate Grows(t: Tree, t': Tree) {
    && t'.available == t.available && t'.exempt == t.exempt
    && forall p | p in t.dirs :: p in t'.dirs && t.dirs[p].control <= t'.dirs[p].control
  }

  lemma GrowsIsTransitive(a: Tree, b: Tree, c: Tree)
    requires Grows(a, b) && Grows(b, c)
    ensures Grows(a, c)
  {
  }

  lemma OffersMore(t: Tree, t': Tree, p: Path)
    requires Grows(t, t')
    ensures Offered(t, p) <= Offered(t', p)
  {
  }

  /** read_file cuts newlines and blanks off the end. */
  function Chomp(s: string): string {
    if s != "" && (s[|s| - 1] == '\n' || s[|s| - 1] == ' ') then Chomp(s[..|s| - 1]) else s
  }

  function Shown(pids: seq<Pid>): seq<string> {
    seq(|pids|, i requires 0 <= i < |pids| => Show(pids[i], 10))
  }

  function NonEmpty(lines: seq<string>): seq<string> {
    if lines == [] then [] else (if lines[0] == "" then [] else [lines[0]]) + NonEmpty(lines[1..])
  }

  lemma {:induction false} NonEmptyAll(lines: seq<string>)
    requires forall l | l in lines :: l != ""
    ensures NonEmpty(lines) == lines
  {
    if lines != [] {
      assert lines[0] in lines && forall l | l in lines[1..] :: l in lines;
      NonEmptyAll(lines[1..]);
    }
  }

  lemma {:induction false} UnlinesSnoc(lines: seq<string>, last: string)
    ensures Unlines(lines + [last]) == Unlines(lines) + last + "\n"
  {
    if lines == [] {
      assert [last][1..] == [];
    } else {
      UnlinesSnoc(lines[1..], last);
      assert (lines + [last])[1..] == lines[1..] + [last];
    }
  }

  lemma ChompIs(front: string, last: string)
    requires last != "" && NoSpace(last)
    ensures Chomp(front + last + "\n") == front + last
  {
    var s := front + last;
    assert (s + "\n")[..|s|] == s;
    assert s[|s| - 1] == last[|last| - 1];
  }

  lemma ShownWords(pids: seq<Pid>, i: nat)
    requires i < |pids|
    ensures Shown(pids)[i] != "" && NoSpace(Shown(pids)[i]) && OneLine(Shown(pids)[i])
  {
    ValueOfShow(pids[i], 10);
    PlainHasNone(Show(pids[i], 10));
  }

  /** One pid per write: the non-empty lines of the trimmed listing are the pids in order, for every list. */
  lemma OnePidPerLine(pids: seq<Pid>)
    ensures NonEmpty(Lines(Chomp(Unlines(Shown(pids))), 0)) == Shown(pids)
  {
    hide Lines, Unlines, Chomp, NonEmpty, NoSpace, Lined;
    var lines := Shown(pids);
    forall l | l in lines ensures l != "" && NoSpace(l) && OneLine(l) {
      var i :| 0 <= i < |lines| && lines[i] == l;
      ShownWords(pids, i);
    }
    if lines == [] {
      NothingListed();
    } else {
      var front, last := lines[..|lines| - 1], lines[|lines| - 1];
      assert lines == front + [last];
      UnlinesSnoc(front, last);
      ChompIs(Unlines(front), last);
      assert "" + Unlines(front) + last == Unlines(front) + last;
      UnlinesIsLined("", front, last);
      LinesInvertUnlines(Unlines(front) + last, 0, front, last);
      NonEmptyAll(lines);
    }
  }

  lemma NothingListed()
    ensures NonEmpty(Lines(Chomp(Unlines([])), 0)) == []
  {
  }

  /** The pid a process writes as text. */
  function PidOf(text: string): Option<Pid> {
    if text != "" && Digits(text, 10) then Some(Value(text, 10)) else None
  }

  lemma {:induction false} PidOfShown(pid: Pid)
    ensures PidOf(Show(pid, 10)) == Some(pid)
  {
    ValueOfShow(pid, 10);
    PlainHasNone(Show(pid, 10));
  }

  // ---------------------------------------------------------------- create as a machine

  /** The system calls of `create`, with their answers; `Elsewhere`: other processes exit and fork. */
  datatype Call =
    | Elsewhere
    | Statfs(ok: bool)
    | ListRoot(pids: Option<seq<Pid>>)
    | Make(p: Path, r: MkDirResult)
    | MovePid(p: Path, pid: Pid, ok: bool)
    | Controllers(p: Path, offered: Option<set<Controller>>)
    | Enable(p: Path, cs: set<Controller>, ok: bool)

  /** The call takes the tree from `t` to `t'`.  A listing names every process of the root, in any order. */
  ghost predicate Does(t: Tree, c: Call, t': Tree) {
    match c
    case Elsewhere => Interferes(t, t')
    case Statfs(_) => t' == t
    case ListRoot(pids) =>
      t' == t && (pids.Some? ==> forall pid :: pid in pids.value <==> pid in Procs(t, ROOT))
    case Make(p, r) => MkDirs(t, t', p, r)
    case MovePid(p, pid, ok) => Moves(t, t', p, pid, ok)
    case Controllers(p, offered) => t' == t && (offered.Some? ==> offered.value == Offered(t, p))
    case Enable(p, cs, ok) => Enables(t, t', p, cs, ok)
  }

  /** The controllers the container needs, of those a cgroup offers. */
  function Wanted(offered: set<Controller>): set<Controller> {
    offered * {Memory, Pids}
  }

  /** The next call of `create`; `pids`: the processes still to be moved. */
  datatype Pc =
    | Checking
    | Listing
    | MakingInit(pids: seq<Pid>)
    | Moving(pids: seq<Pid>)
    | Asking(p: Path)
    | Enabling(p: Path, cs: set<Controller>)
    | MakingParent
    | MakingLeaf
    | Ended(ok: bool)

  predicate Expects(name: string, pc: Pc, c: Call) {
    match pc
    case Checking => c.Statfs?
    case Listing => c.ListRoot?
    case MakingInit(_) => c.Make? && c.p == INIT
    case Moving(pids) => pids != [] && c.MovePid? && c.p == INIT && c.pid == pids[0]
    case Asking(p) => c.Controllers? && c.p == p
    case Enabling(p, cs) => c.Enable? && c.p == p && c.cs == cs
    case MakingParent => c.Make? && c.p == PARENT
    case MakingLeaf => c.Make? && c.p == PARENT + [name]
    case Ended(_) => false
  }

  function ToMove(pids: seq<Pid>): Pc {
    if pids == [] then Asking(ROOT) else Moving(pids)
  }

  /** What the answer leads to.  A write of a pid may fail: the process may have exited. */
  function Following(name: string, pc: Pc, c: Call): Pc
    requires Expects(name, pc, c)
  {
    match c
    case Statfs(ok) => if ok then Listing else Ended(false)
    case ListRoot(pids) => if pids.None? || pids.value == [] then Asking(ROOT) else MakingInit(pids.value)
    case MovePid(_, _, _) => ToMove(pc.pids[1..])
    case Controllers(p, offered) =>
      if offered.None? || Wanted(offered.value) == {} then Ended(false) else Enabling(p, Wanted(offered.value))
    case Enable(p, _, ok) => if !ok then Ended(false) else if p == ROOT then MakingParent else MakingLeaf
    case Make(_, r) =>
      if r.Refused? then Ended(false)
      else if pc.MakingInit? then ToMove(pc.pids)
      else if pc.MakingParent? then Asking(PARENT)
      else Ended(true)
  }

  datatype State = State(t: Tree, pc: Pc)

  ghost predicate Step(name: string, x: State, c: Call, x': State) {
    && Does(x.t, c, x'.t)
    && if c.Elsewhere? then x'.pc == x.pc else Expects(name, x.pc, c) && x'.pc == Following(name, x.pc, c)
  }

  type Log = Walk<State, Call>

  ghost function Steps(name: string): (State, Call, State) -> bool {
    (x, c, x') => Step(name, x, c, x')
  }

  /** A run of create(name), begun in the tree `t`. */
  ghost predicate IsRun(name: string, t: Tree, log: Log) {
    Follows(log, State(t, Checking), Steps(name))
  }

  function Now(log: Log): State
    requires log.states != []
  {
    End(log)
  }

  /** The run has led to the tree `t'` and to `pc`. */
  ghost predicate At(name: string, t: Tree, log: Log, t': Tree, pc: Pc) {
    IsRun(name, t, log) && Now(log) == State(t', pc)
  }

  function Begun(t: Tree): Log {
    Single(State(t, Checking))
  }

  function Then(log: Log, c: Call, x: State): Log {
    Extended(log, c, x)
  }

  lemma BegunIsRun(name: string, t: Tree)
    ensures At(name, t, Begun(t), t, Checking)
  {
  }

  lemma ThenIsRun(name: string, t: Tree, log: Log, t1: Tree, pc: Pc, c: Call, x: State)
    requires At(name, t, log, t1, pc) && Step(name, State(t1, pc), c, x)
    ensures At(name, t, Then(log, c, x), x.t, x.pc)
  {
    hide Step;
    ExtendedFollows(log, State(t, Checking), Steps(name), c, x);
  }

  lemma AtFacts(name: string, t: Tree, log: Log, t': Tree, pc: Pc)
    requires At(name, t, log, t', pc)
    ensures IsRun(name, t, log) && log.states != [] && Now(log) == State(t', pc)
  {
  }

  lemma BeforeIsRun(name: string, t: Tree, log: Log)
    requires IsRun(name, t, log) && log.labels != []
    ensures IsRun(name, t, Before(log)) && Now(Before(log)) == log.states[|log.labels| - 1]
    ensures Step(name, Now(Before(log)), log.labels[|log.labels| - 1], Now(log))
  {
    hide Step;
    BeforeFollows(log, State(t, Checking), Steps(name));
  }

  // ---- every call keeps the tree in order

  lemma DoesKeeps(t: Tree, c: Call, t': Tree)
    requires TreeInv(t) && Does(t, c, t')
    ensures TreeInv(t') && Grows(t, t')
  {
    hide TreeInv;
    match c
    case Elsewhere => InterferenceKeeps(t, t');
    case Make(p, r) => MkDirKeeps(t, t', p, r);
    case MovePid(p, pid, ok) => MoveKeeps(t, t', p, pid, ok);
    case Enable(p, cs, ok) => EnableKeeps(t, t', p, cs, ok);
    case _ =>
  }

  lemma {:induction false} RunKeepsTree(name: string, t: Tree, log: Log)
    requires TreeInv(t) && IsRun(name, t, log)
    ensures TreeInv(Now(log).t) && Grows(t, Now(log).t)
    decreases |log.labels|
  {
    hide TreeInv, Grows, Does;
    if log.labels == [] {
      NothingGrows(t);
    } else {
      BeforeIsRun(name, t, log);
      RunKeepsTree(name, t, Before(log));
      DoesKeeps(Now(Before(log)).t, log.labels[|log.labels| - 1], Now(log).t);
      GrowsIsTransitive(t, Now(Before(log)).t, Now(log).t);
    }
  }

  lemma NothingGrows(t: Tree)
    ensures Grows(t, t)
  {
  }

  // ---- whom the calls move

  /** Has the root been made to delegate? */
  predicate PastRoot(pc: Pc) {
    pc.MakingParent? || pc.MakingLeaf? || pc == Ended(true) || pc == Asking(PARENT) || (pc.Enabling? && pc.p == PARENT)
  }

  lemma DoesKeepsWithin(name: string, x: State, c: Call, x': State, was: set<Pid>)
    requires TreeInv(x.t) && Step(name, x, c, x') && SomeParent(x.pc)
    requires Within(x.t, was, x.t.exempt || !PastRoot(x.pc))
    ensures Within(x'.t, was, x.t.exempt || !PastRoot(x'.pc))
  {
    hide TreeInv, Hierarchy, NoInternalProcesses;
    var root := x.t.exempt || !PastRoot(x.pc);
    match c
    case Elsewhere => InterferenceKeepsWithin(x.t, x'.t, was, root);
    case MovePid(p, pid, ok) => MoveKeepsWithin(x.t, x'.t, pid, ok, was, root);
    case Enable(p, cs, ok) => EnableKeepsWithin(x.t, x'.t, p, cs, ok, was, root);
    case Make(p, r) => SameProcsKeepWithin(x.t, x'.t, was, root);
    case _ =>
  }

  lemma EnableKeepsWithin(t: Tree, t': Tree, p: Path, cs: set<Controller>, ok: bool, was: set<Pid>, root: bool)
    requires Enables(t, t', p, cs, ok) && Within(t, was, root)
    ensures Within(t', was, root)
    ensures ok && p == ROOT && !t.exempt ==> Within(t', was, false)
  {
  }

  /** Only the root and minicontainer are ever asked for or given controllers. */
  predicate SomeParent(pc: Pc) {
    (pc.Asking? || pc.Enabling?) ==> pc.p == ROOT || pc.p == PARENT
  }

  lemma StepKeepsParents(name: string, x: State, c: Call, x': State)
    requires Step(name, x, c, x') && SomeParent(x.pc)
    ensures SomeParent(x'.pc) && x'.t.exempt == x.t.exempt && x'.t.available == x.t.available
  {
  }

  /** Whatever the kernel refuses and whoever interferes, every process that was in the root at the start and still
      lives is in the root or in init; and once the root delegates it is in init, unless the root is the system's
      own. */
  lemma {:induction false} NobodyIsLost(name: string, t: Tree, log: Log)
    requires TreeInv(t) && IsRun(name, t, log)
    ensures SomeParent(Now(log).pc) && Now(log).t.exempt == t.exempt && Now(log).t.available == t.available
    ensures Within(Now(log).t, Procs(t, ROOT), t.exempt || !PastRoot(Now(log).pc))
    decreases |log.labels|
  {
    hide TreeInv, Within, Step, PastRoot, Procs;
    if log.labels == [] {
      AllInRoot(t);
      StartsBeforeRoot();
    } else {
      BeforeIsRun(name, t, log);
      NobodyIsLost(name, t, Before(log));
      RunKeepsTree(name, t, Before(log));
      StepKeepsParents(name, Now(Before(log)), log.labels[|log.labels| - 1], Now(log));
      DoesKeepsWithin(name, Now(Before(log)), log.labels[|log.labels| - 1], Now(log), Procs(t, ROOT));
    }
  }

  lemma StartsBeforeRoot()
    ensures !PastRoot(Checking) && SomeParent(Checking)
  {
  }

  lemma AllInRoot(t: Tree)
    requires TreeInv(t)
    ensures Within(t, Procs(t, ROOT), true)
  {
  }

  lemma StepDoes(name: string, x: State, c: Call, x': State)
    requires Step(name, x, c, x')
    ensures Does(x.t, c, x'.t)
  {
  }

  // ---- refusals

  /** The kernel refuses a call that its rules allow. */
  ghost predicate Denies(t: Tree, c: Call) {
    match c
    case Elsewhere => false
    case Statfs(ok) => !ok
    case ListRoot(pids) => pids.None?
    case Make(_, r) => r.Refused?
    case MovePid(p, pid, ok) => !ok && p in t.dirs && pid in t.live && (t.dirs[p].control == {} || Exempt(t, p))
    case Controllers(_, offered) => offered.None?
    case Enable(p, cs, ok) => !ok && p in t.dirs && cs <= Offered(t, p) && (t.dirs[p].procs == {} || Exempt(t, p))
  }

  /** Why `create` gives up: a refusal, EBUSY, or no controller worth enabling. */
  ghost predicate Fails(t: Tree, c: Call) {
    || (Denies(t, c) && !c.MovePid?)
    || (c.Enable? && !c.ok && Procs(t, c.p) != {})
    || (c.Controllers? && Wanted(Offered(t, c.p)) == {})
  }

  /** After a write of a pid the process is in init and out of the root; or the write changed nothing, because the
      process is dead, because init delegates controllers, or because it was refused. */
  lemma EveryWriteTakesEffect(name: string, t: Tree, log: Log, i: nat)
    requires IsRun(name, t, log) && i < |log.labels| && log.labels[i].MovePid? && INIT in log.states[i].t.dirs
    ensures var c, t1, t2 := log.labels[i], log.states[i].t, log.states[i+1].t;
            && c.p == INIT
            && (if c.ok then c.pid in Procs(t2, INIT) && c.pid !in Procs(t2, ROOT)
                else t2 == t1 && (c.pid !in t1.live || t1.dirs[INIT].control != {} || Denies(t1, c)))
  {
    assert Step(name, log.states[i], log.labels[i], log.states[i+1]);
  }

  // ---- what success means

  /** The controllers that the container needs and the root is offered. */
  function Needed(t: Tree): set<Controller> {
    Wanted(t.available)
  }

  ghost predicate Delegates(t: Tree, p: Path) {
    p in t.dirs && Needed(t) <= t.dirs[p].control && Wanted(t.dirs[p].control) != {}
  }

  /** What has been achieved when the next call is `pc`. */
  ghost predicate Achieved(name: string, t: Tree, pc: Pc) {
    match pc
    case Asking(p) => if p == ROOT then true else p == PARENT && p in t.dirs && Delegates(t, ROOT)
    case Enabling(p, cs) =>
      && cs != {} && p in t.dirs && cs == Wanted(Offered(t, p))
      && (p == ROOT || (p == PARENT && Delegates(t, ROOT)))
    case MakingParent => Delegates(t, ROOT)
    case MakingLeaf => Delegates(t, ROOT) && Delegates(t, PARENT)
    case Ended(ok) => ok ==> Delegates(t, ROOT) && Delegates(t, PARENT) && PARENT + [name] in t.dirs
    case _ => true
  }

  lemma StepAchieves(name: string, x: State, c: Call, x': State)
    requires ROOT in x.t.dirs && Step(name, x, c, x') && Achieved(name, x.t, x.pc)
    ensures Achieved(name, x'.t, x'.pc)
    ensures x'.pc == Ended(false) && x.pc != Ended(false) ==> Fails(x.t, c)
  {
    hide Partitioned;
    if c.Enable? && c.ok {
      WantedIsWanted(Offered(x.t, c.p), x'.t.dirs[c.p].control);
    }
  }

  lemma WantedIsWanted(offered: set<Controller>, control: set<Controller>)
    ensures Wanted(offered) <= control ==> Wanted(offered) <= Wanted(control)
  {
  }

  lemma {:induction false} RunAchieves(name: string, t: Tree, log: Log)
    requires TreeInv(t) && IsRun(name, t, log)
    ensures Achieved(name, Now(log).t, Now(log).pc)
    ensures Now(log).pc == Ended(false) ==>
              exists i :: 0 <= i < |log.labels| && Fails(log.states[i].t, log.labels[i])
    decreases |log.labels|
  {
    hide TreeInv, Grows, Step, Achieved, Fails;
    if log.labels == [] {
      NothingAchieved(name, t);
    } else {
      BeforeIsRun(name, t, log);
      RunAchieves(name, t, Before(log));
      RunKeepsTree(name, t, Before(log));
      RootIsThere(Now(Before(log)).t);
      var last := |log.labels| - 1;
      StepAchieves(name, Now(Before(log)), log.labels[last], Now(log));
      if Now(log).pc == Ended(false) && Now(Before(log)).pc == Ended(false) {
        var i :| 0 <= i < |Before(log).labels| && Fails(Before(log).states[i].t, Before(log).labels[i]);
        assert Fails(log.states[i].t, log.labels[i]);
      }
    }
  }

  /** What a successful `create` has achieved stays as long as directories and controllers only grow. */
  lemma GrowsKeepsSuccess(name: string, t: Tree, t': Tree)
    requires Grows(t, t') && Achieved(name, t, Ended(true))
    ensures Achieved(name, t', Ended(true))
  {
    DelegationGrows(t, t', ROOT);
    DelegationGrows(t, t', PARENT);
    hide Delegates;
  }

  lemma DelegationGrows(t: Tree, t': Tree, p: Path)
    requires Grows(t, t') && Delegates(t, p)
    ensures Delegates(t', p)
  {
    var c :| c in Wanted(t.dirs[p].control);
    assert c in Wanted(t'.dirs[p].control);
  }

  lemma SameTree(t: Tree, t': Tree)
    requires Grows(t, t')
    ensures t'.available == t.available && t'.exempt == t.exempt
  {
  }

  lemma NothingAchieved(name: string, t: Tree)
    ensures Achieved(name, t, Checking)
  {
  }

  lemma RootIsThere(t: Tree)
    requires TreeInv(t)
    ensures ROOT in t.dirs && INIT != ROOT && Up(INIT) == ROOT && PARENT != ROOT && Up(PARENT) == ROOT
  {
  }

  // ---- exactly when it succeeds

  /** No call that the rules allow is refused, and nobody arrives in the root. */
  ghost predicate Smooth(log: Log)
    requires |log.states| == |log.labels| + 1
  {
    forall i | 0 <= i < |log.labels| ::
      !Denies(log.states[i].t, log.labels[i]) && Procs(log.states[i+1].t, ROOT) <= Procs(log.states[i].t, ROOT)
  }

  /** The rules leave `create` a way: init does not delegate, unless nobody has to be moved there or the root may
      keep its processes, and minicontainer holds no processes itself. */
  predicate Clear(t: Tree) {
    && (t.exempt || Procs(t, ROOT) == {} || (INIT in t.dirs ==> t.dirs[INIT].control == {}))
    && Procs(t, PARENT) == {}
  }

  ghost predicate OnCourse(x: State) {
    Clear(x.t) &&
    match x.pc
    case MakingInit(pids) => x.t.exempt || forall pid | pid in Procs(x.t, ROOT) :: pid in pids
    case Moving(pids) => INIT in x.t.dirs && (x.t.exempt || forall pid | pid in Procs(x.t, ROOT) :: pid in pids)
    case Asking(p) => p == ROOT ==> x.t.exempt || Procs(x.t, ROOT) == {}
    case Enabling(p, _) => p == ROOT ==> x.t.exempt || Procs(x.t, ROOT) == {}
    case Ended(ok) => ok || Needed(x.t) == {}
    case _ => true
  }

  lemma StepStaysOnCourse(name: string, x: State, c: Call, x': State)
    requires TreeInv(x.t) && Step(name, x, c, x') && OnCourse(x) && Achieved(name, x.t, x.pc)
    requires !Denies(x.t, c) && Procs(x'.t, ROOT) <= Procs(x.t, ROOT)
    ensures OnCourse(x')
  {
    hide NoInternalProcesses;
    StaysClear(name, x, c, x');
    if c.MovePid? {
      MoveStaysOnCourse(name, x, c, x');
    } else {
      hide Partitioned;
    }
  }

  lemma StaysClear(name: string, x: State, c: Call, x': State)
    requires Step(name, x, c, x') && Clear(x.t) && Achieved(name, x.t, x.pc)
    requires Procs(x'.t, ROOT) <= Procs(x.t, ROOT)
    ensures Clear(x'.t)
  {
  }

  lemma MoveStaysOnCourse(name: string, x: State, c: Call, x': State)
    requires Partitioned(x.t) && Step(name, x, c, x') && OnCourse(x) && c.MovePid? && !Denies(x.t, c) && Clear(x'.t)
    requires Procs(x'.t, ROOT) <= Procs(x.t, ROOT)
    ensures OnCourse(x')
  {
    var pids := x.pc.pids;
    if !x.t.exempt {
      forall pid | pid in Procs(x'.t, ROOT) ensures pid in pids[1..] {
        assert pid in pids;
        assert pid in x.t.live;
      }
    }
  }

  lemma {:induction false} SmoothRunsStayOnCourse(name: string, t: Tree, log: Log)
    requires TreeInv(t) && IsRun(name, t, log) && Smooth(log) && Clear(t)
    ensures OnCourse(Now(log))
    decreases |log.labels|
  {
    hide TreeInv, Step, Achieved, OnCourse, Denies, Procs, Clear;
    if log.labels == [] {
      StartsOnCourse(t);
    } else {
      var last := |log.labels| - 1;
      BeforeIsRun(name, t, log);
      assert Smooth(Before(log)) by {
        forall i | 0 <= i < last
          ensures !Denies(Before(log).states[i].t, Before(log).labels[i])
          ensures Procs(Before(log).states[i+1].t, ROOT) <= Procs(Before(log).states[i].t, ROOT)
        {
          assert Before(log).states[i+1] == log.states[i+1];
        }
      }
      SmoothRunsStayOnCourse(name, t, Before(log));
      RunKeepsTree(name, t, Before(log));
      RunAchieves(name, t, Before(log));
      assert !Denies(log.states[last].t, log.labels[last]);
      StepStaysOnCourse(name, Now(Before(log)), log.labels[last], Now(log));
    }
  }

  lemma StartsOnCourse(t: Tree)
    requires Clear(t)
    ensures OnCourse(State(t, Checking))
  {
  }

  // ---- when the rules leave no way

  /** Nobody else changes anything between the calls. */
  ghost predicate Undisturbed(log: Log)
    requires |log.states| == |log.labels| + 1
  {
    forall i | 0 <= i < |log.labels| && log.labels[i].Elsewhere? :: log.states[i+1].t == log.states[i].t
  }

  /** Processes in minicontainer keep it from delegating; none of them is about to be moved. */
  ghost predicate ParentBlocks(x: State) {
    && Procs(x.t, PARENT) != {} && !x.pc.MakingLeaf? && x.pc != Ended(true)
    && (x.pc.MakingInit? || x.pc.Moving? ==> forall pid | pid in x.pc.pids :: pid !in Procs(x.t, PARENT))
  }

  /** init takes nobody in, and so the root keeps its processes and cannot delegate. */
  ghost predicate RootBlocks(x: State) {
    && !x.t.exempt && Procs(x.t, ROOT) != {} && INIT in x.t.dirs && x.t.dirs[INIT].control != {}
    && !PastRoot(x.pc)
  }

  lemma StepStaysBlocked(name: string, x: State, c: Call, x': State)
    requires TreeInv(x.t) && Step(name, x, c, x') && Achieved(name, x.t, x.pc)
    requires c.Elsewhere? ==> x'.t == x.t
    ensures ParentBlocks(x) ==> ParentBlocks(x')
    ensures RootBlocks(x) ==> RootBlocks(x')
  {
    hide Hierarchy, NoInternalProcesses;
    if ParentBlocks(x) {
      if c.ListRoot? {
        RootIsApart(x.t);
      }
      hide Partitioned;
    }
    hide Partitioned;
  }

  lemma RootIsApart(t: Tree)
    requires TreeInv(t)
    ensures forall pid | pid in Procs(t, ROOT) :: pid !in Procs(t, PARENT)
  {
    assert ROOT != PARENT;
  }

  lemma {:induction false} BlockedRunsStayBlocked(name: string, t: Tree, log: Log)
    requires TreeInv(t) && IsRun(name, t, log) && Undisturbed(log) && !Clear(t)
    ensures ParentBlocks(Now(log)) || RootBlocks(Now(log))
    decreases |log.labels|
  {
    hide TreeInv, Step, Achieved, ParentBlocks, RootBlocks, Clear;
    if log.labels == [] {
      StartsBlocked(t);
    } else {
      var last := |log.labels| - 1;
      BeforeIsRun(name, t, log);
      assert Undisturbed(Before(log)) by {
        forall i | 0 <= i < last && Before(log).labels[i].Elsewhere?
          ensures Before(log).states[i+1].t == Before(log).states[i].t
        {
          assert log.labels[i].Elsewhere? && Before(log).states[i+1] == log.states[i+1];
        }
      }
      BlockedRunsStayBlocked(name, t, Before(log));
      RunKeepsTree(name, t, Before(log));
      RunAchieves(name, t, Before(log));
      assert log.labels[last].Elsewhere? ==> log.states[last+1].t == log.states[last].t;
      StepStaysBlocked(name, Now(Before(log)), log.labels[last], Now(log));
    }
  }

  lemma StartsBlocked(t: Tree)
    requires !Clear(t)
    ensures ParentBlocks(State(t, Checking)) || RootBlocks(State(t, Checking))
  {
  }

  lemma BlockedIsNoSuccess(x: State)
    requires ParentBlocks(x) || RootBlocks(x)
    ensures x.pc != Ended(true)
  {
  }

  /** If nothing is refused that could be granted, and nobody arrives in the root: from a clear tree the root is
      empty (or exempt) when it is asked to delegate, and `create` succeeds if and only if the root is offered memory
      or pids; and if nobody else moves at all, `create` succeeds if and only if the tree is clear and the root is
      offered memory or pids. */
  lemma CreateSucceedsExactly(name: string, t: Tree, log: Log)
    requires TreeInv(t) && IsRun(name, t, log) && Smooth(log)
    ensures Clear(t) && (Now(log).pc == Asking(ROOT) || (Now(log).pc.Enabling? && Now(log).pc.p == ROOT)) ==>
              t.exempt || Procs(Now(log).t, ROOT) == {}
    ensures Clear(t) && Now(log).pc.Ended? ==> (Now(log).pc.ok <==> Memory in t.available || Pids in t.available)
    ensures Undisturbed(log) && Now(log).pc.Ended? ==>
              (Now(log).pc.ok <==> Clear(t) && (Memory in t.available || Pids in t.available))
  {
    hide TreeInv, Step, Procs, Clear, Undisturbed, ParentBlocks, RootBlocks;
    RunAchieves(name, t, log);
    NobodyIsLost(name, t, log);
    hide Within, PastRoot;
    SomethingNeeded(t.available);
    if Clear(t) {
      SmoothRunsStayOnCourse(name, t, log);
    } else if Undisturbed(log) {
      BlockedRunsStayBlocked(name, t, log);
      BlockedIsNoSuccess(Now(log));
    }
    if Now(log).pc == Ended(true) {
      RunKeepsTree(name, t, log);
      ControlIsOffered(Now(log).t);
    }
  }

  lemma SomethingNeeded(available: set<Controller>)
    ensures Wanted(available) != {} <==> Memory in available || Pids in available
  {
    if Memory in available {
      assert Memory in Wanted(available);
    }
    if Pids in available {
      assert Pids in Wanted(available);
    }
  }

  lemma ControlIsOffered(t: Tree)
    requires TreeInv(t) && Delegates(t, ROOT)
    ensures Needed(t) != {}
  {
    assert t.dirs[ROOT].control <= t.available;
    var c :| c in Wanted(t.dirs[ROOT].control);
    assert c in Needed(t);
  }

  /** On success the leaf exists and is offered every one of memory and pids that the root is offered, at least one
      of them; and unless the root is the system's own, every process that was in the root at the start and still
      lives is in init.  A failure has a cause among the calls. */
  lemma CreateOutcome(name: string, t: Tree, log: Log)
    requires TreeInv(t) && IsRun(name, t, log) && Now(log).pc.Ended?
    ensures var t' := Now(log).t; var leaf := PARENT + [name];
            if Now(log).pc.ok then
              && leaf == ["minicontainer", name] && leaf in t'.dirs
              && t.available * {Memory, Pids} <= Offered(t', leaf) && Offered(t', leaf) * {Memory, Pids} != {}
              && (!t.exempt ==> Within(t', Procs(t, ROOT), false))
            else
              exists i :: 0 <= i < |log.labels| && Fails(log.states[i].t, log.labels[i])
  {
    hide TreeInv, Step, Procs, Within, Fails;
    RunAchieves(name, t, log);
    NobodyIsLost(name, t, log);
    var leaf := PARENT + [name];
    assert leaf[..|leaf| - 1] == PARENT;
  }

  // ---- which calls it makes, and what they touch

  /** The answers that end `create`; a listing or a write of a pid may fail. */
  predicate IsFatal(c: Call) {
    match c
    case Statfs(ok) => !ok
    case Make(_, r) => r.Refused?
    case Controllers(_, offered) => offered.None? || (Memory !in offered.value && Pids !in offered.value)
    case Enable(_, _, ok) => !ok
    case _ => false
  }

  lemma StepFails(name: string, x: State, c: Call, x': State)
    requires Step(name, x, c, x')
    ensures x'.pc == Ended(false) <==> x.pc == Ended(false) || IsFatal(c)
    ensures x.pc.Ended? ==> c.Elsewhere? && x'.pc == x.pc
    ensures x'.pc == Checking <==> x.pc == Checking && c.Elsewhere?
    ensures c.Statfs? ==> x.pc == Checking
    ensures x.pc == Checking ==> c.Statfs? || c.Elsewhere?
  {
    hide Does;
    if c.Controllers? && c.offered.Some? {
      NothingWanted(c.offered.value);
    }
  }

  lemma NothingWanted(offered: set<Controller>)
    ensures Wanted(offered) == {} <==> Memory !in offered && Pids !in offered
  {
    assert Memory in offered ==> Memory in Wanted(offered);
    assert Pids in offered ==> Pids in Wanted(offered);
  }

  /** `create` fails exactly if one of its calls has a fatal answer, and at once: no call follows it.  The check of the
      file system is the first call of all. */
  lemma {:induction false} CreateFailsExactly(name: string, t: Tree, log: Log)
    requires IsRun(name, t, log)
    ensures |log.states| == |log.labels| + 1
    ensures Now(log).pc == Ended(false) <==> exists i :: 0 <= i < |log.labels| && IsFatal(log.labels[i])
    ensures forall i, j | 0 <= i < j < |log.labels| && IsFatal(log.labels[i]) :: log.labels[j].Elsewhere?
    ensures forall i, j | 0 <= j < i < |log.labels| && log.labels[i].Statfs? :: log.labels[j].Elsewhere?
    ensures forall i | 0 <= i < |log.labels| && !log.labels[i].Elsewhere? ::
              exists j :: 0 <= j <= i && log.labels[j].Statfs?
    decreases |log.labels|
  {
    FailsExactly(name, t, log);
    hide Step, IsFatal;
    forall i | 0 <= i < |log.labels| && !log.labels[i].Elsewhere?
      ensures exists j :: 0 <= j <= i && log.labels[j].Statfs?
    {
      FirstCall(name, t, log, i);
    }
  }

  lemma {:induction false} FailsExactly(name: string, t: Tree, log: Log)
    requires IsRun(name, t, log)
    ensures |log.states| == |log.labels| + 1
    ensures Now(log).pc == Ended(false) <==> exists i :: 0 <= i < |log.labels| && IsFatal(log.labels[i])
    ensures Now(log).pc == Checking <==> forall i | 0 <= i < |log.labels| :: log.labels[i].Elsewhere?
    ensures forall i, j | 0 <= i < j < |log.labels| && IsFatal(log.labels[i]) :: log.labels[j].Elsewhere?
    ensures forall i, j | 0 <= j < i < |log.labels| && log.labels[i].Statfs? :: log.labels[j].Elsewhere?
    decreases |log.labels|
  {
    hide Step, IsFatal;
    if log.labels != [] {
      BeforeIsRun(name, t, log);
      var q, last := Before(log), |log.labels| - 1;
      FailsExactly(name, t, q);
      StepFails(name, Now(q), log.labels[last], Now(log));
      assert forall i | 0 <= i < last :: log.labels[i] == q.labels[i];
    }
  }

  lemma FirstCall(name: string, t: Tree, log: Log, i: nat)
    requires IsRun(name, t, log) && i < |log.labels| && !log.labels[i].Elsewhere?
    ensures exists j :: 0 <= j <= i && log.labels[j].Statfs?
  {
    hide Step;
    var k := FirstOwnCall(log.labels, i);
    var q := Upto(log, k);
    assert IsRun(name, t, q) && Now(q) == log.states[k];
    FailsExactly(name, t, q);
    assert Step(name, log.states[k], log.labels[k], log.states[k+1]);
    StepFails(name, log.states[k], log.labels[k], log.states[k+1]);
  }

  lemma {:induction false} FirstOwnCall(labels: seq<Call>, i: nat) returns (k: nat)
    requires i < |labels| && !labels[i].Elsewhere?
    ensures k <= i && !labels[k].Elsewhere? && forall j | 0 <= j < k :: labels[j].Elsewhere?
    decreases i
  {
    k := i;
    if j: nat :| j < i && !labels[j].Elsewhere? {
      k := FirstOwnCall(labels, j);
    }
  }

  /** The tree has at most gained init, minicontainer and the leaf, no limit, and, in the root and in minicontainer, of
      controllers at most memory and pids. */
  ghost predicate Touched(name: string, t: Tree, t': Tree) {
    && t.dirs.Keys <= t'.dirs.Keys <= t.dirs.Keys + {["init"], ["minicontainer"], ["minicontainer", name]}
    && forall p | p in t'.dirs ::
         var was := if p in t.dirs then t.dirs[p] else Dir({}, {}, map[]);
         && t'.dirs[p].limits == was.limits && was.control <= t'.dirs[p].control
         && t'.dirs[p].control <= was.control + (if p == [] || p == ["minicontainer"] then {Memory, Pids} else {})
  }

  lemma TouchedOn(name: string, t: Tree, t1: Tree, t2: Tree)
    requires Touched(name, t, t1) && Touched(name, t1, t2)
    ensures Touched(name, t, t2)
  {
  }

  /** Only memory and pids are about to be enabled, and only where they may be. */
  predicate Modest(pc: Pc) {
    SomeParent(pc) && (pc.Enabling? ==> pc.cs <= {Memory, Pids})
  }

  lemma StepTouches(name: string, x: State, c: Call, x': State)
    requires Step(name, x, c, x') && Modest(x.pc)
    ensures Touched(name, x.t, x'.t) && Modest(x'.pc)
  {
    hide Interferes, Moves, MkDirs, Enables, Touched;
    NothingTouched(name, x.t);
    match c
    case MovePid(p, pid, ok) => MoveTouches(name, x.t, x'.t, p, pid, ok);
    case Make(p, r) => MakeTouches(name, x.t, x'.t, p, r);
    case Enable(p, cs, ok) => EnableTouches(name, x.t, x'.t, p, cs, ok);
    case Elsewhere => OthersTouch(name, x.t, x'.t);
    case _ =>
  }

  lemma MakeTouches(name: string, t: Tree, t': Tree, p: Path, r: MkDirResult)
    requires MkDirs(t, t', p, r) && (p == INIT || p == PARENT || p == PARENT + [name])
    ensures Touched(name, t, t')
  {
    assert PARENT + [name] == ["minicontainer", name];
  }

  lemma EnableTouches(name: string, t: Tree, t': Tree, p: Path, cs: set<Controller>, ok: bool)
    requires Enables(t, t', p, cs, ok) && (p == ROOT || p == PARENT) && cs <= {Memory, Pids}
    ensures Touched(name, t, t')
  {
  }

  lemma OthersTouch(name: string, t: Tree, t': Tree)
    requires Interferes(t, t')
    ensures Touched(name, t, t')
  {
    hide Partitioned;
  }

  lemma MoveTouches(name: string, t: Tree, t': Tree, p: Path, pid: Pid, ok: bool)
    requires Moves(t, t', p, pid, ok)
    ensures Touched(name, t, t')
  {
  }

  /** Whatever is offered, `create` enables nothing but memory and pids, and nowhere but in the root and in
      minicontainer; it makes no directory but init, minicontainer and its leaf, and sets no limit. */
  lemma {:induction false} CreateTouchesOnly(name: string, t: Tree, log: Log)
    requires IsRun(name, t, log)
    ensures Touched(name, t, Now(log).t) && Modest(Now(log).pc)
    decreases |log.labels|
  {
    hide Step, Touched;
    if log.labels == [] {
      NothingTouched(name, t);
    } else {
      BeforeIsRun(name, t, log);
      CreateTouchesOnly(name, t, Before(log));
      StepTouches(name, Now(Before(log)), log.labels[|log.labels| - 1], Now(log));
      TouchedOn(name, t, Now(Before(log)).t, Now(log).t);
    }
  }

  lemma NothingTouched(name: string, t: Tree)
    ensures Touched(name, t, t)
  {
  }

  // ---------------------------------------------------------------- confining a process

  predicate HasLimit(t: Tree, p: Path, file: string, value: int) {
    p in t.dirs && file in t.dirs[p].limits && t.dirs[p].limits[file] == value
  }

  /** The rules allow a limit of this controller to be set. */
  predicate CanLimit(t: Tree, p: Path, c: Controller) {
    p in t.dirs && p != ROOT && c in Offered(t, p)
  }

  /** The rules allow the process to be moved there. */
  predicate CanMove(t: Tree, p: Path, pid: Pid) {
    p in t.dirs && pid in t.live && (t.dirs[p].control == {} || Exempt(t, p))
  }

  /** In the leaf that `create` has made, exactly the controllers that the root is offered can be limited. */
  lemma LimitsThatCanBeSet(name: string, t: Tree)
    requires TreeInv(t) && Achieved(name, t, Ended(true))
    ensures var leaf := PARENT + [name];
            && leaf in t.dirs
            && (CanLimit(t, leaf, Memory) <==> Memory in t.available)
            && (CanLimit(t, leaf, Pids) <==> Pids in t.available)
  {
    hide Partitioned, NoInternalProcesses;
    var leaf := PARENT + [name];
    assert leaf[..|leaf| - 1] == PARENT;
    RootIsThere(t);
    assert t.dirs[ROOT].control <= Offered(t, ROOT) && t.dirs[PARENT].control <= Offered(t, PARENT);
    assert Memory in t.available ==> Memory in Needed(t);
    assert Pids in t.available ==> Pids in Needed(t);
  }

  /** The process is in this cgroup and in no other. */
  predicate Holds(t: Tree, p: Path, pid: Pid) {
    p in t.dirs && pid in t.dirs[p].procs && forall q | q in t.dirs && q != p :: pid !in t.dirs[q].procs
  }

  lemma InterferenceKeepsLimits(t: Tree, t': Tree)
    requires Interferes(t, t')
    ensures forall q, f, v | HasLimit(t, q, f, v) :: HasLimit(t', q, f, v)
  {
  }

  lemma LimitGrows(t: Tree, t': Tree, p: Path, c: Controller, file: string, value: int, ok: bool)
    requires Limits(t, t', p, c, file, value, ok)
    ensures Grows(t, t') && t'.live == t.live && t'.seen == t.seen
    ensures forall q :: Procs(t', q) == Procs(t, q)
    ensures ok ==> HasLimit(t', p, file, value)
    ensures forall q, f, v | HasLimit(t, q, f, v) && (q != p || f != file) :: HasLimit(t', q, f, v)
  {
  }

  /** Exits and forks elsewhere take nothing away from a process that lives. */
  lemma InterferenceKeepsHolds(t: Tree, t': Tree, p: Path, pid: Pid)
    requires TreeInv(t) && Interferes(t, t') && Holds(t, p, pid) && pid in t'.live
    ensures Holds(t', p, pid)
  {
    assert pid in t.seen;
    forall q | q in t'.dirs && pid in t'.dirs[q].procs ensures q == p {
      assert pid in t.dirs[q].procs;
    }
    assert Somewhere(t', pid);
    var q :| q in t'.dirs && pid in t'.dirs[q].procs;
  }

  /** The dead stay dead: a pid is not used again. */
  lemma DeadStayDead(t: Tree, t': Tree, pid: Pid)
    requires TreeInv(t) && Interferes(t, t') && pid in t.seen && pid in t'.live
    ensures pid in t.live
  {
    assert Somewhere(t', pid);
    var q :| q in t'.dirs && pid in t'.dirs[q].procs;
    assert pid in t.dirs[q].procs;
  }

  lemma LimitFacts(t: Tree, t': Tree, p: Path, c: Controller, file: string, value: int, ok: bool,
                   was: set<Pid>, root: bool)
    requires TreeInv(t) && Limits(t, t', p, c, file, value, ok) && Within(t, was, root)
    ensures TreeInv(t') && Grows(t, t') && Within(t', was, root) && t'.seen == t.seen && t'.live == t.live
    ensures ok ==> HasLimit(t', p, file, value)
    ensures forall q, f, v | HasLimit(t, q, f, v) && (q != p || f != file) :: HasLimit(t', q, f, v)
  {
    hide TreeInv, Within, Limits, Grows, HasLimit;
    LimitKeeps(t, t', p, c, file, value, ok);
    LimitGrows(t, t', p, c, file, value, ok);
    SameProcsKeepWithin(t, t', was, root);
  }

  lemma ElsewhereFacts(t: Tree, t': Tree, was: set<Pid>, root: bool)
    requires TreeInv(t) && Interferes(t, t') && Within(t, was, root)
    ensures TreeInv(t') && Grows(t, t') && Within(t', was, root) && t.seen <= t'.seen
    ensures forall q, f, v | HasLimit(t, q, f, v) :: HasLimit(t', q, f, v)
  {
    hide TreeInv, Within, HasLimit, Partitioned;
    DoesKeeps(t, Elsewhere, t');
    InterferenceKeepsWithin(t, t', was, root);
    InterferenceKeepsLimits(t, t');
  }

  /** A process that is added is in the one cgroup, everybody else stays. */
  lemma AddFacts(t: Tree, t': Tree, p: Path, pid: Pid, ok: bool, was: set<Pid>, root: bool)
    requires TreeInv(t) && Moves(t, t', p, pid, ok) && Within(t, was, root)
    ensures TreeInv(t') && Grows(t, t') && t'.live == t.live && t'.seen == t.seen
    ensures Within(t', if ok then was - {pid} else was, root)
    ensures ok ==> Holds(t', p, pid) && pid in t.seen
    ensures forall q, f, v | HasLimit(t, q, f, v) :: HasLimit(t', q, f, v)
  {
    hide TreeInv, Moves, Within, Holds, HasLimit, Grows;
    DoesKeeps(t, MovePid(p, pid, ok), t');
    AddPlaces(t, t', p, pid, ok);
    AddKeepsWithin(t, t', p, pid, ok, was, root);
  }

  lemma AddPlaces(t: Tree, t': Tree, p: Path, pid: Pid, ok: bool)
    requires TreeInv(t) && Moves(t, t', p, pid, ok)
    ensures t'.live == t.live && t'.seen == t.seen && (ok ==> Holds(t', p, pid) && pid in t.seen)
    ensures forall q, f, v | HasLimit(t, q, f, v) :: HasLimit(t', q, f, v)
  {
    hide Hierarchy, NoInternalProcesses;
  }

  lemma AddKeepsWithin(t: Tree, t': Tree, p: Path, pid: Pid, ok: bool, was: set<Pid>, root: bool)
    requires Moves(t, t', p, pid, ok) && Within(t, was, root)
    ensures Within(t', if ok then was - {pid} else was, root)
  {
    hide Exempt;
  }

  // ---------------------------------------------------------------- the calls

  /** Everybody else, between two calls. */
  method Others(t: Tree) returns (t': Tree)
    requires TreeInv(t)
    ensures Interferes(t, t') && TreeInv(t') && Grows(t, t')
  {
    hide TreeInv, Interferes, Grows;
    t' := *;
    if !Interferes(t, t') {
      t' := t;
      NobodyInterferes(t);
    }
    DoesElsewhere(t, t');
  }

  lemma NobodyInterferes(t: Tree)
    requires TreeInv(t)
    ensures Interferes(t, t)
  {
  }

  lemma DoesElsewhere(t: Tree, t': Tree)
    requires TreeInv(t) && Interferes(t, t')
    ensures TreeInv(t') && Grows(t, t')
  {
    DoesKeeps(t, Elsewhere, t');
  }

  /** No call that the rules allow has been refused. */
  ghost predicate Unrefused(log: Log) {
    |log.states| == |log.labels| + 1 && forall i | 0 <= i < |log.labels| :: !Denies(log.states[i].t, log.labels[i])
  }

  lemma UnrefusedOn(log: Log, c: Call, x: State)
    requires Unrefused(log) && !Denies(Now(log).t, c)
    ensures Unrefused(Then(log, c, x))
  {
    hide Denies;
    var log' := Then(log, c, x);
    forall i | 0 <= i < |log'.labels| ensures !Denies(log'.states[i].t, log'.labels[i]) {
      if i < |log.labels| {
        assert log'.states[i] == log.states[i] && log'.labels[i] == log.labels[i];
      }
    }
  }

  lemma OthersRefuseNothing(t: Tree)
    ensures !Denies(t, Elsewhere)
  {
  }

  /** The others move, and then `create` makes its next call. */
  lemma CallMade(name: string, t0: Tree, log: Log, t: Tree, pc: Pc, mid: Tree, c: Call, t': Tree) returns (log': Log)
    requires At(name, t0, log, t, pc) && TreeInv(t) && Interferes(t, mid) && Does(mid, c, t')
    requires !c.Elsewhere? && Expects(name, pc, c)
    ensures At(name, t0, log', t', Following(name, pc, c)) && TreeInv(t')
    ensures Unrefused(log) && !Denies(mid, c) ==> Unrefused(log')
  {
    hide TreeInv, Interferes, Does, At, Expects, Following, Grows, Unrefused, Denies;
    AtFacts(name, t0, log, t, pc);
    DoesElsewhere(t, mid);
    DoesKeeps(mid, c, t');
    var x1, x2 := State(mid, pc), State(t', Following(name, pc, c));
    StepElsewhere(name, State(t, pc), x1);
    ThenIsRun(name, t0, log, t, pc, Elsewhere, x1);
    StepFolds(name, x1, c, x2);
    ThenIsRun(name, t0, Then(log, Elsewhere, x1), mid, pc, c, x2);
    log' := Then(Then(log, Elsewhere, x1), c, x2);
    if Unrefused(log) && !Denies(mid, c) {
      OthersRefuseNothing(t);
      UnrefusedOn(log, Elsewhere, x1);
      UnrefusedOn(Then(log, Elsewhere, x1), c, x2);
    }
  }

  lemma StepElsewhere(name: string, x: State, x': State)
    requires Interferes(x.t, x'.t) && x'.pc == x.pc
    ensures Step(name, x, Elsewhere, x')
  {
  }

  lemma StepFolds(name: string, x: State, c: Call, x': State)
    requires Does(x.t, c, x'.t) && !c.Elsewhere? && Expects(name, x.pc, c) && x'.pc == Following(name, x.pc, c)
    ensures Step(name, x, c, x')
  {
  }

  /** mkdir; EEXIST is as good as success.  Here and below a `lenient` kernel refuses nothing that its rules allow;
      any other may refuse what it likes. */
  method MkDir(name: string, ghost t0: Tree, ghost log: Log, t: Tree, ghost pc: Pc, p: Path, lenient: bool)
    returns (r: MkDirResult, t': Tree, ghost log': Log)
    requires At(name, t0, log, t, pc) && TreeInv(t) && p != ROOT && Up(p) in t.dirs && (lenient ==> Unrefused(log))
    requires forall r :: Expects(name, pc, Make(p, r))
    ensures At(name, t0, log', t', Following(name, pc, Make(p, r))) && TreeInv(t') && Grows(t, t')
    ensures (!r.Refused? ==> p in t'.dirs) && (lenient ==> Unrefused(log'))
  {
    hide TreeInv, Interferes, Grows, At, Unrefused;
    var mid := Others(t);
    StillThere(t, mid, Up(p));
    if p in mid.dirs {
      r, t' := Exists, mid;
    } else {
      var refused: bool := *;
      refused := refused && !lenient;
      r := if refused then MkDirResult.Refused else Created;
      t' := if refused then mid else mid.(dirs := mid.dirs[p := Dir({}, {}, map[])]);
    }
    log' := CallMade(name, t0, log, t, pc, mid, Make(p, r), t');
    DoesKeeps(mid, Make(p, r), t');
    GrowsIsTransitive(t, mid, t');
  }

  lemma StillThere(t: Tree, t': Tree, p: Path)
    requires Grows(t, t') && p in t.dirs
    ensures p in t'.dirs && t.dirs[p].control <= t'.dirs[p].control
  {
  }

  /** write(2) of a pid to init's cgroup.procs. */
  method WritePid(name: string, ghost t0: Tree, ghost log: Log, t: Tree, text: string, ghost pids: seq<Pid>,
                  lenient: bool)
    returns (t': Tree, ghost log': Log)
    requires At(name, t0, log, t, Moving(pids)) && TreeInv(t) && pids != [] && PidOf(text) == Some(pids[0])
    requires lenient ==> Unrefused(log)
    ensures At(name, t0, log', t', ToMove(pids[1..])) && TreeInv(t') && Grows(t, t')
    ensures lenient ==> Unrefused(log')
  {
    hide TreeInv, Interferes, Grows, At, Unrefused;
    var mid := Others(t);
    var pid := PidOf(text).value;
    var refused: bool := *;
    refused := refused && !lenient;
    var ok := !refused && pid in mid.live && INIT in mid.dirs && mid.dirs[INIT].control == {};
    t' := if ok then Moved(mid, INIT, pid) else mid;
    log' := CallMade(name, t0, log, t, Moving(pids), mid, MovePid(INIT, pid, ok), t');
    DoesKeeps(mid, MovePid(INIT, pid, ok), t');
    GrowsIsTransitive(t, mid, t');
  }

  method InSomeOrder(pids: set<Pid>) returns (listing: seq<Pid>)
    ensures forall pid :: pid in listing <==> pid in pids
  {
    listing := [];
    var left := pids;
    while left != {}
      invariant left <= pids && forall pid :: pid in listing <==> pid in pids - left
    {
      var pid :| pid in left;
      listing, left := listing + [pid], left - {pid};
    }
  }

  /** Reads cgroup.procs of the root: every member, in any order, one per line. */
  method ReadProcs(name: string, ghost t0: Tree, ghost log: Log, t: Tree, lenient: bool)
    returns (text: Option<string>, ghost pids: seq<Pid>, t': Tree, ghost log': Log)
    requires At(name, t0, log, t, Listing) && TreeInv(t) && (lenient ==> Unrefused(log))
    ensures lenient ==> Unrefused(log')
    ensures text.Some? ==> text.value == Chomp(Unlines(Shown(pids)))
    ensures At(name, t0, log', t', Following(name, Listing, ListRoot(if text.Some? then Some(pids) else None)))
    ensures TreeInv(t') && Grows(t, t')
  {
    hide TreeInv, Interferes, Unlines, Chomp, At, Grows, Unrefused;
    t' := Others(t);
    var listing: seq<Pid> := *;
    if lenient {
      listing := InSomeOrder(Procs(t', ROOT));
    }
    pids := listing;
    var all := (forall pid | pid in listing :: pid in Procs(t', ROOT))
               && (forall pid | pid in Procs(t', ROOT) :: pid in listing);
    text := if all then Some(Chomp(Unlines(Shown(listing)))) else None;
    log' := CallMade(name, t0, log, t, Listing, t', ListRoot(if all then Some(listing) else None), t');
  }

  lemma NonEmptyHead(line: string, rest: seq<string>)
    ensures NonEmpty([line] + rest) == (if line == "" then NonEmpty(rest) else [line] + NonEmpty(rest))
  {
    assert ([line] + rest)[1..] == rest;
  }

  lemma ShownHead(pids: seq<Pid>, line: string, rest: seq<string>)
    requires Shown(pids) == [line] + rest
    ensures pids != [] && PidOf(line) == Some(pids[0]) && rest == Shown(pids[1..])
  {
    assert |Shown(pids)| == |pids|;
    assert Shown(pids)[0] == line && Shown(pids)[1..] == rest;
    PidOfShown(pids[0]);
  }

  /** The index loop over the listing: one write per non-empty line, in order, and so one per process listed. */
  method WritePids(name: string, ghost t0: Tree, ghost log: Log, t: Tree, text: string, ghost pids: seq<Pid>,
                   lenient: bool)
    returns (t': Tree, ghost log': Log)
    requires At(name, t0, log, t, ToMove(pids)) && TreeInv(t) && NonEmpty(Lines(text, 0)) == Shown(pids)
    requires lenient ==> Unrefused(log)
    ensures At(name, t0, log', t', Asking(ROOT)) && TreeInv(t') && Grows(t, t')
    ensures lenient ==> Unrefused(log')
  {
    hide TreeInv, Lines, Grows, NonEmpty, At, Shown, PidOf, Unrefused;
    NothingGrows(t);
    t', log' := t, log;
    var start := 0;
    ghost var left, rest := Lines(text, 0), pids;
    while start < |text|
      invariant At(name, t0, log', t', ToMove(rest)) && TreeInv(t') && Grows(t, t')
      invariant lenient ==> Unrefused(log')
      invariant left == if start <= |text| then Lines(text, start) else []
      invariant NonEmpty(left) == Shown(rest)
    {
      LinesStep(text, start);
      var end := Find(text, '\n', start);
      var pid := text[start..end];
      left := if end + 1 <= |text| then Lines(text, end + 1) else [];
      NonEmptyHead(pid, left);
      if pid != "" {
        ShownHead(rest, pid, NonEmpty(left));
        var t1, log1 := WritePid(name, t0, log', t', pid, rest, lenient);
        GrowsIsTransitive(t, t', t1);
        t', log', rest := t1, log1, rest[1..];
      }
      start := end + 1;
    }
    NoLines(text, start, left);
    NothingShown(rest);
  }

  lemma NoLines(text: string, start: nat, left: seq<string>)
    requires start >= |text| && left == if start <= |text| then Lines(text, start) else []
    ensures NonEmpty(left) == []
  {
  }

  lemma NothingShown(pids: seq<Pid>)
    requires Shown(pids) == []
    ensures pids == []
  {
    assert |Shown(pids)| == |pids|;
  }

  /** Moves every process of the root to init: one write per listed pid, in order, and no other. */
  method VacateRoot(name: string, ghost t0: Tree, ghost log: Log, t: Tree, lenient: bool)
    returns (ok: bool, t': Tree, ghost log': Log)
    requires At(name, t0, log, t, Listing) && TreeInv(t) && (lenient ==> Unrefused(log))
    ensures lenient ==> Unrefused(log')
    ensures At(name, t0, log', t', if ok then Asking(ROOT) else Ended(false)) && TreeInv(t') && Grows(t, t')
  {
    hide TreeInv, Lines, Unlines, Chomp, Shown, Grows, NonEmpty, At, Unrefused;
    var procs;
    ghost var pids, log1;
    procs, pids, t', log1 := ReadProcs(name, t0, log, t, lenient);
    if procs.Some? {
      OnePidPerLine(pids);
      EmptyListing(procs.value, pids);
    }
    if procs.None? || procs.value == "" {
      return true, t', log1;
    }
    RootIsThere(t');
    var made, t1;
    ghost var log2;
    made, t1, log2 := MkDir(name, t0, log1, t', MakingInit(pids), INIT, lenient);
    GrowsIsTransitive(t, t', t1);
    if made.Refused? {
      return false, t1, log2;
    }
    t', log' := WritePids(name, t0, log2, t1, procs.value, pids, lenient);
    GrowsIsTransitive(t, t1, t');
    ok := true;
  }

  /** The listing is empty exactly if it names nobody. */
  lemma EmptyListing(text: string, pids: seq<Pid>)
    requires NonEmpty(Lines(text, 0)) == Shown(pids) && text == Chomp(Unlines(Shown(pids)))
    ensures text == "" <==> pids == []
  {
    if pids == [] {
      assert Shown(pids) == [];
      hide Lines;
      ChompNothing();
    } else {
      assert |Shown(pids)| == |pids|;
    }
  }

  lemma ChompNothing()
    ensures Chomp(Unlines([])) == ""
  {
  }

  /** Enables memory and pids, as far as they are offered, for the children of `p`, and nothing else anywhere. */
  method EnableControllers(name: string, ghost t0: Tree, ghost log: Log, t: Tree, p: Path, lenient: bool)
    returns (ok: bool, t': Tree, ghost log': Log)
    requires At(name, t0, log, t, Asking(p)) && TreeInv(t) && p in t.dirs && (lenient ==> Unrefused(log))
    ensures lenient ==> Unrefused(log')
    ensures t'.dirs.Keys == t.dirs.Keys
    ensures forall q | q in t.dirs ::
              t'.dirs[q].control == t.dirs[q].control + (if ok && q == p then Offered(t, p) * {Memory, Pids} else {})
    ensures ok ==> Offered(t, p) * {Memory, Pids} != {}
    ensures At(name, t0, log', t', if !ok then Ended(false) else if p == ROOT then MakingParent else MakingLeaf)
    ensures TreeInv(t') && Grows(t, t')
  {
    hide TreeInv, Grows, Interferes, At, Unrefused, Offered, Delegated, Enables, Wanted;
    var mid := Others(t);
    StillThere(t, mid, p);
    SameControl(t, mid, p);
    var unreadable: bool := *;
    unreadable := unreadable && !lenient;
    var offered := if unreadable then None else Some(Offered(mid, p));
    ghost var log1 := CallMade(name, t0, log, t, Asking(p), mid, Controllers(p, offered), mid);
    if offered.None? || Wanted(offered.value) == {} {
      return false, mid, log1;
    }
    var enable := Wanted(offered.value);
    var mid2 := Others(mid);
    StillThere(mid, mid2, p);
    SameControl(mid, mid2, p);
    OffersMore(mid, mid2, p);
    GrowsIsTransitive(t, mid, mid2);
    var refused: bool := *;
    refused := refused && !lenient;
    ok := !refused && (mid2.dirs[p].procs == {} || Exempt(mid2, p));
    t' := if ok then Delegated(mid2, p, enable) else mid2;
    DelegatedIs(t, mid2, p, enable, ok);
    log' := CallMade(name, t0, log1, mid, Enabling(p, enable), mid2, Enable(p, enable, ok), t');
    DoesKeeps(mid2, Enable(p, enable, ok), t');
    GrowsIsTransitive(t, mid2, t');
  }

  function Delegated(t: Tree, p: Path, cs: set<Controller>): Tree
    requires p in t.dirs
  {
    t.(dirs := t.dirs[p := t.dirs[p].(control := t.dirs[p].control + cs)])
  }

  lemma DelegatedIs(t: Tree, mid: Tree, p: Path, cs: set<Controller>, ok: bool)
    requires p in mid.dirs && mid.dirs.Keys == t.dirs.Keys
    requires cs == Wanted(Offered(t, p)) && Offered(mid, p) == Offered(t, p)
    requires forall q | q in t.dirs :: mid.dirs[q].control == t.dirs[q].control
    ensures var t' := if ok then Delegated(mid, p, cs) else mid;
            && t'.dirs.Keys == t.dirs.Keys
            && (forall q | q in t.dirs ::
                  t'.dirs[q].control
                  == t.dirs[q].control + (if ok && q == p then Offered(t, p) * {Memory, Pids} else {}))
            && (ok && (mid.dirs[p].procs == {} || Exempt(mid, p)) ==> Enables(mid, t', p, cs, true))
            && (!ok ==> Enables(mid, mid, p, cs, false))
    ensures cs != {} ==> Offered(t, p) * {Memory, Pids} != {}
  {
  }

  lemma SameControl(t: Tree, t': Tree, p: Path)
    requires Interferes(t, t')
    ensures t'.dirs.Keys == t.dirs.Keys && Offered(t', p) == Offered(t, p)
    ensures forall q | q in t.dirs :: t'.dirs[q].control == t.dirs[q].control
  {
    hide Partitioned;
  }

  // ---------------------------------------------------------------- the Cgroup object

  class Cgroup {
    var path: Option<Path>

    constructor ()
      ensures path == None
    {
      path := None;
    }

    /** create: makes minicontainer/<name>.  `log` is the run of the calls it has made, which has come to its end;
        `CreateOutcome` and `CreateSucceedsExactly` say what that means for the tree. */
    method Create(t: Tree, name: string, lenient: bool) returns (ok: bool, t': Tree, ghost log: Log)
      requires TreeInv(t)
      modifies this
      ensures lenient ==> Unrefused(log)
      ensures At(name, t, log, t', Ended(ok)) && TreeInv(t') && Grows(t, t')
      ensures path == if ok then Some(["minicontainer", name]) else old(path)
    {
      hide TreeInv, Grows, Interferes, At;
      BegunIsRun(name, t);
      assert Unrefused(Begun(t));
      hide Unrefused;
      log := Begun(t);
      var t1 := Others(t);
      ok := *;
      ok := ok || lenient;
      ghost var log1 := CallMade(name, t, log, t, Checking, t1, Statfs(ok), t1);
      if !ok {
        return false, t1, log1; // not a cgroup2 file system
      }
      var t2;
      ok, t2, log1 := VacateRoot(name, t, log1, t1, lenient);
      GrowsIsTransitive(t, t1, t2);
      if !ok {
        return false, t2, log1;
      }
      RootIsThere(t2);
      var t3;
      ok, t3, log1 := EnableControllers(name, t, log1, t2, ROOT, lenient);
      GrowsIsTransitive(t, t2, t3);
      if !ok {
        return false, t3, log1;
      }
      ok, t', log := MakeParent(name, t, log1, t3, lenient);
      GrowsIsTransitive(t, t3, t');
      if ok {
        path := Some(PARENT + [name]);
        assert PARENT + [name] == ["minicontainer", name];
      }
    }

    /** The part of create below the root. */
    static method MakeParent(name: string, ghost t0: Tree, ghost log: Log, t: Tree, lenient: bool)
      returns (ok: bool, t': Tree, ghost log': Log)
      requires At(name, t0, log, t, MakingParent) && TreeInv(t) && (lenient ==> Unrefused(log))
      ensures lenient ==> Unrefused(log')
      ensures At(name, t0, log', t', Ended(ok)) && TreeInv(t') && Grows(t, t')
    {
      hide TreeInv, Grows, At, Unrefused;
      RootIsThere(t);
      var made, t1;
      ghost var log1;
      made, t1, log1 := MkDir(name, t0, log, t, MakingParent, PARENT, lenient);
      if made.Refused? {
        return false, t1, log1;
      }
      var t2;
      ok, t2, log1 := EnableControllers(name, t0, log1, t1, PARENT, lenient);
      GrowsIsTransitive(t, t1, t2);
      if !ok {
        return false, t2, log1;
      }
      StillThere(t1, t2, PARENT);
      var leaf := PARENT + [name];
      assert leaf[..|leaf| - 1] == PARENT && PARENT != ROOT;
      made, t', log' := MkDir(name, t0, log1, t2, MakingLeaf, leaf, lenient);
      GrowsIsTransitive(t, t2, t');
      ok := !made.Refused?;
    }

    /** set_memory_limit: memory.max, and then memory.swap.max with 0, whose absence is not an error.  `mid` is the tree
        that the first write finds and `t1` the one it leaves, `mid1` the one that the second finds. */
    method SetMemoryLimit(t: Tree, bytes: int, lenient: bool)
      returns (ok: bool, t': Tree, swap: bool, ghost mid: Tree, ghost t1: Tree, ghost mid1: Tree)
      requires TreeInv(t) && path.Some? && path.value != ROOT
      ensures TreeInv(t') && Grows(t, t')
      ensures Interferes(t, mid) && Limits(mid, t1, path.value, Memory, "memory.max", bytes, ok)
      ensures ok ==> Interferes(t1, mid1) && Limits(mid1, t', path.value, Memory, "memory.swap.max", 0, swap)
      ensures !ok ==> t' == t1 && !swap
      ensures ok ==> HasLimit(t', path.value, "memory.max", bytes)
      ensures ok && swap ==> HasLimit(t', path.value, "memory.swap.max", 0)
      ensures !swap ==> forall q, v :: HasLimit(t', q, "memory.swap.max", v) <==> HasLimit(t, q, "memory.swap.max", v)
      ensures lenient ==> (ok <==> CanLimit(mid, path.value, Memory))
      ensures lenient && ok ==> (swap <==> CanLimit(mid1, path.value, Memory))
    {
      hide TreeInv, Grows, Limits, Interferes, CanLimit;
      var first;
      ok, first, mid := WriteLimit(t, path.value, Memory, "memory.max", bytes, lenient);
      t1 := first;
      if !ok {
        return false, first, false, mid, t1, mid;
      }
      swap, t', mid1 := WriteLimit(first, path.value, Memory, "memory.swap.max", 0, lenient);
      GrowsIsTransitive(t, t1, t');
    }

    method SetPidsLimit(t: Tree, count: int, lenient: bool) returns (ok: bool, t': Tree, ghost mid: Tree)
      requires TreeInv(t) && path.Some? && path.value != ROOT
      ensures TreeInv(t') && Grows(t, t')
      ensures Interferes(t, mid) && Limits(mid, t', path.value, Pids, "pids.max", count, ok)
      ensures ok ==> HasLimit(t', path.value, "pids.max", count)
      ensures forall q, f, v | HasLimit(t, q, f, v) && f != "pids.max" :: HasLimit(t', q, f, v)
      ensures lenient ==> (ok <==> CanLimit(mid, path.value, Pids))
    {
      hide TreeInv, Grows, Limits, Interferes, CanLimit;
      ok, t', mid := WriteLimit(t, path.value, Pids, "pids.max", count, lenient);
    }

    /** add_process: on success the process is in this cgroup and in no other; everybody else stays where the
        write found them. */
    method AddProcess(t: Tree, pid: Pid, lenient: bool) returns (ok: bool, t': Tree, ghost mid: Tree)
      requires TreeInv(t) && path.Some?
      ensures TreeInv(t') && Grows(t, t') && Interferes(t, mid) && Moves(mid, t', path.value, pid, ok)
      ensures forall q, f, v | HasLimit(t, q, f, v) :: HasLimit(t', q, f, v)
      ensures ok ==> Holds(t', path.value, pid)
      ensures lenient ==> (ok <==> CanMove(mid, path.value, pid))
    {
      hide TreeInv, Grows, Interferes;
      var now := Others(t);
      mid := now;
      InterferenceKeepsLimits(t, now);
      var p := path.value;
      var refused: bool := *;
      refused := refused && !lenient;
      ok := !refused && p in now.dirs && pid in now.live && (now.dirs[p].control == {} || Exempt(now, p));
      t' := if ok then Moved(now, p, pid) else now;
      DoesKeeps(now, MovePid(p, pid, ok), t');
      GrowsIsTransitive(t, now, t');
    }

    /** The destructor's rmdir: it only succeeds once every process has left. */
    method Destroy(t: Tree, lenient: bool) returns (gone: bool, t': Tree)
      requires TreeInv(t)
      ensures lenient && path.Some? ==>
                (gone <==> && path.value in t.dirs && path.value != ROOT && t.dirs[path.value].procs == {}
                           && forall q | q in t.dirs && q != ROOT :: Up(q) != path.value)
      ensures TreeInv(t') && (path.Some? ==> RmDirs(t, t', path.value, gone))
      ensures gone ==> path.Some? && path.value in t.dirs && t.dirs[path.value].procs == {} && path.value !in t'.dirs
      ensures !gone ==> t' == t
    {
      gone, t' := false, t;
      if path.Some? {
        gone := *;
        gone := gone || lenient;
        var p := path.value;
        gone := gone && p in t.dirs && p != ROOT && t.dirs[p].procs == {}
                && forall q | q in t.dirs && q != ROOT :: Up(q) != p;
        if gone {
          t' := t.(dirs := t.dirs - {p});
        }
        RmDirKeeps(t, t', p, gone);
      }
    }
  }

  method WriteLimit(t: Tree, p: Path, c: Controller, file: string, value: int, lenient: bool)
    returns (ok: bool, t': Tree, ghost mid: Tree)
    requires TreeInv(t) && p != ROOT
    ensures TreeInv(t') && Grows(t, t') && Interferes(t, mid) && Limits(mid, t', p, c, file, value, ok)
    ensures ok ==> HasLimit(t', p, file, value)
    ensures forall q, f, v | q != p || f != file || !ok :: HasLimit(t, q, f, v) <==> HasLimit(t', q, f, v)
    ensures lenient ==> (ok <==> CanLimit(mid, p, c))
  {
    hide TreeInv, Grows;
    var now := Others(t);
    mid := now;
    assert forall q | q in t.dirs :: q in now.dirs && now.dirs[q].limits == t.dirs[q].limits;
    hide Interferes;
    var refused: bool := *;
    refused := refused && !lenient;
    ok := !refused && p in now.dirs && c in Offered(now, p);
    t' := if ok then now.(dirs := now.dirs[p := now.dirs[p].(limits := now.dirs[p].limits[file := value])]) else now;
    LimitKeeps(now, t', p, c, file, value, ok);
    LimitGrows(now, t', p, c, file, value, ok);
    GrowsIsTransitive(t, now, t');
  }
}
