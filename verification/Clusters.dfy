/**
 * The second state the service drives: zvols, exported targets and their ACLs on
 * storage hosts, initiator sessions and mount points on client hosts, and the
 * shell commands that change or query it (app/internal/command).
 */
module Clusters {
  import opened Wrappers

  /** A name on a host: a dataset, a target, a session or a path. */
  datatype At = At(host: string, name: string)

  /** An exported target. Its ACL lives under it, so deleting the target drops the ACL. */
  datatype Target = Target(dataset: string, acl: set<string>)

  datatype Session = Session(server: string, initiator: string)

  /** What a mount put at a mount point: a target's block device, or a bind of a path. */
  datatype Source = Device(target: string) | Bind(path: string)

  /**
   * Sizes of zvols; for each formatted zvol how often it was formatted; targets;
   * sessions; and for each mount point the stack of mounts on it.
   */
  datatype World = World(
    zvols: map<At, int>,
    filesystems: map<At, nat>,
    targets: map<At, Target>,
    sessions: map<At, Session>,
    mounts: MountTable)

  datatype Command =
    | QueryZvol(host: string, dataset: string)
    | CreateZvol(host: string, dataset: string, size: int)
    | DestroyZvol(host: string, dataset: string)
    | SetVolsize(host: string, dataset: string, size: int)
    | SetOption(host: string, dataset: string, key: string, value: string)
    | Export(host: string, target: string, dataset: string)
    | Unexport(host: string, target: string)
    | Allow(host: string, target: string, initiator: string)
    | Deny(host: string, target: string, initiator: string)
    | Login(host: string, server: string, target: string, initiator: string)
    | Logout(host: string, target: string)
    | Rescan(host: string, target: string)
    | FindDevice(host: string, target: string)
    | QueryFilesystem(host: string, target: string)
    | Format(host: string, target: string)
    | ResizeFilesystem(host: string, target: string)
    | MakePath(host: string, path: string)
    | MountDevice(host: string, target: string, path: string)
    | MountBind(host: string, source: string, path: string)
    | Umount(host: string, path: string)
    | Chmod(host: string, path: string)

  type MountTable = map<At, seq<Source>>

  function MountsAt(mounts: MountTable, host: string, path: string): seq<Source> {
    if At(host, path) in mounts then mounts[At(host, path)] else []
  }

  function WithMounts(mounts: MountTable, host: string, path: string, stack: seq<Source>): MountTable {
    if stack == [] then mounts - {At(host, path)} else mounts[At(host, path) := stack]
  }

  function Pushed(mounts: MountTable, host: string, path: string, source: Source): MountTable {
    WithMounts(mounts, host, path, MountsAt(mounts, host, path) + [source])
  }

  function Popped(mounts: MountTable, host: string, path: string): MountTable {
    var stack := MountsAt(mounts, host, path);
    if stack == [] then mounts else WithMounts(mounts, host, path, stack[..|stack| - 1])
  }

  /** A mount adds on top of its own mount point and touches no other. */
  lemma PushedChanges(mounts: MountTable, host: string, path: string, source: Source)
    ensures forall h, p :: MountsAt(Pushed(mounts, host, path, source), h, p)
                        == if h == host && p == path then MountsAt(mounts, h, p) + [source] else MountsAt(mounts, h, p)
  {
  }

  /** An unmount takes the top of its own mount point and touches no other. */
  lemma PoppedChanges(mounts: MountTable, host: string, path: string)
    ensures forall h, p :: MountsAt(Popped(mounts, host, path), h, p)
                        == var stack := MountsAt(mounts, h, p);
                           if h == host && p == path && stack != [] then stack[..|stack| - 1] else stack
  {
  }

  /** A mount point with nothing on it is not stored. */
  predicate NoEmptyStacks(mounts: MountTable) {
    forall k :: k in mounts ==> mounts[k] != []
  }

  lemma PushedKeepsStacks(mounts: MountTable, host: string, path: string, source: Source)
    requires NoEmptyStacks(mounts)
    ensures NoEmptyStacks(Pushed(mounts, host, path, source)) && NoEmptyStacks(Popped(mounts, host, path))
  {
  }

  /** Mount tables are the same when they show the same mounts everywhere. */
  lemma MountsExtensional(a: MountTable, b: MountTable)
    requires NoEmptyStacks(a) && NoEmptyStacks(b)
    requires forall h, p :: MountsAt(a, h, p) == MountsAt(b, h, p)
    ensures a == b
  {
    forall k: At ensures k in a <==> k in b {
      assert MountsAt(a, k.host, k.name) == MountsAt(b, k.host, k.name);
    }
    forall k | k in a ensures a[k] == b[k] {
      assert MountsAt(a, k.host, k.name) == MountsAt(b, k.host, k.name);
    }
  }

  /** `mountpoint -q`: something is mounted there. */
  predicate IsMountPoint(w: World, host: string, path: string) {
    MountsAt(w.mounts, host, path) != []
  }

  /** How many mounts are stacked on a mount point. */
  function Height(w: World, host: string, path: string): nat {
    |MountsAt(w.mounts, host, path)|
  }

  /** The zvol behind a block device a session provides on a client. */
  function Backing(w: World, host: string, target: string): Option<At> {
    var key := At(host, target);
    if key !in w.sessions then None
    else
      var remote := At(w.sessions[key].server, target);
      if remote in w.targets then Some(At(remote.host, w.targets[remote].dataset)) else None
  }

  predicate HasFilesystem(w: World, host: string, target: string) {
    var zvol := Backing(w, host, target);
    zvol.Some? && zvol.value in w.filesystems
  }

  /** The effect of a command that succeeds. Queries have none. */
  function Apply(c: Command, w: World): World {
    match c
    case CreateZvol(h, d, size) => w.(zvols := w.zvols[At(h, d) := size])
    case DestroyZvol(h, d) => w.(zvols := w.zvols - {At(h, d)}, filesystems := w.filesystems - {At(h, d)})
    case SetVolsize(h, d, size) => if At(h, d) in w.zvols then w.(zvols := w.zvols[At(h, d) := size]) else w
    case Export(h, t, d) => w.(targets := w.targets[At(h, t) := Target(d, {})])
    case Unexport(h, t) => w.(targets := w.targets - {At(h, t)})
    case Allow(h, t, i) =>
      if At(h, t) in w.targets
      then w.(targets := w.targets[At(h, t) := w.targets[At(h, t)].(acl := w.targets[At(h, t)].acl + {i})])
      else w
    case Deny(h, t, i) =>
      if At(h, t) in w.targets
      then w.(targets := w.targets[At(h, t) := w.targets[At(h, t)].(acl := w.targets[At(h, t)].acl - {i})])
      else w
    case Login(h, s, t, i) => w.(sessions := w.sessions[At(h, t) := Session(s, i)])
    case Logout(h, t) => w.(sessions := w.sessions - {At(h, t)})
    case Format(h, t) =>
      var zvol := Backing(w, h, t);
      if zvol.None? then w
      else w.(filesystems := w.filesystems[zvol.value :=
                if zvol.value in w.filesystems then w.filesystems[zvol.value] + 1 else 1])
    case MountDevice(h, t, p) => w.(mounts := Pushed(w.mounts, h, p, Device(t)))
    case MountBind(h, s, p) => w.(mounts := Pushed(w.mounts, h, p, Bind(s)))
    case Umount(h, p) => w.(mounts := Popped(w.mounts, h, p))
    case QueryZvol(_, _) => w
    case SetOption(_, _, _, _) => w
    case Rescan(_, _) => w
    case FindDevice(_, _) => w
    case QueryFilesystem(_, _) => w
    case ResizeFilesystem(_, _) => w
    case MakePath(_, _) => w
    case Chmod(_, _) => w
  }

  predicate Mutates(c: Command) {
    !c.QueryZvol? && !c.FindDevice? && !c.QueryFilesystem?
  }

  /** Finding a block device fails while nothing backs it, and an ACL entry needs a name. */
  predicate Answers(c: Command, w: World) {
    && (c.FindDevice? ==> Backing(w, c.host, c.target).Some?)
    && (c.Deny? ==> c.initiator != "")
  }

  /** A run of commands: the world left, the failures still to spare, and what was done. */
  datatype Run = Run(world: World, left: nat, log: seq<Command>, ok: bool)

  /**
   * Runs a script until a command fails. The budget is the number of commands that
   * succeed before one fails with no effect; ranging over all budgets ranges over
   * every pattern of failures, since a handler stops at the first one.
   */
  function Execute(script: seq<Command>, w: World, budget: nat): Run
    decreases |script|
  {
    if script == [] then Run(w, budget, [], true)
    else if budget == 0 || !Answers(script[0], w) then Run(w, budget, [], false)
    else
      var rest := Execute(script[1..], Apply(script[0], w), budget - 1);
      rest.(log := [script[0]] + rest.log)
  }

  /** The world after replaying a log of successful commands. */
  function Replay(log: seq<Command>, w: World): World
    decreases |log|
  {
    if log == [] then w else Replay(log[1..], Apply(log[0], w))
  }

  lemma ReplayEmpty(w: World)
    ensures Replay([], w) == w
  {
  }

  lemma {:induction false} ReplayAppend(a: seq<Command>, b: seq<Command>, w: World)
    ensures Replay(a + b, w) == Replay(b, Replay(a, w))
    decreases |a|
  {
    if a == [] {
      assert a + b == b;
    } else {
      assert (a + b)[1..] == a[1..] + b;
      ReplayAppend(a[1..], b, Apply(a[0], w));
    }
  }

  /** A property of worlds that holds after every number of commands of a log. */
  ghost predicate Along(p: World -> bool, log: seq<Command>, w: World) {
    forall k :: 0 <= k <= |log| ==> p(Replay(log[..k], w))
  }

  lemma AlongEnds(p: World -> bool, log: seq<Command>, w: World)
    requires Along(p, log, w)
    ensures p(w) && p(Replay(log, w))
  {
    assert log[..0] == [] && log[..|log|] == log;
    assert p(Replay(log[..0], w)) && p(Replay(log[..|log|], w));
  }

  lemma AlongAppend(p: World -> bool, a: seq<Command>, b: seq<Command>, w: World)
    requires Along(p, a, w) && Along(p, b, Replay(a, w))
    ensures Along(p, a + b, w)
  {
    forall k | 0 <= k <= |a + b| ensures p(Replay((a + b)[..k], w)) {
      if k <= |a| {
        assert (a + b)[..k] == a[..k];
      } else {
        assert (a + b)[..k] == a + b[..k - |a|];
        ReplayAppend(a, b[..k - |a|], w);
      }
    }
  }

  /** A property every single command keeps holds all along. */
  lemma {:induction false} AlongByCommand(p: World -> bool, log: seq<Command>, w: World)
    requires p(w)
    requires forall c, x :: c in log && p(x) ==> p(Apply(c, x))
    ensures Along(p, log, w)
    decreases |log|
  {
    if log == [] {
      assert log[..0] == [];
    } else {
      AlongByCommand(p, log[1..], Apply(log[0], w));
      forall k | 0 <= k <= |log| ensures p(Replay(log[..k], w)) {
        if k > 0 {
          assert log[..k][1..] == log[1..][..k - 1];
        }
      }
    }
  }

  /** A run does a prefix of its script, all of it exactly when it succeeds. */
  lemma {:induction false} ExecuteIsPrefix(script: seq<Command>, w: World, budget: nat)
    ensures var r := Execute(script, w, budget);
      && r.log <= script
      && (r.ok <==> r.log == script)
      && r.world == Replay(r.log, w)
      && r.left + |r.log| == budget
    decreases |script|
  {
    if script != [] && budget != 0 && Answers(script[0], w) {
      ExecuteIsPrefix(script[1..], Apply(script[0], w), budget - 1);
      var rest := Execute(script[1..], Apply(script[0], w), budget - 1);
      var r := Execute(script, w, budget);
      assert script == [script[0]] + script[1..];
      assert r.log[1..] == rest.log;
    }
  }

  /** Stopping a run earlier shows every world it went through. */
  lemma {:induction false} ExecuteSmallerBudget(script: seq<Command>, w: World, budget: nat, k: nat)
    requires k <= |Execute(script, w, budget).log|
    ensures Execute(script, w, k).log == Execute(script, w, budget).log[..k]
    decreases |script|
  {
    if script != [] && budget != 0 && Answers(script[0], w) && k > 0 {
      ExecuteSmallerBudget(script[1..], Apply(script[0], w), budget - 1, k - 1);
      var rest := Execute(script[1..], Apply(script[0], w), budget - 1);
      assert ([script[0]] + rest.log)[..k] == [script[0]] + rest.log[..k - 1];
    }
  }

  /** A property of every failing and finished run holds all along a run. */
  lemma AlongExecute(p: World -> bool, script: seq<Command>, w: World, budget: nat)
    requires forall n: nat :: p(Execute(script, w, n).world)
    ensures Along(p, Execute(script, w, budget).log, w)
  {
    var log := Execute(script, w, budget).log;
    forall k | 0 <= k <= |log| ensures p(Replay(log[..k], w)) {
      ExecuteSmallerBudget(script, w, budget, k);
      ExecuteIsPrefix(script, w, k);
    }
  }

  lemma {:induction false} ExecuteAppend(a: seq<Command>, b: seq<Command>, w: World, budget: nat)
    ensures var r := Execute(a, w, budget);
      Execute(a + b, w, budget) ==
        if !r.ok then r
        else var s := Execute(b, r.world, r.left); s.(log := r.log + s.log)
    decreases |a|
  {
    if a == [] {
      assert a + b == b;
      assert [] + Execute(b, w, budget).log == Execute(b, w, budget).log;
    } else if budget != 0 && Answers(a[0], w) {
      assert (a + b)[1..] == a[1..] + b;
      ExecuteAppend(a[1..], b, Apply(a[0], w), budget - 1);
      var r := Execute(a[1..], Apply(a[0], w), budget - 1);
      if r.ok {
        var s := Execute(b, r.world, r.left);
        assert [a[0]] + (r.log + s.log) == ([a[0]] + r.log) + s.log;
      }
    } else {
      assert (a + b)[0] == a[0];
    }
  }

  lemma ExecuteEmpty(w: World, budget: nat)
    ensures Execute([], w, budget) == Run(w, budget, [], true)
  {
  }

  lemma ExecuteQuery(c: Command, w: World, budget: nat)
    requires !Mutates(c)
    ensures Execute([c], w, budget).world == w
  {
  }

  lemma ExecuteOne(c: Command, w: World, budget: nat)
    ensures Execute([c], w, budget)
         == if budget > 0 && Answers(c, w) then Run(Apply(c, w), budget - 1, [c], true) else Run(w, budget, [], false)
  {
    hide Apply, Answers;
    if budget > 0 && Answers(c, w) {
      ExecuteEmpty(Apply(c, w), budget - 1);
      assert [c][1..] == [];
    }
  }

  lemma ExecuteTwo(a: Command, b: Command, w: World, budget: nat)
    ensures var r := Execute([a] + [b], w, budget);
      r.ok ==> && budget >= 2 && Answers(a, w) && Answers(b, Apply(a, w))
               && r == Run(Apply(b, Apply(a, w)), budget - 2, [a] + [b], true)
    ensures budget >= 2 && Answers(a, w) && Answers(b, Apply(a, w)) ==> Execute([a] + [b], w, budget).ok
  {
    hide Apply, Answers;
    ExecuteAppend([a], [b], w, budget);
    ExecuteOne(a, w, budget);
    if budget > 0 && Answers(a, w) {
      ExecuteOne(b, Apply(a, w), budget - 1);
    }
  }

  lemma AclCommandKeepsSessions(c: Command, w: World, budget: nat)
    requires c.Allow? || c.Deny?
    ensures Execute([c], w, budget).world.sessions == w.sessions
  {
  }

  lemma SessionCommandKeepsTargets(c: Command, w: World, budget: nat)
    requires c.Login? || c.Logout?
    ensures Execute([c], w, budget).world.targets == w.targets
  {
  }

  /** The hosts as the executors see them: each command is one remote call. */
  class Cluster {
    var world: World
    var budget: nat
    var log: seq<Command>

    constructor (w: World, n: nat)
      ensures world == w && budget == n && log == []
    {
      world, budget, log := w, n, [];
    }

    /** The cluster went through this run since the old state. */
    twostate predicate Ran(r: Run, ok: bool)
      reads this
    {
      ok == r.ok && world == r.world && budget == r.left && log == old(log) + r.log
    }

    /** A piece of work that does not stop at the last failure meets failures of its own. */
    method Renew(n: nat)
      modifies this`budget
      ensures budget == n
    {
      budget := n;
    }

    /** One remote call. A failing call has no effect. */
    method Exec(c: Command) returns (ok: bool)
      modifies this
      ensures Ran(Execute([c], old(world), old(budget)), ok)
    {
      ok := budget > 0 && Answers(c, world);
      if ok {
        world := Apply(c, world);
        budget := budget - 1;
        log := log + [c];
      }
    }
  }
}
