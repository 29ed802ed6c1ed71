/**
 * Single attachment: over every interleaving of CSI calls from any number of nodes, two
 * nodes are given the same volume only with an effective disconnect in between.
 */
module Attachments {
  import opened Names
  import opened Structs
  import opened Volumes
  import opened Clusters
  import opened Conversions
  import opened Plans
  import opened VolumeServices
  import opened Lifecycles
  import opened CsiDrivers

  /** The volume service and the CSI calls in progress on it. */
  datatype System = System(rows: Table, world: World, tasks: seq<Task>)

  /** The scheduler's choice: which task sends its next request, and how many commands succeed. */
  datatype Tick = Tick(task: nat, budget: nat)

  function Step(hosts: Hosts, s: System, t: Tick): System {
    if t.task >= |s.tasks| || s.tasks[t.task].Finished? then s
    else
      var task := s.tasks[t.task];
      var a := Answer(RequestOf(task), hosts, s.rows, s.world, t.budget);
      System(a.rows, a.run.world, s.tasks[t.task := Resume(task, a.reply)])
  }

  /** The system after the first k ticks. */
  function StateAt(hosts: Hosts, s: System, ticks: seq<Tick>, k: nat): System
    requires k <= |ticks|
  {
    if k == 0 then s else Step(hosts, StateAt(hosts, s, ticks, k - 1), ticks[k - 1])
  }

  ghost predicate RowsInOrder(hosts: Hosts, rows: Table) {
    KeyedByID(rows) && forall id :: id in rows ==> Lifecycle(hosts, rows[id])
  }

  /** CSI requests pass validation first: no path is empty, and no name has a colon. */
  predicate ValidTask(t: Task) {
    && (t.StageGet? || t.StageConnect? || t.StageStage? || t.MountCall? ==> t.path != "")
    && (t.CreateCall? ==> ColonFree(t.volume.id) && t.volume.targetPaths == [])
  }

  predicate ValidRequest(r: Request) {
    && (r.Call? ==> Validated(r.op))
    && (r.Create? ==> ColonFree(r.volume.id) && r.volume.targetPaths == [])
  }

  predicate HeldBy(rows: Table, id: string, node: string) {
    id in rows && rows[id].IsConnected() && rows[id].clientHost == node
  }

  lemma AnswerKeepsOrder(r: Request, hosts: Hosts, rows: Table, w: World, budget: nat)
    requires RowsInOrder(hosts, rows) && ValidRequest(r)
    ensures RowsInOrder(hosts, Answer(r, hosts, rows, w, budget).rows)
  {
    hide Lifecycle, Handle, Execute, WellTyped, GivenUpdate, ServerRefresh, ClientRefresh, Persist;
    match r {
      case Get(_) =>
      case Call(id, op) =>
        if id in rows {
          HandleKeepsLifecycle(op, hosts, rows[id], w, budget);
          HandleKeepsID(op, hosts, rows[id], w, budget);
        }
      case Create(volume) => CreateStartsLifecycle(hosts, volume);
      case Remove(_) =>
      case Update(updates) =>
        var id := StringField(updates, "id");
        if id in rows {
          NextKeepsLifecycle(hosts, rows[id], Amend(updates));
          AmendedFields(rows[id], updates);
        }
    }
  }

  lemma TaskStaysValid(t: Task, reply: Reply)
    requires !t.Finished? && ValidTask(t)
    ensures ValidTask(Resume(t, reply)) && ValidRequest(RequestOf(t))
  {
  }

  lemma StepKeepsOrder(hosts: Hosts, s: System, t: Tick)
    requires RowsInOrder(hosts, s.rows) && forall i :: 0 <= i < |s.tasks| ==> ValidTask(s.tasks[i])
    ensures var n := Step(hosts, s, t);
      RowsInOrder(hosts, n.rows) && |n.tasks| == |s.tasks| && forall i :: 0 <= i < |n.tasks| ==> ValidTask(n.tasks[i])
  {
    hide RowsInOrder, ValidTask, RequestOf, Resume, Answer, ValidRequest;
    if t.task < |s.tasks| && !s.tasks[t.task].Finished? {
      var task := s.tasks[t.task];
      TaskStaysValid(task, Answer(RequestOf(task), hosts, s.rows, s.world, t.budget).reply);
      AnswerKeepsOrder(RequestOf(task), hosts, s.rows, s.world, t.budget);
    }
  }

  /** The tick takes effect as a disconnect of the volume. */
  ghost predicate Disconnects(hosts: Hosts, s: System, t: Tick, id: string) {
    && t.task < |s.tasks| && !s.tasks[t.task].Finished?
    && RequestOf(s.tasks[t.task]) == Request.Call(id, Disconnect)
    && id in s.rows && Effective(Disconnect, hosts, s.rows[id], s.world, t.budget)
  }

  /** Nothing but an effective disconnect takes a volume from its node. */
  lemma HandleKeepsHold(op: Op, hosts: Hosts, v: Volume, w: World, budget: nat)
    requires Lifecycle(hosts, v) && Validated(op) && v.IsConnected()
    requires op.Disconnect? ==> !Effective(op, hosts, v, w, budget)
    ensures var u := Handle(op, hosts, v, w, budget).volume; u.IsConnected() && u.clientHost == v.clientHost
  {
    CallMoves(op, hosts, v, w, budget);
    hide Handle, Effective, Exported, Attached, PayloadNamesTarget;
  }

  lemma AnswerKeepsHold(r: Request, hosts: Hosts, rows: Table, w: World, budget: nat, id: string, node: string)
    requires RowsInOrder(hosts, rows) && ValidRequest(r) && HeldBy(rows, id, node)
    requires r == Request.Call(id, Disconnect) ==> !Effective(Disconnect, hosts, rows[id], w, budget)
    ensures HeldBy(Answer(r, hosts, rows, w, budget).rows, id, node)
  {
    hide Lifecycle, Handle, Execute, WellTyped, GivenUpdate, ServerRefresh, ClientRefresh, Persist, Effective;
    match r {
      case Get(_) =>
      case Call(other, op) =>
        if other == id {
          HandleKeepsHold(op, hosts, rows[id], w, budget);
        }
      case Create(_) =>
      case Remove(_) =>
      case Update(updates) =>
        if StringField(updates, "id") == id {
          AmendedFields(rows[id], updates);
        }
    }
  }

  lemma HeldIsThere(rows: Table, id: string, node: string)
    ensures HeldBy(rows, id, node) ==> id in rows
  {
  }

  lemma StepKeepsHold(hosts: Hosts, s: System, t: Tick, id: string, node: string)
    requires RowsInOrder(hosts, s.rows) && (forall i :: 0 <= i < |s.tasks| ==> ValidTask(s.tasks[i]))
    requires HeldBy(s.rows, id, node) && !Disconnects(hosts, s, t, id)
    ensures HeldBy(Step(hosts, s, t).rows, id, node)
  {
    hide Answer, RequestOf, Resume, RowsInOrder, Effective, ValidTask, ValidRequest, HeldBy;
    assert HeldBy(s.rows, id, node) ==> id in s.rows by {
      HeldIsThere(s.rows, id, node);
    }
    if t.task < |s.tasks| && !s.tasks[t.task].Finished? {
      var task := s.tasks[t.task];
      TaskStaysValid(task, Panic);
      AnswerKeepsHold(RequestOf(task), hosts, s.rows, s.world, t.budget, id, node);
    }
  }

  /** The tick is the connect that ends a controller-publish call in success. */
  ghost predicate Attaches(hosts: Hosts, s: System, t: Tick, a: nat, id: string, node: string) {
    && a < |s.tasks| && t.task == a && s.tasks[a] == AttachConnect(id, node)
    && Step(hosts, s, t).tasks[a] == Finished(Succeeded)
  }

  lemma ConnectAnswers(hosts: Hosts, v: Volume, w: World, budget: nat, node: string)
    requires Lifecycle(hosts, v)
    ensures var o := Handle(Connect(node), hosts, v, w, budget);
      o.reply.Ok? ==> o.volume.IsConnected() && (o.reply.volume.clientHost == "" || o.reply.volume.clientHost == node
                        ==> o.volume.clientHost == node)
  {
    CallMoves(Connect(node), hosts, v, w, budget);
    ConnectReplies(hosts, v, w, budget, node);
    hide Handle, Effective, ConnectPlan;
  }

  lemma ConnectReplies(hosts: Hosts, v: Volume, w: World, budget: nat, node: string)
    ensures var o := Handle(Connect(node), hosts, v, w, budget);
      o.reply.Ok? ==>
        || (v.IsConnected() && o.volume == v && o.reply.volume == v)
        || Effective(Connect(node), hosts, v, w, budget)
  {
    hide Execute, ClientID, Lookup;
  }

  /** A controller-publish call succeeds only with the volume on its own node. */
  lemma SuccessHolds(hosts: Hosts, s: System, t: Tick, a: nat, id: string, node: string)
    requires RowsInOrder(hosts, s.rows) && Attaches(hosts, s, t, a, id, node)
    ensures HeldBy(Step(hosts, s, t).rows, id, node)
  {
    hide Handle;
    if id in s.rows {
      ConnectAnswers(hosts, s.rows[id], s.world, t.budget, node);
    }
  }

  lemma {:induction false} OrderAt(hosts: Hosts, s: System, ticks: seq<Tick>, k: nat)
    requires k <= |ticks| && RowsInOrder(hosts, s.rows) && forall i :: 0 <= i < |s.tasks| ==> ValidTask(s.tasks[i])
    ensures var n := StateAt(hosts, s, ticks, k);
      RowsInOrder(hosts, n.rows) && |n.tasks| == |s.tasks| && forall i :: 0 <= i < |n.tasks| ==> ValidTask(n.tasks[i])
  {
    hide RowsInOrder, Step, ValidTask;
    if k > 0 {
      OrderAt(hosts, s, ticks, k - 1);
      StepKeepsOrder(hosts, StateAt(hosts, s, ticks, k - 1), ticks[k - 1]);
    }
  }

  /** Where a controller-publish call is that has not succeeded yet. */
  ghost predicate StillAttaching(t: Task, id: string, node: string) {
    || (t.AttachGet? && t.id == id && t.node == node)
    || (t.AttachPublish? && t.id == id && t.node == node)
    || t == AttachConnect(id, node)
    || (t.Finished? && t.reply.Fault?)
  }

  lemma StepAttaches(hosts: Hosts, s: System, t: Tick, a: nat, id: string, node: string)
    requires a < |s.tasks| && StillAttaching(s.tasks[a], id, node)
    ensures |Step(hosts, s, t).tasks| == |s.tasks|
    ensures StillAttaching(Step(hosts, s, t).tasks[a], id, node) || Attaches(hosts, s, t, a, id, node)
  {
    hide Answer;
  }

  /** A controller-publish call that has succeeded did so in one connecting tick. */
  lemma {:induction false} AttachedBy(hosts: Hosts, s: System, ticks: seq<Tick>, k: nat, a: nat, id: string,
                                      node: string)
    returns (i: nat)
    requires k <= |ticks| && a < |s.tasks| && StillAttaching(s.tasks[a], id, node)
    ensures |StateAt(hosts, s, ticks, k).tasks| == |s.tasks|
    ensures StillAttaching(StateAt(hosts, s, ticks, k).tasks[a], id, node)
         || (i < k && Attaches(hosts, StateAt(hosts, s, ticks, i), ticks[i], a, id, node))
  {
    hide Step, StillAttaching, Attaches;
    i := 0;
    if k > 0 {
      i := AttachedBy(hosts, s, ticks, k - 1, a, id, node);
      var before := StateAt(hosts, s, ticks, k - 1);
      StepKeepsCount(hosts, before, ticks[k - 1]);
      if StillAttaching(before.tasks[a], id, node) {
        StepAttaches(hosts, before, ticks[k - 1], a, id, node);
        i := k - 1;
      }
    }
  }

  lemma StepKeepsCount(hosts: Hosts, s: System, t: Tick)
    ensures |Step(hosts, s, t).tasks| == |s.tasks|
  {
    hide Answer, Resume;
  }

  /** A volume stays on its node until an effective disconnect. */
  lemma {:induction false} HeldUntil(hosts: Hosts, s: System, ticks: seq<Tick>, i: nat, j: nat, id: string,
                                     node: string)
    requires i <= j <= |ticks| && RowsInOrder(hosts, s.rows)
    requires forall x :: 0 <= x < |s.tasks| ==> ValidTask(s.tasks[x])
    requires HeldBy(StateAt(hosts, s, ticks, i).rows, id, node)
    requires forall k :: i <= k < j ==> !Disconnects(hosts, StateAt(hosts, s, ticks, k), ticks[k], id)
    ensures HeldBy(StateAt(hosts, s, ticks, j).rows, id, node)
    decreases j
  {
    hide RowsInOrder, Step, ValidTask, Disconnects, HeldBy;
    if i < j {
      HeldUntil(hosts, s, ticks, i, j - 1, id, node);
      OrderAt(hosts, s, ticks, j - 1);
      StepKeepsHold(hosts, StateAt(hosts, s, ticks, j - 1), ticks[j - 1], id, node);
    }
  }

  lemma DisconnectBetween(hosts: Hosts, s: System, ticks: seq<Tick>, i: nat, j: nat, id: string, n1: string, n2: string)
    requires i < j < |ticks| && n1 != n2 && RowsInOrder(hosts, s.rows)
    requires forall x :: 0 <= x < |s.tasks| ==> ValidTask(s.tasks[x])
    requires HeldBy(StateAt(hosts, s, ticks, i + 1).rows, id, n1)
    requires HeldBy(StateAt(hosts, s, ticks, j + 1).rows, id, n2)
    requires !Disconnects(hosts, StateAt(hosts, s, ticks, j), ticks[j], id)
    ensures exists k :: i < k < j && Disconnects(hosts, StateAt(hosts, s, ticks, k), ticks[k], id)
  {
    hide RowsInOrder, Step, StateAt, ValidTask, Disconnects;
    if forall k :: i < k < j ==> !Disconnects(hosts, StateAt(hosts, s, ticks, k), ticks[k], id) {
      HeldUntil(hosts, s, ticks, i + 1, j + 1, id, n1);
      assert false;
    }
  }

  lemma AttachIsNoDisconnect(hosts: Hosts, s: System, t: Tick, a: nat, id: string, node: string)
    requires Attaches(hosts, s, t, a, id, node)
    ensures !Disconnects(hosts, s, t, id)
  {
  }

  /** Tick i ends a controller-publish call in success, with the volume on the call's node. */
  ghost predicate AttachedAt(hosts: Hosts, s: System, ticks: seq<Tick>, i: nat, a: nat, id: string, node: string) {
    && i < |ticks|
    && Attaches(hosts, StateAt(hosts, s, ticks, i), ticks[i], a, id, node)
    && HeldBy(StateAt(hosts, s, ticks, i + 1).rows, id, node)
  }

  /** Tick k takes effect as a disconnect of the volume. */
  ghost predicate DisconnectedAt(hosts: Hosts, s: System, ticks: seq<Tick>, k: nat, id: string) {
    k < |ticks| && Disconnects(hosts, StateAt(hosts, s, ticks, k), ticks[k], id)
  }

  lemma AttachedSomewhere(hosts: Hosts, s: System, ticks: seq<Tick>, a: nat, id: string, node: string) returns (i: nat)
    requires RowsInOrder(hosts, s.rows) && forall x :: 0 <= x < |s.tasks| ==> ValidTask(s.tasks[x])
    requires a < |s.tasks| && s.tasks[a].AttachGet? && s.tasks[a].id == id && s.tasks[a].node == node
    requires var end := StateAt(hosts, s, ticks, |ticks|).tasks; |end| == |s.tasks| && end[a] == Finished(Succeeded)
    ensures AttachedAt(hosts, s, ticks, i, a, id, node)
    ensures i < |ticks| && !Disconnects(hosts, StateAt(hosts, s, ticks, i), ticks[i], id)
  {
    hide Step, RowsInOrder, ValidTask, Disconnects, Attaches;
    i := AttachedBy(hosts, s, ticks, |ticks|, a, id, node);
    OrderAt(hosts, s, ticks, i);
    SuccessHolds(hosts, StateAt(hosts, s, ticks, i), ticks[i], a, id, node);
    AttachIsNoDisconnect(hosts, StateAt(hosts, s, ticks, i), ticks[i], a, id, node);
  }

  /**
   * Over all interleavings: when controller-publish calls of one volume succeed for two
   * different nodes, each succeeded with the volume on its own node, and between their
   * connects another request took effect as a disconnect.
   */
  lemma {:induction false} SingleAttachment(hosts: Hosts, s: System, ticks: seq<Tick>, id: string,
                                            a: nat, b: nat, n1: string, n2: string)
    requires RowsInOrder(hosts, s.rows) && forall x :: 0 <= x < |s.tasks| ==> ValidTask(s.tasks[x])
    requires a < |s.tasks| && s.tasks[a].AttachGet? && s.tasks[a].id == id && s.tasks[a].node == n1
    requires b < |s.tasks| && s.tasks[b].AttachGet? && s.tasks[b].id == id && s.tasks[b].node == n2
    requires n1 != n2
    requires var end := StateAt(hosts, s, ticks, |ticks|).tasks;
      |end| == |s.tasks| && end[a] == Finished(Succeeded) && end[b] == Finished(Succeeded)
    ensures exists i: nat, j: nat, k: nat ::
      && AttachedAt(hosts, s, ticks, i, a, id, n1) && AttachedAt(hosts, s, ticks, j, b, id, n2)
      && (i < k < j || j < k < i) && DisconnectedAt(hosts, s, ticks, k, id)
  {
    hide Step, RowsInOrder, ValidTask, Disconnects, Attaches;
    var i := AttachedSomewhere(hosts, s, ticks, a, id, n1);
    var j := AttachedSomewhere(hosts, s, ticks, b, id, n2);
    assert i != j;
    if i < j {
      DisconnectBetween(hosts, s, ticks, i, j, id, n1, n2);
      var k :| i < k < j && Disconnects(hosts, StateAt(hosts, s, ticks, k), ticks[k], id);
      assert DisconnectedAt(hosts, s, ticks, k, id);
    } else {
      DisconnectBetween(hosts, s, ticks, j, i, id, n2, n1);
      var k :| j < k < i && Disconnects(hosts, StateAt(hosts, s, ticks, k), ticks[k], id);
      assert DisconnectedAt(hosts, s, ticks, k, id);
    }
  }
}
