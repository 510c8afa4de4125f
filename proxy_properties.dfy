/** Properties that relate several calls on the proxy: FIFO delivery, the two
    cancellation paths, push demultiplexing and repeated disconnects. */
module ProxyProperties {
  import opened TaskQueue
  import opened ProxySpec

  /** The tasks handed to the remote `send`, in the order of the calls. */
  function SentTasks(es: seq<Effect>): seq<TaskRef>
  {
    if es == [] then []
    else SentTasks(es[..|es| - 1]) + (if es[|es| - 1].RemoteSend? then [es[|es| - 1].task] else [])
  }

  /** No effect in `es` hands task `t` to the remote service. */
  predicate NoSendOf(t: TaskRef, es: seq<Effect>)
  {
    forall e :: e in es ==> !(e.RemoteSend? && e.task == t)
  }

  /** Every task in `ts` carries a path in `s`. */
  predicate Routable(s: State, ts: seq<TaskRef>)
  {
    forall u :: u in ts ==> PropertiesOf(s, u).cgiPath.Some?
  }

  /** The tasks of `ts` whose bundle carries a path in `s`, in order: those a
      worker step hands to the remote service rather than loses. */
  function Sendable(s: State, ts: seq<TaskRef>): seq<TaskRef>
  {
    if ts == [] then []
    else (if PropertiesOf(s, ts[0]).cgiPath.Some? then [ts[0]] else []) + Sendable(s, ts[1..])
  }

  /** Successive worker passes, one per remote result in `outs`. */
  function RunWorker(s: State, outs: seq<RemoteResult>): (r: State)
    ensures s.effects <= r.effects
    ensures r.globalCmdIds == s.globalCmdIds && r.handlers == s.handlers
    decreases |outs|
  {
    if outs == [] then s else RunWorker(ContinueProcessTaskWrappers(s, outs[0]), outs[1..])
  }

  /** Successive `send` calls, one per (task, bundle) pair. */
  function SendAll(s: State, jobs: seq<(TaskRef, Properties)>): State
    decreases |jobs|
  {
    if jobs == [] then s else SendAll(Send(s, jobs[0].0, jobs[0].1), jobs[1..])
  }

  function Tasks(jobs: seq<(TaskRef, Properties)>): (ts: seq<TaskRef>)
    ensures |ts| == |jobs| && forall i :: 0 <= i < |jobs| ==> ts[i] == jobs[i].0
  {
    seq(|jobs|, i requires 0 <= i < |jobs| => jobs[i].0)
  }

  lemma SentTasksAppend(es: seq<Effect>, e: Effect)
    ensures SentTasks(es + [e]) == SentTasks(es) + (if e.RemoteSend? then [e.task] else [])
  {
    assert (es + [e])[..|es|] == es;
  }

  /** Only the path of a bundle decides which tasks are sendable. */
  lemma {:induction false} SendableSamePaths(s: State, s': State, ts: seq<TaskRef>)
    requires forall u :: PropertiesOf(s', u).cgiPath == PropertiesOf(s, u).cgiPath
    ensures Sendable(s', ts) == Sendable(s, ts)
  {
    if ts != [] {
      SendableSamePaths(s, s', ts[1..]);
    }
  }

  lemma {:induction false} SendableRoutable(s: State, ts: seq<TaskRef>)
    requires Routable(s, ts)
    ensures Sendable(s, ts) == ts
  {
    if ts != [] {
      SendableRoutable(s, ts[1..]);
    }
  }

  /** With a service bound, one worker pass takes the head and sends it if and
      only if it carries a path. */
  lemma StepDispatchesHead(s: State, out: RemoteResult)
    requires s.connected && s.queue != []
    ensures var s1 := ContinueProcessTaskWrappers(s, out);
      && s1.connected
      && s1.queue == s.queue[1..]
      && SentTasks(s1.effects) == SentTasks(s.effects) + Sendable(s, s.queue[..1])
      && forall u :: PropertiesOf(s1, u).cgiPath == PropertiesOf(s, u).cgiPath
  {
    var h := s.queue[0];
    assert s.queue[..1] == [h];
    assert Sendable(s, [h]) == (if PropertiesOf(s, h).cgiPath.Some? then [h] else []) by {
      assert [h][1..] == [];
    }
    if PropertiesOf(s, h).cgiPath.Some? {
      SentTasksAppend(s.effects, RemoteSend(h, ResolveCmdId(PropertiesOf(s, h), s.globalCmdIds)));
    }
  }

  /** FIFO: with a service bound, n worker passes take the first n queued
      tasks, and hand the ones that carry a path to the remote service in
      queue order, each once. */
  lemma {:induction false} FifoDispatch(s: State, outs: seq<RemoteResult>)
    requires s.connected
    requires |outs| <= |s.queue|
    ensures RunWorker(s, outs).connected
    ensures RunWorker(s, outs).queue == s.queue[|outs|..]
    ensures SentTasks(RunWorker(s, outs).effects) == SentTasks(s.effects) + Sendable(s, s.queue[..|outs|])
    decreases |outs|
  {
    if outs != [] {
      var s1 := ContinueProcessTaskWrappers(s, outs[0]);
      StepDispatchesHead(s, outs[0]);
      FifoDispatch(s1, outs[1..]);
      assert RunWorker(s, outs) == RunWorker(s1, outs[1..]);
      SendablePrefixAfterStep(s, s1, |outs|);
      assert s1.queue[|outs| - 1..] == s.queue[|outs|..];
    }
  }

  /** The sendable tasks among the first n are the head, if it is sendable,
      then the sendable ones among the next n - 1, judged after a step that
      kept every path. */
  lemma SendablePrefixAfterStep(s: State, s1: State, n: nat)
    requires 0 < n <= |s.queue| && s1.queue == s.queue[1..]
    requires forall u :: PropertiesOf(s1, u).cgiPath == PropertiesOf(s, u).cgiPath
    ensures Sendable(s, s.queue[..n]) == Sendable(s, s.queue[..1]) + Sendable(s1, s1.queue[..n - 1])
  {
    assert s.queue[..n] == s.queue[..1] + s1.queue[..n - 1];
    SendableSamePaths(s, s1, s1.queue[..n - 1]);
    SendableConcat(s, s.queue[..1], s1.queue[..n - 1]);
  }

  lemma {:induction false} SendableConcat(s: State, a: seq<TaskRef>, b: seq<TaskRef>)
    ensures Sendable(s, a + b) == Sendable(s, a) + Sendable(s, b)
  {
    if a == [] {
      assert a + b == b;
    } else {
      var ab := a + b;
      assert ab[0] == a[0] && ab[1..] == a[1..] + b;
      SendableConcat(s, a[1..], b);
      var h := if PropertiesOf(s, a[0]).cgiPath.Some? then [a[0]] else [];
      assert Sendable(s, ab) == h + Sendable(s, a[1..] + b);
      assert Sendable(s, a) == h + Sendable(s, a[1..]);
    }
  }

  /** `send` calls append their tasks to the queue in call order, whatever
      their bundles hold, and change nothing but the queue and the bundles. */
  lemma {:induction false} SendAllAppends(s: State, jobs: seq<(TaskRef, Properties)>)
    ensures SendAll(s, jobs).queue == s.queue + Tasks(jobs)
    ensures SendAll(s, jobs) == s.(queue := SendAll(s, jobs).queue, props := SendAll(s, jobs).props)
    decreases |jobs|
  {
    if jobs != [] {
      SendAllAppends(Send(s, jobs[0].0, jobs[0].1), jobs[1..]);
      assert Tasks(jobs) == [jobs[0].0] + Tasks(jobs[1..]);
    }
  }

  /** `send` calls whose bundles all carry a path keep every queued task
      routable. */
  lemma {:induction false} SendAllKeepsRoutable(s: State, jobs: seq<(TaskRef, Properties)>)
    requires Routable(s, s.queue)
    requires forall i :: 0 <= i < |jobs| ==> jobs[i].1.cgiPath.Some?
    ensures Routable(SendAll(s, jobs), SendAll(s, jobs).queue)
    decreases |jobs|
  {
    if jobs != [] {
      var s1 := Send(s, jobs[0].0, jobs[0].1);
      SendKeepsRoutable(s, jobs[0].0, jobs[0].1);
      SendAllKeepsRoutable(s1, jobs[1..]);
    }
  }

  lemma SendKeepsRoutable(s: State, t: TaskRef, p: Properties)
    requires Routable(s, s.queue) && p.cgiPath.Some?
    ensures var s1 := Send(s, t, p); Routable(s1, s1.queue)
  {
    var s1 := Send(s, t, p);
    forall u | u in s1.queue ensures PropertiesOf(s1, u).cgiPath.Some? {
      if u != t {
        assert u in s.queue;
      }
    }
  }

  /** End to end: tasks submitted one after another, each with a path, are
      handed to the remote service in exactly the order of submission, after
      whatever was already queued. */
  lemma SubmissionOrderIsSendOrder(s: State, jobs: seq<(TaskRef, Properties)>, outs: seq<RemoteResult>)
    requires s.connected && Routable(s, s.queue)
    requires forall i :: 0 <= i < |jobs| ==> jobs[i].1.cgiPath.Some?
    requires |outs| == |s.queue| + |jobs|
    ensures RunWorker(SendAll(s, jobs), outs).queue == []
    ensures SentTasks(RunWorker(SendAll(s, jobs), outs).effects) == SentTasks(s.effects) + s.queue + Tasks(jobs)
  {
    var s1 := SendAll(s, jobs);
    SendAllAppends(s, jobs);
    SendAllKeepsRoutable(s, jobs);
    assert s1.connected && s1.effects == s.effects;
    assert s1.queue == s.queue + Tasks(jobs);
    FifoDispatch(s1, outs);
    assert s1.queue[..|outs|] == s1.queue;
    SendableRoutable(s1, s1.queue);
    assert Sendable(s1, s1.queue[..|outs|]) == s.queue + Tasks(jobs);
  }

  /** One call on the proxy from the outside: a `send` by a client, one pass
      of the worker thread with the result of its remote `send`, or a
      connection callback with the outcomes of the remote calls it makes. */
  datatype Op =
    | Submit(task: TaskRef, props: Properties)
    | Pass(out: RemoteResult)
    | Connect(registerOk: bool, accountOk: bool)
    | Disconnect

  function Apply(s: State, op: Op): State
  {
    match op
    case Submit(t, p) => Send(s, t, p)
    case Pass(out) => ContinueProcessTaskWrappers(s, out)
    case Connect(registerOk, accountOk) => OnServiceConnected(s, registerOk, accountOk)
    case Disconnect => OnServiceDisconnected(s).1
  }

  /** The calls of `ops` one after another, in any interleaving of client
      `send`s, worker passes, and the service being connected and lost. */
  function Run(s: State, ops: seq<Op>): State
    decreases |ops|
  {
    if ops == [] then s else Run(Apply(s, ops[0]), ops[1..])
  }

  /** The tasks submitted by `ops`, in submission order. */
  function Submitted(ops: seq<Op>): seq<TaskRef>
    decreases |ops|
  {
    if ops == [] then []
    else (if ops[0].Submit? then [ops[0].task] else []) + Submitted(ops[1..])
  }

  /** When every queued task and the submitted one carry a path, one call
      keeps every queued task carrying one, and moves tasks from the queue to
      the sent log only at the joint: what was sent, followed by what is
      queued, only grows by the task submitted. */
  lemma ApplyKeepsOrder(s: State, op: Op)
    requires Routable(s, s.queue)
    requires op.Submit? ==> op.props.cgiPath.Some?
    ensures var s1 := Apply(s, op);
      && Routable(s1, s1.queue)
      && SentTasks(s1.effects) + s1.queue
         == SentTasks(s.effects) + s.queue + (if op.Submit? then [op.task] else [])
  {
    match op
    case Submit(t, p) =>
      SendKeepsRoutable(s, t, p);
    case Pass(out) =>
      PassKeepsOrder(s, out);
    case Connect(registerOk, accountOk) =>
      ConnectKeepsOrder(s, registerOk, accountOk);
    case Disconnect =>
      SentTasksAppend(s.effects, UnregisterFilter);
  }

  lemma PassKeepsOrder(s: State, out: RemoteResult)
    requires Routable(s, s.queue)
    ensures var s1 := ContinueProcessTaskWrappers(s, out);
      Routable(s1, s1.queue) && SentTasks(s1.effects) + s1.queue == SentTasks(s.effects) + s.queue
  {
    var s1 := ContinueProcessTaskWrappers(s, out);
    if !s.connected {
      SentTasksAppend(s.effects, StartAndBind);
    } else if s.queue != [] {
      StepDispatchesHead(s, out);
      SendableRoutable(s, s.queue[..1]);
      assert s.queue == s.queue[..1] + s.queue[1..];
      assert Routable(s1, s1.queue) by {
        forall u | u in s1.queue ensures PropertiesOf(s1, u).cgiPath.Some? {
          assert u in s.queue;
        }
      }
    }
  }

  /** A connect leaves the queue, the bundles and the tasks sent alone. */
  lemma ConnectKeepsOrder(s: State, registerOk: bool, accountOk: bool)
    ensures var s1 := OnServiceConnected(s, registerOk, accountOk);
      s1.queue == s.queue && s1.props == s.props && SentTasks(s1.effects) == SentTasks(s.effects)
  {
    SentTasksAppend(s.effects, RegisterFilter);
    if registerOk && s.accountInfo.Some? {
      var a := s.accountInfo.value;
      SentTasksAppend(s.effects + [RegisterFilter], SetAccount(a.uin, a.userName));
      assert s.effects + [RegisterFilter, SetAccount(a.uin, a.userName)]
        == s.effects + [RegisterFilter] + [SetAccount(a.uin, a.userName)];
    }
  }

  /** Submission order is send order for tasks that carry a path, under any
      interleaving of `send` calls, worker passes, connects and disconnects:
      when every queued and every submitted task carries a path, at every
      point the tasks sent so far followed by the tasks still queued are the
      tasks queued at the start followed by those submitted since, in
      submission order. A task without a path breaks this: it is lost
      (`PathlessTaskIsLost`). */
  lemma {:induction false} InterleavedSubmissionOrder(s: State, ops: seq<Op>)
    requires Routable(s, s.queue)
    requires forall i :: 0 <= i < |ops| && ops[i].Submit? ==> ops[i].props.cgiPath.Some?
    ensures Routable(Run(s, ops), Run(s, ops).queue)
    ensures SentTasks(Run(s, ops).effects) + Run(s, ops).queue
      == SentTasks(s.effects) + s.queue + Submitted(ops)
    decreases |ops|
  {
    if ops != [] {
      var s1 := Apply(s, ops[0]);
      assert ops[0].Submit? ==> ops[0].props.cgiPath.Some?;
      ApplyKeepsOrder(s, ops[0]);
      assert forall i :: 0 <= i < |ops[1..]| && ops[1..][i].Submit? ==> ops[1..][i].props.cgiPath.Some? by {
        forall i | 0 <= i < |ops[1..]| && ops[1..][i].Submit? ensures ops[1..][i].props.cgiPath.Some? {
          assert ops[1..][i] == ops[i + 1];
        }
      }
      InterleavedSubmissionOrder(s1, ops[1..]);
    }
  }

  /** The hypothesis of `InterleavedSubmissionOrder` is needed: a task
      submitted without a path is taken by the next pass and never sent, so
      it is neither sent nor queued. */
  lemma PathlessTaskIsLost(s: State, t: TaskRef, out: RemoteResult)
    requires s.connected && s.queue == []
    ensures var r := Run(s, [Submit(t, NoProperties), Pass(out)]);
      SentTasks(r.effects) + r.queue == SentTasks(s.effects) + s.queue
      && SentTasks(s.effects) + s.queue + Submitted([Submit(t, NoProperties), Pass(out)])
         == SentTasks(s.effects) + [t]
  {
    var ops := [Submit(t, NoProperties), Pass(out)];
    var s1 := Send(s, t, NoProperties);
    assert Run(s, ops) == Run(s1, ops[1..]);
    assert ops[1..][1..] == [];
    assert Submitted(ops) == [t] + Submitted(ops[1..]);
    assert Submitted(ops[1..]) == [] + Submitted(ops[1..][1..]);
  }

  lemma NoSendOfConcat(t: TaskRef, a: seq<Effect>, b: seq<Effect>)
    requires NoSendOf(t, a) && NoSendOf(t, b)
    ensures NoSendOf(t, a + b)
  {
  }

  /** One worker pass sends at most the task it took from the head: it never
      sends a task that is not queued, and keeps it out of the queue. */
  lemma StepNeverSendsUnqueued(s: State, t: TaskRef, out: RemoteResult)
    requires t !in s.queue
    ensures var s1 := ContinueProcessTaskWrappers(s, out);
      t !in s1.queue && s.effects <= s1.effects && NoSendOf(t, s1.effects[|s.effects|..])
    ensures var s1 := ContinueProcessTaskWrappers(s, out);
      forall e :: e in s1.effects[|s.effects|..] && e.RemoteSend? ==> s.queue != [] && e.task == s.queue[0]
  {
    var s1 := ContinueProcessTaskWrappers(s, out);
    if s.connected && s.queue != [] {
      assert s1.queue == s.queue[1..];
      assert s.queue[0] != t;
    }
  }

  /** A task that is not queued is never handed to the remote service by any
      number of worker passes. */
  lemma {:induction false} NotQueuedNeverSent(s: State, t: TaskRef, outs: seq<RemoteResult>)
    requires t !in s.queue
    ensures t !in RunWorker(s, outs).queue
    ensures NoSendOf(t, RunWorker(s, outs).effects[|s.effects|..])
    decreases |outs|
  {
    if outs != [] {
      var s1 := ContinueProcessTaskWrappers(s, outs[0]);
      StepNeverSendsUnqueued(s, t, outs[0]);
      NotQueuedNeverSent(s1, t, outs[1..]);
      var r := RunWorker(s1, outs[1..]);
      assert r == RunWorker(s, outs);
      assert r.effects[|s.effects|..] == s1.effects[|s.effects|..] + r.effects[|s1.effects|..];
      NoSendOfConcat(t, s1.effects[|s.effects|..], r.effects[|s1.effects|..]);
    }
  }

  /** Cancel before dispatch: `send(t)` then `cancel(t)` ends `t` locally once
      with the cancelled code, restores the queue, issues no remote cancel, and
      no later worker pass ever sends `t`. */
  lemma CancelBeforeDispatch(s: State, t: TaskRef, p: Properties, outs: seq<RemoteResult>)
    requires t !in s.queue
    ensures var c := CancelSpecifiedTaskWrapper(Send(s, t, p), t);
      && c.0 == Normal
      && c.1.queue == s.queue
      && c.1.effects == s.effects + [TaskEnd(t, CancelledCode, CancelledCode)]
      && NoSendOf(t, RunWorker(c.1, outs).effects[|c.1.effects|..])
  {
    RemoveFirstOfOffered(s.queue, t);
    var c := CancelSpecifiedTaskWrapper(Send(s, t, p), t);
    NotQueuedNeverSent(c.1, t, outs);
  }

  /** Cancel after dispatch: once a worker pass has sent `t` and stored the
      returned id, `cancel(t)` issues exactly one remote cancel with that id,
      calls no local `onTaskEnd` and leaves the queue alone. */
  lemma CancelAfterDispatch(s: State, id: int)
    requires s.connected && s.queue != [] && s.queue[0] !in s.queue[1..]
    requires PropertiesOf(s, s.queue[0]).cgiPath.Some?
    ensures var w := ContinueProcessTaskWrappers(s, Returned(id));
      CancelSpecifiedTaskWrapper(w, s.queue[0]) == (Normal, w.(effects := w.effects + [RemoteCancel(id)]))
  {
  }

  /** A handler registered for `cmdId` receives the next push for it, once. */
  lemma RegisteredHandlerReceives(s: State, cmdId: int, h: PushMessageHandler, buffer: seq<bv8>)
    ensures var r := OnRecv(SetOnPushMessageListener(s, cmdId, h), cmdId, buffer);
      r.0 && r.1.effects == s.effects + [HandlerInvoked(h, PushMessage(cmdId, buffer))]
  {
  }

  /** A push that found no handler is dropped for good: registering a handler
      afterwards delivers only later pushes to it. */
  lemma NoLateDelivery(s: State, cmdId: int, h: PushMessageHandler, early: seq<bv8>, late: seq<bv8>)
    requires cmdId !in s.handlers
    ensures var a := OnRecv(s, cmdId, early);
      var b := OnRecv(SetOnPushMessageListener(a.1, cmdId, h), cmdId, late);
      !a.0 && a.1 == s && b.0 && b.1.effects == s.effects + [HandlerInvoked(h, PushMessage(cmdId, late))]
  {
  }

  /** Removing the handler for `cmdId` makes its pushes go unhandled. */
  lemma UnregisteredIgnoresPush(s: State, cmdId: int, buffer: seq<bv8>)
    ensures var u := SetOnPushMessageListener(s, cmdId, null);
      OnRecv(u, cmdId, buffer) == (false, u)
  {
  }

  /** A second disconnect without a connect in between finds `service` null
      and throws, leaving the state as the first disconnect left it. */
  lemma RepeatedDisconnectThrows(s: State)
    ensures var d1 := OnServiceDisconnected(s);
      var d2 := OnServiceDisconnected(d1.1);
      d2 == (NullPointer, d1.1) && !d2.1.connected
  {
  }

  /** The disconnect callback after a connect: it unregisters the filter and
      returns normally if and only if the connect left the service usable;
      after a failed connect it finds `service` null and throws. */
  lemma DisconnectAfterConnect(s: State, registerOk: bool, accountOk: bool)
    ensures var c := OnServiceConnected(s, registerOk, accountOk);
      var d := OnServiceDisconnected(c);
      && !d.1.connected
      && (d.0 == Normal <==> registerOk && s.accountInfo.Some? && accountOk)
      && (d.0 == Normal ==> d.1.effects == c.effects + [UnregisterFilter])
      && (d.0 == NullPointer ==> d.1 == c)
  {
  }
}
