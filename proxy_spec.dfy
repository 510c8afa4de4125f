/** The state of `MarsServiceProxy` as a value, and one transition function per
    public operation. Each transition is the exact outcome of one call; the class
    in module Proxy is proved to perform these transitions in place. */
module ProxySpec {
  import opened TaskQueue

  datatype Option<T> = None | Some(value: T)

  /** The identity of a task wrapper object. The queue removes by identity and
      the property table is keyed by it. */
  type TaskRef = nat

  /** A caller-owned push handler. Only its identity matters to the proxy. */
  class PushMessageHandler { }

  /** The task's options bundle, as far as the proxy reads or writes it:
      OPTIONS_CGI_PATH, OPTIONS_CMD_ID and OPTIONS_TASK_ID. `None` is a key the
      bundle does not hold. */
  datatype Properties = Properties(cgiPath: Option<string>, cmdId: Option<int>, taskId: Option<int>)

  /** The bundle the model gives a task never passed to `send`: none of the
      keys. */
  const NoProperties := Properties(None, None, None)

  /** The error type and code `onTaskEnd` receives for a task cancelled before
      it was handed to the remote service. */
  const CancelledCode := -1

  datatype AccountInfo = AccountInfo(uin: int, userName: string)

  datatype PushMessage = PushMessage(cmdId: int, buffer: seq<bv8>)

  /** What the remote `send` call does: return a task id, or throw. */
  datatype RemoteResult = Returned(taskId: int) | RemoteFailed

  /** How a Java call ends for its caller: normally, or with a
      NullPointerException from dereferencing the null `service`. */
  datatype Completion = Normal | NullPointer

  /** An effect the proxy has on the outside world. */
  datatype Effect =
    | StartAndBind                              // startService + bindService on the service component
    | RegisterFilter                            // service.registerPushMessageFilter(filter)
    | UnregisterFilter                          // service.unregisterPushMessageFilter(filter)
    | SetAccount(uin: int, userName: string)    // service.setAccountInfo(uin, userName)
    | RemoteSetForeground(flag: int)            // service.setForeground(flag)
    | RemoteSend(task: TaskRef, props: Properties)
    | RemoteCancel(taskId: int)
    | TaskEnd(task: TaskRef, errType: int, errCode: int)
    | HandlerInvoked(handler: PushMessageHandler, message: PushMessage)

  /** The proxy's fields, plus the log of every effect so far. `connected`
      stands for `service != null`. */
  datatype State = State(
    queue: seq<TaskRef>,
    handlers: map<int, PushMessageHandler>,
    globalCmdIds: map<string, int>,
    props: map<TaskRef, Properties>,
    connected: bool,
    accountInfo: Option<AccountInfo>,
    effects: seq<Effect>)

  /** The bundle of task `t` as the proxy sees it. */
  function PropertiesOf(s: State, t: TaskRef): Properties
  {
    if t in s.props then s.props[t] else NoProperties
  }

  /** `getInt(OPTIONS_TASK_ID)`: the stored remote task id, or 0 when absent. */
  function StoredTaskId(p: Properties): int
  {
    match p.taskId
    case Some(id) => id
    case None => 0
  }

  /** A freshly constructed proxy over the given global command-id map. */
  function Initial(globalCmdIds: map<string, int>): (s: State)
    ensures s.queue == [] && s.handlers == map[] && s.props == map[]
    ensures !s.connected && s.accountInfo == None && s.effects == []
    ensures s.globalCmdIds == globalCmdIds
  {
    State([], map[], globalCmdIds, map[], false, None, [])
  }

  /** `send`: the task goes to the tail of the queue, carrying its bundle. */
  function Send(s: State, t: TaskRef, p: Properties): (r: State)
    ensures r.queue == s.queue + [t]
    ensures PropertiesOf(r, t) == p
    ensures forall u :: u != t ==> PropertiesOf(r, u) == PropertiesOf(s, u)
    ensures r == s.(queue := r.queue, props := r.props)
  {
    s.(queue := s.queue + [t], props := s.props[t := p])
  }

  /** `setOnPushMessageListener`: a null handler unregisters `cmdId`, any other
      handler is installed for it; no other command id is touched. */
  function SetOnPushMessageListener(s: State, cmdId: int, h: PushMessageHandler?): (r: State)
    ensures h == null ==> cmdId !in r.handlers
    ensures h != null ==> cmdId in r.handlers && r.handlers[cmdId] == h
    ensures forall c :: c != cmdId ==> (c in r.handlers <==> c in s.handlers)
    ensures forall c :: c != cmdId && c in s.handlers ==> r.handlers[c] == s.handlers[c]
    ensures r == s.(handlers := r.handlers)
  {
    if h == null then s.(handlers := s.handlers - {cmdId})
    else s.(handlers := s.handlers[cmdId := h])
  }

  /** `filter.onRecv`: a push for a registered command id is handed, once, to
      that handler and reported handled; any other push is dropped. */
  function OnRecv(s: State, cmdId: int, buffer: seq<bv8>): (r: (bool, State))
    ensures r.0 <==> cmdId in s.handlers
    ensures r.0 ==> r.1 == s.(effects := s.effects + [HandlerInvoked(s.handlers[cmdId], PushMessage(cmdId, buffer))])
    ensures !r.0 ==> r.1 == s
  {
    if cmdId in s.handlers then
      (true, s.(effects := s.effects + [HandlerInvoked(s.handlers[cmdId], PushMessage(cmdId, buffer))]))
    else
      (false, s)
  }

  /** `onServiceConnected`: the filter is registered, then the account set; the
      service stays usable only if both calls succeed. A missing account makes
      `accountInfo.uin` throw, which is caught like a failed call. */
  function OnServiceConnected(s: State, registerOk: bool, accountOk: bool): (r: State)
    ensures r.connected <==> registerOk && s.accountInfo.Some? && accountOk
    ensures !registerOk ==> r.effects == s.effects + [RegisterFilter]
    ensures registerOk && s.accountInfo.None? ==> r.effects == s.effects + [RegisterFilter]
    ensures registerOk && s.accountInfo.Some? ==>
      r.effects == s.effects + [RegisterFilter, SetAccount(s.accountInfo.value.uin, s.accountInfo.value.userName)]
    ensures r == s.(connected := r.connected, effects := r.effects)
  {
    var registered := s.(connected := true, effects := s.effects + [RegisterFilter]);
    if !registerOk then registered.(connected := false)
    else match s.accountInfo
      case None => registered.(connected := false)
      case Some(a) =>
        registered.(connected := accountOk,
                    effects := registered.effects + [SetAccount(a.uin, a.userName)])
  }

  /** `onServiceDisconnected`: always ends without a service. With a service,
      the filter is unregistered (a failure is swallowed); without one, the
      call throws before changing anything. */
  function OnServiceDisconnected(s: State): (r: (Completion, State))
    ensures !r.1.connected
    ensures r.0 == NullPointer <==> !s.connected
    ensures s.connected ==> r.1.effects == s.effects + [UnregisterFilter]
    ensures !s.connected ==> r.1 == s
    ensures r.1 == s.(connected := false, effects := r.1.effects)
  {
    if s.connected then (Normal, s.(connected := false, effects := s.effects + [UnregisterFilter]))
    else (NullPointer, s)
  }

  /** `setForeground`: forwarded when a service is bound; otherwise only a
      start-and-bind request is made and the hint is dropped. */
  function SetForeground(s: State, isForeground: bool): (r: State)
    ensures s.connected ==> r == s.(effects := s.effects + [RemoteSetForeground(if isForeground then 1 else 0)])
    ensures !s.connected ==> r == s.(effects := s.effects + [StartAndBind])
  {
    if s.connected then s.(effects := s.effects + [RemoteSetForeground(if isForeground then 1 else 0)])
    else s.(effects := s.effects + [StartAndBind])
  }

  /** `cancelSpecifiedTaskWrapper`: a queued task is taken out and ended
      locally with the cancelled code; otherwise the remote service is asked to
      cancel the task id stored in its bundle, which throws without a service. */
  function CancelSpecifiedTaskWrapper(s: State, t: TaskRef): (r: (Completion, State))
    ensures t in s.queue ==>
      && r.0 == Normal
      && r.1.queue == RemoveFirst(s.queue, t)
      && r.1.effects == s.effects + [TaskEnd(t, CancelledCode, CancelledCode)]
      && r.1 == s.(queue := r.1.queue, effects := r.1.effects)
    ensures t !in s.queue && s.connected ==>
      r == (Normal, s.(effects := s.effects + [RemoteCancel(StoredTaskId(PropertiesOf(s, t)))]))
    ensures t !in s.queue && !s.connected ==> r == (NullPointer, s)
  {
    if t in s.queue then
      (Normal, s.(queue := RemoveFirst(s.queue, t), effects := s.effects + [TaskEnd(t, CancelledCode, CancelledCode)]))
    else if s.connected then
      (Normal, s.(effects := s.effects + [RemoteCancel(StoredTaskId(PropertiesOf(s, t)))]))
    else
      (NullPointer, s)
  }

  /** The bundle handed to the remote service: OPTIONS_CMD_ID is overwritten
      with the global mapping of the task's path if and only if it has one. */
  function ResolveCmdId(p: Properties, globalCmdIds: map<string, int>): (q: Properties)
    requires p.cgiPath.Some?
    ensures p.cgiPath.value in globalCmdIds ==> q.cmdId == Some(globalCmdIds[p.cgiPath.value])
    ensures p.cgiPath.value !in globalCmdIds ==> q == p
    ensures q == p.(cmdId := q.cmdId)
  {
    var path := p.cgiPath.value;
    if path in globalCmdIds then p.(cmdId := Some(globalCmdIds[path])) else p
  }

  /** One pass of `continueProcessTaskWrappers`, with `out` the result of the
      remote `send` should it be called. Without a service it only requests a
      bind; with one it takes the head (an empty queue blocks: no step) and
      sends it. A task without a path makes the map lookup throw and is lost. */
  function ContinueProcessTaskWrappers(s: State, out: RemoteResult): (r: State)
    ensures !s.connected ==> r == s.(effects := s.effects + [StartAndBind])
    ensures s.connected && s.queue == [] ==> r == s
    ensures s.connected && s.queue != [] ==>
      r == s.(queue := s.queue[1..], props := r.props, effects := r.effects)
    ensures s.connected && s.queue != [] && PropertiesOf(s, s.queue[0]).cgiPath.None? ==>
      r == s.(queue := s.queue[1..])
    ensures s.connected && s.queue != [] && PropertiesOf(s, s.queue[0]).cgiPath.Some? ==>
      var t := s.queue[0];
      var sent := ResolveCmdId(PropertiesOf(s, t), s.globalCmdIds);
      && r.effects == s.effects + [RemoteSend(t, sent)]
      && PropertiesOf(r, t) == (if out.Returned? then sent.(taskId := Some(out.taskId)) else sent)
    ensures forall u :: (s.queue == [] || u != s.queue[0]) ==> PropertiesOf(r, u) == PropertiesOf(s, u)
    ensures forall u :: PropertiesOf(r, u).cgiPath == PropertiesOf(s, u).cgiPath
  {
    if !s.connected then s.(effects := s.effects + [StartAndBind])
    else if s.queue == [] then s
    else
      var t := s.queue[0];
      var p := PropertiesOf(s, t);
      if p.cgiPath.None? then s.(queue := s.queue[1..])
      else
        var sent := ResolveCmdId(p, s.globalCmdIds);
        var stored := if out.Returned? then sent.(taskId := Some(out.taskId)) else sent;
        s.(queue := s.queue[1..], props := s.props[t := stored], effects := s.effects + [RemoteSend(t, sent)])
  }
}
