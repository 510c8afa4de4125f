/** The proxy itself: its fields are updated in place by each operation, and
    each method is proved to perform the matching ProxySpec transition on the
    value `Model()` of those fields. */
module Proxy {
  import opened TaskQueue
  import opened ProxySpec

  class MarsServiceProxy {
    /** The dispatch queue, head first. */
    var queue: seq<TaskRef>
    /** `pushMessageHandlerHashMap`: command id to push handler. */
    var pushMessageHandlers: map<int, PushMessageHandler>
    /** `GLOBAL_CMD_ID_MAP`: cgi path to command id, only read here. */
    const globalCmdIds: map<string, int>
    /** The bundles of the tasks the proxy has seen. */
    var properties: map<TaskRef, Properties>
    /** `service != null`. */
    var connected: bool
    /** `accountInfo`, a public field its callers assign. */
    var accountInfo: Option<AccountInfo>
    /** Every effect on the outside world so far. */
    ghost var effects: seq<Effect>

    ghost function Model(): State
      reads this
    {
      State(queue, pushMessageHandlers, globalCmdIds, properties, connected, accountInfo, effects)
    }

    /** The private constructor: nothing queued, no handler, no service. */
    constructor (globalCmdIds: map<string, int>)
      ensures Model() == Initial(globalCmdIds)
    {
      queue := [];
      pushMessageHandlers := map[];
      this.globalCmdIds := globalCmdIds;
      properties := map[];
      connected := false;
      accountInfo := None;
      effects := [];
    }

    /** A caller's write to the public `accountInfo` field. */
    method SetAccountInfo(info: Option<AccountInfo>)
      modifies this
      ensures accountInfo == info
      ensures Model() == old(Model()).(accountInfo := info)
    {
      accountInfo := info;
    }

    method SetOnPushMessageListener(cmdId: int, handler: PushMessageHandler?)
      modifies this
      ensures Model() == ProxySpec.SetOnPushMessageListener(old(Model()), cmdId, handler)
    {
      if handler == null {
        pushMessageHandlers := pushMessageHandlers - {cmdId};
      } else {
        pushMessageHandlers := pushMessageHandlers[cmdId := handler];
      }
    }

    method Send(t: TaskRef, p: Properties)
      modifies this
      ensures Model() == ProxySpec.Send(old(Model()), t, p)
    {
      queue := queue + [t];
      properties := properties[t := p];
    }

    /** `filter.onRecv`, called by the remote service on a push. */
    method OnRecv(cmdId: int, buffer: seq<bv8>) returns (handled: bool)
      modifies this`effects
      ensures (handled, Model()) == ProxySpec.OnRecv(old(Model()), cmdId, buffer)
    {
      if cmdId in pushMessageHandlers {
        var handler := pushMessageHandlers[cmdId];
        effects := effects + [HandlerInvoked(handler, PushMessage(cmdId, buffer))];
        return true;
      }
      return false;
    }

    method SetForeground(isForeground: bool)
      modifies this`effects
      ensures Model() == ProxySpec.SetForeground(old(Model()), isForeground)
    {
      if !connected {
        effects := effects + [StartAndBind];
        return;
      }
      effects := effects + [RemoteSetForeground(if isForeground then 1 else 0)];
    }

    /** `onServiceConnected`, with the outcomes of the two remote calls it
        makes as parameters. */
    method OnServiceConnected(registerOk: bool, accountOk: bool)
      modifies this`connected, this`effects
      ensures Model() == ProxySpec.OnServiceConnected(old(Model()), registerOk, accountOk)
    {
      connected := true;
      effects := effects + [RegisterFilter];
      if !registerOk {
        connected := false;
        return;
      }
      match accountInfo {
        case None =>
          connected := false;
        case Some(a) =>
          effects := effects + [SetAccount(a.uin, a.userName)];
          if !accountOk {
            connected := false;
          }
      }
    }

    method OnServiceDisconnected() returns (completion: Completion)
      modifies this`connected, this`effects
      ensures (completion, Model()) == ProxySpec.OnServiceDisconnected(old(Model()))
    {
      if !connected {
        return NullPointer;
      }
      effects := effects + [UnregisterFilter];
      connected := false;
      return Normal;
    }

    method CancelSpecifiedTaskWrapper(t: TaskRef) returns (completion: Completion)
      modifies this`queue, this`effects
      ensures (completion, Model()) == ProxySpec.CancelSpecifiedTaskWrapper(old(Model()), t)
    {
      if t in queue {
        queue := RemoveFirst(queue, t);
        effects := effects + [TaskEnd(t, CancelledCode, CancelledCode)];
        return Normal;
      }
      if !connected {
        return NullPointer;
      }
      var p := if t in properties then properties[t] else NoProperties;
      effects := effects + [RemoteCancel(StoredTaskId(p))];
      return Normal;
    }

    /** One pass of the worker, `out` being what the remote `send` does if
        it is called. */
    method ContinueProcessTaskWrappers(out: RemoteResult)
      modifies this`queue, this`properties, this`effects
      ensures Model() == ProxySpec.ContinueProcessTaskWrappers(old(Model()), out)
    {
      if !connected {
        effects := effects + [StartAndBind];
        return;
      }
      if queue == [] {
        return;
      }
      var t := queue[0];
      queue := queue[1..];
      var p := if t in properties then properties[t] else NoProperties;
      if p.cgiPath.None? {
        return;
      }
      var path := p.cgiPath.value;
      if path in globalCmdIds {
        p := p.(cmdId := Some(globalCmdIds[path]));
      }
      properties := properties[t := p];
      effects := effects + [RemoteSend(t, p)];
      match out {
        case Returned(id) =>
          properties := properties[t := p.(taskId := Some(id))];
        case RemoteFailed =>
      }
    }
  }
}
