# MarsServiceProxy, modelled in Dafny

This project models the client-side dispatcher of the Mars sample chat app:
`MarsServiceProxy`, an Android IPC client. It queues task wrappers and hands
them to the remote Mars service one by one in submission order. It binds to
the service when there is no connection. It cancels tasks either locally (still
queued) or remotely (already sent). It routes push messages from the service
to handlers registered per command id.

The model has four modules.

- `TaskQueue` (`task_queue.dfy`): the queue's removal by identity. The blocking
  queue's `remove(o)` drops the first instance of `o`. The lemmas prove that
  every other task keeps its relative order.
- `ProxySpec` (`proxy_spec.dfy`): the proxy's state as a value `State`. It holds:
  - the queue;
  - the handler registry;
  - the global cgi-path to command-id map;
  - the task bundles (`OPTIONS_CGI_PATH`, `OPTIONS_CMD_ID`, `OPTIONS_TASK_ID`);
  - the connection flag (`service != null`);
  - the account info;
  - a log of every effect on the outside world. The logged effects are
    start-and-bind requests, remote `register`/`unregister`/`setAccountInfo`/
    `setForeground`/`send`/`cancel` calls, `onTaskEnd` calls and handler
    invocations.

  Each public operation is one transition function on this state. Its
  contract gives the exact outcome of the call.
- `Proxy` (`mars_service_proxy.dfy`): the class `MarsServiceProxy`. Its fields
  are updated in place. Each method is proved to perform the matching
  `ProxySpec` transition on `Model()`.
- `ProxyProperties` (`proxy_properties.dfy`): properties that span several
  calls. These are FIFO delivery, cancel before and after dispatch, push
  demultiplexing and repeated disconnects.

Foreign calls are parameters of the operation that makes them:
- the remote `send` returns a task id or throws (`RemoteResult`);
- `onServiceConnected` gets whether `registerPushMessageFilter` and
  `setAccountInfo` succeeded.

For a non-null task wrapper, the code throws a `NullPointerException` to its caller in two places. The model
returns these as a `Completion` instead of requiring them away:
- `onServiceDisconnected` with no service bound;
- the remote branch of cancel with no service bound.

Some behaviours of the code are worth spelling out, and the model keeps them:
- There is no separate "connecting" state: `service` is either null or not, and so is the model's connection flag.
- A second disconnect callback without a connect in between dereferences the null `service` and throws (`RepeatedDisconnectThrows`).
- For a task without a cgi path, `GLOBAL_CMD_ID_MAP.get(null)` throws inside the worker's inner `try`. The task has already been taken from the queue, so it is lost without being sent (`ContinueProcessTaskWrappers`, `FifoDispatch`).
- A remote cancel reads the stored remote task id with `Bundle.getInt`. When none was stored, that gives 0, so the remote cancel names task 0 (`StoredTaskId`).

## Model

| member | source | states |
|---|---|---|
| `TaskQueue.RemoveFirst` | samples/android/marsSampleChat/wrapper/src/main/java/com/tencent/mars/sample/wrapper/remote/MarsServiceProxy.java:174 | Removing a task takes exactly one instance of it out of the queue (multiset minus one, length down by one) when it is queued, and leaves the queue as it was otherwise |
| `TaskQueue.RemoveFirstSplices` | samples/android/marsSampleChat/wrapper/src/main/java/com/tencent/mars/sample/wrapper/remote/MarsServiceProxy.java:174 | The removed instance is the first one; every other task keeps its place in the relative order |
| `TaskQueue.RemoveFirstOfOffered` | samples/android/marsSampleChat/wrapper/src/main/java/com/tencent/mars/sample/wrapper/remote/MarsServiceProxy.java:110-111 | Offering a task that was not queued and then removing it restores the queue exactly |
| `ProxySpec.Initial` | samples/android/marsSampleChat/wrapper/src/main/java/com/tencent/mars/sample/wrapper/remote/MarsServiceProxy.java:48-63 | A new proxy has an empty queue, no handlers, no bundles, no service, no account and no effects yet |
| `ProxySpec.Send` | samples/android/marsSampleChat/wrapper/src/main/java/com/tencent/mars/sample/wrapper/remote/MarsServiceProxy.java:110-112 | `send` puts the task at the tail and keeps the earlier queue. The task's bundle is the one it carries and all other bundles are unchanged. Handlers, connection, account and effects are untouched |
| `ProxySpec.SetOnPushMessageListener` | samples/android/marsSampleChat/wrapper/src/main/java/com/tencent/mars/sample/wrapper/remote/MarsServiceProxy.java:102-108 | A null handler removes the entry for the command id. A non-null one installs it or replaces the old one. Every other command id keeps its entry or its absence, and nothing else changes |
| `ProxySpec.OnRecv` | samples/android/marsSampleChat/wrapper/src/main/java/com/tencent/mars/sample/wrapper/remote/MarsServiceProxy.java:67-80 | Returns true exactly when a handler is registered for the command id. Then exactly that handler is invoked once with a message carrying (cmdId, buffer). Otherwise nothing happens. The registry never changes and nothing is buffered |
| `ProxySpec.OnServiceConnected` | samples/android/marsSampleChat/wrapper/src/main/java/com/tencent/mars/sample/wrapper/remote/MarsServiceProxy.java:142-153 | The service is left usable if and only if filter registration succeeds, an account is set and `setAccountInfo` succeeds. The account is sent only after a successful registration. Only the connection flag and the log change |
| `ProxySpec.OnServiceDisconnected` | samples/android/marsSampleChat/wrapper/src/main/java/com/tencent/mars/sample/wrapper/remote/MarsServiceProxy.java:160-171 | Always ends without a service. With a service bound, the filter is unregistered and the call returns normally, even if unregistering fails. Without one, it throws and changes nothing |
| `ProxySpec.SetForeground` | samples/android/marsSampleChat/wrapper/src/main/java/com/tencent/mars/sample/wrapper/remote/MarsServiceProxy.java:118-134 | With a service bound, the hint is forwarded as 1 or 0. Without one, only a start-and-bind request is made and the hint is dropped. The queue and every other field are unchanged |
| `ProxySpec.CancelSpecifiedTaskWrapper` | samples/android/marsSampleChat/wrapper/src/main/java/com/tencent/mars/sample/wrapper/remote/MarsServiceProxy.java:173-195 | A queued task is removed (first instance, order kept) and gets exactly one `onTaskEnd(-1, -1)`, with no remote cancel. A task that is not queued leaves the queue alone and calls no `onTaskEnd`. It issues exactly one remote cancel with the stored `OPTIONS_TASK_ID` (0 if absent), whose failure is swallowed. Without a service that branch throws |
| `ProxySpec.ResolveCmdId` | samples/android/marsSampleChat/wrapper/src/main/java/com/tencent/mars/sample/wrapper/remote/MarsServiceProxy.java:219-224 | `OPTIONS_CMD_ID` is overwritten with the global mapping of the task's path if the path is mapped. Otherwise the bundle is unchanged. No other key is touched |
| `ProxySpec.ContinueProcessTaskWrappers` | samples/android/marsSampleChat/wrapper/src/main/java/com/tencent/mars/sample/wrapper/remote/MarsServiceProxy.java:197-237 | Without a service: only a bind request, the queue untouched. With a service and an empty queue: no step (take blocks). Otherwise exactly the head is removed and never re-queued. A head without a path is lost unsent. A head with a path is sent once with its resolved bundle, and on success the returned id is stored in `OPTIONS_TASK_ID`. Other bundles and all paths are unchanged |
| `ProxyProperties.FifoDispatch` | samples/android/marsSampleChat/wrapper/src/main/java/com/tencent/mars/sample/wrapper/remote/MarsServiceProxy.java:211-228 | With a service bound, n worker passes remove the first n queued tasks. They send the ones that carry a path in queue order, each once |
| `ProxyProperties.SendAllAppends` | samples/android/marsSampleChat/wrapper/src/main/java/com/tencent/mars/sample/wrapper/remote/MarsServiceProxy.java:110-112 | Successive `send` calls, whatever their bundles hold, append their tasks to the queue in call order and change nothing but the queue and the bundles |
| `ProxyProperties.SendAllKeepsRoutable` | samples/android/marsSampleChat/wrapper/src/main/java/com/tencent/mars/sample/wrapper/remote/MarsServiceProxy.java:110-112 | `send` calls whose bundles carry a path keep every queued task carrying one |
| `ProxyProperties.SubmissionOrderIsSendOrder` | samples/android/marsSampleChat/wrapper/src/main/java/com/tencent/mars/sample/wrapper/remote/MarsServiceProxy.java:110-112 | When all submissions come before the worker passes, tasks submitted one after another (each with a path) are sent to the remote service exactly in submission order, after what was already queued, and the queue ends empty |
| `ProxyProperties.ApplyKeepsOrder` | samples/android/marsSampleChat/wrapper/src/main/java/com/tencent/mars/sample/wrapper/remote/MarsServiceProxy.java:110-226 | When every queued task and the submitted one carry a path, one `send`, worker pass, connect or disconnect keeps every queued task carrying one, and the sent tasks followed by the queued ones grow only by the task submitted |
| `ProxyProperties.PassKeepsOrder` | samples/android/marsSampleChat/wrapper/src/main/java/com/tencent/mars/sample/wrapper/remote/MarsServiceProxy.java:197-226 | When every queued task carries a path, a worker pass (with or without a service) keeps that so and leaves the sent tasks followed by the queued ones unchanged |
| `ProxyProperties.ConnectKeepsOrder` | samples/android/marsSampleChat/wrapper/src/main/java/com/tencent/mars/sample/wrapper/remote/MarsServiceProxy.java:142-153 | A connect callback, whatever its remote calls return, leaves the queue, the bundles and the tasks sent unchanged |
| `ProxyProperties.InterleavedSubmissionOrder` | samples/android/marsSampleChat/wrapper/src/main/java/com/tencent/mars/sample/wrapper/remote/MarsServiceProxy.java:110-226 | When every initially queued task and every submitted task carries a path, under any interleaving of `send` calls, worker passes, connects and disconnects, the tasks sent so far followed by those still queued are the initially queued tasks followed by the submitted ones in submission order |
| `ProxyProperties.PathlessTaskIsLost` | samples/android/marsSampleChat/wrapper/src/main/java/com/tencent/mars/sample/wrapper/remote/MarsServiceProxy.java:215-226 | The path hypothesis is needed: a task submitted without a path is taken by the next pass and is then neither sent nor queued |
| `ProxyProperties.StepNeverSendsUnqueued` | samples/android/marsSampleChat/wrapper/src/main/java/com/tencent/mars/sample/wrapper/remote/MarsServiceProxy.java:211-226 | Every remote send a worker pass makes is of the task at the head of the queue. A task not in the queue is not sent and does not enter the queue |
| `ProxyProperties.NotQueuedNeverSent` | samples/android/marsSampleChat/wrapper/src/main/java/com/tencent/mars/sample/wrapper/remote/MarsServiceProxy.java:211-226 | No number of worker passes ever sends a task that is not queued |
| `ProxyProperties.CancelBeforeDispatch` | samples/android/marsSampleChat/wrapper/src/main/java/com/tencent/mars/sample/wrapper/remote/MarsServiceProxy.java:173-184 | `send(t)` then `cancel(t)` restores the queue and calls `onTaskEnd(-1, -1)` on `t` exactly once, with no remote cancel. `t` is never sent afterwards |
| `ProxyProperties.CancelAfterDispatch` | samples/android/marsSampleChat/wrapper/src/main/java/com/tencent/mars/sample/wrapper/remote/MarsServiceProxy.java:185-194 | After a worker pass has sent `t` and stored the returned id, `cancel(t)` issues exactly one remote cancel with that id. It calls no local `onTaskEnd` and changes nothing else |
| `ProxyProperties.RegisteredHandlerReceives` | samples/android/marsSampleChat/wrapper/src/main/java/com/tencent/mars/sample/wrapper/remote/MarsServiceProxy.java:67-73 | After registering a handler for a command id, the next push for that id is handled and delivered to it once |
| `ProxyProperties.NoLateDelivery` | samples/android/marsSampleChat/wrapper/src/main/java/com/tencent/mars/sample/wrapper/remote/MarsServiceProxy.java:75-79 | A push with no handler is dropped for good. A handler registered later gets only the later push |
| `ProxyProperties.UnregisteredIgnoresPush` | samples/android/marsSampleChat/wrapper/src/main/java/com/tencent/mars/sample/wrapper/remote/MarsServiceProxy.java:103-104 | After a null handler is set for a command id, its pushes are reported unhandled and change nothing |
| `ProxyProperties.RepeatedDisconnectThrows` | samples/android/marsSampleChat/wrapper/src/main/java/com/tencent/mars/sample/wrapper/remote/MarsServiceProxy.java:160-167 | A second disconnect without a connect in between throws on the null service and leaves the state as the first left it, disconnected |
| `ProxyProperties.DisconnectAfterConnect` | samples/android/marsSampleChat/wrapper/src/main/java/com/tencent/mars/sample/wrapper/remote/MarsServiceProxy.java:142-167 | A disconnect after a connect returns normally and unregisters the filter if and only if the connect left the service usable. After a failed connect it throws on the null service and changes nothing |
| `Proxy.MarsServiceProxy.constructor` | samples/android/marsSampleChat/wrapper/src/main/java/com/tencent/mars/sample/wrapper/remote/MarsServiceProxy.java:83-86 | The new proxy's fields are the initial state |
| `Proxy.MarsServiceProxy.SetAccountInfo` | samples/android/marsSampleChat/wrapper/src/main/java/com/tencent/mars/sample/wrapper/remote/MarsServiceProxy.java:61 | A write to the public `accountInfo` field changes that field and nothing else |
| `Proxy.MarsServiceProxy.SetOnPushMessageListener` | samples/android/marsSampleChat/wrapper/src/main/java/com/tencent/mars/sample/wrapper/remote/MarsServiceProxy.java:102-108 | Updates the handler map in place exactly as `ProxySpec.SetOnPushMessageListener` |
| `Proxy.MarsServiceProxy.Send` | samples/android/marsSampleChat/wrapper/src/main/java/com/tencent/mars/sample/wrapper/remote/MarsServiceProxy.java:110-112 | Offers the task to the queue in place exactly as `ProxySpec.Send` |
| `Proxy.MarsServiceProxy.OnRecv` | samples/android/marsSampleChat/wrapper/src/main/java/com/tencent/mars/sample/wrapper/remote/MarsServiceProxy.java:67-80 | Returns whether the push was handled and logs the invocation exactly as `ProxySpec.OnRecv`, modifying only the log |
| `Proxy.MarsServiceProxy.SetForeground` | samples/android/marsSampleChat/wrapper/src/main/java/com/tencent/mars/sample/wrapper/remote/MarsServiceProxy.java:118-134 | Performs `ProxySpec.SetForeground`, modifying only the log |
| `Proxy.MarsServiceProxy.OnServiceConnected` | samples/android/marsSampleChat/wrapper/src/main/java/com/tencent/mars/sample/wrapper/remote/MarsServiceProxy.java:142-153 | Sets and, on any failure, clears the connection in place, ending as `ProxySpec.OnServiceConnected` |
| `Proxy.MarsServiceProxy.OnServiceDisconnected` | samples/android/marsSampleChat/wrapper/src/main/java/com/tencent/mars/sample/wrapper/remote/MarsServiceProxy.java:160-171 | Performs `ProxySpec.OnServiceDisconnected`, returning how the call ends |
| `Proxy.MarsServiceProxy.CancelSpecifiedTaskWrapper` | samples/android/marsSampleChat/wrapper/src/main/java/com/tencent/mars/sample/wrapper/remote/MarsServiceProxy.java:173-195 | Removes from the queue in place or cancels remotely, exactly as `ProxySpec.CancelSpecifiedTaskWrapper`, touching only the queue and the log |
| `Proxy.MarsServiceProxy.ContinueProcessTaskWrappers` | samples/android/marsSampleChat/wrapper/src/main/java/com/tencent/mars/sample/wrapper/remote/MarsServiceProxy.java:197-237 | Takes the head and rewrites its bundle in place through the two `putInt` calls, ending as `ProxySpec.ContinueProcessTaskWrappers`. Only the queue, the bundles and the log change |

## Left out

- The `Worker` thread is not modelled: its `while (true)` loop, the 50 ms sleep and the blocking of `take()`. One pass is modelled, and a pass on an empty queue is "no step". `ProxyProperties.RunWorker` strings passes together only to state FIFO.
- Concurrency is not modelled: the thread safety of `ConcurrentHashMap` and `LinkedBlockingQueue`, and races between cancel and dispatch. The model is sequential.
- The Android plumbing is left out: `Intent`, `startService`, `bindService`, `ComponentName`, `IBinder` and `asInterface`. A bind request is one logged `StartAndBind` effect, whatever its result. The binder is assumed to yield a service object.
- The static `init`, its package-name default and the static `cancel` forwarder (line 114) are left out. The forwarder only calls `cancelSpecifiedTaskWrapper`.
- `RemoteException` and all remote calls are foreign. Their results are parameters. The results of the remote `cancel`, `setForeground` and `unregisterPushMessageFilter` are swallowed, so they are not parameters at all.
- Exceptions thrown by a handler's `process` or by a task's own `onTaskEnd` are not modelled.
- Logging is left out.
- Task bundles hold only the three keys the proxy reads or writes. The rest of the bundle and the push payload are opaque. A bundle is what the caller handed to `send`. Writes the caller makes to it later, outside the proxy, are not modelled.
- `Proxy.MarsServiceProxy`: the global cgi-path to command-id map is fixed when the proxy is constructed. In the code, `GLOBAL_CMD_ID_MAP` is a public static map that other code may fill at any time. The `ProxySpec` transitions take the map as part of the state and accept any map, but the class does not model later writes to it.
- Null task wrappers are not modelled: a task is a non-null identity. In the code, `send(null)` throws from the queue's `offer` and `cancelSpecifiedTaskWrapper(null)` throws when it reads the wrapper's bundle.
- A task's bundle is known to the model only once the task has been passed to `send`. Cancelling a task the proxy never saw reads the empty bundle `NoProperties`, so its remote cancel names id 0. The code reads the wrapper's own bundle, which may hold an id the model does not know.
