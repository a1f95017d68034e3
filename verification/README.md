# Squaero core and shell: a verified model

This project models the stateful engines of the database manager Squaero (a C core, a C++ shell, a TypeScript
interface) and proves what they keep over whole executions. `dafny verify dfyconfig.toml` checks all of it.

Everything outside the modelled code is an argument: what a socket, libssh2, a driver or an allocator answers is a
parameter of the operation, so each theorem ranges over every answer. Where the property is about calls made to
the outside, the code appends one event per call to a log, and the theorem is about which logs can come about.

| files | what they model |
|---|---|
| `SshForward`, `ForwardThread` | the SSH port forward: one pump of one forward, and the thread that accepts, pumps, compacts and shuts down |
| `RpcBridge`, `OpRegistry` | the queue between the UI thread and the worker, the out-of-band cancel, and the table behind it |
| `Connections`, `ConnManager`, `SshConfig`, `Heap` | the open connections as a map and as a slot array, every exit of an open, the tunnel configuration |
| `Queries`, `Sessions`, `Paging` | query.run, query.next, query.cursorClose, tx.*, conn.* over any run of calls, and what paging delivers |
| `DriverCalls`, `Replies` | what those calls ask of the driver, in order, and what they answer and leave held |
| `Utf8` | the strict validator and the repairing copier |
| `SessionReplacement` | the UI replacing a dead session across awaits, with the retry timer, disconnect and reconnect interleaved |
| `Redact` | the masking of secrets in a traced request |
| `MenuModel`, `Accelerator`, `WindowState`, `ConnId`, `Titlebar` | the bounded codecs of the shell |
| `Prelude`, `Json`, `Text` | shared types, JSON trees, decimal text as the C library reads and writes it |

How the pieces are tied together: code that changes state is a method (on a class or an array, with the loops of the
original) whose postcondition equates the new state with a function of the old one; the lemmas are about those
functions. `Connections.Sound` says that the resources a log leaves held are exactly those the connections own;
`RpcBridge.Inv`, `SshForward.Linked` and `SessionReplacement.Inv` play the same part elsewhere.

What is achieved, and not only what is never done wrong, is measured against references that know none of the
machinery: a forward without buffers that is alone in its thread (`SshForward.Relayed`, `ForwardThread.Life`), the
driver's share of a list of calls (`DriverCalls.CallsOf`), the queries among the calls dispatched
(`RpcBridge.QueriesOf`), the calls that met a dead session (`SessionReplacement.MetAlong`).

Where the code and its own documentation disagree, the model follows the code:

- `ssh_config.h` promises `DBC_ERR_PARAM` for a DSN that is not a JSON object. The parser refuses only text that is
  not JSON; a number or a list is "no tunnel wanted" (`SshConfig.DirectIffNoHost`).
- `query.h` says a cursor comes back when a further page exists. The flag of a kept-open page is a guess from a full
  page: `Queries.FullPageIsNotAlwaysFollowed` has the input, `Queries.FlagIsHonestIff` the exact condition.
- A page whose JSON cannot be built leaves the cursor moved on, so the next page skips those rows
  (`Paging.LostReplySkipsRows`, reached by `LostReplyHappens`; `Paging.ConsecutiveIffLossless` says exactly when the
  rows delivered are consecutive).
- The comment in `menu_model.c` calls a trailing "+" the key. After a joiner it is ("Ctrl++"); in "Ctrl+" it joins
  nothing and there is no key (`Accelerator.TrailingPlus`, `Accelerator.NoKeyIffOnlyModifiers`).
- `disconnect` and a forced reconnect remove entries by saved connection after an await, and can drop a session that
  was put in place meanwhile without closing it (`SessionReplacement.DisconnectCanLeak`). Exactly which steps of a run
  lose which session is `GoneStep` and `EverySessionAccounted`. The condition that prevents it, to be checked before a
  session is put on the list, is that no removal of its saved connection is under way: then none is ever lost
  (`NoSessionLost`), and without it one can be (`UnguardedCanLose`). Whoever disconnects loses at most a session opened
  after they began (`OnlyLaterSessionsAreLost`).
- The comment at the listener says that every call that met the same dead session waits on one reconnect. The attempt of
  the retry timer is not one that calls join, so a call can be told that there is no session while one stands in the
  dead one's place (`SessionReplacement.ReplacedYetToldNone`). An attempt that opened tells its calls so exactly when
  the dead session was off the list by then (`ToldOfAnOpened`).
- conn.open tears down a connection it cannot tell the id of, as its comment promises, only when there is no reply at
  all. Whether the id went into the reply is not checked: without it the connection stays open, named by nobody
  (`Sessions.OpenIdsAreTold`).
- The comment in `main.cc` says a cancel touches only the registry and the driver's hook. The dispatcher also reads
  the transaction flag of the connection table on that path; what holds is that only the worker writes the table
  (`RpcBridge.UiLeavesTheTable`).
- A rollback on a driver without transactions clears the flag though no engine was called; the transaction log event
  therefore stands for the call of `dbcore_tx_*`, not for one that reached an engine.
- An object with two members of one secret name has only the first masked; the request is then withheld as a whole
  (`Redact.SweptHidesIffReachable` is the exact condition).

## Model

| member | source | states |
|---|---|---|
| SshForward.MovedRested | core/src/conn/ssh_tunnel.c:370-463 | one pump, under any short, blocked, ended or failed call, keeps every byte accounted for: received = delivered ++ pending in both directions, or a prefix after a write or send failure |
| SshForward.PumpRested | core/src/conn/ssh_tunnel.c:456-462 | a forward is dropped by the pump only after both directions ended with both buffers empty and the far end told; any other goes on under the invariant |
| SshForward.MovedRelays | core/src/conn/ssh_tunnel.c:370-454 | the buffers do not show: what one pump moves over the four edges, under any answers, is what a forward without buffers moves |
| SshForward.PumpRelays | core/src/conn/ssh_tunnel.c:370-463 | a pump drops a forward exactly when both directions have ended and all was delivered, and then releases both ends |
| SshForward.ChannelBytesArrive | core/src/conn/ssh_tunnel.c:416-454 | with nothing pending, what a channel read yields is sent to the socket in the same pump if each send takes something |
| SshForward.LocalBytesArrive | core/src/conn/ssh_tunnel.c:372-414 | the same from the socket to the channel |
| SshForward.DropReleases | core/src/conn/ssh_tunnel.c:357-367 | dropping frees the channel, then closes the socket, each once, and forgets both |
| SshForward.LegalIsFaithful | core/src/conn/ssh_tunnel.c:389-449 | in every permitted log the bytes out are a prefix of the bytes in, both ways, and end of file was sent only after the local side ended and every byte received from it was written, or a write failed |
| SshForward.NothingAfter | core/src/conn/ssh_tunnel.c:389-414 | no data follows end of file on a channel (section 5.3 of RFC 4254), and nothing is done to a channel after its release but closing the socket |
| SshForward.ReleasedOnce | core/src/conn/ssh_tunnel.c:357-367 | a channel is freed and a socket closed at most once in a permitted log |
| SshForward.FlagsShow | core/src/conn/ssh_tunnel.c:357-367 | the tally's flags say exactly which calls occur in the log |
| SshForward.WriteDrains | core/src/conn/ssh_tunnel.c:389-405 | the local-to-channel drain empties its buffer in as many calls as bytes when every call takes something |
| SshForward.ZeroWritesSpin | core/src/conn/ssh_tunnel.c:389-405 | a channel write that takes nothing makes no progress, however often it is called |
| ForwardThread.FromLocal | core/src/conn/ssh_tunnel.c:373-388 | recv is made only into an empty buffer before the end, and what it yields becomes the pending bytes |
| ForwardThread.FromChannel | core/src/conn/ssh_tunnel.c:417-431 | the same for a channel read, where 0 bytes is the end only if the channel says so |
| ForwardThread.ToChannel | core/src/conn/ssh_tunnel.c:389-405 | the in-place drain to the channel is the specified one, on this array entry only |
| ForwardThread.ToLocal | core/src/conn/ssh_tunnel.c:432-449 | the in-place drain to the socket is the specified one, on this array entry only |
| ForwardThread.LocalToChannel | core/src/conn/ssh_tunnel.c:372-414 | the in-place first half of the pump is the specified one, on this array entry only |
| ForwardThread.ChannelToLocal | core/src/conn/ssh_tunnel.c:416-454 | the in-place second half of the pump is the specified one, on this array entry only |
| ForwardThread.ForwardPump | core/src/conn/ssh_tunnel.c:370-463 | the in-place pump is the specified one and its result says whether the forward is kept |
| ForwardThread.ForwardDrop | core/src/conn/ssh_tunnel.c:357-367 | the in-place drop is the specified one |
| ForwardThread.PumpEntry | core/src/conn/ssh_tunnel.c:544-551 | one turn of the pass: a kept entry is stepped over, the hole of a closed one is filled by the last, and no forward is missed or met twice |
| ForwardThread.PumpPass | core/src/conn/ssh_tunnel.c:543-551 | one pass pumps each forward live at its start exactly once and leaves exactly those whose pump said keep |
| ForwardThread.AcceptInto | core/src/conn/ssh_tunnel.c:513-541 | a connection is accepted only below MAX_FORWARDS; without a channel its socket is closed at once |
| ForwardThread.DropRest | core/src/conn/ssh_tunnel.c:554-556 | shutdown drops exactly the live forwards, despite the stale copies behind them |
| ForwardThread.TakeTurn | core/src/conn/ssh_tunnel.c:513-551 | one turn of the thread is accept, then one pass |
| ForwardThread.Thread | core/src/conn/ssh_tunnel.c:465-558 | over any schedule the array and its count refine the thread by connection number, every accepted connection's log is accounted for, and one gone before the stop had delivered everything |
| ForwardThread.AcceptSound | core/src/conn/ssh_tunnel.c:513-541 | accepting keeps the invariant, with at most MAX_FORWARDS live |
| ForwardThread.PumpAllSound | core/src/conn/ssh_tunnel.c:543-551 | pumping all keeps the invariant: whoever is gone was released and had delivered all it took in |
| ForwardThread.RunReleasesAll | core/src/conn/ssh_tunnel.c:465-558 | over every schedule, shutdown included, each accepted socket is closed and each opened channel freed exactly once after a faithful life; a forward that was gone when the thread was told to stop had delivered everything either end sent |
| ForwardThread.RunIsLife | core/src/conn/ssh_tunnel.c:465-558 | over every schedule what crosses the edges of a connection is what crosses those of a forward without buffers that is alone, by the answers of its own calls |
| ForwardThread.AcceptedHasALife | core/src/conn/ssh_tunnel.c:513-551 | a connection that comes below MAX_FORWARDS and gets a channel has such a life, from that turn on |
| ForwardThread.RefusedIsClosed | core/src/conn/ssh_tunnel.c:513-541 | one whose channel does not open is closed at once, and nothing else happens to it |
| RpcBridge.ReachableIsSound | app/src/main.cc:155-338 | in every reachable state of every interleaving the queue is conserved, handles are distinct and live, the registry mirrors the running query and no wake-up is lost |
| RpcBridge.CancelHitsTheRunningQuery | app/src/main.cc:320-330 | op.cancel is enabled whatever the worker does, answers under its own ticket, signals exactly the live handle of the query running on that connection, and says canceled exactly when that driver's hook succeeded |
| RpcBridge.RunningIsTracked | core/src/ipc/query_methods.c:133-144 | the registry holds an entry exactly while the worker is inside a query, under the table's own handle, and so never fills up |
| RpcBridge.QueueConserved | app/src/main.cc:250-273 | accepted = completed, then at most one in flight, then the queue; each completed call has one reply under its own ticket, in order |
| RpcBridge.StopFreezesTheQueue | app/src/main.cc:2460-2473 | once stop is set no call is taken; the abandoned ones are exactly the queue |
| RpcBridge.InternalRunsEnd | app/src/main.cc:250-273 | no run of the threads' own steps goes on for ever |
| RpcBridge.NoInternalStepMeansDone | app/src/main.cc:250-273 | where no own step is enabled every accepted call was answered, or the worker was joined: there is no lost wake-up |
| RpcBridge.AtRest | app/src/main.cc:2460-2473 | over every run, once at rest the worker was joined if the window was closed; if not, every call submitted was completed and has its own reply |
| RpcBridge.DispatchedCanBeCanceled | core/src/ipc/query_methods.c:133-144 | from its dispatch on a query on a listed connection is canceled by op.cancel, on that connection's handle |
| RpcBridge.SubmittedAreAccepted | app/src/main.cc:331-338 | over every run the calls accepted are those submitted, in order |
| RpcBridge.OthersAreAnswered | app/src/main.cc:285-330 | every other call is answered at once under its own ticket |
| RpcBridge.BegunWereDispatched | app/src/main.cc:250-273 | the calls completed, or in the worker's hands, are those dispatched, once each and in order |
| RpcBridge.DispatchedRan | app/src/main.cc:218-245 | the queries that ran are exactly those dispatched on connections listed then, each under its connection's handle |
| RpcBridge.TableIsTheHistory | app/src/main.cc:218-245 | the listed connections are those opened by dispatched calls and not closed by later ones |
| RpcBridge.RunsAreTheHistory | app/src/main.cc:218-273 | all of it from the start, at the end of a run and at each of its dispatches |
| RpcBridge.Bridge.RpcHandler | app/src/main.cc:285-338 | the handler's branches are the submit, cancel and bad-call steps |
| RpcBridge.Bridge.CancelOp | core/src/query/op_registry.c:106-133 | the hook is called exactly when the connection has an entry whose driver can cancel; the status is the hook's, or says why it was not called |
| RpcBridge.Bridge.WaitAndPop | app/src/main.cc:252-263 | one evaluation of the wait condition, stop taking precedence over the queue |
| RpcBridge.Bridge.DispatchCall | app/src/main.cc:218-245 | dispatch of one call, up to the registration of a query |
| RpcBridge.Bridge.OpEnd | core/src/ipc/query_methods.c:144 | the query came back and its entry is gone |
| RpcBridge.Bridge.PostReply | app/src/main.cc:265-272 | the reply is posted under the job's own ticket and the worker looks again |
| RpcBridge.Bridge.NotifyOne | app/src/main.cc:333-338 | a notification wakes a sleeping worker and is otherwise lost |
| RpcBridge.Bridge.StopWorker | app/src/main.cc:2464-2473 | the stop flag is set under the lock before the notification |
| RpcBridge.Bridge.Play | app/src/main.cc:250-338 | the actions of both threads, in any interleaving, go through the states of the run, and the invariant holds at its end |
| OpRegistry.Table.FindSlot | core/src/query/op_registry.c:56-64 | the place of the connection's entry, or -1 exactly when it has none |
| OpRegistry.Table.OpBegin | core/src/query/op_registry.c:66-91 | the fixed table refines a map: an entry of the same connection is replaced, and only a full table leaves a query untracked |
| OpRegistry.Table.OpEnd | core/src/query/op_registry.c:93-104 | the connection's entry, and no other, is gone |
| OpRegistry.Table.OpCancel | core/src/query/op_registry.c:106-133 | the hook is reached exactly on the handle of the connection's entry; the status is the hook's, PARAM without an entry, UNSUPPORTED without a hook |
| OpRegistry.FullIffAllInUse | core/src/query/op_registry.c:66-88 | the map has as many entries as the table has slots exactly when every slot is in use |
| OpRegistry.CancelFinds | core/src/query/op_registry.c:66-133 | over any history of begins and ends with a slot for each, a cancel finds the query that began last on the connection and has not ended, and its status says which of the three cases it is |
| SshConfig.Config.Parse | core/src/conn/ssh_config.c:68-188 | success means what the DSN asks for was copied into strings each owned once and the config meets the tunnel's demands; any failed allocation is NOMEM, never "no tunnel"; every failure leaves the heap and a zeroed struct |
| SshConfig.Config.ParseTunnel | core/src/conn/ssh_config.c:104-188 | the same from the point where ssh_host was copied |
| SshConfig.Config.DupField | core/src/conn/ssh_config.c:17-32 | a usable field is copied to a string of its own or reported as out of memory |
| SshConfig.Config.CopyStrings | core/src/conn/ssh_config.c:106-131 | the strings in their order, with the DSN's host as second choice of target unless memory ran out |
| SshConfig.Config.Check | core/src/conn/ssh_config.c:148-174 | success exactly when the credentials the method needs are there; lack of memory outranks the rest |
| SshConfig.Config.DefaultTarget | core/src/conn/ssh_config.c:176-185 | the loopback target, or NOMEM |
| SshConfig.Config.Dispose | core/src/conn/ssh_config.c:190-204 | each owned string is freed once and the struct is zeroed |
| SshConfig.Config.AcceptedAsAsked | core/src/conn/ssh_config.c:68-188 | a config that passed the checks is the one the DSN asks for and satisfies the argument check of ssh_tunnel_open |
| SshConfig.Config.RefusedAsAsked | core/src/conn/ssh_config.c:154-174 | a config the checks refuse is one the DSN asks for wrongly |
| SshConfig.TunnelIff | core/src/conn/ssh_config.c:104-174 | a tunnel is asked for exactly when host, user and a known method with its credentials are named; a host without the rest is invalid |
| SshConfig.DirectIffNoHost | core/src/conn/ssh_config.c:68-104 | there is none exactly when the DSN is JSON without a usable ssh_host |
| SshConfig.ContentAsAsked | core/src/conn/ssh_config.c:53-146 | each string, the method and the policy of the tunnel are what the member of that name says, the target falling back to host and loopback |
| SshConfig.PortsAsAsked | core/src/conn/ssh_config.c:37-122 | ports from 1 to 65535 are taken as numbers or decimal text; else 22, or the database's own for the target |
| Connections.OpenSound | core/src/conn/manager.c:108-198 | an open that succeeds adds one connection under a new id, with no cursor and a clear flag, whose handle and tunnel are new; the others stay as they are and the books exact |
| Connections.FailedOpenHoldsNothing | core/src/conn/manager.c:125-188 | every failed exit of open leaves held exactly what was held before, handle released before tunnel |
| Connections.CloseSound | core/src/conn/manager.c:50-63 | a close releases cursor, handle and tunnel in that order and nothing else |
| Connections.SetCursorSound | core/src/conn/manager.c:251-263 | dropping a cursor frees it once |
| Connections.KeptSound | core/src/ipc/query_methods.c:150-154 | a result kept as the cursor is owned by its connection alone |
| Connections.PassingSound | core/src/query/run.c:59-71 | a result opened and freed within a call leaves held what was held |
| Connections.TxSound | core/src/ipc/tx_methods.c:63-66 | the flag follows the transaction calls in the log |
| ConnManager.Manager.FindSlot | core/src/conn/manager.c:200-211 | a live id is found at its place, any other is not |
| ConnManager.Manager.AcquireSlot | core/src/conn/manager.c:82-106 | growth and reuse leave every live entry unchanged; the slot handed out is free |
| ConnManager.Manager.ReleaseSlot | core/src/conn/manager.c:50-63 | the slot array refines the map's close, other slots untouched |
| ConnManager.Manager.Prepare | core/src/conn/manager.c:122-158 | parse, tunnel and rewrite, with the heap restored on every exit |
| ConnManager.Manager.Rewrite | core/src/conn/manager.c:147-155 | a DSN that cannot be rewritten takes its tunnel down with it |
| ConnManager.Manager.ConnectAndKeep | core/src/conn/manager.c:160-198 | connect and take a slot, with the handle and then the tunnel released on every failure |
| ConnManager.Manager.Register | core/src/conn/manager.c:182-197 | the new slot gets the next id, no cursor and a clear flag |
| ConnManager.Manager.OpenConn | core/src/conn/manager.c:108-198 | every exit under any failure: heap restored, log as the exit says, and a DSN that asks for a tunnel is never connected without one |
| ConnManager.SshTunnelOpen | core/src/conn/ssh_tunnel.c:780-793 | a parsed config never fails the argument check |
| ConnManager.Manager.CloseConn | core/src/conn/manager.c:213-221 | refines the map's close; unknown ids are refused and change nothing |
| ConnManager.Manager.Get | core/src/conn/manager.c:223-233 | the driver and handle of a live id, nothing for any other |
| ConnManager.Manager.SetTx | core/src/conn/manager.c:235-243 | sets the flag of this connection only |
| ConnManager.Manager.InTx | core/src/conn/manager.c:245-249 | reads the flag; false for an unknown id |
| ConnManager.Manager.StoreCursor | core/src/conn/manager.c:251-263 | the cursor replaced is freed unless it is the same one |
| ConnManager.Manager.Take | core/src/conn/manager.c:265-274 | the cursor is handed over and forgotten, not freed |
| ConnManager.Manager.FreeAll | core/src/conn/manager.c:65-78 | afterwards nothing is held: every handle, cursor and tunnel was released |
| Queries.Materialize | core/src/query/materialize.c:27-122 | the page, its flag and where the result stands, for kept-open and whole reads under any fetch or copy failure; the driver result is freed unless it is kept |
| Queries.ReadRows | core/src/query/materialize.c:74-106 | its loop stops where the page says: full, a fetch that fails, the end, or a row that cannot be copied, with the rows copied and the place reached |
| Queries.FullPageIsNotAlwaysFollowed | core/src/query/materialize.c:75-84 | an input on which the kept-open flag promises a page that is empty |
| Queries.FlagIsHonestIff | core/src/query/materialize.c:75-84 | the flag says a row is left exactly when the rows left are not one full page |
| Queries.RunQuerySound | core/src/ipc/query_methods.c:124-165 | a query frees its result or leaves it as the one cursor; a plain query leaves the cursor alone |
| Queries.NextPageSound | core/src/ipc/query_methods.c:197-232 | a page turn frees the cursor or puts it back |
| Queries.QueryRun | core/src/ipc/query_methods.c:116-165 | the method refines the map-level call, replies and codes included |
| Queries.OpenOrRun | core/src/query/run.c:40-80 | execute once, read the first page, keep the result only while the page is full |
| Queries.QueryNext | core/src/ipc/query_methods.c:189-232 | the method refines the map-level page turn |
| Queries.QueryCursorClose | core/src/ipc/query_methods.c:239-273 | the cursor is taken and freed once; the reply says whether there was one |
| Sessions.StartIsGood | core/src/conn/manager.c:37-45 | a fresh manager holds nothing and its books are exact |
| Sessions.ApplyKeepsGood | core/src/ipc/dispatch.c:72-91 | every call, under any answers, keeps what is held equal to what the connections own |
| Sessions.RunsStayGood | core/src/conn/manager.c:182-221 | over any run ids grow, and one in use afterwards was in use before or was never given out |
| Sessions.StaleIdStaysStale | core/src/conn/manager.c:200-211 | a closed id is refused by every later call, which changes nothing |
| Sessions.OpenIdsAreTold | core/src/ipc/conn_methods.c:108-125 | of a connection left open by a run the caller learned the id exactly when its reply was not built without it |
| Sessions.ReleasedAsOftenAsOpened | core/src/conn/manager.c:50-78 | on any log that kept the rules each resource opens at most once and was released as often, save one still held |
| Sessions.CursorGoesFirst | core/src/conn/manager.c:50-55 | between a cursor's opening and its handle's disconnect the cursor was freed |
| Sessions.TunnelGoesLast | core/src/conn/manager.c:50-63 | between a handle's connect and its tunnel's close the handle was disconnected |
| Sessions.FlagIsTheHistory | core/src/ipc/tx_methods.c:55-66 | over any run the flag is set exactly when a successful begin was followed by no successful commit and no rollback |
| Sessions.BeginIsNeverNested | core/src/ipc/tx_methods.c:55-61 | no begin is ever passed on while a transaction is open on that handle |
| Sessions.FreshManagerRuns | core/src/ipc/dispatch.c:28-94 | all of this for every run of calls on a fresh manager |
| Sessions.LostReplyIsHonest | core/src/ipc/dispatch.c:64-82 | a lost-connection reply reports the transaction open before the call, and allows a retry exactly for a read query.run with none open |
| Sessions.TxCall | core/src/ipc/tx_methods.c:25-82 | the method refines the transaction call, flag, log and reply |
| Sessions.ConnOpen | core/src/ipc/conn_methods.c:94-126 | the method refines the opening call: without a reply the connection is closed at once, with a reply that could not take the id it stays open; the heap is restored on every exit |
| Sessions.IpcHandle | core/src/ipc/dispatch.c:28-94 | every request, openings included, goes where its call leads and is answered as specified |
| Sessions.HandleCall | core/src/ipc/dispatch.c:66-82 | the flag is read before the handler is called; the reply is built from that reading |
| Sessions.WholeLife | core/src/conn/manager.c:65-78 | any requests on a fresh manager, then its end: every tunnel, handle and driver result that ever came into being was released exactly once |
| DriverCalls.DriverIsAsked | core/src/ipc/tx_methods.c:55-66 | over any run that does not close a connection its driver is asked, in this order and nothing else, a result for each query that gets one and each transaction call as it was made, but for begins refused; and the flag is told by those calls alone |
| DriverCalls.OpenIff | core/src/ipc/tx_methods.c:18-24 | a transaction is open exactly when a begin that succeeded was followed by no commit that succeeded and no rollback |
| DriverCalls.PagesExecuteOnce | core/src/ipc/query_methods.c:124-232 | the pages of a cursor run, however many are turned, come from one execution |
| Replies.PlainRunReplies | core/src/query/materialize.c:67-95 | a plain run replies the rows from the offset on up to the limit, and whether there are more, or the failure that came in the way |
| Replies.PlainPagesAreTheRows | core/src/query/materialize.c:67-95 | plain runs at the offsets 0, L, 2L and so on, whatever is called between, concatenate to a prefix of the rows and in the end to all |
| Replies.CursorRunReplies | core/src/ipc/query_methods.c:124-165 | a cursor run replies as many rows as the limit, or all, and a cursor exactly when there were that many |
| Replies.FailedRunReplies | core/src/ipc/query_methods.c:124-149 | a run without a result to read replies the driver's error, or that of a query; nothing handed out along with an error stays, and the old cursor goes only for a cursor run |
| Replies.NextPageReplies | core/src/ipc/query_methods.c:197-232 | so does a page turn, from where the cursor stands; a failed one loses the cursor |
| Replies.CursorCloseReplies | core/src/ipc/query_methods.c:239-273 | the reply says whether there was a cursor; its result is freed and page turns are refused |
| Replies.CloseReplies | core/src/conn/manager.c:50-63 | conn.close takes the connection off and releases its cursor, handle and tunnel, and nothing else |
| Replies.OpenReplies | core/src/ipc/conn_methods.c:94-126 | conn.open answers with the id of a connection that is there, or fails and leaves table and held resources as they were |
| Replies.OpenLogsAll | core/src/conn/manager.c:125-188 | every handle and tunnel that came into being during an open is in the log |
| Replies.OpensExactlyWhen | core/src/conn/manager.c:108-198 | with memory enough a connection opens exactly when the DSN asks for one, its tunnel comes up and the driver connects with a handle |
| Replies.CodesTellApart | core/src/ipc/rpc.c:7-19 | each failure the UI acts on has a code of its own |
| Replies.LostIffTheEngineSaysSo | core/src/ipc/dispatch.c:76-82 | a reply says the session died exactly when the driver said so of that call |
| Replies.TxReplies | core/src/ipc/tx_methods.c:44-82 | a transaction call succeeds exactly when it was passed on and the engine agreed; each refusal has its code |
| Paging.PlacesIncrease | core/src/ipc/query_methods.c:197-232 | rows delivered by a chain of turns are distinct places of the result, in order |
| Paging.ConsecutiveIffLossless | core/src/ipc/query_methods.c:223-229 | they are consecutive exactly when no turn that read rows was lost before one that delivered some |
| Paging.TurnsFollowTheResult | core/src/ipc/query_methods.c:124-232 | whatever else is called between, page turns read the one result slice by slice, and the replies carry exactly the delivered slices |
| Paging.TurnsAreInOrder | core/src/ipc/query_methods.c:197-232 | rows delivered come each at most once and in order |
| Paging.LostReplySkipsRows | core/src/ipc/query_methods.c:223-229 | two page turns of which the first reply cannot be built deliver the third row alone, with the cursor at the second of three |
| Paging.LostReplyHappens | core/src/ipc/query_methods.c:223-229 | the calls on a fresh manager that lead there |
| Paging.NoTurnFailed | core/src/ipc/query_methods.c:197-232 | turns none of which failed deliver the rows from where the cursor stood, all of them once it is gone |
| Paging.PagesAreOneExecution | core/src/ipc/query_methods.c:124-232 | a cursor run and the turns after it concatenate to a prefix of one execution's rows, and to all of them once the cursor is gone |
| Paging.FreshManagerPages | core/src/ipc/query_methods.c:124-232 | so it is after any run of calls on a fresh manager |
| Paging.OthersLeaveIt | core/src/ipc/query_methods.c:124-131 | plain queries, transaction calls and other connections neither move the cursor nor give one |
| Utf8.PrefixFree | core/src/ipc/utf8.c:16-56 | no encoding is a prefix of another |
| Utf8.DecodingIsUnique | core/src/ipc/utf8.c:58-74 | a text stands for one sequence of scalar values |
| Utf8.SeqLen | core/src/ipc/utf8.c:16-56 | the byte-range table finds exactly the scalar value encoded at the front, or that there is none (Table 3-7 of section 3.9 of Unicode 15.0; section 4 of RFC 3629) |
| Utf8.IpcUtf8Valid | core/src/ipc/utf8.c:58-74 | accepts exactly the concatenations of encodings of nonzero scalar values, and NULL |
| Utf8.IpcUtf8Repair | core/src/ipc/utf8.c:76-109 | the buffer of 3n+1 bytes holds exactly the repaired text and its terminator |
| Utf8.RepairKeepsValidFront | core/src/ipc/utf8.c:76-109 | repair(a ++ b) = a ++ repair(b) for valid a |
| Utf8.RepairReplacesOneByte | core/src/ipc/utf8.c:91-105 | each undecodable byte, and no more, becomes one U+FFFD |
| Utf8.RepairIsValid | core/src/ipc/utf8.c:76-109 | the result is always well-formed and at most three times as long |
| Utf8.RepairIsIdentityIffValid | core/src/ipc/utf8.c:76-109 | the repair changes nothing exactly on well-formed text |
| Utf8.RepairIsIdempotent | core/src/ipc/utf8.c:76-109 | repairing twice is repairing once |
| Utf8.RepairHasNoNul | core/src/ipc/utf8.c:76-109 | the repaired text holds no NUL, so it is read back whole |
| Utf8.IpcUtf8String | core/src/ipc/utf8.c:111-128 | the JSON string is the text itself or its repair, always well-formed; nothing only when an allocation failed |
| SessionReplacement.ReachableIsSound | frontend/src/App.tsx:2156-2428 | the invariant holds in every reachable interleaving |
| SessionReplacement.OneEntryEach | frontend/src/App.tsx:2220-2261 | the open list never has two entries of one saved connection or one session |
| SessionReplacement.ReplacedOnce | frontend/src/App.tsx:2334-2384 | at most one session is ever installed for one dead connId |
| SessionReplacement.WinnerOrClosed | frontend/src/App.tsx:2345-2380 | an attempt that opens replaces the dead entry in place, or closes the session it opened |
| SessionReplacement.CallsAgree | frontend/src/App.tsx:2389-2408 | calls sharing an attempt get the same answer, and calls told of a new session are told of the installed one |
| SessionReplacement.CallsAreConserved | frontend/src/App.tsx:2389-2408 | over every run, each call that met a dead session under replacement, or listed and allowed to reconnect, was told, or waits for the attempt it joined or started |
| SessionReplacement.EveryCallIsTold | frontend/src/App.tsx:2389-2408 | with no attempt open and nobody able to go on, each of those calls was told exactly once, of how its attempt ended |
| SessionReplacement.NextCallAfter | frontend/src/App.tsx:2404-2406 | after a failed attempt the next call starts another; after a successful one it is told of the same session |
| SessionReplacement.AttemptsAreMade | frontend/src/App.tsx:2334-2428 | the attempts of a run are those the timer and the calls called for, in order |
| SessionReplacement.LossIsShown | frontend/src/App.tsx:2319-2342 | a session found dead is shown reconnecting, or lost for good, and the timer leaves it alone |
| SessionReplacement.FailedIsRetried | frontend/src/App.tsx:2381-2384 | a session whose replacement failed is due for the timer |
| SessionReplacement.ToldOfAnOpened | frontend/src/App.tsx:2343-2406 | calls told of an attempt whose session opened are told of none exactly when the dead session was off the list at that moment, and otherwise of the one that opened |
| SessionReplacement.ReplacedYetToldNone | frontend/src/App.tsx:2385-2428 | a reachable state in which the timer's session is installed and a call on the dead one was told there is none |
| SessionReplacement.GoneStep | frontend/src/App.tsx:2156-2428 | a step makes a session gone, unlisted with its close unasked, exactly when it removes by saved connection an entry holding it; and gone it stays |
| SessionReplacement.DisconnectRemoves | frontend/src/App.tsx:2156-2171 | a disconnect asks for the close of the listed session and owes the removal |
| SessionReplacement.RemovalIsExact | frontend/src/App.tsx:2170-2171 | a removal takes the entries of its saved connection and no others |
| SessionReplacement.ConnectInstalls | frontend/src/App.tsx:2220-2267 | a connect lists a fresh session, replacing a listed one only by force and after asking for its close |
| SessionReplacement.ConnectsEnd | frontend/src/App.tsx:2220-2267 | over every run each connect that is not ignored ends by an open that succeeds or fails, or is the one under way |
| SessionReplacement.EverySessionAccounted | frontend/src/App.tsx:2156-2428 | over every run, each session opened is listed or was asked to close exactly when no removal of the run lost it |
| SessionReplacement.QuietIff | frontend/src/App.tsx:2165-2171 | no removal can lose anything exactly when whatever one under way would take off the list was asked to close |
| SessionReplacement.StaysQuietIffGuarded | frontend/src/App.tsx:2345-2370 | a step keeps it so exactly when it puts no session on the list while a removal of its saved connection is under way |
| SessionReplacement.NoSessionLost | frontend/src/App.tsx:2156-2428 | a run of such steps never loses a session |
| SessionReplacement.UnguardedCanLose | frontend/src/App.tsx:2165-2171 | after the first other step a removal under way loses one |
| SessionReplacement.OnlyLaterSessionsAreLost | frontend/src/App.tsx:2234-2241 | a disconnect or forced reconnect loses at most a session opened after it began |
| SessionReplacement.DisconnectCanLeak | frontend/src/App.tsx:2165-2171 | a reachable state in which a session is gone |
| SessionReplacement.Component.MarkLost | frontend/src/App.tsx:2319-2331 | the marks of this session only |
| SessionReplacement.Component.ReplaceSession | frontend/src/App.tsx:2334-2342 | up to the await: marked reconnecting, or marked lost without a saved connection |
| SessionReplacement.Component.SessionOpened | frontend/src/App.tsx:2343-2380 | after the await: installed, or closed when the dead session is listed no more |
| SessionReplacement.Component.SessionFailed | frontend/src/App.tsx:2381-2384 | after the await: marked lost and due for retry |
| SessionReplacement.Component.OnConnectionLost | frontend/src/App.tsx:2391-2403 | join, ignore, mark or start, in that order |
| SessionReplacement.Component.ListenerResumes | frontend/src/App.tsx:2404-2406 | a failed attempt is forgotten, a successful one stays for late calls |
| SessionReplacement.Component.WaiterResumes | frontend/src/App.tsx:2392-2393 | a joined call gets the attempt's answer |
| SessionReplacement.Component.RetryDue | frontend/src/App.tsx:2420-2428 | the timer starts an attempt that no call shares |
| SessionReplacement.Component.DisconnectStarts | frontend/src/App.tsx:2156-2166 | the close is asked for before the await |
| SessionReplacement.Component.DisconnectEnds | frontend/src/App.tsx:2170-2171 | the removal by saved connection after it |
| SessionReplacement.Component.OnConnect | frontend/src/App.tsx:2220-2240 | one open at a time, a second one only by force |
| SessionReplacement.Component.StaleClosed | frontend/src/App.tsx:2234-2241 | the removal after the stale session's close |
| SessionReplacement.Component.FreshOpened | frontend/src/App.tsx:2242-2267 | the fresh entry is appended, or the open failed |
| SessionReplacement.Component.Play | frontend/src/App.tsx:2156-2428 | the handlers, in any order of the awaits, go through the states of the run, and the invariant holds at its end |
| Redact.ContainsFold | core/src/ipc/redact.c:42-58 | equals the declarative case-folded substring test |
| Redact.IsSecretKey | core/src/ipc/redact.c:60-71 | exactly the keys that contain one of the secret words |
| Redact.SecretInAnyCase | core/src/ipc/redact.c:31-71 | a key with a secret word anywhere in it, in any case, is secret |
| Redact.CaseIsIgnored | core/src/ipc/redact.c:42-58 | case makes no difference to what is secret |
| Redact.RedactTree | core/src/ipc/redact.c:74-90 | only secret-keyed values change, only to the mask; with no failed mask the result is the exact sweep |
| Redact.HasExposedSecret | core/src/ipc/redact.c:95-110 | true exactly when some secret-keyed value is not the mask |
| Redact.NothingExposedIsMasked | core/src/ipc/redact.c:74-110 | a partly masked tree with nothing exposed is the masked tree |
| Redact.MaskedHides | core/src/ipc/redact.c:74-110 | the mask exposes nothing and is idempotent |
| Redact.SweptHidesIffReachable | core/src/ipc/redact.c:74-90 | the sweep hides everything exactly when each secret value is the first of its name or reads as the mask already |
| Redact.DistinctKeysAreReachable | core/src/ipc/redact.c:74-90 | with distinct keys per object that is always so |
| Redact.IpcRedact | core/src/ipc/redact.c:121-138 | what is printed is the masked request, whichever allocation fails and whatever keys repeat; else the marker |
| MenuModel.Parser.ParseItem | app/src/menu_model.c:39-75 | an item or separator is appended exactly when the JSON is one |
| MenuModel.Parser.ParseTop | app/src/menu_model.c:77-102 | a menu is appended with all its items or refused |
| MenuModel.Parser.Parse | app/src/menu_model.c:104-137 | accepted exactly when the model is and no allocation failed; the list is its flattening, or empty |
| MenuModel.SentIsAccepted | app/src/menu_model.c:39-137 | every menu bar that can be sent as JSON is accepted, entry for entry |
| MenuModel.BuildMenuBar | app/src/main.cc:661-684 | the builder's walk with its current submenu is the specified regrouping |
| MenuModel.FlattenRoundTrips | app/src/main.cc:514-520 | the native bar built from a flattened model shows exactly that model, and each command id runs its item's action |
| MenuModel.FlattenIsInjective | app/src/menu_model.c:77-102 | two models with one list are one model |
| MenuModel.NoItemBeforeAMenu | app/src/main.cc:661-684 | the builder's skipped case never arises from a parsed list |
| Accelerator.AccelGtk | app/src/menu_model.c:186-252 | terminates on every string, stays within the buffer, and yields the whole translation or nothing |
| Accelerator.NextPiece | app/src/menu_model.c:198-245 | one piece: a leading "+" is a key, a modifier needs something joined to it |
| Accelerator.Append | app/src/menu_model.c:156-165 | appended exactly when it fits with its terminator |
| Accelerator.SpelledTranslates | app/src/menu_model.c:186-252 | modifiers and a key come out in GTK's spelling, in order, "+" included as a key |
| Accelerator.KeySpellings | app/src/menu_model.c:168-184 | six keys are renamed and a single capital comes out small; no other key changes |
| Accelerator.ModSpellings | app/src/menu_model.c:206-220 | a modifier is spelled in angle brackets, Ctrl in full |
| Accelerator.NoKeyIffOnlyModifiers | app/src/menu_model.c:199-215 | a text has no key exactly when it is modifiers each followed by "+" |
| Accelerator.TrailingPlus | app/src/menu_model.c:200-205 | a modifier and "+" have no key; with one more "+" that one is it |
| WindowState.Parse | app/src/window_state.c:25-51 | the five numbers, their bounds and nothing behind them, or the struct untouched |
| WindowState.Format | app/src/window_state.c:53-69 | the whole line with its terminator, or the empty string when it does not fit |
| WindowState.LineFits | app/src/window_state.c:53-69 | 64 bytes hold the line of every accepted state, INT_MIN coordinates included |
| WindowState.FormatRoundTrips | app/src/window_state.c:11-69 | parse(format(s)) = s for every accepted state |
| WindowState.ParseDecides | app/src/window_state.c:25-51 | the line of any five numbers with anything behind it is accepted exactly when they are a usable state and only white space is behind |
| ConnId.Parse | core/src/ipc/conn_methods.c:21-44 | accepts exactly "c" and digits of value 1..INT_MAX; the overflow test is exact |
| ConnId.FormatRoundTrips | core/src/ipc/conn_methods.c:15-19 | every id is read back as itself |
| ConnId.NamesAreCanonicalIff | core/src/ipc/conn_methods.c:15-44 | a name is the one handed out exactly when it has no leading zero |
| Titlebar.ToDeviceIsNear | app/src/titlebar.c:37-42 | an edge is within half a device pixel of exact, but for the error of the three roundings it takes |
| Titlebar.CornerIsNear | app/src/titlebar.c:59-60 | so is the corner of a rectangle |
| Titlebar.SizesAreNotNegative | app/src/titlebar.c:44-66 | device sizes are not negative, under any monotone rounding of each operation |
| Titlebar.WidthIsNear | app/src/titlebar.c:44-66 | a width is within one pixel of exact, but for the error of the roundings it takes |
| Titlebar.WidthsAddUp | app/src/titlebar.c:44-66 | the device widths of any chain of abutting rectangles sum to the distance of its outer edges in device pixels, whatever the rounding |
| Titlebar.RowIsOneRectangle | app/src/titlebar.c:44-66 | that is the width of the one rectangle as wide as all of them, if the sums of the CSS widths are exact, as over the reals they always are |
| Titlebar.WidthsAreNotNegative | app/src/titlebar.c:44-66 | each of them is not negative, under any monotone rounding |

## Left out

- SshForward.WriteDrains: termination of the local-to-channel drain is relative to the list of answers; the code loops for ever on a channel write that keeps returning 0 (`SshForward.ZeroWritesSpin`).
- ConnManager.Manager.OpenConn: asks for fewer than INT_MAX opens before; the id counter's signed overflow is not modelled.
- Titlebar.ToDeviceIsNear: a device coordinate outside the range of int, for which C defines no conversion, is not cut.
- Titlebar.WidthsAddUp: the same; infinities and NaN are no inputs of the model.
- Sessions.IpcHandle: schema.*, row.* and app.hello are not among its calls (op.cancel is in `RpcBridge`), nor is a request refused before its method is called.
- Redact.RedactTree: the cJSON list is a sequence rebuilt on the way up; node aliasing and the freeing of replaced nodes are not captured.
- ForwardThread.Thread: a forward is a value in the array, sockets and channels are named by the number of their connection; `select` timing, descriptor sets and the volatile stop flag become the schedule.
- Queries.Materialize: columns, cell texts and row counts of statements without a result set; such a statement is a result with no rows.
- libssh2 handshake, authentication, host-key checking, socket setup and thread creation.
- JSON parsing and printing, error message texts, and the parameter checks at the head of each IPC method.
- `stmt_classify`: whether a statement is a read is a parameter.
- `dsn_rewrite.c`, drivers, plugins, `runtime.c`: what they answer is a parameter; the text of a rewritten DSN is not modelled.
- The lazy creation of the registry's lock, and the unsynchronized read of the transaction flag on the cancel path.
- Retry delays, the clock, keep-alive probes, tabs, notices, focus and the transaction prompt of the UI.
- The freeing of a menu's strings, the second and third native builders, and the macOS edit commands.
- `quaero_top_band_hit`, the title bar mode and window command parsers: tables without state.
- Locales other than C for `tolower` and `isspace`.
- Windows, GTK, AppKit and WebView2 code, dialogs, updates, profile migration, the MCP server and site scripts.
