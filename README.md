# p11-kit core model

A Dafny model of five pieces of p11-kit, with proofs of what each promises. The pieces are:

- **Virtual-table compiler** (`virtual.dfy`, module `Virtual`).  A stack of interceptor layers
  (`p11_virtual`) is compiled into one flat PKCS#11 function table.
  - A slot that every layer only forwards is bound straight to the bottom module's function.
  - Any other slot gets a trampoline that re-enters the top layer.
  - `C_GetFunctionList` always gets a trampoline.
  - `C_GetFunctionStatus` and `C_CancelFunction` hold two fixed stubs, which mark a table as a
    wrapper.
  - Function pointers are tokens (`Fn`).
  - A trampoline is identified by the binding it runs.
  - `Called` and `Resolve` give the meaning of calling a table slot. The generated
    `stack_C_*` forwarder calls the layer below with that layer as `self`. The `base_C_*`
    forwarder calls the module's function.
  - The 66 `binding_C_*` shims are one rule: call the top layer's slot with the top layer as
    `self`.
- **Worker pool** (`tpool.dfy`, module `Tpool`).  A linked FIFO of tasks (head, tail and next
  pointers, kept in an arena of cells), a `running` flag, and per-task destroyer and canceller
  callbacks.
  - Threads are sequential method calls. One `WorkerStep` is one iteration of one worker's loop.
  - Every dispatcher call and callback is recorded in an event log.
- **Asynchronous RPC server** (`rpc_async_server.dfy`, module `RpcAsyncServer`).  The `uint32_t`
  call serial, the request copy, the status mapping, `invoke`, `steal_output` and teardown.
  - The RPC codec `p11_rpc_server_handle` is a parameter: whether the call was handled, and the
    reply bytes it leaves in the buffer.
- **Connection server** (`server.dfy`, module `Server`).  The set-up steps, the accept loop's
  state machine, `cleanup_children`, the signal handlers and the close-on-exec walk.
  - Each wait of the loop is one `Iteration` of a script. It says what `pselect` returned,
    which handlers ran, how many children `waitpid` reports, and what `accept`, the peer-id
    lookup and `fork` produced.
  - The pure step function `Next` is the specification. `Daemon.Iterate` and `Daemon.Serve`
    are proved against it.
- **Wrapper generator** (`gen_wrapper.dfy`, module `GenWrapper`).  What `gen-wrapper.py` does
  after its regular expressions have run:
  - the stable sort of both declaration lists by struct-member position;
  - the two passes that merge argument names and types between the plain and the X functions;
  - `format_type`, `args` and `args2`;
  - the argument-list indent;
  - the `base_C_` and `stack_C_` names;
  - the filter of `function_list` and the table of `initializer_list`.

A sixth file, `wrappers.dfy`, holds only the `Option` type.

Operating-system calls, libffi, memory allocation, and the callbacks' own effects all become
inputs. Examples are `allocOk`, `libffi(k)`, `creatable`, `SetupEnv`, and the `Iteration`
script.

### Behaviour of the code that the model makes explicit

- **Cancelled tasks run both callbacks.** `p11_tpool_free` runs the canceller of each task
  still queued, then `_p11_tpool_task_free`, which runs its destroyer too
  (common/tpool.c:276-281, 79-84). `Tpool.CancelEvents` and `Tpool.FreeAccounting` state this:
  every task's destroyer runs exactly once, and a task is dispatched or cancelled, never both.
- **No destroyer or canceller runs at server teardown.** `p11_rpc_async_call_invoke` pushes
  every call with neither callback (p11-kit/rpc-async-server.c:148). So when
  `ServerFree` frees the pool, the only events added are the dispatches of the in-flight
  workers; each of those runs `async_server_handle_call`, which calls the call's `ready`
  callback (p11-kit/rpc-async-server.c:76).
- **A failed fork leaves the connection open.** When `fork` fails for an accepted connection,
  `continue` skips `close (cfd)` (p11-kit/server.c:267-269, 295). `Server.Classify` states
  `ClosesFd` exactly.
- **SIGTERM makes the server exit with 255.** After a termination signal interrupts the wait,
  `loop` returns -1: `ret` still holds `pselect`'s result (p11-kit/server.c:225-227, 219-220).
  `main` returns that value, which is exit status 255 and not one of the conventional 0, 1 or 2.
  A signal that arrives during set-up gives 0 instead. `Server.SigtermReturnsMinusOne` and
  `Server.EarlySigtermReturnsZero` state both.

## Model

| member | source | states |
|---|---|---|
| Virtual.LookupFallThrough | p11-kit/virtual.c:1049-1081 | a successful lookup yields exactly the bottom module's function for the slot |
| Virtual.LookupPassesThrough | p11-kit/virtual.c:1063-1080 | the lookup succeeds iff every layer but the last holds its stack forwarder and the last holds its base forwarder for that slot; any other slot value makes it fail |
| Virtual.ResolveByChain | p11-kit/gen-wrapper.py:227-262 | calling a slot of a stack runs the first layer that does not forward it, with that layer as self, or the module's function when the layer found holds the base forwarder |
| Virtual.FallThroughPreservesCalls | p11-kit/virtual.c:1057-1061 | binding the module's function directly runs exactly what going through every layer's forwarder runs |
| Virtual.InterceptedEntersLayer | p11-kit/virtual.c:1068-1080 | a slot whose lookup fails is served by the first non-forwarding layer, with that layer as self |
| Virtual.Interceptions | p11-kit/virtual.c:1148-1165 | no more trampolines than slots examined, each a slot trampoline that re-enters this layer at a slot below the bound |
| Virtual.InterceptionsOrdered | p11-kit/virtual.c:1148-1165 | the slot trampolines are bound in strictly increasing slot order, so at most one per slot, and a slot has one exactly when its lookup through the stack fails |
| Virtual.WrapperClosures | p11-kit/virtual.c:1166-1172 | a wrap creates between 1 and MAX_FUNCTIONS (66) closures, the last one for C_GetFunctionList |
| Virtual.CompiledTableAgrees | p11-kit/virtual.c:1136-1185 | calling any slot of the compiled table runs what calling that slot of the top layer through the stack runs; C_GetFunctionList runs its own binding |
| Virtual.BoundSlotByStack | p11-kit/virtual.c:1155-1164 | a slot holds the module's own function iff it passes through every layer, and otherwise the trampoline of that slot |
| Virtual.ForwardingStackPassesThrough | p11-kit/gen-wrapper.py:215-223 | a stack of p11_virtual_stack layers over one p11_virtual_base layer forwards every slot down to the module |
| Virtual.AllPassthroughCollapses | p11-kit/virtual.c:1148-1172 | for an all-passthrough stack every table slot equals the module's slot, and the only closure created is the C_GetFunctionList one |
| Virtual.SingleInterception | p11-kit/virtual.c:1148-1172 | a stack that intercepts exactly one slot compiles to the module's slots everywhere else and two closures; calling that slot enters the intercepting layer |
| Virtual.BaseLayerOverModule | p11-kit/rpc-async-server.c:87 | one p11_virtual_base layer over a module is well formed, compiles to the module's own functions, and its uninit calls nothing |
| Virtual.IsWrapperIn | p11-kit/virtual.c:1223-1241 | only the libffi build can wrap, and in it a table is a wrapper iff both marker slots hold the stubs; in the other build no table is a wrapper (lines 1278-1288) |
| Virtual.VirtualUninit | p11-kit/virtual.c:949-954 | the lower destroyer is called once on the lower module iff it is set |
| Virtual.Wrapper.constructor | p11-kit/virtual.c:1206-1212 | a zero-filled wrapper with virt, destroyer and the Cryptoki version set and no closure used |
| Virtual.Wrapper.BindFfiClosure | p11-kit/virtual.c:1083-1134 | it succeeds iff libffi can prepare the closure; success appends exactly one closure and ffi_used grows by one; failure changes nothing |
| Virtual.Wrapper.BindSlot | p11-kit/virtual.c:1148-1164 | a slot gets the module's own function when the stack falls through, otherwise a new closure; only a closure that cannot be built fails |
| Virtual.Wrapper.InitWrapperFuncs | p11-kit/virtual.c:1136-1185 | it succeeds iff every needed closure can be built; then the table is the compiled table with both stubs and the closures are exactly WrapperClosures; on failure ffi_used names the first closure that could not be built |
| Virtual.Wrapper.BindingGetFunctionList | p11-kit/virtual.c:99-113 | a NULL list pointer gives CKR_ARGUMENTS_BAD and stores nothing; otherwise the bound table is stored and CKR_OK returned |
| Virtual.Wrap | p11-kit/virtual.c:1198-1221 | the result is non-null iff the layer is given, allocation succeeds and every closure can be built; then the table is the compiled table, is_wrapper holds, the version is 2.40 and C_GetFunctionList is set |
| Virtual.Unwrap | p11-kit/virtual.c:1243-1267 | a table that is not a wrapper is left alone with no call; otherwise the whole table becomes 0xFE bytes, is_wrapper no longer holds, and the destroyer, if set, is called on the layer |
| Tpool.Pool.constructor | common/tpool.c:86-94 | a new queue is empty and running, with nothing logged |
| Tpool.Pool.QueuePush | common/tpool.c:96-121 | a stopped queue refuses the task and is unchanged; otherwise the task is appended at the tail; the linked structure stays valid although tail is never reset |
| Tpool.Pool.Push | common/tpool.c:220-238 | succeeds iff the task is allocated and the queue runs; then the queue contents gain the task at the end |
| Tpool.Pool.QueuePop | common/tpool.c:123-141 | a non-empty queue yields its head, even after stop; an empty running queue blocks; an empty stopped one yields NULL |
| Tpool.Pool.RunOne | common/tpool.c:156-161 | the head task is dispatched once and then freed, its destroyer running iff set; an empty queue is left alone |
| Tpool.Pool.WorkerStart | common/tpool.c:150-153 | num_started grows by one |
| Tpool.Pool.WorkerStep | common/tpool.c:155-166 | a worker stops when the queue is stopped, sleeps on an empty queue, and otherwise runs the head task |
| Tpool.Pool.Wait | common/tpool.c:240-256 | returns with every worker started and the queue empty, the queued tasks having run in FIFO order |
| Tpool.Pool.Drain | common/tpool.c:252-255 | the workers empty the queue, running the queued tasks in FIFO order |
| Tpool.Pool.RunInFlight | common/tpool.c:268-274 | workers that passed the running check before the stop each run one more task, in FIFO order |
| Tpool.Pool.CancelQueued | common/tpool.c:276-281 | each task still queued gets its canceller and then its destroyer, in queue order |
| Tpool.Pool.Stop | common/tpool.c:268-281 | the queue is stopped; the in-flight workers run a prefix of the queue in order and every task after it is cancelled in order |
| Tpool.Pool.Free | common/tpool.c:258-294 | the queue is stopped; with waiting every queued task runs; without it a prefix runs through in-flight workers and the rest are cancelled |
| Tpool.RunAllAccounting | common/tpool.c:155-166 | running tasks dispatches each exactly once in order, runs each destroyer exactly once, and runs no canceller |
| Tpool.CancelAllAccounting | common/tpool.c:276-281 | cancelling tasks dispatches none and runs each canceller and each destroyer exactly once |
| Tpool.FreeAccounting | common/tpool.c:258-294 | after free each task was dispatched or cancelled, never both; the dispatched ones come first in queue order; every destroyer ran exactly once |
| Tpool.NoCallbacks | common/tpool.c:79-84 | tasks without callbacks: running them is just dispatching them, and cancelling them calls nothing |
| Tpool.NewPool | common/tpool.c:171-218 | the intended p11_tpool_new: a pool is returned iff both callocs succeed and every thread can be created; it is running, empty and records num_threads; every failure returns NULL |
| Tpool.CreateThreads | common/tpool.c:197-206 | the thread loop succeeds iff every one of the num_threads pthread_create calls succeeds |
| Tpool.NewPoolAsWritten | common/tpool.c:171-218 | as written, the NULL pool pointer is dereferenced at `fail:` exactly when the pool calloc fails; a pool is created iff both callocs and every pthread_create succeed; otherwise NULL is returned |
| Tpool.PushThenFreeWaiting | common/test-tpool.c:69-98 | two tasks pushed to a ten-thread pool and freed with waiting: the pool's calls are exactly the two dispatches, in push order |
| Tpool.PushTwoThenFree | common/test-tpool.c:69-98 | the same pushes and free on any fresh, running, empty ten-thread pool make exactly those two calls |
| RpcAsyncServer.NextSerial | p11-kit/rpc-async-server.c:125 | the serial increments modulo 2^32 |
| RpcAsyncServer.AdvanceAdds | p11-kit/rpc-async-server.c:125 | k calls advance the serial by k modulo 2^32 |
| RpcAsyncServer.SerialsDistinct | p11-kit/rpc-async-server.c:125 | calls from one server get distinct serials until 2^32 have been created |
| RpcAsyncServer.SerialWraps | p11-kit/rpc-async-server.c:89 | starting at 1, serial 0 comes after 2^32 - 1 further calls and serial 1 repeats after 2^32 |
| RpcAsyncServer.Server.constructor | p11-kit/rpc-async-server.c:84-89 | a new server's serial is 1 |
| RpcAsyncServer.Server.WorkerStep | p11-kit/rpc-async-server.c:62-77 | a worker picks up the oldest queued call, leaves the codec's reply in its buffer and reports to its ready callback once; every other queued call's buffer is unchanged |
| RpcAsyncServer.HandleCall | p11-kit/rpc-async-server.c:62-77 | the status is OK iff the codec handled the call, otherwise ERROR, and ready(call, status, data) is called exactly once |
| RpcAsyncServer.ServerNew | p11-kit/rpc-async-server.c:79-96 | a server is returned iff it, its pool and the pool's threads are created; it has serial 1, a base layer over the module with no destroyer, and a running, empty pool of 10 workers |
| RpcAsyncServer.CallNew | p11-kit/rpc-async-server.c:107-132 | a call is returned iff it and its buffer are allocated; it holds exactly the request bytes and the server's current serial, which is then incremented |
| RpcAsyncServer.Call.constructor | p11-kit/rpc-async-server.c:116-129 | the call's fields are the given server, buffer, serial, callback and data |
| RpcAsyncServer.Call.Invoke | p11-kit/rpc-async-server.c:143-149 | the call is queued with neither destroyer nor canceller; the result is the push's |
| RpcAsyncServer.Call.StealOutput | p11-kit/rpc-async-server.c:157-163 | the target buffer ends up holding exactly the call's buffer |
| RpcAsyncServer.Call.Free | p11-kit/rpc-async-server.c:134-141 | data_destroy(data) is called exactly once iff data_destroy is set |
| RpcAsyncServer.ServerFree | p11-kit/rpc-async-server.c:98-105 | the pool is freed without waiting: no destroyer or canceller runs for any call, only the in-flight workers' dispatches are added, and the layer's uninit calls nothing |
| Server.Classify | p11-kit/server.c:234-296 | a peer is refused iff a required uid or gid is set and differs; a child is spawned iff both checks pass and fork succeeds; unreadable credentials close the connection; the descriptor is closed except after accept or fork failure |
| Server.Reap | p11-kit/server.c:95-97 | children_avail drops by one per reaped child and never below zero |
| Server.TimeoutExit | p11-kit/server.c:229-232 | a timed-out wait ends the loop iff no child is live after the reap step |
| Server.TerminateEndsLoop | p11-kit/server.c:216-220 | a pending termination ends the loop after the reap step and before any wait |
| Server.InterruptedWaitRestarts | p11-kit/server.c:225-227 | an interrupted wait restarts the loop, recording only which handlers ran |
| Server.ConnectionAccounting | p11-kit/server.c:234-296 | a handled connection raises children_avail by exactly one iff a child was forked, and otherwise leaves it unchanged |
| Server.SigtermReturnsMinusOne | p11-kit/server.c:219-227 | a termination signal during the wait makes the loop return -1 on the next pass |
| Server.EarlySigtermReturnsZero | p11-kit/server.c:212-220 | a termination signal during set-up makes the loop return 0 at its first pass |
| Server.RunStopsAtBreak | p11-kit/server.c:215-297 | once the loop has returned, further passes are never consumed: extending the script of a run that exited leaves its state, its return and its number of passes unchanged |
| Server.MarkCloexec | p11-kit/server.c:280-282 | the descriptors marked are exactly the open ones at or above max_fd |
| Server.ChildDescriptors | p11-kit/server.c:280-282 | with max_fd = STDERR_FILENO + 1 exactly descriptors 0, 1 and 2 stay open across exec |
| Server.Daemon.constructor | p11-kit/server.c:72-74 | the three globals start cleared and ret starts at 1 |
| Server.Daemon.HandleChildren | p11-kit/server.c:108-112 | SIGCHLD sets need_children_cleanup |
| Server.Daemon.HandleTerm | p11-kit/server.c:114-118 | SIGTERM and SIGINT set terminate |
| Server.Daemon.CleanupChildren | p11-kit/server.c:89-106 | children_avail is reaped once per exited child, never below zero, and need_children_cleanup is cleared |
| Server.Daemon.Setup | p11-kit/server.c:160-214 | each set-up failure returns 1; chown happens iff both uid and gid are given; the daemonising parent exits with 0; the loop starts iff every step succeeds in the serving process |
| Server.Daemon.HandleConnection | p11-kit/server.c:234-296 | records the connection's classification and counts a forked child |
| Server.Daemon.Iterate | p11-kit/server.c:215-297 | one pass of the loop body changes the state exactly as the step function Next |
| Server.Daemon.Serve | p11-kit/server.c:215-301 | the accept loop follows Run over the script, and the socket path is removed when it exits |
| Server.Daemon.Loop | p11-kit/server.c:130-302 | loop ends in set-up iff some set-up step fails or this is the daemonising parent; the parent exits with 0 and every failure returns 1; otherwise it returns what the accept loop returns, with the socket removed |
| GenWrapper.IndexOf | p11-kit/gen-wrapper.py:103 | list.index yields the first position of the name, and fails iff the name is absent |
| GenWrapper.SortByKeySorted | p11-kit/gen-wrapper.py:103 | the insertion sort orders functions by member position |
| GenWrapper.SortByKeyStable | p11-kit/gen-wrapper.py:103 | the sort is stable, as list.sort is: the functions of each name keep their relative order |
| GenWrapper.SortByMemberOrder | p11-kit/gen-wrapper.py:117 | the sort raises ValueError iff some function is not a member; otherwise the result is a permutation ordered by member position in which the functions of each name keep their order, which is list.sort's result |
| GenWrapper.ArgsMapHasName | p11-kit/gen-wrapper.py:98-102 | every parsed function's name is a key of the dict |
| GenWrapper.ArgsMapKeyParsed | p11-kit/gen-wrapper.py:98-102 | every key of the dict is the name of a parsed function |
| GenWrapper.ArgsMapLast | p11-kit/gen-wrapper.py:98-102 | a name maps to the arguments of the last parsed function of that name |
| GenWrapper.Parser.constructor | p11-kit/gen-wrapper.py:25-33 | the parser starts with empty lists and dicts |
| GenWrapper.Parser.ParseFunctionLines | p11-kit/gen-wrapper.py:98-103 | the dict maps each name to the arguments of its last declaration, and the list is the declarations stably sorted by member position, or ValueError |
| GenWrapper.Parser.ParseXFunctionLines | p11-kit/gen-wrapper.py:112-117 | the same for the X functions |
| GenWrapper.Parser.Retype | p11-kit/gen-wrapper.py:124-129 | plain argument i keeps its name and takes the type of X argument i + 1; IndexError iff the X function has more than one argument beyond the plain one's |
| GenWrapper.Parser.Rename | p11-kit/gen-wrapper.py:130-137 | X argument 0 is named self; X argument i + 1 takes plain argument i's name and keeps its type; IndexError iff there is no argument 0 or too few for the plain arguments |
| GenWrapper.Parser.Merge | p11-kit/gen-wrapper.py:124-137 | both passes over every function, in order; it fails with IndexError iff some function fails its pass |
| GenWrapper.Parser.Parse | p11-kit/gen-wrapper.py:119-137 | both lists are stably sorted and then merged; ValueError from a sort comes first, IndexError only from the merge; it succeeds iff every plain function has at least as many arguments as its X counterpart has beyond the first, and every X function has a first (self) argument and at least one argument more than its plain counterpart, where a counterpart that is missing or has no arguments is skipped; then each list carries the other's types or names |
| GenWrapper.MergedSignaturesAgree | p11-kit/gen-wrapper.py:124-137 | after the merge an X function whose plain counterpart has one argument fewer is self followed by the plain arguments |
| GenWrapper.FormatType | p11-kit/gen-wrapper.py:147-150 | one space is appended unless the type ends in '*' or ' '; the result always ends in one of them |
| GenWrapper.FormatTypeIdempotent | p11-kit/gen-wrapper.py:147-150 | formatting a formatted type changes nothing |
| GenWrapper.GetArgs | p11-kit/gen-wrapper.py:186-188 | the argument names, in order |
| GenWrapper.Args2DropsFirst | p11-kit/gen-wrapper.py:190-197 | args2 is args with the first argument dropped |
| GenWrapper.WrapperNamesDistinct | p11-kit/gen-wrapper.py:278-279 | wrapper names of one kind are distinct for distinct functions, and base and stack names never clash |
| GenWrapper.IndentShape | p11-kit/gen-wrapper.py:173 | the indent of n columns is n / 8 tabs followed by n % 8 spaces |
| GenWrapper.IndentAligns | p11-kit/gen-wrapper.py:180-184 | continuation lines of an argument list start in the column just after `<wrapper name> (` |
| GenWrapper.Strip | p11-kit/gen-wrapper.py:184 | the result is the input with its white-space margins cut off, and neither starts nor ends with white space |
| GenWrapper.ArgLines | p11-kit/gen-wrapper.py:170-177 | one indented formatted type and name per argument, in order |
| GenWrapper.Kept | p11-kit/gen-wrapper.py:208-210 | a function gets a body iff it is not excluded |
| GenWrapper.KeptAppend | p11-kit/gen-wrapper.py:206-213 | the exclusion filter keeps the functions' order |
| GenWrapper.BodiesOfKept | p11-kit/gen-wrapper.py:205-213 | the bodies are exactly those of the functions not excluded, one each, in order |
| GenWrapper.Initializers | p11-kit/gen-wrapper.py:215-223 | one entry per X function, in order: NULL iff excluded, otherwise its wrapper name |
| GenWrapper.InitializersMatchBodies | p11-kit/gen-wrapper.py:205-223 | every non-NULL table entry names a forwarder the same file defines |

## Findings

| source | as written | input that shows it | evidently intended | confidence | as-written member | corrected member |
|---|---|---|---|---|---|---|
| common/tpool.c:178-182, 213-214 | when `calloc` of the pool fails, `goto fail` runs `free (tpool->threads)` with `tpool == NULL` | the first `calloc` in p11_tpool_new returns NULL | free the thread array only when the pool exists, and return NULL | not executed | Tpool.NewPoolAsWritten | Tpool.NewPool |

## Left out

- Threads, mutexes and condition variables of the worker pool. A worker's loop iteration is
  one atomic method call. The window in which `_p11_tpool_wait` returns while the last task
  still runs is closed by that atomicity. The `inFlight` parameter of `Free` stands for the
  workers that had passed the unlocked `running` check before the stop.
- `p11_tpool_new` when `pthread_create` fails part-way. The pool is freed while the threads
  already created still run on it. The model just returns null and says nothing about those
  threads.
- Tpool.Pool.Wait: requires at least one thread or an empty queue. With no thread and queued
  tasks the source waits forever.
- RpcAsyncServer.ServerFree: the in-flight workers' calls appear as dispatches only.
  `async_server_handle_call` is not replayed for them.
- The codec `p11_rpc_server_handle` and the internals and allocation failures of `p11_buffer`
  (reset and add). The codec's outcome is a parameter.
- A server whose pool could not be created is leaked by `p11_rpc_async_server_new`, and
  `p11_rpc_async_server_free` frees the pool and uninitialises the layer but never frees the
  server itself (p11-kit/rpc-async-server.c:98-105). Memory is not modelled, so neither leak is
  visible.
- ServerNew: builds its pool with the corrected `Tpool.NewPool`. With `p11_tpool_new` as
  written, a failed calloc of the pool crashes instead of returning NULL (see Findings).
- The closure for `C_GetFunctionList` is the token `GetListBinding`, which does not record its
  wrapper. Its behaviour is the same for every wrapper: it stores that wrapper's bound table
  (`Virtual.Wrapper.BindingGetFunctionList`). So two wrappers' closures for this slot are not
  told apart.
- The `Iteration` script may report a timed-out wait even when no `--timeout` was given, where
  `pselect` with a NULL timeout never returns 0 (p11-kit/server.c:225). The model's loop
  therefore covers more runs than the source can produce.
- Sockets, `pselect`, signal masks, `fork`, `exec`, `dup2`, `fdwalk`, `umask` and `setsid` are
  script inputs. The idle-exit log message, the child's `dup2` and exec failure paths, and the
  messages for children killed by signals are not modelled.
- Server.Reap: `children_avail` is modelled as an unbounded count. The source's `unsigned`
  would wrap only after 2^32 live children.
- `main`'s option parsing and `setuid`/`setgid` calls. Also p11-kit/remote.c, p11-kit/p11-kit.c,
  common/rnd.c and common/unix-peer.c.
- libffi: the cif and type preparation and the argument counting against MAX_ARGS. A
  trampoline is a token. Whether it can be built is the input `libffi(k)`.
- The 66 `binding_C_*` argument-unpacking shims are one rule in `Virtual.Called`.
- `p11_virtual_wrap` and `p11_virtual_unwrap` of the build without libffi. Both are
  `assert_not_reached`.
- `p11_virtual_init` is the record constructor `Virtual.VirtualInit`. Its contract would only
  restate the copy, so it has no row.
- CRYPTOKI_VERSION is taken as 2.40. pkcs11.h is not part of this model.
- `FreeEvents`, `FunctionBody`, `FileText`, `ArgList`, `FunctionList` and `InitializerList` are
  plain definitions of the generated text, without a contract of their own.
- Further plain definitions without a contract of their own; the properties of each are stated
  by the members named in the table:
  - `Virtual.GetFunctionStatusStub` and `Virtual.CancelFunctionStub` (short_C_GetFunctionStatus
    and short_C_CancelFunction, both returning CKR_FUNCTION_NOT_PARALLEL), `Virtual.CanWrap`
    (p11_virtual_can_wrap) and `Virtual.IsWrapper`: see `Virtual.IsWrapperIn`, `Virtual.Wrap`
    and `Virtual.Unwrap`.
  - `Tpool.RunEvents`, `Tpool.CancelEvents`, `Tpool.RunAll` and `Tpool.CancelAll`: see
    `Tpool.RunAllAccounting`, `Tpool.CancelAllAccounting` and `Tpool.FreeAccounting`.
  - `RpcAsyncServer.Call.GetSerial` (p11_rpc_async_call_get_serial) returns the serial fixed by
    `RpcAsyncServer.CallNew`.
  - `Server.SetCloexecOnFd` (set_cloexec_on_fd): see `Server.MarkCloexec` and
    `Server.ChildDescriptors`.
  - `GenWrapper.Args` and `GenWrapper.Args2` (FunctionTemplate.args and args2): see
    `GenWrapper.GetArgs` and `GenWrapper.Args2DropsFirst`.
  - `GenWrapper.WrapperName` (wrapper_function_name): see `GenWrapper.WrapperNamesDistinct`.
  - `GenWrapper.SubEightSpaces` (P11_INDENT_RE.sub) and `GenWrapper.Indent`: see
    `GenWrapper.IndentShape`.
  - `GenWrapper.Bodies` (the bodies function_list writes): see `GenWrapper.BodiesOfKept`.
- In gen-wrapper.py: the regular expressions, header reading, argparse and printing.
- Strip: Python's `str.strip` also strips non-ASCII white space. The model strips the ASCII
  characters for which `str.isspace` holds (space, `\t`, `\n`, `\v`, `\f`, `\r` and
  `\x1c` to `\x1f`).
- The dicts `__args` and `__x_args` share their lists with the `Function` tuples, so the first
  merge pass also changes the lists in `__args`. The model reads an unshared copy. That gives
  the same result, because the first pass changes only types and the second pass reads only
  names and lengths.
