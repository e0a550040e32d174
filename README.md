# A verified model of the `mylib` thread pool and its web server

The Rust repository is a small HTTP server made of two parts.

- The `mylib` crate provides a fixed-size thread pool. `ThreadPool::new(size)` spawns `size` workers. They share one mpsc receiver behind an `Arc<Mutex<_>>`. `execute` sends a `Message::NewJob` down the channel. Each worker loops: it locks the receiver and receives, runs a job, or stops on `Message::Terminate` or on an error. Dropping the pool sends one `Terminate` per worker, then takes and joins every worker's handle.
- The binary's `handle_client` reads up to 512 bytes of a request. It answers `main.html` with `200 OK` when the request begins with `GET / HTTP/1.1\r\n`, and `404.html` with `404 NOT FOUND` otherwise. `main` builds a pool of five and hands it at most five connections.

The model has three modules.

- `Sums` (`sums.dfy`) provides counting over sequences, with its lemmas.
- `Mylib` (`mylib.dfy`) models the pool as an interleaving transition system:
  - `PoolState` holds the workers, the channel's buffer, the progress of `drop` (the `Lifecycle`), and two proof-only logs: the entries sent and the entries taken by workers.
  - `Step` names each thing a thread does atomically: a submission, a worker's lock-and-receive with its outcome, a job returning or panicking, one iteration of drop's send loop, and one iteration of its join loop.
  - `Enabled` says when a step can happen, `Next` gives the state after it, and `Inv` holds in every reachable state.
  - The class `ThreadPool` holds the same state in fields. Each of its methods performs one step in place and proves that its new state is `Next` of the old one. `SendTerminates` and `JoinAll` run drop's two loops straight through.
- `WebServer` (`web_server.dfy`) has three parts:
  - `Respond`, the pure meaning of `handle_client`.
  - `HandleClient`, the same over a 512-byte array filled in place.
  - `Serve`, `main`'s pool and submission loop, ending with the pool going out of scope.

The model's environment, and what stands in for each part:

- **Jobs:** a job is known only by a number (`JobId`).
- **Scheduler:** the worker index carried by each step.
- **Lock poisoning:** the `LockPoisoned` receive outcome. It is enabled for any waiting worker.
- **Channel closing:** `send` fails exactly when every worker thread has exited (`ChannelOpen`), since the `Arc` clone held by `new` is gone once `new` returns. `recv` fails (`Disconnected`) only when the buffer is empty and the one `Sender` is gone. The `Sender` is a field of the pool, dropped only after `drop` has joined every thread, so this outcome is never enabled in a reachable state (`NoDisconnectWhileWaiting`).
- **Join results:** `join` fails exactly when the thread ended by a panicking job (`JoinFails`).
- **Socket and file system:** the socket is a `ReadOutcome` (failed read, or the bytes read). The file system is a map from file name to contents. A missing name stands for a failed `read_to_string`.
- **Accepted connections:** the first results of the listener's endless stream of accepts (`Accept`), at least five of them.

The channel is FIFO and `drop` queues its Terminates behind every job already sent, so no worker takes a Terminate while a job sent before it is still buffered (`JobsTakenBeforeAnyTerminate`).

## Model

| member | source | states |
|---|---|---|
| Mylib.Init | web_server/mylib/src/lib.rs:69-82 | `new(size)` fails exactly when `size == 0`. Otherwise it gives `size` workers numbered `0..size-1`, each holding its handle and not stopped, an empty queue and a pool not yet dropped |
| Mylib.InitSatisfiesInv | web_server/mylib/src/lib.rs:69-82 | a newly built pool satisfies the invariant `Inv` |
| Mylib.ThreadPool.constructor | web_server/mylib/src/lib.rs:69-82 | the constructor's loop spawns workers `0..size-1` in order; the resulting state is `Init(size)` and is valid; requires the `assert!(size > 0)` condition |
| Mylib.ThreadPool.Execute | web_server/mylib/src/lib.rs:84-92 | the send succeeds iff some worker thread is still alive. On success exactly `NewJob(job)` is appended to the queue and the sent log. On failure nothing changes. Workers and the drop progress never change, and the invariant is kept |
| Mylib.ThreadPool.WorkerReceive | web_server/mylib/src/lib.rs:18-42 | one loop head of a worker. A delivered entry is the queue's head: it is removed and logged as taken by `i`, and worker `i` runs that job or stops as Terminated. A poisoned lock or a closed channel stops `i` with the queue untouched. No other worker changes, and the invariant is kept |
| Mylib.ThreadPool.WorkerFinish | web_server/mylib/src/lib.rs:34-37 | a job that returns puts the worker back at its loop head. A panicking job stops the thread. Nothing else changes, and the invariant is kept |
| Mylib.ThreadPool.SendTerminate | web_server/mylib/src/lib.rs:100-104 | one send-loop iteration: it appends `Terminate` iff some thread is alive, the progress advances by one attempt, and workers never change |
| Mylib.ThreadPool.SendTerminates | web_server/mylib/src/lib.rs:100-104 | drop's first loop: exactly one `Terminate` per worker is queued behind everything already queued (none if every thread has exited), and the sent log grows by the same entries. The taken log is unchanged, and the join loop then starts at worker 0 |
| Mylib.ThreadPool.JoinNext | web_server/mylib/src/lib.rs:108-114 | one join-loop iteration: it takes the next worker's handle (if any), reports failure iff that thread panicked, and moves to the next worker. It can happen only once that thread has exited |
| Mylib.ThreadPool.JoinAll | web_server/mylib/src/lib.rs:108-114 | drop's second loop, once every thread has exited: every handle is taken, no phase changes, the queue and both logs are untouched, and the number of failed joins equals the number of held handles whose thread panicked |
| Mylib.AfterSendsStep | web_server/mylib/src/lib.rs:100-104 | each iteration of the send loop, as `SendTerminates` runs it, is enabled and is exactly one `SendTerminate` step of the model |
| Mylib.AfterSendsInv | web_server/mylib/src/lib.rs:100-104 | the send loop started on a valid open pool keeps the invariant after every iteration |
| Mylib.AfterJoinsStep | web_server/mylib/src/lib.rs:108-114 | with every thread exited, each iteration of the join loop, as `JoinAll` runs it, is enabled and is exactly one `JoinNext` step of the model |
| Mylib.AfterJoinsInv | web_server/mylib/src/lib.rs:108-114 | the join loop over exited threads keeps the invariant after every iteration |
| Mylib.SubmitPreservesInv | web_server/mylib/src/lib.rs:84-92 | a submission keeps the invariant |
| Mylib.ReceivePreservesInv | web_server/mylib/src/lib.rs:18-42 | every receive outcome keeps the invariant. A taken entry moves from the queue's head to the tail of the taken log (FIFO, exactly once), and a taken Terminate stops its own worker |
| Mylib.NoDisconnectWhileWaiting | web_server/mylib/src/lib.rs:19-24 | in every state reachable from a pool that `new` returned, no waiting worker can see the channel closed: the error branch of `recv` is dead there, because the sender (line 55) outlives every join |
| Mylib.FinishPreservesInv | web_server/mylib/src/lib.rs:33-37 | a job returning or panicking keeps the invariant |
| Mylib.SendTerminatePreservesInv | web_server/mylib/src/lib.rs:100-104 | a Terminate send keeps the invariant. No job entry follows a Terminate, and a failed attempt means that every thread has exited |
| Mylib.JoinNextPreservesInv | web_server/mylib/src/lib.rs:108-114 | a join keeps the invariant. Handles are taken in index order and only from exited threads |
| Mylib.NextPreservesInv | web_server/mylib/src/lib.rs:14-115 | every enabled step keeps the invariant |
| Mylib.RunPreservesInv | web_server/mylib/src/lib.rs:14-115 | every state reachable by a run of enabled steps satisfies the invariant |
| Mylib.RunKeepsPoolSize | web_server/mylib/src/lib.rs:53-56 | no run adds or removes a worker or renumbers one |
| Mylib.RunKeepsStoppedWorkers | web_server/mylib/src/lib.rs:16-43 | a stopped worker stays stopped for the same reason. The taken log only grows, and the stopped worker takes no later entry |
| Mylib.SentEntryAccountedOnce | web_server/mylib/src/lib.rs:72-73 | exactly once, in order: the `k`th entry sent is the `k`th entry taken, or still buffered at position `k - taken` |
| Mylib.RunningJobWasSubmitted | web_server/mylib/src/lib.rs:33-37 | a worker only runs a job that was sent on the channel |
| Mylib.RunningJobsBounded | web_server/mylib/src/lib.rs:34-36 | admission control: in every state a pool built with `size` workers can reach, at most `size` jobs are in progress at once |
| Mylib.JobsTakenBeforeAnyTerminate | web_server/mylib/src/lib.rs:97-104 | if some worker has taken a Terminate, then every job ever sent has already been taken, and taken earlier |
| Mylib.TerminatesCoverLiveWorkers | web_server/mylib/src/lib.rs:97-104 | once the send loop is over, the buffered Terminates are at least as many as the live workers, so every live worker will get one |
| Mylib.StepDecreasesMeasure | web_server/mylib/src/lib.rs:14-115 | every step other than a submission decreases a natural-number measure of the remaining work |
| Mylib.DropProgress | web_server/mylib/src/lib.rs:97-115 | deadlock freedom of shutdown, provided every running job eventually returns or panics: while drop has started and not finished, some non-submission step is enabled, and it decreases the measure |
| Mylib.DropRunBounded | web_server/mylib/src/lib.rs:97-115 | shutdown terminates under every schedule, provided every running job eventually returns or panics: once drop has started, every run is no longer than the measure of its first state |
| Mylib.DropFinishedAllJoined | web_server/mylib/src/lib.rs:108-114 | when the join loop has finished, every thread has exited and every handle has been taken |
| WebServer.Respond | web_server/src/main.rs:9-35 | a failed read writes nothing. Otherwise, a request whose own bytes begin with `GET / HTTP/1.1\r\n` gets `200 OK` followed by `main.html`, and any other request gets `404 NOT FOUND` followed by `404.html`. The response is written iff that page can be read |
| WebServer.RouteMatchesRequestLine | web_server/src/main.rs:16-21 | the home page is chosen iff the request itself begins with `GET / HTTP/1.1\r\n`, since the buffer's zero padding can never complete that line |
| WebServer.OnlyBufferInspected | web_server/src/main.rs:10-21 | two requests that agree on their first 512 bytes get the same response |
| WebServer.HandleClient | web_server/src/main.rs:9-35 | the 512-byte array, filled in place by the read, yields exactly the response `Respond` specifies |
| WebServer.Serve | web_server/src/main.rs:46-58 | a pool of five. Connection `k` is submitted as job `k` while accepts succeed. `main` returns normally exactly after five submissions, and otherwise exactly at the first failed accept. When the pool goes out of scope, one `Terminate` per worker is queued behind the jobs. The listener's connection stream never ends, so it requires at least five accept results |

## Left out

- Threads, the mutex and the channel are not modelled as such: each atomic action is one `Step`, and the class's methods take the scheduler's choice as a parameter.
- Blocking is modelled only as a step being disabled, for a receive on an empty channel whose sender is alive and for a join on a live thread. `JoinAll` therefore requires every thread to have exited already. General schedules are covered by `DropProgress` and `DropRunBounded`.
- Why a mutex is poisoned is not modelled: `LockPoisoned` may be the outcome for any waiting worker. In Rust a poisoned mutex stays poisoned, so every later `lock` fails too. The model does not record this, and a later receive may still succeed. Every property above holds for this larger set of runs, so it holds for the source's runs as well.
- A panic inside `new`, for instance if `thread::spawn` fails partway through the loop, is not modelled. The workers spawned so far would then see the channel closed and take `recv`'s error branch. `NoDisconnectWhileWaiting` covers only a pool that `new` returned.
- When the receiver is dropped, entries still buffered are left in the model's queue, where no step can take them. They are not discarded.
- Job bodies are not modelled. A job is a number, and a running job may always return (`Finish(i, false)` is always enabled). So `DropProgress` and `DropRunBounded` hold only provided every running job eventually returns or panics. In the source, `join` waits as long as the job runs, and `handle_client`'s `read` has no timeout, so a silent client can keep `drop` from ever finishing.
- The log lines (`println!`, `eprintln!`) are left out.
- `main`'s `RUST_BACKTRACE` setting, the TCP `bind` and its failure, and the ten-second `sleep` in `handle_client` are left out. They do not affect what is sent or run.
- TCP `write_all` and `flush` errors are left out: `handle_client` only logs them.
- `Respond` and `HandleClient` return the response as a `string`. Its UTF-8 encoding by `as_bytes` is not modelled.
- Short reads are not modelled: `read` is taken to deliver the first bytes of the request, at most 512.
- Serve: no worker step is scheduled while `main` runs. The join loop of the final drop, which waits on the workers, is left to the general shutdown lemmas.
