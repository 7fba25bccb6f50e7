# Verification of the echo servers, the container start-up and the /proc tools

A Dafny model of three programs and proofs about it.

**evserver** is one service, the TCP based echo service of RFC 862, in four I/O models: level- and
edge-triggered epoll, io_uring, and one thread per connection.  `EchoSpec` is the service for one connection;
`Net` is the kernel's side of TCP (section 2.2 of RFC 9293: one ordered byte stream per connection) with a
descriptor table that recycles numbers.  Every system call is a relation, so what is assumed of the kernel can be
read off the predicates `Net.Reads`, `Net.Writes`, `Net.Accepts`, `EpollModel.Tick`, `EpollModel.Waits`,
`EpollModel.Adds`, `UringModel.Recvs`, `UringModel.Sends`, `UringModel.AcceptsNow` and `UringModel.SignalsNow`.
`EpollModel`/`EpollMachine`/`EpollRuns`/`EpollProgress`/`EpollCalls`/`EpollServer`,
`UringModel`/`UringProgress`/`UringSteps`/`UringMachine`/`UringRuns`/`UringFlush`/`UringRest`/`UringCalls`/`UringServer`
and `Threads`/`ThreadRuns`/`ThreadProgress`/`ThreadCounts`/`ThreadServer` are the four back-ends: what the kernel and
each call do, the server's control flow as a state machine, what holds of all its runs, how soon they come to rest,
and the source's classes and loops, whose methods produce such runs.  `Runs` is what it means to run a state machine,
`Workload` counts the work left behind the descriptors.  `History` looks at the runs of a whole server one connection
at a time; `Backends` compares the four; `ClosedLoop` closes the loop with the load generator, over bounded channels.

**minicontainer** starts a process behind a pipe barrier and confines it in a cgroup v2 tree: `Cgroups`, against
the kernel's No Internal Process and Top-down Constraints, and `Barrier`, which runs parent, child and everybody else
over one such tree.  The kernel may refuse any call; where a method is given `lenient`, it then refuses only what its
rules forbid, so that a method which reports a failure without having tried does not meet its contract.

**procmon** parses /proc and prints tables: `Text`, `Numbers`, `Procfs`, `Table`.

How runs are observed.  The servers loop for ever.  A method that models a loop takes a horizon, the number of
further system calls (or rounds) observed, and stops there; its contract holds for every horizon, hence at every
point of every run.  A method of a server is given, as a ghost, the run of the state machine that has led to its
call, and hands back a continuation of it that accounts for every call it has used up; so what is proved of all runs
of the machine is true of the code.  The kernel, the peers, the other threads and other processes are
nondeterministic: before every action they make any moves their relations allow.

Where a server falls short of the echo service, and exactly when.  A connection that a server closes although it has
not failed and its stream has not ended and been echoed is recorded as dropped (`EchoSpec.Conn.dropped`); nothing is
hidden in the peer's errors.  `RunsEcho` of each machine: a run is one of the echo service for a connection if and
only if that connection was not dropped.  The drops are these, each with a run that shows it:
  - with an empty buffer every read answers 0, which all servers take for the end of the stream
    (`EmptyBufferDrops`, `DropsNobodyExactly`, three times);
  - a registration that epoll refuses (`EpollRuns.RefusedRegistrationDrops`, `EpollRuns.RegistrationDecides`,
    `EpollRuns.DropsAreRefusals`);
  - a forced flush of the ring's submission queue that is refused (`UringFlush.ARefusedFlushDrops`,
    `UringRuns.FlushDecides`, `UringRuns.DropsAreRefusals`);
  - the shutdown of the thread server, which closes connections with bytes unread (`ThreadRuns.ShutdownDrops`,
    `ThreadRuns.WorkerRefines`, `ThreadRuns.DropsAreTheShutdown`).

Other exact statements: `EpollRuns.NeverHangsExactly` (an edge-triggered handler has to drain the socket),
`ClosedLoop.DeadlockThreshold`, `Threads.JoinWaitsExactlyForSilentPeers`, `Cgroups.CreateSucceedsExactly`,
`Barrier.NoDeadlockExactlyIfChildCloses`, and `SettledExactly` of each machine: the wait blocks exactly when no step
is left in which nothing fails.  The comment in `write_all` ("small enough to fit the socket buffer") is the
case `size <= up + down + 1` of `DeadlockThreshold`.

`dafny verify dfyconfig.toml` checks the project.

## Model

| member | source | states |
|---|---|---|
| EchoSpec.ServerStepKeepsSound | evserver/src/server_epoll.cpp:173-223 | every step of the echo service, and a drop, keeps: bytes written are a prefix of bytes read, bytes read of bytes sent, the difference is exactly what the server holds; bytes already read or written never change |
| EchoSpec.DropsAreNoEchoSteps | evserver/src/server_epoll.cpp:254-261 | a step of a server is a step of the echo service if and only if it does not drop the connection |
| EchoSpec.EchoRunExactlyIfNotDropped | evserver/src/server_epoll.cpp:173-223 | a run of a connection with a server is a run of the echo service if and only if the server has not dropped the connection in it |
| EchoSpec.EchoRunIsFaithful | evserver/src/server_epoll.cpp:173-223 | over any run of the echo service the output is a prefix of the input at every moment, and a healthy connection the server has closed got everything back, after the peer's end of stream |
| Net.RefinementKeepsSound | evserver/src/server_epoll.cpp:140-223 | if every connection of the kernel makes a step of a server and new ones start empty, all connections stay sound, whatever was opened, closed or recycled |
| Net.PeersKeep | evserver/src/server_epoll.cpp:75-112 | moves of peers and network (bytes arrive, streams end, connections break, new ones queue) keep the descriptor table and every connection sound |
| Net.AcceptKeeps | evserver/src/server_epoll.cpp:145-160 | accept, in order of the backlog and with any descriptor number not in use, is an echo step of the accepted connection and leaves all others alone |
| Net.ReadKeeps | evserver/src/server_epoll.cpp:183-203 | a read is an echo step exactly for a connection to which nothing is owed; the bytes read are then what is owed |
| Net.WriteKeeps | evserver/src/server_epoll.cpp:230-237 | a write of exactly the bytes owed, short or failed, is an echo step; the rest not taken stays owed in order |
| Net.CloseKeeps | evserver/src/server_epoll.cpp:254-261 | closing any connection is a step of a server: of the echo service if the server was finished with it, else a drop, which is recorded; its descriptor number is free again and no other entry changes |
| Net.CloseDrops | evserver/src/server_epoll.cpp:254-261 | a close drops its own connection exactly if the server was not finished with it, and no other |
| Net.TotalGivenUpdate | evserver/src/server_epoll.cpp:190 | the total of bytes ever read over all connections changes by exactly what one read delivered |
| History.ProjectionIsEchoRun | evserver/src/server_epoll.cpp:75-112 | any history of a whole server in which every step moves every connection by at most one step, projected onto one connection, is a run of the echo service if and only if that connection was not dropped |
| EpollModel.TickKeeps | evserver/src/server_epoll.cpp:75-112 | whatever the world does between two system calls, no wake-up is lost, no event of the batch goes stale, and every connection stays sound |
| EpollModel.ReadStepKeeps | evserver/src/server_epoll.cpp:183-203 | the handler's read keeps the whole loop invariant; the bytes read become the ones in hand |
| EpollModel.WriteStepKeeps | evserver/src/server_epoll.cpp:230-249 | each write of the remaining bytes keeps the invariant; a failed one marks the connection broken, which is itself reported |
| EpollModel.EventDoneKeeps | evserver/src/server_epoll.cpp:196-215 | the handler may leave an event when it is level-triggered, or when nothing is left to report, without losing a wake-up |
| EpollModel.CloseStepKeeps | evserver/src/server_epoll.cpp:254-261 | closing the connection of the current event, finished with or not, keeps the invariant: the rest of the batch still names live connections they were reported for |
| EpollModel.AcceptStepKeeps | evserver/src/server_epoll.cpp:145-160 | accepting in the middle of a batch, even under a number closed earlier in the same batch, invalidates no event still to be handled |
| EpollModel.AddStepKeeps | evserver/src/server_epoll.cpp:117-129 | registering a connection that already has bytes queues it, so nothing is lost between accept and registration |
| EpollModel.CloseLooseKeeps | evserver/src/server_epoll.cpp:166 | closing that descriptor restores the invariant with no registration left behind |
| EpollModel.WaitStepKeeps | evserver/src/server_epoll.cpp:81-97 | the batch epoll_wait returns, in both trigger modes, hands over exactly the wake-ups it takes from the ready list; each event names the live connection it is reported for |
| EpollModel.QuietMeansEchoed | evserver/src/server_epoll.cpp:75-223 | whenever epoll_wait would block: no connection waits in the backlog, every open connection has received back exactly what it sent, and so has every healthy closed one that was not dropped |
| EpollModel.EventsAreCurrent | evserver/src/server_epoll.cpp:95-110 | no stale event after descriptor reuse: in any state of any batch, every event still to be handled names the listener, the signal descriptor, or the very connection it was reported for, still open; no two events share a descriptor |
| EpollMachine.StepKeepsMachine | evserver/src/server_epoll.cpp:75-261 | the loop of the source as a state machine over system calls: every step of the server or of the outside world keeps the whole invariant with its counters, and moves every connection by at most one step of a server |
| EpollMachine.RunKeepsMachine | evserver/src/server_epoll.cpp:75-261 | so it holds at every system call of every run, in both trigger modes |
| EpollMachine.RunsEcho | evserver/src/server_epoll.cpp:75-261 | every run, projected onto any connection, is a run of that connection with a server ending in its present state, and a run of the echo service of RFC 862 if and only if the server has not dropped the connection |
| EpollRuns.StepDrops | evserver/src/server_epoll.cpp:164-208 | a connection is dropped exactly by a close while it is neither broken nor at its end of stream with everything echoed, and that happens only after a refused registration or with an empty buffer |
| EpollRuns.DropsAreRefusals | evserver/src/server_epoll.cpp:164-168 | with a buffer of at least one byte, in every run there are no more dropped connections than refused registrations |
| EpollRuns.DropsNobodyExactly | evserver/src/server_epoll.cpp:35 | while no registration is refused no connection is dropped in any run, if and only if the buffer can hold a byte (or no event is ever delivered) |
| EpollRuns.EmptyBufferDrops | evserver/src/server_epoll.cpp:205-209 | the run that shows it: with --buffer=0 a healthy connection is closed with its byte unread, because every read answers 0 |
| EpollRuns.RefusedRegistrationDrops | evserver/src/server_epoll.cpp:164-168 | a run in which a refused registration makes the server close a healthy connection of which nothing was echoed |
| EpollRuns.RegistrationDecides | evserver/src/server_epoll.cpp:162-169 | in any run, when a new connection is to be registered: accepted by the kernel it stays as it is, registered; refused, it is closed, and dropped exactly if it was not finished with |
| EpollRuns.NeverHangsExactly | evserver/src/server_epoll.cpp:196-202 | in all runs everything is echoed whenever epoll_wait would block, if and only if the mode is level-triggered or the handler drains the socket (or no byte is ever read): the drain is necessary and sufficient in edge-triggered mode |
| EpollRuns.LostWakeup | evserver/src/server_epoll.cpp:25-31 | the run that shows it: edge-triggered with one read per event, the server waits for ever with a byte of a healthy open connection unread |
| EpollRuns.QuietStateIsEchoed | evserver/src/server_epoll.cpp:75-112 | in every state of a run that is about to block, every open connection and every healthy closed one that was not dropped has received exactly what it sent |
| EpollRuns.NothingInHand | evserver/src/server_epoll.cpp:75-112 | between batches of any run, and whenever run returns, every open connection, and every closed one that has not failed, has had everything read from it written back, and accepted - closed is the number of open descriptors |
| EpollRuns.UnsettledCanMove | evserver/src/server_epoll.cpp:75-252 | a server that has neither ended nor would block in epoll_wait has a step of its own to make in which nothing need fail: epoll_wait has events, the registration works, a write takes a byte, and only a connection that is broken answers an error |
| EpollRuns.SettledExactly | evserver/src/server_epoll.cpp:75-252 | the loop has ended or would block in epoll_wait if and only if none of its enabled steps is one in which nothing fails |
| EpollRuns.CountersOfRuns | evserver/src/server_epoll.cpp:183-214 | over every run requests counts exactly the reads that delivered bytes and eagain exactly those that found the socket dry |
| EpollRuns.CallsOfRuns | evserver/src/server_epoll.cpp:75-252 | over every run wait_calls, read_calls and write_calls are the numbers of waits, reads and writes made, syscalls their sum, accepted the number of registrations that worked and closed the number of closes of counted connections |
| EpollProgress.GrantedStepsAdvance | evserver/src/server_epoll.cpp:75-261 | every step that the kernel grants uses up some of a measure of the work left (unread bytes, accepts, closes and signals to come, live events of the batch, bytes in hand) |
| EpollProgress.RestIsReached | evserver/src/server_epoll.cpp:75-112 | so while the outside world is quiet, no call is interrupted and no write would block, a run makes at most as many steps as that measure (plus the size of a batch) was, in either trigger mode, provided edge-triggered handlers drain |
| EpollProgress.KindRunsDisturbNobody | evserver/src/server_epoll.cpp:75-261 | over any schedule in which nothing fails no stream, end of stream or failure of a connection changes, no registration is refused, and the loop ends at most because of a signal |
| EpollProgress.ComesToRest | evserver/src/server_epoll.cpp:75-112 | from every state of every run such a schedule leads to a state in which the loop has ended because of a signal or would block in epoll_wait, and to the latter if no signal has arrived |
| EpollServer.EpollServer.constructor | evserver/src/server_epoll.cpp:35 | a new server, with any buffer size and batch size, stands at the beginning of a run; it drains a socket exactly in edge-triggered mode |
| EpollServer.EpollServer.WriteAll | evserver/src/server_epoll.cpp:225-252 | continues the run it is given by exactly the calls it uses up: Done only with all len bytes appended to this connection's output in order and the event left (level) or read on (edge); Failed at the close after a failed write; otherwise the observation has ended; it makes at most len calls, one more for each that answered EAGAIN or EINTR, and one that failed |
| EpollServer.EpollServer.CloseConnection | evserver/src/server_epoll.cpp:254-261 | the run goes on to the next event; the descriptor is gone, the rest of the state is the kernel's close, one close is counted |
| EpollServer.EpollServer.HandleConnection | evserver/src/server_epoll.cpp:173-223 | continues the run by exactly the calls used up, and unless the observation has ended the event has been left; a hang-up or error closes without a call; level-triggered, at most one chunk per event |
| EpollServer.EpollServer.AcceptConnections | evserver/src/server_epoll.cpp:140-171 | continues the run by exactly the calls used up, and unless the observation has ended the listener's event has been left, after EAGAIN or an error |
| EpollServer.EpollServer.Register | evserver/src/server_epoll.cpp:162-169 | afterwards the descriptor is open, registered in the server's mode and counted; or one more registration was refused, the descriptor is closed and nothing counted |
| EpollServer.EpollServer.DrainSignal | evserver/src/server_epoll.cpp:131-138 | continues the run until a read finds no record; the loop flag is cleared exactly if there was one |
| EpollServer.EpollServer.Run | evserver/src/server_epoll.cpp:75-112 | the run it is given goes on for exactly as many system calls as are used up, for every number observed, and state, counters and flag are where the run has led; if the observation is not over the loop has come to its end |
| UringModel.RefsRemove | evserver/src/server_uring.cpp:209-274 | taking one entry out of a queue takes out exactly one reference to its connection (the counting the ownership law rests on) |
| UringModel.RecvKeeps | evserver/src/server_uring.cpp:182-193 | the kernel completing any recv: the bytes are at the front of that connection's buffer and owed from now on, exactly one operation still refers to it, all other operations are undisturbed |
| UringModel.SendKeeps | evserver/src/server_uring.cpp:195-207 | the kernel completing any send, short or failed, of the front of the buffer: what is still owed follows the bytes sent |
| UringModel.AcceptKeeps | evserver/src/server_uring.cpp:157-166 | the kernel completing the accept: the new descriptor is in no table entry and held by nobody else |
| UringModel.SubmitKeeps | evserver/src/server_uring.cpp:144-155 | the kernel may take any prefix of the submission queue; ownership is unaffected |
| UringModel.TakeKeeps | evserver/src/server_uring.cpp:209-216 | when a completion is handled nothing outstanding refers to its connection any more, and its result says exactly what is owed |
| UringModel.InHandIsUnreferenced | evserver/src/server_uring.cpp:255-286 | user code touches a buffer or closes a descriptor only while no queued, running or completed operation refers to its connection |
| UringModel.OnlyOneAccept | evserver/src/server_uring.cpp:224-226 | if ownership holds and an accept completion is the next to be handled, no other entry, queued, in the kernel or completed, is an accept |
| UringModel.QueueKeeps | evserver/src/server_uring.cpp:182-207 | queueing the next operation hands the connection over: exactly one operation refers to it again |
| UringModel.QueueAcceptKeeps | evserver/src/server_uring.cpp:157-166 | re-arming leaves exactly one accept outstanding |
| UringModel.LoseAcceptKeeps | evserver/src/server_uring.cpp:159-163 | when there is no entry for it the accept is lost for good and everything else stays in order |
| UringModel.AdoptKeeps | evserver/src/server_uring.cpp:229-236 | the accepted descriptor, recycled or not, is not in the connection map, so the assignment never overwrites a live entry |
| UringModel.CloseKeeps | evserver/src/server_uring.cpp:276-288 | closing and freeing a connection leaves no operation that refers to it; the map and the kernel's table agree afterwards |
| UringProgress.KernelEntriesAreAmortised | evserver/src/server_uring.cpp:113-155 | in every state with the law of the counters: when forced flushes succeed, 256 times (syscalls - waits - closes) plus what is queued is at most all entries ever queued, and between two completions exactly one accept is outstanding |
| UringProgress.RecvProgresses | evserver/src/server_uring.cpp:125-135 | a recv completing while the server is busy changes nothing the server has in hand, keeps the byte count law, and is a step of the echo service for every connection |
| UringProgress.ProgressIsTransitive | evserver/src/server_uring.cpp:125-135 | any number of completions by the kernel at any moment is still only progress |
| UringSteps.FlushKeeps | evserver/src/server_uring.cpp:144-155 | a forced flush: one more kernel entry is counted, the tally of submissions moves, the connection in hand is untouched; it refuses exactly when the kernel took nothing |
| UringSteps.TakeCallKeeps | evserver/src/server_uring.cpp:209-251 | taking a completion and counting its bytes keeps bytes counted + bytes waiting in completions == bytes ever received |
| UringSteps.ShiftKeeps | evserver/src/server_uring.cpp:256-262 | short send: after the overlapping left shift the bytes still owed are again the front of the buffer, and are exactly what was not sent |
| UringSteps.PendingKeeps | evserver/src/server_uring.cpp:195-207 | with pending set to what is owed, a send of the front of the buffer is a send of exactly the bytes owed |
| UringSteps.StreamOfOperation | evserver/src/server_uring.cpp:242-272 | short-write stream invariant: while a send is outstanding received == sent back ++ buffer[0..pending], while a recv is outstanding received == sent back, for every connection after any number of partial sends |
| UringSteps.CloseCallKeeps | evserver/src/server_uring.cpp:276-288 | close with its two bumps keeps accepted - closed == |connections| and syscalls == waits + closes + flushes |
| UringSteps.QuietMeansEchoed | evserver/src/server_uring.cpp:109-137 | whenever the wait would block, every open connection has received back exactly what it sent, and so has every healthy closed one that was not dropped; with the accept outstanding nobody waits in the backlog |
| UringMachine.StepKeepsMachine | evserver/src/server_uring.cpp:104-288 | the server as a state machine, one step per submission, completion, look or close: every step of the server, the kernel or the outside world keeps ownership, table, streams and counters, and moves every connection by at most one step of a server |
| UringMachine.SendLooked | evserver/src/server_uring.cpp:255-272 | the three cases of a completed send: a short one leaves exactly the unsent bytes at the front and a send of them to submit, a complete one owes nothing and a recv is next, a negative one is a broken connection to close |
| UringMachine.RecvLooked | evserver/src/server_uring.cpp:242-253 | the cases of a completed recv: bytes that fit the buffer and are owed, the end of the stream (or an empty buffer), or an error |
| UringMachine.RunKeepsMachine | evserver/src/server_uring.cpp:104-288 | so all of it holds in every state of every run, for any buffer size |
| UringMachine.RunsEcho | evserver/src/server_uring.cpp:104-288 | every run, projected onto any connection, is a run of that connection with a server, and a run of the echo service of RFC 862 if and only if the server has not dropped the connection |
| UringRuns.StepDrops | evserver/src/server_uring.cpp:184-202 | a connection is dropped exactly by a close while it is neither broken nor finished, and that happens only when there is no entry for its next operation even after a flush, or with an empty buffer |
| UringRuns.DropsAreRefusals | evserver/src/server_uring.cpp:144-207 | with buffers of at least one byte, in every run dropped connections and a lost accept together are at most the refused flushes: no refused flush, no drop |
| UringRuns.DropsNobodyExactly | evserver/src/server_uring.cpp:231 | while no flush is refused no connection is dropped in any run, if and only if the buffers can hold a byte |
| UringRuns.EmptyBufferDrops | evserver/src/server_uring.cpp:248-252 | the run that shows it: with --buffer=0 a healthy connection is closed with its byte unread |
| UringRuns.FlushDecides | evserver/src/server_uring.cpp:144-155 | with a full queue the forced flush decides: the operation can be queued if and only if the kernel has taken an entry, and can only be given up if and only if it has taken none |
| UringRuns.RefusedFlushDrops | evserver/src/server_uring.cpp:184-202 | from any such state of any run a refused flush closes the connection, which is dropped exactly if it was not finished with |
| UringFlush.CorneredIsReachable | evserver/src/server_uring.cpp:142-155 | such a state is reachable with nothing refused before: 257 clients, 256 answers queued, one more owed |
| UringFlush.ARefusedFlushDrops | evserver/src/server_uring.cpp:195-202 | so there is a run with one refused flush in which a healthy connection is closed, its byte received and nothing sent back |
| UringRuns.UnsettledCanMove | evserver/src/server_uring.cpp:109-288 | unless the loop has ended or the wait would block, the server has a step to make, or the kernel can complete an operation, in which nothing need fail: the wait succeeds and submits or finds something, a flush frees an entry, and only a connection that is broken answers an error |
| UringRuns.SettledExactly | evserver/src/server_uring.cpp:109-288 | while the loop has not ended, the wait would block if and only if neither server nor kernel has an enabled step in which nothing fails |
| UringRuns.KernelEntriesOfRuns | evserver/src/server_uring.cpp:113-155 | in every run: syscalls are the waits, the closes and the forced flushes; if every forced flush has emptied the queue, 256 times the flushes plus what is queued is at most all entries ever queued, and between two completions exactly one accept is outstanding |
| UringRuns.CallsOfRuns | evserver/src/server_uring.cpp:104-288 | over every run wait_calls is the number of waits, read_calls and write_calls of recvs and sends queued, accepted of connections adopted, closed of closes, requests of recv completions with bytes, and syscalls that of waits, closes and forced flushes |
| UringRest.GrantedStepsAdvance | evserver/src/server_uring.cpp:109-288 | every step of the server and every completion that the kernel grants uses up some of a measure of the work left (unread and unsent bytes, accepts and closes to come, and each entry by its place and kind) |
| UringRest.RestIsReached | evserver/src/server_uring.cpp:109-137 | so while the outside world is quiet and no flush is refused, server and kernel together make at most as many steps as that measure was, in whatever order operations complete |
| UringRest.KindRunsDisturbNobody | evserver/src/server_uring.cpp:109-288 | over any schedule in which nothing fails no stream, end of stream or failure of a connection changes, no flush is refused, and the loop ends at most because of a signal |
| UringRest.ComesToRest | evserver/src/server_uring.cpp:109-137 | from every state of every run such a schedule leads to a state in which the loop has ended because of a signal or the wait would block, and to the latter if no signal has arrived, given enough objects for the connections still to come |
| UringRuns.QuietRunIsEchoed | evserver/src/server_uring.cpp:109-137 | whenever the wait of a run would block, every open connection and every healthy closed one that was not dropped has received exactly what it sent |
| UringServer.Complete | evserver/src/server_uring.cpp:125-135 | the kernel may complete any one operation with any allowed result, writing the real buffer of a recv; the run goes on by that step and the heap agrees with it |
| UringServer.UringServer.constructor | evserver/src/server_uring.cpp:69 | a new server, with any buffer size, stands at the beginning of a run with the first accept to be submitted |
| UringServer.UringServer.Start | evserver/src/server_uring.cpp:104-106 | submits the first accept and the signal poll; the run has reached the wait |
| UringServer.UringServer.NextSqe | evserver/src/server_uring.cpp:144-155 | success means a free entry; failure means a full queue after a flush that was refused, and exactly one more refusal; the server is where it was and only syscalls was counted |
| UringServer.UringServer.SubmitAccept | evserver/src/server_uring.cpp:157-166 | the accept is the last entry of the queue, or, after one more refused flush, lost for good; the run goes on to what follows |
| UringServer.UringServer.SubmitRecv | evserver/src/server_uring.cpp:182-193 | the last entry of the queue is a recv of this connection into its whole buffer and one read call is counted, or, after one more refused flush, the connection is closed and counted |
| UringServer.UringServer.SubmitSend | evserver/src/server_uring.cpp:195-207 | the last entry of the queue is a send of the first length bytes of this connection's buffer, with pending set to it, and one write call is counted, or, after one more refused flush, the connection is closed and counted |
| UringServer.UringServer.CloseConnection | evserver/src/server_uring.cpp:276-288 | the connection leaves the map and memory, its descriptor is closed, both counters move by one |
| UringServer.UringServer.Adopt | evserver/src/server_uring.cpp:229-237 | the map gains one entry under a key it did not have, on a fresh object with a fresh buffer |
| UringServer.UringServer.Resume | evserver/src/server_uring.cpp:255-272 | the in-place shift and resubmission of a short send, the switch back to reading, or the close, each as the run demands; at most this connection goes |
| UringServer.UringServer.HandleCompletion | evserver/src/server_uring.cpp:209-274 | continues the run by one look at the queue, through everything one completion of any kind causes, back to the next look; running is cleared exactly by the signal; accepted and requests move exactly for an arrived descriptor and a non-empty recv |
| UringServer.UringServer.Run | evserver/src/server_uring.cpp:109-137 | the run it is given goes on for exactly as many waits and looks as are used up, for every number observed, with table, counters and heap where the run has led; if the observation is not over the loop has come to its end |
| UringServer.UringServer.SubmitAndWait | evserver/src/server_uring.cpp:116-118 | one wait and one kernel entry are counted, whatever prefix of the queue was taken and whatever completed; an error other than EINTR ends the loop |
| Threads.CountsMove | evserver/src/server_threads.cpp:119-149 | each action of a worker moves a unit between one counter and what that worker still has to count |
| Threads.WorkerMoves | evserver/src/server_threads.cpp:112-150 | every action of serve, at every interleaving point and for any buffer size, keeps which bytes of the connection are where |
| Threads.StepKeepsInv | evserver/src/server_threads.cpp:37-150 | every step of any thread, of the main thread and of the outside world keeps the invariant of the whole process |
| Threads.RunKeepsInv | evserver/src/server_threads.cpp:37-150 | so it holds in every state of every interleaving of any number of workers |
| Threads.CountersAreConserved | evserver/src/server_threads.cpp:72-150 | in every interleaving accepted - closed is the number of workers that have not counted their exit (plus one being spawned), syscalls plus the threads caught between two bumps is waits + reads + writes, and bytes and requests, with what is read and not yet counted, are all bytes and all chunks ever read |
| Threads.SnapshotIsConsistent | evserver/include/ev/stats.hpp:48-62 | a snapshot taken by the accepting thread has closed <= accepted |
| Threads.AfterTheJoins | evserver/src/server_threads.cpp:37-47 | after the joins closed == accepted, no descriptor is left open, and every connection that was closed without having failed, or whose worker's writes did not fail, has got back exactly what was read from it |
| Threads.ShutdownFinishesChunks | evserver/src/server_threads.cpp:117-149 | at every test of the flag and after every exit, a worker whose connection has not failed, or whose writes have not, has written exactly what it read |
| Threads.JoinWaitsExactlyForSilentPeers | evserver/src/server_threads.cpp:37-47 | during the joins no thread can move by itself if and only if the joined worker is alive and every live worker is blocked in read on a peer that neither sends nor closes: shutdown waits for idle clients |
| Threads.WaitingReadsFail | evserver/src/server_threads.cpp:119 | such a blocked read comes back only with an error |
| Threads.QuietMeansEchoed | evserver/src/server_threads.cpp:62-150 | when all threads would block every healthy connection that was not dropped has received exactly what it sent |
| ThreadRuns.WorkerRefines | evserver/src/server_threads.cpp:112-150 | every action of a worker is a step of a server for its connection, and a step of the echo service if and only if it does not close a healthy connection with unread bytes or without its end of stream; such a close happens only at the shutdown or with an empty buffer, with nothing owed and no failed write |
| ThreadRuns.StepRefines | evserver/src/server_threads.cpp:37-150 | every step of any thread and of the outside world moves every connection of the process by at most one step of a server, accept, spawn and the other workers' connections included |
| ThreadRuns.RunsEcho | evserver/src/server_threads.cpp:37-150 | every interleaving, projected onto any connection, is a run of that connection with a server, and a run of the echo service of RFC 862 if and only if the connection was not dropped |
| ThreadRuns.DropsAreTheShutdown | evserver/src/server_threads.cpp:39-117 | until the flag is cleared nobody is dropped if buffers can hold a byte; whoever is dropped without an error has got back every byte that was read |
| ThreadRuns.DropsNobodyExactly | evserver/src/server_threads.cpp:115 | while the server runs no connection is dropped in any interleaving, if and only if the buffers can hold a byte |
| ThreadRuns.EmptyBufferDrops | evserver/src/server_threads.cpp:119-127 | the run that shows it: with --buffer=0 a healthy connection is closed with its byte unread |
| ThreadRuns.ShutdownDrops | evserver/src/server_threads.cpp:117-149 | for every buffer size a run in which the shutdown closes a healthy connection with a byte unread |
| ThreadRuns.UnsettledCanMove | evserver/src/server_threads.cpp:37-150 | unless every live worker is blocked in read and the main thread in poll or in a join, or all is over, some thread has a step to make in which nothing need fail: poll reports something, a write takes a byte, and only a connection that is broken answers an error |
| ThreadRuns.SettledExactly | evserver/src/server_threads.cpp:37-150 | the threads are in such a state if and only if none of their enabled steps is one in which nothing fails |
| ThreadRuns.OtherThreadsCanSeeMoreClosed | evserver/include/ev/stats.hpp:48-62 | why the order of the two loads of a snapshot is an argument only for the thread that accepts: a run in which accepted is smaller than the value of closed at a later moment |
| ThreadCounts.CallsAreCounted | evserver/src/server_threads.cpp:62-149 | over every interleaving, from its labels: read_calls, write_calls, requests, wait_calls, accepted and threads_spawned are the numbers of reads, writes, reads with bytes, polls and accepts made, less those of threads just about to count them |
| ThreadCounts.FinalCounters | evserver/src/server_threads.cpp:37-149 | so after the joins they are exactly these numbers, and accepted == threads_spawned == closed |
| ThreadCounts.AtMostOneMoreRead | evserver/src/server_threads.cpp:117-119 | once the flag is cleared it stays so, and every worker makes at most one more read, in every interleaving |
| ThreadCounts.SignalsEndTheLoop | evserver/src/server_threads.cpp:66-91 | after poll has reported a signal, or failed other than by an interruption, the main thread neither polls nor accepts again |
| ThreadCounts.SnapshotShows | evserver/include/ev/stats.hpp:48-62 | the two values of a snapshot are the counters at two moments of the run, accepted at the earlier one; and from the joins on the flag is cleared |
| ThreadProgress.GrantedStepsAdvance | evserver/src/server_threads.cpp:37-150 | every action of any thread that the kernel grants uses up some of a measure of the work left (unread bytes, accepts, closes and signals to come, each worker's chunk and place, the main thread's place) |
| ThreadProgress.RestIsReached | evserver/src/server_threads.cpp:37-150 | so while the outside world is quiet and no call is interrupted, all threads together make at most as many steps as that measure was, in every interleaving |
| ThreadProgress.KindRunsDisturbNobody | evserver/src/server_threads.cpp:37-150 | over any interleaving in which nothing fails no stream, end of stream or failure of a connection changes, and the main thread leaves its loop at most because of a signal |
| ThreadProgress.ComesToRest | evserver/src/server_threads.cpp:37-150 | from every state of every run such an interleaving leads to a state in which every thread waits for the outside world, for a joined worker that does, or has ended; with the main thread in its loop and no signal all wait in poll and read |
| ThreadServer.Serve | evserver/src/server_threads.cpp:112-150 | the two nested loops as written continue the run by the worker's own actions, the other threads moving in between (CallsAreCounted says what is counted over such runs); either the exit is counted and the socket closed, or at least as many actions were made as were observed |
| ThreadServer.WriteChunk | evserver/src/server_threads.cpp:132-147 | the inner loop leaves the chunk completely written, or a failed write on record, or at least as many actions were made as were observed |
| ThreadServer.Run | evserver/src/server_threads.cpp:62-105 | the accept loop as written continues the run by the main thread's own actions; it ends ready for the snapshot, or at least as many actions were made as were observed |
| ThreadServer.DrainSignals | evserver/src/server_threads.cpp:84-89 | the signal loop as written; the flag is cleared exactly if a record was read; it ends only with the descriptor empty, or after at least as many reads as were observed |
| ThreadServer.Snapshot | evserver/include/ev/stats.hpp:48-52 | the two loads in their order give closed <= accepted whatever the workers do between them |
| ThreadServer.Destroy | evserver/src/server_threads.cpp:37-47 | clears the flag and joins in order; when it finishes every worker has exited, and if it has not finished it waits at a worker that lives |
| Backends.BackendsAgree | evserver/src/server_uring.cpp:209-274 | in any runs of the level-triggered, edge-triggered, ring and thread servers with buffers of at least one byte, settled, with no registration and no flush refused: given the same bytes on a connection that has not failed, all four have sent back the same bytes, namely all of them |
| Backends.EpollSettles | evserver/src/server_epoll.cpp:75-112 | every schedule of the event loop in which nothing fails, from any state of any run without a refused registration or a signal: it is no longer than the budget of work was, it cannot go on if and only if the loop has settled in the sense of BackendsAgree, and then every connection that had not failed has got back all its peer had sent |
| Backends.EpollEchoes | evserver/src/server_epoll.cpp:75-112 | and such a schedule to a settled state exists, whatever has happened before |
| Backends.UringSettles | evserver/src/server_uring.cpp:109-137 | the same for every schedule of the ring and the kernel that completes its operations, with no flush refused |
| Backends.UringEchoes | evserver/src/server_uring.cpp:109-137 | and such a schedule to a settled state exists, given enough objects for the connections still to come |
| Backends.ThreadsSettle | evserver/src/server_threads.cpp:37-150 | the same for every interleaving of the threads while the main thread goes round its loop |
| Backends.ThreadsEcho | evserver/src/server_threads.cpp:37-150 | and such an interleaving to a settled state exists |
| Backends.ServingFromTheBoot | evserver/src/server_epoll.cpp:75-78 | what these theorems ask of the state a schedule begins in holds at the boot of each of the three servers |
| Backends.OutIsAlwaysAPrefix | evserver/src/server_epoll.cpp:173-252 | at every moment of a history of any of the servers, dropped or not and with any errors, a peer has received a prefix of what was read from it, and that is a prefix of what it sent |
| ClosedLoop.StepKeepsIsolation | evserver/bench/loadgen.cpp:72-88 | every move of bytes keeps payload == got + in transit back + in the server's hand + in transit there + unwritten, for the connection it belongs to |
| ClosedLoop.StepKeepsInv | evserver/bench/loadgen.cpp:68-93 | and for every connection at once, within the capacities |
| ClosedLoop.RepliesNeverMix | evserver/bench/loadgen.cpp:68-93 | in any run of any number of clients a complete reply is its request byte for byte, took exactly 4 moves per byte, and both channels and the server's hand are empty of that client |
| ClosedLoop.DeadlockThreshold | evserver/src/server_epoll.cpp:225-252 | with channel capacities C1, C2 and a server buffer of at least one byte each, a deadlock of clients and server is reachable if and only if the payload is at least C1 + C2 + 2, for any bytes and any number of clients |
| ClosedLoop.DeadlockIsReachable | evserver/src/server_epoll.cpp:238-244 | above the threshold, the schedule that ends in it |
| ClosedLoop.NeverStuck | evserver/src/server_epoll.cpp:225-252 | below it some byte can always move while any request is unfinished |
| ClosedLoop.RunsEnd | evserver/bench/loadgen.cpp:68-88 | runs without new requests are finite: at most four moves per byte |
| ClosedLoop.EveryRequestFinishes | evserver/bench/loadgen.cpp:68-93 | below the threshold every run that nothing extends has answered every request with its own payload |
| ClosedLoop.WritePayload | evserver/bench/loadgen.cpp:72-76 | a run of the closed loop: when it is through the whole payload has been taken over; otherwise the channel is full |
| ClosedLoop.Request | evserver/bench/loadgen.cpp:70-92 | a run of the closed loop through the read loop as written: when it is through, the reply buffer equals the payload and nothing of the request is left anywhere; otherwise its call waits for a full or an empty channel |
| ClosedLoop.Worker | evserver/bench/loadgen.cpp:54-94 | a run of the closed loop: as many requests are counted as the stop flag was found clear, each with its reply complete; or fewer, and the next call waits |
| Cgroups.MkDirKeeps | minicontainer/src/cgroup.cpp:156 | mkdir, successful or refused, keeps the kernel's tree rules |
| Cgroups.MoveKeeps | minicontainer/src/cgroup.cpp:57 | writing a pid to cgroup.procs keeps each live process in exactly one cgroup and no non-exempt cgroup both populated and delegating |
| Cgroups.EnableKeeps | minicontainer/src/cgroup.cpp:94 | enabling controllers keeps the top-down rule and the no-internal-process rule |
| Cgroups.InterferenceKeeps | minicontainer/src/cgroup.cpp:56 | processes exiting and forking at any moment keep them too |
| Cgroups.OnePidPerLine | minicontainer/src/util.cpp:43-65 | for every list of pids, the non-empty lines of the right-trimmed listing are the decimal pids, in order, none dropped, merged or repeated |
| Cgroups.RunKeepsTree | minicontainer/src/cgroup.cpp:135-177 | create as a state machine over its system calls, everybody else moving in between: in every state of every run each live process is in exactly one cgroup, no non-exempt cgroup is both populated and delegating, and controllers are enabled top down |
| Cgroups.NobodyIsLost | minicontainer/src/cgroup.cpp:28-62 | whatever is refused and whoever interferes, every process that was in the root at the start and still lives is in the root or in init, and in init once the root delegates, unless the root is the system's own |
| Cgroups.EveryWriteTakesEffect | minicontainer/src/cgroup.cpp:54-58 | after each write of a pid the process is in init and out of the root, or the write changed nothing because the process was dead, init delegates, or the kernel refused it |
| Cgroups.RunAchieves | minicontainer/src/cgroup.cpp:67-177 | what has been achieved when each call is due; a create that fails has met a refusal, EBUSY, or a directory that is offered neither controller |
| Cgroups.CreateOutcome | minicontainer/src/cgroup.cpp:135-177 | on success minicontainer/<name> exists and is offered each of memory and pids that the root is offered, at least one, and the earlier root processes that live are in init unless the root is exempt; a failure has its cause among the calls |
| Cgroups.CreateFailsExactly | minicontainer/src/cgroup.cpp:28-177 | create fails if and only if one of its calls has a fatal answer (no cgroup2 file system, a refused mkdir or enabling, controllers unreadable or without memory and pids; not a failed listing or write of a pid), and makes no call after it; the check of the file system comes before all others |
| Cgroups.CreateTouchesOnly | minicontainer/src/cgroup.cpp:67-177 | whatever is offered, refused or done by others: create enables at most memory and pids, and only in the root and in minicontainer, makes no directory but init, minicontainer and its leaf, and sets no limit |
| Cgroups.CreateSucceedsExactly | minicontainer/src/cgroup.cpp:135-177 | if nothing the rules allow is refused and nobody arrives in the root: with the way clear (init does not delegate, unless the root is exempt or empty, and minicontainer holds no process) the root is empty when it is asked to delegate, and create succeeds if and only if memory or pids is offered to the root; and if nobody else changes anything in between, create succeeds if and only if the way is clear and memory or pids is offered |
| Cgroups.WritePids | minicontainer/src/cgroup.cpp:44-60 | the index loop makes exactly one write for each process listed, in order, and no other, and then goes on to the controllers |
| Cgroups.VacateRoot | minicontainer/src/cgroup.cpp:28-62 | lists the root, makes init and moves the listed processes, in this order; it fails exactly if mkdir was refused, and moves nobody exactly if the listing failed or was empty |
| Cgroups.EnableControllers | minicontainer/src/cgroup.cpp:67-110 | asks for memory and pids as far as they are offered: on success these, at least one, are added to the control of this cgroup and nothing to any other; otherwise no control changes; it fails exactly if the read failed, neither is offered, or the write was refused |
| Cgroups.Cgroup.Create | minicontainer/src/cgroup.cpp:135-177 | makes exactly the calls of a run of create, to its end, and its result is what that run has ended with; a lenient kernel has refused none of them; the path is set, to minicontainer/<name>, exactly on success |
| Cgroups.Cgroup.SetMemoryLimit | minicontainer/src/cgroup.cpp:179-193 | the write of memory.max and, exactly if it has worked, of 0 to memory.swap.max, with everybody else moving before each; fails exactly if the first was refused; afterwards memory.max holds the limit, and memory.swap.max 0 if the second write worked, no swap limit having changed otherwise; a lenient kernel refuses neither that its rules allow |
| Cgroups.Cgroup.SetPidsLimit | minicontainer/src/cgroup.cpp:195-198 | one write of pids.max, whose answer is the result; success means pids.max holds the limit; no other limit changes; with a lenient kernel it succeeds exactly if the rules allow it |
| Cgroups.Cgroup.AddProcess | minicontainer/src/cgroup.cpp:200-203 | one write of the pid, whose answer is the result; success means the process is in this cgroup and in no other; all others are where the write found them and limits are unchanged; with a lenient kernel it succeeds exactly if the rules allow it |
| Cgroups.Cgroup.Destroy | minicontainer/src/cgroup.cpp:126-133 | one rmdir, whose answer is the result: the directory goes only when no process is in it, and with a lenient kernel exactly when it is there, empty and without children |
| Barrier.StepKeepsInv | minicontainer/src/container.cpp:111-128 | every step of parent or child, and the child being killed, keeps who holds which pipe end and what has been attempted in agreement |
| Barrier.PassesOnlyAfterTheLimits | minicontainer/src/container.cpp:218-246 | in every interleaving the child passes the read only after, if the cgroup was created, exactly the limits asked for and the move were attempted, and memory.swap.max exactly if memory.max had worked; none of them if it was not |
| Barrier.NothingChangesAfterPassing | minicontainer/src/container.cpp:245-257 | nothing is attempted on the cgroup after the child has passed |
| Barrier.ExecFindsTheLimits | minicontainer/src/container.cpp:118-257 | in every course of both processes from clone() on, with the calls of create, the limit writes, the move and everybody else's exits and forks acting on one cgroup tree: a child past the barrier, at its exec and as long as it lives, finds exactly the acts asked for attempted if the cgroup was created, memory.max, memory.swap.max (at 0) and pids.max in force as far as they worked, and itself in its cgroup and in no other if the move worked |
| Barrier.CreateIsCalled | minicontainer/src/container.cpp:215-222 | if a memory limit or a limit on processes is asked for, create has been called to its end before the parent goes on, and the cgroup counts as created exactly if it worked; if none is, not one call of create is made |
| Barrier.WorkedIsWhatWorked | minicontainer/src/container.cpp:218-238 | over every course: what is recorded as created and as having worked is exactly what was answered with success |
| Barrier.LimitsExactly | minicontainer/src/container.cpp:213-238 | with a kernel that refuses nothing its rules allow: once the parent is done with a created cgroup, memory.max and memory.swap.max are set exactly if the root is offered memory, pids.max exactly if it is offered pids, and the container has been moved unless it is dead or the leaf was there before, delegating |
| Barrier.ExecOnlyAfterSetup | minicontainer/src/container.cpp:133-170 | the child comes to its exec only after host name and root were set with success, and runs only after exec was |
| Barrier.NobodyElseIsMoved | minicontainer/src/container.cpp:213-246 | create and add_process together: in every state of every course the kernel's tree rules hold, the container once added is in its leaf, every other process that was in the root and still lives is in the root or in init (in init once the root delegates, unless the root is the system's own), and the leaf is offered each of memory and pids that the root is offered |
| Barrier.CourseKeepsWorld | minicontainer/src/container.cpp:111-257 | the invariant behind both, over every course: pipe ends, attempted acts, the place of the parent in create and the state of the tree agree |
| Barrier.DeadlockIsExactly | minicontainer/src/container.cpp:116-127 | a deadlock is exactly the parent waiting for the child while the child waits in read holding a write end itself |
| Barrier.NoDeadlockExactlyIfChildCloses | minicontainer/src/container.cpp:116-120 | no interleaving of any configuration deadlocks if and only if the child closes its own write end |
| Barrier.StartUpEnds | minicontainer/src/container.cpp:111-257 | every action brings the end nearer, so start-up takes at most 16 actions |
| Barrier.Confine | minicontainer/src/container.cpp:223-238 | continues the course through the limits asked for and the move, each attempted whatever became of the one before, up to the report; a lenient kernel refuses none that its rules allow |
| Barrier.RunContainer | minicontainer/src/container.cpp:213-257 | the parent as written makes a whole course from clone(), starting in the given tree: create is called exactly if a limit is asked for, exactly the acts asked for are attempted, what worked is in force in the tree at the end if the child lives, and a lenient kernel refuses none that its rules allow; it returns only after the child has exited, and stops waiting only after exactly as many interruptions of waitpid as are observed |
| Text.SplitWs | procmon/src/util.cpp:101-122 | the nested index loops return exactly the maximal runs without white space, as views |
| Text.SpansAreTheRuns | procmon/src/util.cpp:101-122 | these spans come in order and apart, and the characters in them are exactly those that are none of space, tab, line feed, vertical tab, form feed and carriage return |
| Text.WordsOfWeave | procmon/src/util.cpp:101-122 | splitting undoes joining: for any words and any white space around them it returns those words |
| Text.SplitInvertsWeave | procmon/src/util.cpp:101-122 | the same for the beginning of any text, with the position where the last word ends |
| Text.Trim | procmon/src/util.cpp:124-135 | the two loops compute the trimmed text |
| Text.TrimIsUnique | procmon/src/util.cpp:124-135 | trimming removes any surrounding white space and nothing else |
| Text.ReadLines | procmon/src/util.cpp:77-99 | the loop returns the lines of the content, and nothing for a missing file |
| Text.LinesInvertUnlines | procmon/src/util.cpp:86-97 | reading lines undoes joining them, with or without a last newline: none is dropped, merged or repeated |
| Text.LinesOneByOne | procmon/src/util.cpp:86-97 | what stands before the first newline is the first line, and the lines of what follows come after it |
| Numbers.FromCharsOfShow | procmon/src/util.cpp:161-168 | reading undoes printing exactly for the integers of 64 bits and fails for all others; a suffix that is no digit is ignored |
| Numbers.ToLlOfShow | procmon/src/util.cpp:154-169 | to_ll of a printed integer is that integer exactly if it has 64 bits |
| Numbers.ToLlIgnoresUnit | procmon/src/util.cpp:162-163 | a unit after the number, as in "1234 kB", changes nothing |
| Numbers.ToLlTrims | procmon/src/util.cpp:154-169 | white space around the number changes nothing |
| Numbers.ToLlOfNoNumber | procmon/src/util.cpp:154-169 | a text that does not begin with a digit, or a minus sign and a digit, after its white space gives nothing |
| Numbers.StrToUllIs | procmon/src/process.cpp:178-185 | for every white space, sign, prefix 0x in base 16, digits and rest: strtoull reads the digits, saturates above 64 bits, and a minus sign negates modulo 2 to the 64 |
| Numbers.StrToUllOfPad | procmon/src/process.cpp:178-185 | strtoull undoes printing in base 10 and 16 with any zero padding; values above 64 bits saturate |
| Procfs.HexAddressRoundTrip | procmon/src/format.cpp:66-71 | parsing inverts the zero-padded address |
| Procfs.HexAddressIs | procmon/src/format.cpp:66-71 | it has lower-case digits, exactly twelve if the value has at most 48 bits, and otherwise more and no leading zero |
| Procfs.StatRoundTrip | procmon/src/process.cpp:24-45 | for every comm, parentheses and white space included, and every list of fields without white space and ')', parsing the line returns that comm and those fields |
| Procfs.StatIsParsedExactly | procmon/src/process.cpp:24-45 | a line is parsed if and only if the file was read and an opening parenthesis stands before a closing one |
| Procfs.CommIsBetween | procmon/src/process.cpp:24-45 | comm is what stands between the first opening and the last closing parenthesis of any text, and the fields are the words after it |
| Procfs.StatFieldIs | procmon/src/process.cpp:48-56 | field k is its integer when that has 64 bits, 0 when larger; 0 below field 3 (the subtraction wraps) and beyond the end |
| Procfs.StatFieldRoundTrip | procmon/src/process.cpp:24-56 | from the printed line to the number of field k |
| Procfs.ReadMapsLine | procmon/src/process.cpp:160-193 | a line of fewer than five tokens or without a dash in the first gives nothing; any other gives the region of its tokens and the trimmed rest |
| Procfs.MapsLineIsParsedExactly | procmon/src/process.cpp:160-173 | a line gives a region if and only if it has at least five words and a dash in the first |
| Procfs.RegionsConcat | procmon/src/process.cpp:155-196 | the regions of lines are those of the first and then those of the rest, wherever they are divided |
| Procfs.RegionsOfOne | procmon/src/process.cpp:155-196 | and one line gives its region or nothing |
| Procfs.ReadMaps | procmon/src/process.cpp:155-196 | one region per parsable line, in order |
| Procfs.MapsLineRoundTrip | procmon/src/process.cpp:164-191 | for every region of 64-bit numbers and any path without surrounding white space (inner white space allowed), in any column layout, parsing the printed line returns the region |
| Procfs.MapsTokens | procmon/src/process.cpp:185-191 | splitting the printed line finds the range, perms, offset, dev and inode of the region as its first five tokens, in this order, and what follows the fifth is exactly padding and path |
| Procfs.MapsRoundTrip | procmon/src/process.cpp:155-196 | the same for a whole file: every region, in order |
| Procfs.ParseKv | procmon/src/util.cpp:137-152 | the map holds, for each key, the value on the first line with that key, and no other keys |
| Procfs.FirstValueIs | procmon/src/util.cpp:137-152 | where the value of a key is the one on the first line with that key, by position in the file |
| Procfs.KvFileRoundTrip | procmon/src/util.cpp:137-152 | for a printed file with repeated keys the value of a key is the first one printed; a key not printed has none |
| Procfs.KvNumberIs | procmon/src/process.cpp:58-67 | a value printed with or without a unit reads back as its number if that has 64 bits, and as -1 otherwise |
| Procfs.KvNumberFails | procmon/src/process.cpp:58-67 | a key that is not there, and a value that does not begin with a number, read as -1 |
| Table.Table.constructor | procmon/src/format.cpp:73-76 | no rows, nothing right-aligned |
| Table.Table.AddRow | procmon/src/format.cpp:78-82 | the row is appended cut off or filled up to the number of columns |
| Table.Table.RightAlign | procmon/src/format.cpp:84-90 | sets one flag for an existing column and nothing otherwise |
| Table.Table.Widths | procmon/src/format.cpp:94-105 | the exact maximum cell length of every column, header included |
| Table.WidthsAreUnique | procmon/src/format.cpp:94-105 | there is only one such list of widths |
| Table.Table.Emit | procmon/src/format.cpp:107-131 | one printed line; the padding never underflows |
| Table.Table.Print | procmon/src/format.cpp:92-146 | header, a line of sum(w_j + 2) - 2 dashes (none without columns), and every row, all with the same exact widths; TableLines says what its lines are |
| Table.TableLines | procmon/src/format.cpp:133-146 | for cells of one line each the printed text has exactly |rows| + 2 lines: the header, dashes up to the end of the last column, and the rows, each printed, in the order in which they were added |
| Table.ColumnInterval | procmon/src/format.cpp:107-131 | in every line column 0 begins at 0 and column i two characters after the end of the one before, each as wide as its width: the cell at its aligned end, spaces in the rest, two spaces after it unless it is last, and then the line ends with it |

## Left out

- Socket creation, bind and listen, `fcntl`, signal masks and errno texts: foreign calls; a signal is an event that arrives, a descriptor a number that is not in use.
- A send of a non-empty range that returns 0, which the ring server would take for a complete one: the kernel does not do that.
- `EPOLL_CTL_DEL` before `close`: one step, since close removes the registration anyway.
- SIGPIPE: the epoll and thread servers neither block nor ignore it, and call `write` without `MSG_NOSIGNAL`; a write to a connection that was reset would end the process, where `Net.Writes` has it answer an error.
- Wrap-around of the 64-bit counters: they are naturals.
- Relaxed memory order: interleavings are sequentially consistent; the counters synchronise nothing.
- Stats: the atomic fields are one record value updated in the order of the bumps; the thread server's snapshot is modelled for the two loads that are compared.
- Completion queue overflow: the completion queue is unbounded; the kernel keeps what does not fit.
- Bounded send queues in the back-ends: a write takes any part of what it is offered; bounds are the subject of `ClosedLoop`, where the single-threaded server is one hand that holds one chunk and picks any connection next.
- Two client threads of the load generator share nothing but the stop flag; latencies, throughput, `percentile` and the idle connections are measurement only.
- Threads: worker and acceptor are value records in a state machine, because their steps interleave; `ThreadServer` runs the source's loops over it.
- Connections that are still open when the epoll or the ring loop has ended: what closing them at the exit of the process does to their peers.
- Controller names are values, not substrings of `cgroup.controllers`; the kernel is taken to refuse every controller where processes are, as the documented constraint says, although it may admit threaded ones.
- Recycled pids while the tree is set up, agents other than the container's parent that move processes, and the error texts of `create`.
- `oom_kill_count`, `current_memory`, `parse_size`, mounts, `pivot_root`, namespaces and exec: straight-line calls whose meaning lies in the kernel; in `Barrier` they are steps of the child that work or fail.
- The destruction of the ring server with operations outstanding, which exits the ring before its connections are freed (evserver/src/server_uring.cpp:71-77, 299): the model ends with the loop.
- A thread that cannot be created after its accept has been counted (evserver/src/server_threads.cpp:98-100): `std::thread` throws, and the model's `Spawn` always works.
- The destructor of the container's cgroup at the end of `run_container`: `Cgroup.Destroy` is proved by itself, the course of `Barrier` ends with the child reaped.
- A parent that is killed, or a `waitpid` that fails for another reason than EINTR.
- `worker` of the load generator returns at a failed or short write and at a failed read; in `ClosedLoop` connections do not fail, and a blocking write takes the whole payload.
- `list_pids`, `read_threads`, `read_process` beyond the parsers, `human_bytes`, `human_duration`, `print_section`, `print_field`, name switches: easy members, or floating point.
- Strings are sequences of characters in the "C" locale; string views are spans of the string they point into.
