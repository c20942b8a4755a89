# Verification model of a multi-reactor TCP library

The library runs one event loop per thread. A server accepts on its base loop and
gives each connection to an io loop; threads talk to a loop through a functor queue
and an eventfd; a connection writes directly when it can and keeps a backlog when it
cannot; a poller keeps an fd map and the kernel's interest set in step with its
channels. This project models that behaviour in Dafny and proves what the library is
there for.

Objects whose methods change fields are classes (`Buffer`, `Channel`, `EPollPoller`,
`EventLoop`, `TcpConnection`, `EventLoopThreadPool`, `TcpServer`). Each method equals
a function on what the object holds, and the theorems are about those functions and
about all their runs. `Registry.CalledByFlags` and `ConnectionLaws` say what those
functions do from flags, masks, backlog and results of system calls alone. What several
threads do together is an interleaved step relation; the class `EventLoop` carries the
protocol state as a ghost field and moves it by protocol steps only.

| file | module | content |
|---|---|---|
| Buffer.dfy | BufferModel | byte queue over a compacting array, scatter read, storage bound |
| Registry.dfy | Registry | channel index, fd map and kernel set; which callbacks an event runs |
| Poller.dfy | PollerModel | `Channel` and `EPollPoller` as objects |
| LoopProtocol.dfy | LoopProtocol | functor queue, eventfd and quit flag, any number of threads |
| EventLoop.dfy | EventLoopModel | `EventLoop` as an object that refines the protocol |
| ConnectionSpec.dfy | ConnectionSpec | handlers of a connection, output path, dispatch |
| ConnectionLaws.dfy | ConnectionLaws | what the handlers move and change, from flags, mask, backlog and results of system calls |
| TcpConnection.dfy | TcpConnectionModel | `TcpConnection` over channel, poller, buffers and loop |
| HalfClose.dfy | HalfClose | several sends and then a shutdown, direct and through the queue |
| CallQueue.dfy | CallQueue | another thread's sends and shutdowns in the connection's own queue, and their half-close |
| Lifetime.dfy | Lifetime | connections over all loops, as interleaved steps |
| LifetimeSanity.dfy, LifetimeSafety.dfy, LifetimeOrder.dfy | the same names | three invariants: what every step keeps, every step but an orphaning send, every step but a reviving send |
| LifetimeDrain.dfy, LifetimePointers.dfy, LifetimeRevival.dfy | the same names | schedules in which owners go away; plain pointers; channels that come back |
| LifetimeTheorems.dfy, LifetimeWitnesses.dfy | the same names | what holds over every run and exactly when; runs to the states that are excluded |
| LifetimeConnection.dfy | LifetimeConnection | the same connection in that machine and in its handlers |
| Names.dfy | Names | connection names |
| ThreadPool.dfy | ThreadPool | io loops and round robin |
| TcpServer.dfy | TcpServerModel | `TcpServer` as an object: map by name, loops |
| ServerMap.dfy | ServerMap | the map by name over every run of the lifetime machine |

## What the code does otherwise than its text says

* `src/TcpConnection.cc:193` assigns `kDisconnected` where its comment and message
  mean a comparison, and line 285 tests `kDisconnected` where `kConnected` is meant.
  Every theorem about connections has an `Edition` parameter: `AsWritten` takes both
  lines literally, `AsMeant` the other way. `SlipsCancelAfterOneSend` shows that one
  send followed by one shutdown behaves alike in both, `SecondSendIsDropped` what is
  lost otherwise, `DirectHalfClose` when the half-close is complete.
* A shutdown called from another thread stores `kDisconnecting` at once, while its
  sends may still be queued. `handleWrite` tests that state when it drains the
  backlog, so it can shut the write side before a later batch brings the rest.
  `QueuedHalfClose` gives the exact condition under which no schedule does so.
* As written, a send that runs between shutdown's store and `shutdownInLoop` puts the
  state back to `kDisconnected`, and SHUT_WR may never come: `QuietMeansShut` says
  exactly when it does.
* shutdown's test and store are two steps. A close between them leaves
  `kDisconnecting` on a closed connection; a queued send is then not refused and
  puts the closed channel back into the poller. `ClosedStaysUnreported` gives the
  exact condition, `MeantRunsAreNeverLate` shows that this is the only way in the meant
  edition, and `ClosedCanBeReported` reaches the state in both.
* Such a late send can have the connection closed twice (`CanCloseTwice`).
  `OrderIsExact` shows when: the connection still has an owner, and its destruction does
  not follow in the same batch.
* When a late send comes after the destruction, the channel is registered for good. It
  can outlive every owner, and the connection can be freed under the loop that is about
  to handle it. `OwnershipIsExact` and `WalksAreExact` show that this send, and no
  other, does it; `CanLoseChannel` and `CanFreeWalked` reach the states.
* None of this happens when `send` and `shutdown` are called only on the thread of the
  connection's own loop, as the message callback of the echo server does:
  `OwnThreadIsSafe`, in both editions.
* `shutdownInLoop` is queued with a plain pointer (`src/TcpConnection.cc:288-290`), and
  so is a send as written. `FunctorFindsItsConnection` gives the exact condition under
  which such a functor finds its connection alive whatever happens: the destruction is
  still to be queued, hence behind it, or a functor that owns the connection waits or
  runs beside it. `CanDangle` reaches a freed connection with its functor still queued,
  in both editions.
* A hang-up reported with urgent data and without ordinary input runs the close
  handler and then the read handler, which closes again at end of file:
  `ClosedAtMostOncePerDispatch` is exact about it.
* `loop()` clears a quit issued before it (`EarlyQuitIsForgotten`), and a functor the
  loop's own thread queues before `loop()` wakes nobody (`EarlyOwnPushIsStranded`);
  `NoLostWakeup` is an equivalence with the latter as its condition.
* An index of kAdded does not mean that anything is watched (`ClearingTwiceAdds`).

## Model

| member | source | states |
|---|---|---|
| BufferModel.Layout.MakeSpace | src/Buffer.h:130-147 | readable bytes stay, and afterwards at least `len` bytes are writable |
| BufferModel.RunIsByteQueue | src/Buffer.h:55-108 | over any sequence of appends, reads and retrievals: bytes taken out, then unread bytes, are the bytes put in, in order, through growth and compaction |
| BufferModel.StorageBound | src/Buffer.h:130-147 | over any run the array never exceeds the larger of its first size and 8 + 2 * peak readable bytes |
| BufferModel.ScatterReadIsAppend | src/Buffer.cc:8-43 | for every count readv may return, readFd leaves exactly what one append of the bytes leaves, indices and size included, and the spill fits 65536 bytes |
| BufferModel.CopyDown | src/Buffer.h:140-142 | the forward copy over itself keeps the content although source and target overlap |
| BufferModel.Buffer.constructor | src/Buffer.h:25-29 | an empty buffer, both indices at 8 |
| BufferModel.Buffer.ReadableBytes | src/Buffer.h:32-35 | the length of the content |
| BufferModel.Buffer.WritableBytes | src/Buffer.h:37-40 | the room behind the writer index |
| BufferModel.Buffer.MakeSpace | src/Buffer.h:130-147 | grows or compacts in place as the specification says, keeping 8 <= reader <= writer <= size |
| BufferModel.Buffer.EnsureWritableBytes | src/Buffer.h:102-108 | makes space only when it lacks |
| BufferModel.Buffer.Append | src/Buffer.h:85-90 | content grows by exactly the bytes given |
| BufferModel.Buffer.Retrieve | src/Buffer.h:55-65 | drops a prefix, or everything and resets the indices |
| BufferModel.Buffer.RetrieveAll | src/Buffer.h:66-69 | empties and resets the indices |
| BufferModel.Buffer.RetrieveAsString | src/Buffer.h:76-81 | the result is a prefix of the readable bytes if and only if no more were asked for, and then result and rest make up the old content |
| BufferModel.Buffer.RetrieveAllAsString | src/Buffer.h:71-74 | all readable bytes, leaving none |
| BufferModel.Buffer.ReadFd | src/Buffer.cc:8-43 | the scatter read on the array, and its error path |
| Registry.CalledWhenTriggered | src/Channel.cc:69-104 | a callback is in a dispatch exactly when its trigger is up and it is set; the triggers themselves are spelled out by CalledByFlags |
| Registry.CalledByFlags | src/Channel.cc:69-104 | flag by flag: close on EPOLLHUP without EPOLLIN, error on EPOLLERR, read on EPOLLIN or EPOLLPRI, write on EPOLLOUT; each at most once, in this order |
| Registry.SetEventsAgrees | src/EPollPoller.cc:107-139 | storing a mask keeps index, map and kernel set in agreement and no epoll_ctl call is refused |
| Registry.SetEventsInSync | src/EPollPoller.cc:107-139 | for no call to be refused it is enough that the kernel has exactly the fds of the channels at kAdded, and storing a mask keeps that |
| Registry.StoredMaskIsWatched | src/EPollPoller.cc:107-139 | a mask that is not empty is what the kernel watches for the fd, an empty one takes an added channel out of the kernel's set, and no other fd is touched |
| Registry.RemoveChannelAgrees | src/EPollPoller.cc:144-158 | so does a removal, which leaves the channel at kNew |
| Registry.RemovedIsForgotten | src/EPollPoller.cc:144-158 | the removed channel's fd, and no other, leaves the map and the kernel's set |
| Registry.RunAgrees | src/EPollPoller.cc:107-187 | with one live channel per fd: over any sequence of updates and removals the agreement holds, every ADD hits an absent fd and every MOD or DEL a present one |
| Registry.SharedFdIsFatal | src/EPollPoller.cc:176-185 | adding any two live channels at kNew on one fd ends in the fatal branch, whether the kernel had the fd before or not |
| Registry.HasChannelIsNotNew | src/Poller.cc:9-13 | the membership test holds exactly when the index is not kNew |
| Registry.ReportedIsAdded | src/EPollPoller.cc:84-93 | the kernel can report a channel exactly when its index is kAdded |
| Registry.ClearingTwiceAdds | src/EPollPoller.cc:114-123 | clearing the mask adds the channel to the kernel's set if and only if it was not added before |
| PollerModel.Channel.constructor | src/Channel.cc:10-19 | an empty mask, index kNew |
| PollerModel.Channel.IsWriting | src/Channel.h:53 | true exactly when EPOLLOUT is asked for |
| PollerModel.Channel.IsReading | src/Channel.h:54 | true exactly when EPOLLIN or EPOLLPRI is asked for |
| PollerModel.Channel.Tie | src/Channel.cc:26-30 | from now on a dispatch finds the owner first |
| PollerModel.Channel.HandleEvent | src/Channel.cc:49-64 | runs nothing when the owner it is tied to has gone, else exactly the callbacks whose flags are up and that are set, each once and in order |
| PollerModel.Channel.HandleEventWithGuard | src/Channel.cc:69-104 | runs the list that CalledByFlags spells out |
| PollerModel.Channel.EnableReading | src/Channel.h:45 | the mask change always reaches the poller |
| PollerModel.Channel.DisableReading | src/Channel.h:46 | the mask change always reaches the poller |
| PollerModel.Channel.EnableWriting | src/Channel.h:47 | the mask change always reaches the poller |
| PollerModel.Channel.DisableWriting | src/Channel.h:48 | the mask change always reaches the poller |
| PollerModel.Channel.DisableAll | src/Channel.h:49 | the mask change always reaches the poller |
| PollerModel.Channel.Remove | src/Channel.cc:42-45 | the poller forgets the channel |
| PollerModel.EPollPoller.Update | src/EPollPoller.cc:165-187 | one epoll_ctl call, refused ones recorded; only a refused DEL is survived |
| PollerModel.EPollPoller.UpdateChannel | src/EPollPoller.cc:107-139 | the branches on the index, equal to the registry's function |
| PollerModel.EPollPoller.RemoveChannel | src/EPollPoller.cc:144-158 | the removal, equal to the registry's function |
| PollerModel.EPollPoller.FillActiveChannels | src/EPollPoller.cc:84-93 | each active channel is the one registered for its fd, with the flags reported |
| PollerModel.EPollPoller.Poll | src/EPollPoller.cc:42-82 | distinct channels, all kAdded; the event list doubles exactly when it came back full; errors and timeouts report none |
| LoopProtocol.StepKeepsInv | src/EventLoop.cc:77-218 | the protocol invariant is kept by every step of every thread |
| LoopProtocol.Conservation | src/EventLoop.cc:145-218 | executed functors, rest of the batch and queue are the enqueue history in lock order, over any interleaving |
| LoopProtocol.RunsInTheNextBatch | src/EventLoop.cc:199-218 | whatever was queued before a swap has run, once and in order, when that batch has ended |
| LoopProtocol.NoLostWakeup | src/EventLoop.cc:83-107 | a started loop never polls with work stranded, under any interleaving, if and only if what was queued before its start is announced |
| LoopProtocol.StepKeepsWaking | src/EventLoop.cc:145-187 | queued work stays announced between one swap and the next poll |
| LoopProtocol.EarlyOwnPushIsStranded | src/EventLoop.cc:155-158 | a functor the loop's own thread queues before loop() leaves the first poll stranded |
| LoopProtocol.EarlyQuitIsForgotten | src/EventLoop.cc:77-86 | a quit before loop() is cleared and the loop polls |
| LoopProtocol.QuitProgress | src/EventLoop.cc:83-132 | once set on a started loop, quit stays set, no new poll begins, and a poll in progress cannot block |
| LoopProtocol.QuitCountsDown | src/EventLoop.cc:83-132 | with quit set each loop move brings the exit nearer and nothing others queue takes it farther |
| LoopProtocol.QuitReachesExit | src/EventLoop.cc:77-110 | the loop's own moves take it out of loop() without another poll |
| LoopProtocol.NextMove | src/EventLoop.cc:83-107 | until it has left loop() the loop thread has an enabled move: no deadlock |
| LoopProtocol.EverythingQueuedRuns | src/EventLoop.cc:83-107 | without quit, from any state of a started, announced loop: its own moves and the wakeups owed lead to a state in which everything queued has run, and no poll on the way can block |
| LoopProtocol.ComesToRest | src/EventLoop.cc:83-171 | with nothing left to run, the loop's own moves lead to a poll with the counter at 0, which reports nothing: an idle loop does not spin |
| EventLoopModel.EventLoop.constructor | src/EventLoop.cc:39-48 | a loop that has not started, with an empty queue |
| EventLoopModel.EventLoop.QueueInLoop | src/EventLoop.cc:145-159 | appends and wakes unless the loop's own thread calls outside a batch |
| EventLoopModel.EventLoop.RunInLoop | src/EventLoop.cc:133-143 | at once on the loop's thread, queued and announced from any other |
| EventLoopModel.EventLoop.Wakeup | src/EventLoop.cc:178-187 | the counter is positive afterwards, saturated or not |
| EventLoopModel.EventLoop.HandleRead | src/EventLoop.cc:162-171 | the counter is 0 afterwards, as a protocol step |
| EventLoopModel.EventLoop.Quit | src/EventLoop.cc:115-132 | sets the flag; another thread also wakes |
| EventLoopModel.EventLoop.DoPendingFunctors | src/EventLoop.cc:199-218 | runs exactly what was queued, in order; what arrives meanwhile, even from the functors, waits and is announced |
| EventLoopModel.EventLoop.OneRound | src/EventLoop.cc:85-106 | one poll; everything queued before the round has run after it; with nothing queued and no quit meanwhile the counter is 0, so the next poll can wait |
| EventLoopModel.EventLoop.Loop | src/EventLoop.cc:77-110 | entered with anything queued, announced or not: returns in the first round that quits it; nothing queued before is left unrun after a round |
| ConnectionSpec.OutputConservation | src/TcpConnection.cc:98-254 | bytes on the socket and then the backlog are the accepted payloads, over every run of partial, blocked and failed writes |
| ConnectionSpec.WriteInterestMirrorsBacklog | src/TcpConnection.cc:98-254 | between establishment and close EPOLLOUT is asked for exactly while the backlog is non-empty |
| ConnectionSpec.HighWaterOncePerCrossing | src/TcpConnection.cc:235-246 | the high-water callback is queued once per upward crossing of the mark |
| ConnectionSpec.WriteCompleteExactly | src/TcpConnection.cc:98-131 | write-complete is queued by exactly the steps that put a last byte on the socket |
| ConnectionSpec.WriteCompleteMeansAllWritten | src/TcpConnection.cc:203-212 | when it is queued, every byte accepted so far is on the socket |
| ConnectionSpec.SlipsCancelAfterOneSend | example/echoserver.cc:48-55 | one send and one shutdown leave the same connection as written and as meant |
| ConnectionSpec.SecondSendIsDropped | src/TcpConnection.cc:193 | as written a second send leaves no trace |
| ConnectionSpec.DispatchRunsWhatIsCalled | src/Channel.cc:69-104 | the callbacks of one event, in turn, are close, read and write handling |
| ConnectionSpec.ClosedAtMostOncePerDispatch | src/Channel.cc:72-94 | one dispatch closes at most once if and only if the event is not a hang-up with urgent data, without input, at end of file |
| ConnectionSpec.DispatchAfterClose | src/TcpConnection.cc:133-144 | a close in a dispatch leaves the socket as it was and the channel deleted, unless it closes twice |
| ConnectionLaws.DispatchFromFlags | src/Channel.cc:69-104 | one event from its flags: one close for a hang-up without input and one for input or urgent data at end of file; the input grows by what was received under EPOLLIN or EPOLLPRI; the wire by what the socket took under EPOLLOUT while the channel is still watching |
| ConnectionLaws.DispatchSettles | src/TcpConnection.cc:76-144 | and what becomes of state, mask, write side and write-complete notice |
| ConnectionLaws.EventsAreRuns | src/EventLoop.cc:89-94 | any sequence of events is a run of the handlers that their flags name, so every law about runs holds of events |
| ConnectionLaws.InputConservation | src/TcpConnection.cc:76-96 | over every run the unread input is what it was and then what the successful reads delivered, in order; every other step, close and failed read included, leaves it |
| ConnectionLaws.EventsConserveInput | src/TcpConnection.cc:76-96 | the same over any sequence of dispatched events, from their flags |
| ConnectionLaws.BytesMove | src/TcpConnection.cc:98-254 | over every run the wire grows by exactly what the writes that were made took, direct ones included, and those bytes are the next ones of what was accepted |
| ConnectionLaws.StepMoves | src/TcpConnection.cc:98-224 | which step writes, from mask, backlog and state, and that it moves that many of the bytes it was offered |
| ConnectionLaws.PayloadKept | src/TcpConnection.cc:199-229 | a payload is given up exactly when nothing waits and the write meets EPIPE or ECONNRESET; any other outcome keeps all of it |
| ConnectionLaws.StatesMove | src/TcpConnection.cc:98-300 | the state every step leaves and the closes it counts, in both editions |
| ConnectionLaws.WriteSideIsShut | src/TcpConnection.cc:117-300 | the steps that shut the write side, exactly |
| ConnectionLaws.ClosesAreCounted | src/TcpConnection.cc:133-144 | over every run the close callback runs once for each close and each end of file |
| ConnectionLaws.DestroyedIsGone | src/TcpConnection.cc:270-281 | not connected, index kNew, and the mask cleared exactly when it was still connected |
| TcpConnectionModel.TcpConnection.constructor | src/TcpConnection.cc:29-65 | connecting, empty buffers, mark at 64 MiB, all four callbacks set |
| TcpConnectionModel.TcpConnection.SetHighWaterMarkCallback | src/TcpConnection.h:51-54 | callback and mark |
| TcpConnectionModel.TcpConnection.HandleRead | src/TcpConnection.cc:76-96 | appends what was read behind the unread input, closes at end of file, keeps the input on error |
| TcpConnectionModel.TcpConnection.HandleWrite | src/TcpConnection.cc:98-131 | moves exactly what write(2) took, all or part, from the front of the backlog to the wire; when drained, stops watching, notifies, and finishes a waiting shutdown |
| TcpConnectionModel.TcpConnection.HandleClose | src/TcpConnection.cc:133-144 | disconnected, interest cleared, close callback once |
| TcpConnectionModel.TcpConnection.Send | src/TcpConnection.cc:164-183 | only when connected: at once on the loop's thread; from any other the payload itself is queued and announced |
| TcpConnectionModel.TcpConnection.Perform | src/EventLoop.cc:211-215 | a queued send or shutdown, carried out on the loop's thread |
| TcpConnectionModel.TcpConnection.SendInLoop | src/TcpConnection.cc:186-254 | direct write, fault, backlog, high-water and write interest, in both editions |
| TcpConnectionModel.TcpConnection.ConnectEstablished | src/TcpConnection.cc:258-268 | kConnected is stored, the channel is tied and watched for EPOLLIN and EPOLLPRI |
| TcpConnectionModel.TcpConnection.ConnectDestroyed | src/TcpConnection.cc:270-281 | the poller does not have the channel any more |
| TcpConnectionModel.TcpConnection.Shutdown | src/TcpConnection.cc:283-292 | the state is stored on the calling thread, the rest runs or is queued, in both editions |
| TcpConnectionModel.TcpConnection.ShutdownInLoop | src/TcpConnection.cc:294-300 | shuts the write side unless a backlog is being watched |
| TcpConnectionModel.TcpConnection.HandleEvent | src/Channel.cc:49-104 | a reported event counts its closes, appends what was received and sends from the backlog as its flags say, and does nothing once tied owners have gone |
| TcpConnectionModel.TcpConnection.KernelMirrorsBacklog | src/TcpConnection.cc:235-253 | across buffer, channel and poller: the kernel's mask has EPOLLOUT exactly when bytes wait |
| HalfClose.DirectHalfClose | src/TcpConnection.cc:164-300 | calls on the loop's thread: SHUT_WR comes exactly when the backlog is empty; as meant after every byte, as written if and only if all but the first payload are empty |
| HalfClose.EstablishmentConnects | src/TcpConnection.cc:258-268 | a connection as constructed is connected, added for reading and open for sends after connectEstablished |
| HalfClose.FirstSendArrives | src/TcpConnection.cc:164-254 | the first send after it: what the socket took is on the wire and the rest in the backlog, in both editions, unless the write meets EPIPE or ECONNRESET |
| HalfClose.HalfCloseFromEstablishment | src/TcpConnection.cc:164-300 | the direct half-close of a connection's whole life, from its construction on |
| HalfClose.QueuedHalfClose | src/TcpConnection.cc:283-300 | a shutdown from another thread waits for every byte under every schedule if and only if it is safe where it is called |
| HalfClose.PrematureShutdown | src/TcpConnection.cc:117-120 | otherwise a schedule that shuts the write side with bytes unsent, constructed |
| HalfClose.CallsArrive | src/TcpConnection.cc:164-183 | what another thread hands to send is on the socket, in the backlog, in the queue or, between check and push, in its hand, in order, at every moment up to the shutdown |
| HalfClose.QueuedCalls | src/TcpConnection.cc:164-300 | several sends and a shutdown by another thread: SHUT_WR waits for every byte they were given, under every schedule, if and only if it is safe where the shutdown is called |
| HalfClose.QuietMeansShut | src/TcpConnection.cc:117-120 | once queue and backlog are empty the write side is shut: as meant always, as written if and only if no send was queued at the shutdown or nothing was left to write |
| CallQueue.ForeignCalls | src/TcpConnection.cc:164-183 | any sequence of sends and shutdowns by another thread, exactly: the payloads given while connected are queued in order, one shutdown stands behind them with its state stored, and nothing else changes |
| CallQueue.ForeignCallsDeliver | src/TcpConnection.cc:175-180 | when the loop takes that queue and performs it, what was given arrives on the wire and in the backlog, in order, behind what was there |
| CallQueue.MovesShow | src/EventLoop.cc:199-218 | every run of such calls among the loop's steps is a run of the half-close's system whose `pending` is the connection's own queue |
| CallQueue.GivenArrives | src/TcpConnection.cc:164-254 | over every such run wire, backlog, batch and queue together grow by exactly the payloads given while connected |
| CallQueue.ForeignHalfClose | src/TcpConnection.cc:164-300 | sends by another thread among the loop's steps, then its shutdown: SHUT_WR waits for every byte given, under every schedule, if and only if it is safe where the shutdown is called |
| LifetimeSanity.StepKeepsSane | src/TcpServer.cc:70-134 | kept by every step of every loop and user, faulty or not: functors are on their loops, channels agree with the kernel, a freed connection has no owner |
| LifetimeConnection.StopWritingAgrees | src/TcpConnection.cc:98-111 | the machine's step that stops writing leaves the state and channel that the drained write handler leaves |
| LifetimeConnection.CloseStepAgrees | src/TcpConnection.cc:133-144 | its close step leaves what handleClose leaves |
| LifetimeConnection.DirectCallsAgree | src/TcpConnection.cc:164-300 | its calls on the loop's own thread leave what send and shutdown leave, and where one is not enabled the call changes nothing |
| LifetimeConnection.FunctorAgrees | src/EventLoop.cc:211-215 | a functor of a living connection leaves what the handler it stands for leaves |
| LifetimeConnection.QueuedHolds | src/TcpConnection.cc:203-246 | a queued callback owns its connection, and as meant a queued send does |
| LifetimeConnection.HandlersAgree | src/TcpConnection.cc:76-300 | over every run of a connection's handlers the machine's steps leave it with the same state, mask and index |
| LifetimeConnection.LifeAgrees | src/TcpConnection.cc:258-281 | and so from its establishment to its destruction |
| LifetimeSafety.StepKeepsSafe | src/TcpServer.cc:93-133 | kept by every step but an orphaning send: a registered channel's destruction is still to run, and lists being walked stay registered |
| LifetimeOrder.StepKeepsOrdered | src/TcpServer.cc:114-134 | kept by every step but a reviving send: one token moves a closed connection on, and its channel's index follows its milestones, or will before the next poll, or nobody is left to handle it |
| LifetimeTheorems.NoCtlRefused | src/EPollPoller.cc:165-187 | no epoll_ctl call of the whole server is refused, late sends or not, with fds reused after a connection is freed |
| LifetimeTheorems.FreedIsUnowned | src/TcpServer.cc:93-133 | on every run a freed connection has no owner and no kernel set reports it |
| LifetimeTheorems.OwningFunctorsAreAlive | src/TcpServer.cc:111-133 | a queued functor that owns its connection refers to a living one: all kinds but shutdownInLoop and, as written, sendInLoop |
| LifetimePointers.AliveIffGuarded | src/TcpConnection.cc:288-290 | the connection of a queued functor is alive until the functor has run, under every continuation, if and only if the functor is guarded |
| LifetimeTheorems.FunctorFindsItsConnection | src/TcpConnection.cc:175-180 | the same in every state of every run, for each functor at each place of a queue, in both editions |
| LifetimeTheorems.OwnThreadIsSafe | example/echoserver.cc:48-55 | when send and shutdown are called only on the own thread of the connection's loop, no run has a late, orphaning or reviving send or uses a freed connection, in either edition |
| LifetimeTheorems.LateCoversAll | src/TcpConnection.cc:192-197 | a run without late sends has no orphaning and no reviving ones, so everything below holds of it |
| LifetimeWitnesses.CanDangle | src/TcpConnection.cc:288-290 | a run to a freed connection whose functor is the next to run: a shutdown's as meant, a send's as written |
| LifetimeTheorems.OwnedWhileRegistered | src/TcpServer.cc:93-133 | without an orphaning send: a registered channel's connection has an owner, and a freed connection is known to no poller |
| LifetimeTheorems.OwnershipIsExact | src/TcpServer.cc:93-133 | from no state of a run can a continuation in which no queued send asks for EPOLLOUT come to a registered channel that nobody owns, if and only if no send of the run asks for it on a connection with no destruction left to run |
| LifetimePointers.OrphanIsLost | src/TcpConnection.cc:235-253 | after such a send the loops and users go on to a state in which the registered channel has no owner |
| LifetimeWitnesses.CanLoseChannel | src/TcpConnection.cc:235-253 | a run to that state, in both editions |
| LifetimeTheorems.WalkedChannelsStay | src/EventLoop.cc:85-106 | without an orphaning send, no channel of a list being walked is removed from the poller or freed, whichever loop the connection came from |
| LifetimeTheorems.WalksAreExact | src/EventLoop.cc:85-106 | from no state of a run can such a continuation come to a loop about to handle a freed channel, if and only if no send of the run is orphaning |
| LifetimeWitnesses.CanFreeWalked | src/EventLoop.cc:89-94 | with one, a run to a loop about to handle a freed channel, which the poller's map still has |
| LifetimeTheorems.MilestonesInOrder | src/TcpServer.cc:114-134 | without a reviving send: established, closed, removed, destroyed, in this order, each at most once |
| LifetimeTheorems.OrderIsExact | src/TcpServer.cc:114-134 | from no state of a run can a continuation in which no queued send asks for EPOLLOUT bring the milestones out of order, if and only if no send of the run is reviving: closed connection, still owned, destruction not in the rest of the batch |
| LifetimeRevival.RevivalDisorders | src/TcpConnection.cc:133-144 | from there the loop goes on to close the connection once more |
| LifetimeWitnesses.CanCloseTwice | src/TcpConnection.cc:133-144 | a run to a connection closed a second time |
| LifetimeTheorems.ListedUntilRemoved | src/TcpServer.cc:95-126 | on every run the map has a connection exactly until its removal |
| LifetimeTheorems.ClosedStaysUnreported | src/TcpConnection.cc:133-144 | up to the first use of a freed connection: a closed channel is in no kernel set over a whole run if and only if no send runs unrefused on a closed connection |
| LifetimeTheorems.MeantRunsAreNeverLate | src/TcpConnection.cc:192-197 | with the meant guard no send is late, orphaning or reviving on any run without a shutdown storing after a close it did not see |
| LifetimeWitnesses.ClosedCanBeReported | src/TcpConnection.cc:283-292 | in both editions some run does put a closed channel back |
| Names.DecimalReadsBack | src/TcpServer.cc:75 | a rendered id reads back as itself, so rendering is injective |
| Names.NothingIsCut | src/TcpServer.cc:74-75 | an address and an id below 2^31 fit the 64-byte buffer |
| Names.IpPortFits | src/InetAddress.cc:27-35 | an address text has at most 21 characters |
| Names.NamesAreDistinct | src/TcpServer.cc:74-77 | two names are equal if and only if the ids are |
| Names.LongAddressesCollide | src/TcpServer.cc:74-77 | an address text of 62 characters or more would make all names equal |
| ThreadPool.EventLoopThreadPool.Start | src/EventLoopThreadPool.cc:25-45 | one new loop per thread; the callback runs for each, or for the base loop when the number is zero |
| ThreadPool.EventLoopThreadPool.GetNextLoop | src/EventLoopThreadPool.cc:48-62 | the loop at `next_`, which advances round the list and stays in range; the base loop when there is none |
| ThreadPool.EventLoopThreadPool.GetAllLoops | src/EventLoopThreadPool.cc:64-74 | all io loops, or the base loop alone |
| ThreadPool.LoadIs | src/EventLoopThreadPool.cc:48-62 | after k turns the i-th of n loops has had k / n, plus one when i < k mod n |
| ThreadPool.LoadsAreBalanced | src/EventLoopThreadPool.cc:48-62 | two loops' loads differ by at most one |
| TcpServerModel.TcpServer.constructor | src/TcpServer.cc:19-35 | no connections, ids from 1 |
| TcpServerModel.TcpServer.Start | src/TcpServer.cc:59-67 | threads and listening start once, however often it is called |
| TcpServerModel.TcpServer.NewConnection | src/TcpServer.cc:70-112 | the k-th connection goes to loop k mod n under a name that was not in the map, and is established there |
| TcpServerModel.TcpServer.RemoveConnection | src/TcpServer.cc:114-119 | removal at once on the base loop's thread, with the destruction queued; queued and announced from any other |
| TcpServerModel.TcpServer.RemoveConnectionInLoop | src/TcpServer.cc:121-134 | erases that connection and no other; its destruction is always queued on its own loop |
| TcpServerModel.TcpServer.LoopsAreBalanced | src/TcpServer.cc:73 | after any number of accepted connections two io loops' numbers differ by at most one |
| ServerMap.StepMirrors | src/TcpServer.cc:93-126 | in the lifetime machine no insertion overwrites and each erasure takes what it means to |
| ServerMap.MapIsCreatedNotRemoved | src/TcpServer.cc:95-126 | over every run, late sends or not, the keys are the names of the connections created and not yet removed, each leading to its connection |

## Left out

- TcpConnectionModel.TcpConnection.Send: that `src/TcpConnection.cc:175-180` passes the address of a string that may be gone when the functor runs is not modelled, the payload travels as a copy. Whether the functor owns its connection is: as written it does not.
- TcpConnectionModel.TcpConnection.HandleRead: message and connection callbacks are not run inside the handlers; user code appears as sends, shutdowns and pointers in the machines of HalfClose and Lifetime. handleError only logs.
- TcpConnectionModel.TcpConnection.HandleClose: the close callback is counted here; what it does is in Lifetime and TcpServerModel.
- TcpConnectionModel.TcpConnection.ConnectEstablished: the connection callback is opaque, as in HandleRead.
- PollerModel.Channel.Tie: whether the weak pointer still finds an owner is a parameter of HandleEvent; in Lifetime it is the ownership of that state.
- BufferModel.Buffer.RetrieveAsString: more than the array holds behind the reader index cannot be asked for, since the source would read past it.
- BufferModel.Buffer.MakeSpace: sums of sizes are unbounded; the wrap-around of `size_t` is not modelled.
- HalfClose.QueuedHalfClose: the connection neither closes nor faults, as the property says, and the only calls on it are those of the one caller.
- CallQueue.ForeignHalfClose: as in HalfClose.QueuedHalfClose. A send's check and its push are one step of these runs; that they are two is in HalfClose.CallsArrive.
- LifetimeTheorems.OwnedWhileRegistered: runs end at the first use of a freed connection, whose effect is not defined; CanDangle and CanFreeWalked show how one comes about. In the schedules constructed by AliveIffGuarded, OrphanIsLost and RevivalDisorders, and in ListedUntilRemoved, such a use of another connection counts as doing nothing.
- LifetimeTheorems.OrderIsExact: user code may get hold of any established connection that has an owner, as it does through its callbacks, whose functors carry one.
- LifetimeTheorems.MilestonesInOrder: at most one close per dispatch; the readiness that closes twice is the subject of ClosedAtMostOncePerDispatch.
- LifetimeTheorems.NoCtlRefused: the pollers hold the channels of connections; a loop's wakeup channel and the acceptor's channel, registered once on fds of their own, are not in that machine.
- LifetimeSanity.StepKeepsSane: server and loops outlive the run; the destructors of TcpServer, EventLoop and EventLoopThread are not modelled.
- EventLoopModel.EventLoop.Loop: what other threads and functors do in a round is given as a script; all interleavings are those of LoopProtocol. Time and the poll timeout are a poll that may return without the eventfd.
- TcpServerModel.TcpServer.NewConnection: ids stay below 2^31, where the source's `int` would overflow; getsockname and the callbacks it sets are left out.
- PollerModel.EPollPoller.Poll: the kernel reports registered fds only, each at most once; timestamps are left out. Event words are sets of the five flags the library tests.
- Acceptor, Socket, InetAddress beyond its text, Thread, the start-up handshake of EventLoopThread, Logger and Timestamp are system calls and plumbing.
- Poller creation by environment variable: one choice returns no poller, the other is the epoll poller modelled here.
- A write of an empty payload is a write that returns 0; errno is a parameter and may be stale, as in the source.
