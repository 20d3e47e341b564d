# A verified model of the AFDX data daemon

The daemon receives flight data as UDP packets, keeps the latest values, and serves them to local clients on request
or periodically. Three hand-written structures, shared by four threads, carry this. The project models them and proves
what they keep over every run.

| file | models |
|---|---|
| `Timespec.dfy` | `struct timespec` arithmetic of the scheduler, with C's truncating division |
| `TaskQueue.dfy` | the scheduler's queue as a sorted sequence: stable insertion, removal, re-timing, one pass |
| `SchedulerList.dfy` | the doubly linked list itself, its pointers changed in place, proved against `TaskQueue` |
| `SchedulerSteps.dfy` | the scheduler thread and its callers, interleaved at the granularity of the mutex |
| `SchedulerHistory.dfy` | the same runs in terms of their steps alone: what is scheduled, fired, called and slept for |
| `SchedulerMachine.dfy` | those interleavings carried out on the linked list itself |
| `RegistryTable.dfy` | the registration table as a value, which refines a map from descriptor to queries |
| `RegistryList.dfy` | the two-level linked list of applications and queries, in place, tied to the scheduler's list |
| `RegistrySteps.dfy` | the registration operations in their parts, interleaved with the scheduler thread |
| `RegistryHistory.dfy` | what each registration operation has done when it is through, in terms of the step that began it |
| `SelectLoop.dfy` | one turn of the select loop over the registry: visits, descriptors, connections, queued tasks, replies |
| `InternalData.dfy` | decoding of packets into the daemon's data, and answers to queries |
| `PacketRing.dfy` | the ring of packet slots, in place, proved against unbounded counters |
| `Pipeline.dfy` | the network and elaboration threads interleaved over the ring |
| `PipelineHistory.dfy` | the runs of the pipeline in terms of their steps alone: from the packets that came to the replies |

The files form two layers. A class changes pointers, fields or array elements as the C code does, and its contracts name
functions on sequences; the lemmas say what those functions guarantee. A method of a class runs undisturbed. The
`...Steps` modules and `Pipeline` add the interleavings: they use the same functions in transition systems, where a step
is one critical section, one system call or one assignment, and their theorems speak of every run. `SchedulerMachine`
joins the layers for the scheduler: it carries out every run on the linked list. Clients may register before the
scheduler thread runs, because `init_all` starts the application manager first (`src/afdx.c:20-21`); runs begin there.
Clock readings, packets, the results of `select`, `accept` and `read`, and the addresses that `malloc` returns are
arbitrary parameters.

Some results are negative, and each is stated as an exact condition.

* A client may ask for an update interval of 0 ms. The inner loop of the scheduler thread, at a fixed clock reading, ends if and only
  if every task that is due has a positive interval (`TaskQueue.PassEndsIff`). Beside tasks of positive intervals a registration
  leaves every pass finite if and only if it asks for more than 0 ms (`SelectLoop.RegistrationEndsIff`); once a registration for
  0 ms is queued, no pass ends any more (`SelectLoop.RegisteredForever`).
* The elaboration thread consumes one packet per wakeup, signals are not counted, and a full queue sends none. From a
  reachable state another packet can be consumed without a spurious wakeup if and only if it is not the case that the queue
  is full, the network thread is between packets and no wakeup is on its way (`Pipeline.CanConsumeIff`). For every queue
  size that state can be reached (`Pipeline.StallReachable`); from then on the data does not change unless
  `pthread_cond_wait` returns spuriously (`Pipeline.StalledForever`, `Pipeline.SpuriousEndsStall`).
* `pthread_cond_wait` may return without a signal, and the elaboration thread does not check for that. Such a wakeup can
  lead to a read of an unfilled slot, or of none, if and only if as many packets have been consumed as signals were sent
  (`Pipeline.SpuriousMisreadsIff`). The theorems on the pipeline cover every run in which no spurious wakeup comes at such a moment.
* `schedule` takes a `long`. The times it computes are ordered by `tm_ge` as the instants are if and only if the number of
  milliseconds is not negative or is a whole number of seconds (`Timespec.ScheduleOrderedIff`).

The semaphore of the packet queue is named and commented as the number of nodes (`src/queue.c:15`, `src/queue.c:49`), but the
code raises it for refused requests too. The model follows the code: the value is reservations plus refusals minus
completed waits.

## Model

| member | source | states |
|---|---|---|
| Timespec.TmIncrExact | src/scheduler.c:40-43 | Advancing a time adds the durations exactly for all arguments; a normal time advanced by non-negative nanoseconds is normal; the nanosecond sum of normal values stays below 2^31 |
| Timespec.IntervalIff | src/scheduler.c:40-43 | Advancing by a duration keeps every normal time normal if and only if its nanoseconds are not negative |
| Timespec.OrderedIff | src/scheduler.c:36-37 | The comparison macro orders a value and all normal times as the instants if and only if the value is normal |
| Timespec.TmGeIsOrder | src/scheduler.c:36-37 | On normal values the comparison macro is the order of the instants in nanoseconds |
| Timespec.FromMsExact | src/scheduler.c:145-151 | Milliseconds become exactly ms * 10^6 ns, for negative numbers too; the timespec is normal, and keeps times normal, if and only if ms is not negative or a whole number of seconds |
| Timespec.ScheduleOrderedIff | src/scheduler.c:145-151 | The times computed from milliseconds are compared as instants at every clock reading if and only if the number is not negative or a whole number of seconds |
| Timespec.RetimeExact | src/scheduler.c:180-187 | A due node is re-timed at most one interval past the clock, and lands strictly after the clock if and only if its interval is positive |
| TaskQueue.CountUpTo | src/scheduler.c:53-71 | The search skips the tasks at or before a time and stops at the first later one |
| TaskQueue.InsertIsStable | src/scheduler.c:47-82 | Insertion keeps the queue sorted and puts the task after all tasks with time not later than its own and before all later ones, moving nothing else |
| TaskQueue.InsertHandles | src/scheduler.c:47-82 | Insertion adds exactly the new handle and keeps handles distinct |
| TaskQueue.RemoveKeeps | src/scheduler.c:86-96 | Removal keeps order and distinctness and takes out exactly that handle |
| TaskQueue.RemoveAllKeepsOthers | src/registration.c:155-161 | Removing handles one by one leaves every other task, in the same relative order |
| TaskQueue.InsertThenRemove | src/scheduler.c:47-96 | Inserting a task and removing it gives the original queue |
| TaskQueue.RetimeTaskExact | src/scheduler.c:180-187 | A due task is next due one interval after its time or, if that has passed, one interval after the clock reading: never further than one interval past the clock |
| TaskQueue.DispatchDue | src/scheduler.c:176-188 | One turn moves the head from the due prefix to its stable place among the tasks that are not due, at most one interval past the clock |
| TaskQueue.PassFiresDue | src/scheduler.c:176-192 | With positive intervals an undisturbed pass fires exactly the tasks due at its start, each once, in queue order, and leaves the rest with the re-timed ones stably inserted in firing order |
| TaskQueue.PassNeverEnds | src/scheduler.c:176-192 | A due task with a non-positive interval keeps the head due after any number of turns |
| TaskQueue.PassEndsIff | src/scheduler.c:176-192 | An undisturbed pass ends if and only if every due task has a positive interval |
| TaskQueue.StuckNeverEnds | src/scheduler.c:176-192 | From the time a task without a positive interval is due no pass ends, whatever else is queued |
| TaskQueue.InsertEndsIff | src/scheduler.c:115-192 | A task added to tasks of positive intervals leaves all passes finite, at every clock reading, if and only if its interval is positive |
| SchedulerList.Scheduler.FindPlace | src/scheduler.c:49-59 | The cursors end around the insertion position of the sorted sequence |
| SchedulerList.Scheduler.LinkBetween | src/scheduler.c:60-81 | The pointer updates produce the well-linked list that has the node at that position |
| SchedulerList.Scheduler.InsertNode | src/scheduler.c:47-82 | In place: the list stays well linked and sorted, and its meaning is stable sorted insertion |
| SchedulerList.Scheduler.RemoveNode | src/scheduler.c:86-96 | In place: exactly that node leaves the list; its own links are untouched |
| SchedulerList.Scheduler.Pop | src/scheduler.c:99-112 | In place: the head leaves the list, or null is returned and nothing changes |
| SchedulerList.Scheduler.InsertAndRemove | src/scheduler.c:47-96 | Inserting and removing a node restores order, ends and every prev and next link |
| SchedulerList.Scheduler.ScheduleTs | src/scheduler.c:115-142 | A fresh node is due one interval after the clock reading, for every interval that keeps times normal, and the signal is sent if and only if it became the head |
| SchedulerList.Scheduler.Schedule | src/scheduler.c:145-151 | The same with an interval in milliseconds, for every number whose times are ordered |
| SchedulerList.Scheduler.Unschedule | src/scheduler.c:154-160 | The handle's task, and no other, is removed |
| SchedulerList.Scheduler.RetimeNode | src/scheduler.c:181-187 | The in-place timespec updates give the time of Timespec.Retime, which RetimeExact describes, and equal the re-timing of the task |
| SchedulerList.Scheduler.DispatchHead | src/scheduler.c:176-188 | Pop, re-time and re-insert equal one turn of the sequence; the set of nodes is unchanged |
| SchedulerList.Scheduler.RunPass | src/scheduler.c:172-192 | The loop fires the due nodes of the list in order and leaves the queue that PassFiresDue describes |
| SchedulerSteps.TurnIsDispatch | src/scheduler.c:176-191 | The three steps of the thread for a due head make one turn of the sequence, and what is called is that head |
| SchedulerSteps.QueueInvStep | src/scheduler.c:115-192 | Every step keeps the queue sorted, with distinct handles, and holding exactly the live handles save the one in the thread's hands |
| SchedulerSteps.QueueSafety | src/scheduler.c:115-192 | In every interleaving, when the mutex is free the queue holds exactly the scheduled handles, so unschedule finds its node; a popped node is back before the mutex is free |
| SchedulerSteps.WakeInvStep | src/scheduler.c:135-138 | Every step keeps that an unsignalled sleeper has an empty queue or a deadline not after the head |
| SchedulerSteps.NoLateWakeup | src/scheduler.c:193-209 | In every interleaving and for every clock, once the clock reaches the head's time a pending signal or the deadline wakes the sleeper |
| SchedulerSteps.RateBound | src/scheduler.c:128-133 | For every clock behaviour the n-th firing of a node happens not before start + n intervals; its next time is not before start + (n + 1) intervals, at most one interval after the clock reading, and exactly the lower bound if it was never skipped |
| SchedulerSteps.PassBound | src/scheduler.c:172-192 | With positive intervals a pass makes at most as many dispatches as tasks due at its start plus tasks added meanwhile, and fires no node twice |
| SchedulerSteps.PassComplete | src/scheduler.c:172-209 | In every interleaving a pass that ends has fired every node that was due at its start and has not been unscheduled since |
| SchedulerHistory.QueueOfSteps | src/scheduler.c:115-192 | In every interleaving, when the mutex is free, the queue is sorted and holds exactly the nodes inserted and not unscheduled since |
| SchedulerHistory.RateOfSteps | src/scheduler.c:128-187 | The n-th firing of a node counted over the steps: its clock reading is not before start + n intervals, and the node goes back with its data and interval, due from start + (n + 1) intervals on but at most one interval after the reading |
| SchedulerHistory.DispatchesBound | src/scheduler.c:172-192 | With positive intervals the dispatches of a pass are at most the tasks due when it read the clock plus the insertions since |
| SchedulerHistory.FiredOnlyOnce | src/scheduler.c:172-192 | With positive intervals a node fired twice in a pass has been unscheduled in between |
| SchedulerHistory.DueIsFired | src/scheduler.c:172-209 | A pass that ends has fired every task that was due when it read the clock and was not unscheduled since |
| SchedulerHistory.CallsHead | src/scheduler.c:176-190 | In every interleaving what is called is the task that was at the head at the latest pop, due at the clock reading of the pass, and put back before |
| SchedulerHistory.SleepIs | src/scheduler.c:193-209 | In every interleaving the thread sleeps until the time the head had when it fell asleep, a signal is pending if and only if an insertion has changed the head since, and nothing has woken it |
| SchedulerHistory.ListChanges | src/scheduler.c:115-209 | In every interleaving callers change the list only before the thread first locks the mutex, during a callback and during a wait |
| SchedulerHistory.ScanProceeds | src/scheduler.c:174-209 | When no task is due, the thread reads the clock again if the pass has dispatched something and sleeps if not |
| SchedulerHistory.ThreadMoves | src/scheduler.c:171-209 | The control flow of the thread: from where and to where each of its steps goes, and that steps of callers can only set the signal of a sleeper |
| SchedulerHistory.ThreadProceeds | src/scheduler.c:171-209 | In every interleaving the thread has an enabled step outside of a wait |
| SchedulerHistory.CallersProceed | src/scheduler.c:115-160 | In every interleaving callers of schedule and unschedule only wait for the mutex |
| SchedulerMachine.Machine.Enqueue | src/scheduler.c:133-139 | On the list: the prepared node goes in, the other nodes stay as they were, and the signal is sent exactly when the queue of the steps has another head |
| SchedulerMachine.Machine.Cancel | src/scheduler.c:154-160 | On the list: unschedule unlinks and frees the node of the address and no other |
| SchedulerMachine.Machine.PutBack | src/scheduler.c:180-188 | On the list: the popped node is re-timed and linked in again, while callers' prepared nodes stay as they were |
| SchedulerMachine.Machine.HeadDueIff | src/scheduler.c:176-176 | The test of the inner loop on the pointers decides whether the head of the queue is due |
| SchedulerMachine.Machine.Execute | src/scheduler.c:115-192 | After every interleaving the list is well linked, prev and next mirror each other between first and last, and it means the queue that the steps compute |
| RegistryTable.RegisterRefines | src/registration.c:23-61 | Registration prepends the query to its descriptor, creating the entry if needed, and changes no other descriptor |
| RegistryTable.UnlinkRefines | src/registration.c:75-111 | Unregistration deletes exactly the newest query with that request id, or changes nothing when there is none |
| RegistryTable.DropRefines | src/registration.c:126-152 | Unregistering an application removes its descriptor only, and is idempotent |
| RegistryTable.PairBagMember | include/application_manager.h:9-21 | The bag of handler and node pairs has exactly the nodes of all lists |
| RegistryList.Registry.Find | src/registration.c:23-26 | The cursors end at the application of the descriptor and its predecessor |
| RegistryList.Registry.RegisterQuery | src/registration.c:14-64 | In place: table and queue become those of the specification, and the bijection with the scheduler's nodes holds again |
| RegistryList.Registry.UnregisterQuery | src/registration.c:66-115 | In place: the first match and its task go, or nothing changes, and the bijection holds again |
| RegistryList.Registry.CancelAll | src/registration.c:153-161 | The loop removes the tasks of all queries of the dropped application |
| RegistryList.Registry.UnregisterApplication | src/registration.c:117-167 | In place: the application and exactly its tasks go, and the bijection holds again |
| RegistrySteps.BindInvStep | src/registration.c:14-167 | Every step keeps scheduled nodes = nodes of the table + nodes in the operation's hands, with multiplicity |
| RegistrySteps.Bijection | src/registration.c:14-167 | In every interleaving, between operations, each query has exactly one queued node that carries it and is its handler, every queued node arises so, and each query points to its application |
| RegistrySteps.FiresOnlyRegistered | src/registration.c:57-61 | In every interleaving, also inside an operation, a scheduled node belongs to a registered query or to the one being registered or unregistered |
| RegistrySteps.UnregisterProceeds | src/registration.c:101-101 | In every interleaving unschedule is only given handles that are scheduled |
| RegistrySteps.DroppedHasNoTasks | src/registration.c:117-167 | In every interleaving a descriptor that is not registered has no scheduled node |
| RegistryHistory.RegisteredAsAsked | src/registration.c:14-64 | In every interleaving a finished registration has put its query in front of its descriptor's queries, with a node scheduled at the interval asked for, and changed no other descriptor |
| RegistryHistory.UnregisteredAsAsked | src/registration.c:66-115 | In every interleaving unregister_query unschedules the node of the newest query with the request id, and takes out that query alone |
| RegistryHistory.NothingToUnregister | src/registration.c:66-115 | Without such a query it changes nothing |
| RegistryHistory.DroppedAsAsked | src/registration.c:117-167 | In every interleaving a finished unregister_application has unscheduled the nodes of all queries of its descriptor, taken it out, and changed no other descriptor |
| RegistryHistory.OperationsProceed | src/registration.c:14-167 | In every interleaving an operation can begin when none is under way, and then waits for the scheduler's mutex only |
| RegistryHistory.CallsRegistered | src/scheduler.c:188-190 | In every interleaving the callback that is about to run belongs to a registered query or to the one in the hands of the operation |
| SelectLoop.VisitsPrefix | src/application_manager.c:109-113 | A counted loop visits the first ready descriptors, as many as its count allows |
| SelectLoop.LoopsCompleteIff | src/application_manager.c:109-161 | Both loops visit all their descriptors if and only if the count covers both sets or there are none |
| SelectLoop.NoTaskLeft | src/registration.c:153-161 | Where tasks and table are in bijection, every task belongs to a registered descriptor |
| SelectLoop.MessagesAreEvents | include/application_protocol.h:12-48 | Every message with a normal clock reading that names an existing engine if it asks for one is an event of the loop |
| SelectLoop.AppManager.RegisteredManaged | src/application_manager.c:79-168 | Registered descriptors are managed clients, and managed descriptors are below nfds |
| SelectLoop.AppManager.Accept | src/application_manager.c:85-101 | A new connection is managed and below nfds, and neither a registration nor a queued task of an earlier client with that descriptor is left |
| SelectLoop.AppManager.CloseFailed | src/application_manager.c:118-132 | Unregistering and closing twice equals once |
| SelectLoop.TraceTreats | src/application_manager.c:111-167 | The visits of a loop leave the queries of every visited client as its event asks and touch no other |
| SelectLoop.TaskStays | src/application_manager.c:109-167 | Visits to other clients leave a client's tasks in the queue with their intervals and times |
| SelectLoop.RegisteredOnTime | src/application_manager.c:145-147 | A client that registers and is not visited again in the turn is left with a task at the interval it asked for, due one interval after the clock reading |
| SelectLoop.RegisteredForever | src/application_manager.c:145-147 | If it asked for 0 ms, no pass of the scheduler ends from the clock reading on |
| SelectLoop.RegistrationEndsIff | src/application_manager.c:145-147 | Beside tasks of positive intervals a registration leaves all passes finite if and only if it asks for more than 0 ms |
| SelectLoop.TraceReplies | src/application_manager.c:142-144 | What has been sent after any visits is the replies to the visited requests, in order, from the data at the start |
| SelectLoop.RepliesAnswer | src/application_manager.c:171-247 | A reply is sent to a descriptor if and only if a visited request of that descriptor has it as its answer |
| SelectLoop.AppManager.OnReadable | src/application_manager.c:111-155 | Each kind of read result has exactly its effect on table, queued tasks, managed descriptors and replies |
| SelectLoop.AppManager.ReadLoop | src/application_manager.c:109-156 | The first loop treats exactly the visited clients, one after the other, each as the message read from it asks: 1 sends the answer, 2 puts the query in front, 3 deletes the first match, others do nothing; it forgets exactly those from which no message is read |
| SelectLoop.AppManager.ExceptLoop | src/application_manager.c:157-167 | The second loop drops and forgets exactly the visited clients, with their tasks, and touches no other |
| SelectLoop.AppManager.Turn | src/application_manager.c:82-168 | When select's count is right, a turn visits every ready client once per set whether or not it accepts; it is the sequence of these visits, with their effects on table, queued tasks and replies; registered descriptors stay managed clients below nfds |
| InternalData.GetPut | src/elaboration_thread.c:32-63 | An assignment changes its field and no other |
| InternalData.FlagsRoundTrip | src/elaboration_thread.c:50-63 | The three engine flags can be read back from the stored number |
| InternalData.WritesDecode | src/elaboration_thread.c:29-67 | The assignments, one after the other, replace exactly the records the packet describes |
| InternalData.DecodeField | src/elaboration_thread.c:29-67 | After a packet a field has the value the packet carries, or else the one it had |
| InternalData.LatestWins | src/elaboration_thread.c:29-67 | After any packets a field has the value of the latest one that carries it |
| InternalData.NeverCarried | src/elaboration_thread.c:29-67 | A field that no packet carries keeps its first value |
| InternalData.HalfApplied | src/elaboration_thread.c:29-67 | While a packet is applied each field has its value before or after it |
| InternalData.LatestAdiru | src/elaboration_thread.c:31-40 | After any packets attitude and speeds hold the latest packet of identifier 1, its reception time included |
| InternalData.LatestEngine | src/elaboration_thread.c:41-63 | After any packets the record of an engine holds the latest packet of identifier 2 for it, its reception time and flags included |
| InternalData.NoneSpeaks | src/elaboration_thread.c:29-67 | Records of which no packet speaks stay as they were |
| InternalData.EngineReplies | src/application_manager.c:181-215 | From packet to reply: data ids 0 to 6 are answered with the fields of the engine packet |
| InternalData.AdiruReplies | src/application_manager.c:216-239 | From packet to reply: data ids 7 to 12 are answered with the fields of the ADIRU packet |
| InternalData.Store.Elaborate | src/elaboration_thread.c:29-67 | In place: the assignments replace attitude and speeds, or the record of one engine, by the fields of the packet and its reception time |
| InternalData.Store.Serve | src/application_manager.c:171-240 | The reply is the answer to the query: it echoes the request id, carries for each of the 13 data ids the field of the data it stands for in the member of its width, and leaves the other members as they were |
| PacketRing.PointerTests | src/queue.c:26-73 | The full and empty tests on wrapped pointers decide exactly whether all slots but one, or none, are taken |
| PacketRing.WrapIsMod | src/queue.c:26-73 | A pointer is its unbounded counter modulo the queue size |
| PacketRing.Queue.NextIn | src/queue.c:17-43 | A free slot joins the window of taken slots at its end, or none is free; the semaphore rises in both cases |
| PacketRing.Queue.NextOut | src/queue.c:45-62 | The oldest taken slot is returned and stays taken; the semaphore falls |
| PacketRing.Queue.DisposeLast | src/queue.c:64-76 | The oldest taken slot is given back |
| Pipeline.InvStep | src/network_thread.c:74-102 | Every step of either thread keeps counters, slots and data in agreement, spurious wakeups included if more signals were sent than packets consumed |
| Pipeline.ConsumerSafety | src/elaboration_thread.c:23-70 | In every interleaving disposals <= wakeups <= signals <= fills <= reservations <= fills + 1, and a woken consumer never blocks, gets a completely filled slot, and advances |
| Pipeline.DataIsFold | src/elaboration_thread.c:23-70 | In every interleaving the data is the fold of the decoder over the first packets that arrived, in order, each with its reception time |
| Pipeline.StampFills | src/network_thread.c:94-95 | A slot is filled with the packet received last and the time read after it |
| PipelineHistory.CountsOfSteps | src/queue.c:17-76 | In every run the steps are ordered: disposals <= wakeups <= signals <= fills <= packets <= reservations tried; the semaphore is the latter minus the completed waits |
| PipelineHistory.DataOfSteps | src/elaboration_thread.c:23-70 | In every run the data is the fold over the first packets received by the steps with the times read by them, as many as there are disposals |
| PipelineHistory.AdiruOfSteps | src/application_manager.c:216-239 | From the network to the client: the data holds the latest consumed ADIRU packet and its time, and queries are answered with it |
| PipelineHistory.EngineOfSteps | src/application_manager.c:181-215 | The same for the engine packets |
| PipelineHistory.ThreadsProceed | src/network_thread.c:74-102 | In every run the network thread can take its next step, whatever packet comes, and so can the elaboration thread unless it waits |
| Pipeline.FieldNeverTorn | src/application_manager.c:180-240 | At every moment a field that another thread reads is that of the packets consumed so far or one more |
| Pipeline.FieldIsLatest | src/application_manager.c:180-240 | Between packets a field is that of the latest consumed packet that carries it |
| Pipeline.SlotExclusive | src/queue.c:64-76 | In every interleaving the slot being read is not the one in the producer's hands |
| Pipeline.CanConsumeIff | src/elaboration_thread.c:23-70 | From a reachable state another packet can be consumed without a spurious wakeup if and only if the pipeline is not stalled |
| Pipeline.StalledForever | src/network_thread.c:77-78 | A stalled pipeline stays stalled and its data never changes, as long as no wakeup is spurious |
| Pipeline.SpuriousEndsStall | src/elaboration_thread.c:27-28 | A stall is ended by one spurious wakeup if and only if the queue can hold a packet, and then another packet is consumed |
| Pipeline.StallReachable | src/network_thread.c:77-99 | For every queue size some run stalls the pipeline |
| Pipeline.SpuriousMisreadsIff | src/elaboration_thread.c:27-28 | From a reachable state a spurious wakeup can lead to a read of no slot or an unfilled one if and only if as many packets have been consumed as signals were sent |
| Pipeline.SpuriousWakeReadsUnfilled | src/elaboration_thread.c:27-28 | The shortest such run: the slot handed out is reserved and not filled |

## Left out

- Pipeline.ConsumerSafety: excludes spurious wakeups at moments when as many packets have been consumed as signals were sent, since the property fails after exactly those (Pipeline.SpuriousMisreadsIff). The same holds for the other theorems on runs of the pipeline.
- Pipeline.InvStep: models the two endless thread loops as steps of a transition system, not as methods, because the loops do not end.
- SchedulerList.Scheduler.RunPass: requires positive intervals of the due tasks, the exact condition under which the loop ends (TaskQueue.PassEndsIff).
- SchedulerList.Scheduler.Schedule: takes no negative number of milliseconds that is not a whole number of seconds, since the order of the list then fails (Timespec.ScheduleOrderedIff); its only caller passes an unsigned 16-bit field.
- SchedulerList.Scheduler.ScheduleTs: takes no interval with negative nanoseconds, for the same reason (Timespec.IntervalIff).
- SchedulerMachine.Machine.Execute: takes over from the steps where the thread is and which addresses malloc returns; the objects that data addresses stand for are fixed.
- SelectLoop.AppManager.Turn: assumes that select succeeds with the right count; on an error the code goes on with the unchanged sets and a count of -1. The daemon's data does not change during a turn, and every write of a reply succeeds.
- SchedulerSteps.NoLateWakeup: takes the deadline as a value when the thread goes to sleep; the code passes a pointer into the head node.
- Lifetime of a callback: a dispatched callback reads its query node without a lock, after an unregistration may have freed it. The model captures the task at the pop and claims integrity of the list and the table only.
- The endless outer loops of the scheduler thread and of the select loop; every pass or turn is arbitrary, so invariants carry over all of them.
- Integer widths of seconds, of counters and of field values; every value is copied between fields of one width. Only the nanosecond sum is bounded.
- Sockets, receive errors, short datagrams, the source address of packets, memory layout, the overlay of the two payload views, `daemonize`, `main`, and the demo clients.
- Allocation failures and the calls of `exit`; the log and its module.
- Engine numbers outside 0..3, which the code uses as an index unchecked; they are excluded on packets and queries.
