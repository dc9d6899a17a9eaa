# rctl: a verified model

rctl lets one operator run commands on many devices. Each device runs a client that connects to the server over TLS
and registers under a device id; the server groups clients into classes by that id, sends a command to every client
of a class, appends what comes back to a log file named after the device, and can open a shell on a single device.

The model covers:

- **The concurrent client registry** (`Registry.dfy`). Three threads share a list of classes, one client list per class, a
  list of all clients and an epoll set, under four kinds of mutex. The state machine takes one step per lock, unlock
  or access between them, for any number of classes and clients. Every access checks that the object is alive, every
  unlock that the lock is held, every free and close that there is something to free; a violation is the outcome
  `Fault`. `RegistryInvariant.dfy` states the invariant, `RegistryLemmas`, `RegistrationProof`, `RemovalProof`,
  `OperatorProof`, `LockProof` and `StepProof` show that every step keeps it, `SafetyProof` that no step
  faults, and `ServerTheorems`, `Progress`, `Arrivals`, `Scenarios` and `Fairness` state what follows for every run, finite or
  endless.
- **What the operations do, call by call** (`Traces.dfy`, `Admission.dfy`, `Events.dfy`, `Commands.dfy`, `LogTraces.dfy`). A trace is a
  stretch of a run with the choices of the environment: which calls succeeded, what was read, which events were
  reported, how much a write took. From these the results say, for every interleaving, who is admitted, what an event and
  a batch of events lead to, whom a command is sent to and what is recorded of it, and what the log files gain.
- **The end of a class as the code has it** (`AsWritten.dfy`). `putclass` destroys a mutex its caller holds and frees a class
  its caller still reads. `Registry` lets the class live until the unlock that follows; `AsWritten` has the code's order,
  says exactly when it faults, and shows that short of that the two have the same runs.
- **The log files** (`DeviceLogs.dfy`, `SharedLogs.dfy`, `LogTraces.dfy`, `EndToEnd.dfy`). A file belongs to the class name, address and MAC of a
  client and outlives it. The chunks a client sends are each appended by one `write`, the records of commands by a stream
  that may pass them on in pieces, and two clients of one device write one file under two mutexes: what holds of a file
  whatever happens, when it is whole, how it is torn otherwise, and what of the output of commands arrives in it.
- **The intrusive lists** (`LinkedLists.dfy`, `SafeIteration.dfy`, `ClientLists.dfy`, `HashLists.dfy`). Nodes are heap objects
  rewritten in place; each operation is proved against the sequence operation it stands for, with a `modifies` clause
  naming the nodes it writes.
- **The byte relays** (`OutputRelay.dfy`, `ShellPump.dfy`, `ShellRounds.dfy`).
- **The formats** (`Registration.dfy`, `MacAddress.dfy`, `LogPath.dfy`).

How the step functions of `Registry` correspond to the source:

- `AcceptStep`: server/serd.c:123-142; `NewClassStep`: server/serd.c:74-77 and server/serd.c:88-121; `LinkStep`:
  server/serd.c:149-160 and server/epoll.c:30-42; `CleanStep`: server/serd.c:162-170
- `BatchStep`: server/epoll.c:54-75 and server/epoll.c:97-111; `UnlinkStep`: server/serd.c:79-86, server/serd.c:230-236 and
  server/epoll.c:44-52; `ReleaseStep`: server/serd.c:237-245
- `TraverseStep`: server/main.c:60-76 and server/main.c:99-125; `SelectStep`: server/bash.c:164-176

`Allowed` says what the environment guarantees: the allocator and the kernel hand out unused addresses and numbers, a
read returns at most a buffer, epoll reports descriptors of its set, each at most once per batch, and what one `write`
appends to a file it appends in one piece (section 2.9.7 of POSIX.1-2017, System Interfaces). Whether a call succeeds, what
is read, how much a write appends and how the threads interleave is arbitrary.

## Model

| member | source | states |
|---|---|---|
| `ServerTheorems.NeverFaults` | server/serd.c:74-246 | with a class freed only after the unlock that follows its `putclass`, in every reachable state no step of any thread uses a freed object, frees or closes twice, unlocks what it does not hold or destroys a held mutex |
| `AsWritten.FaultsExactly` | server/serd.c:79-86 | with the destroy and the free where the code has them, a step faults, in one of the ways modelled, if and only if it is the `putclass` of a removal that leaves the class without clients and without a registration in flight |
| `AsWritten.RemovalFaultsExactly` | server/serd.c:230-238 | whether a removal ends in that fault is decided before it changes anything: if and only if its client is alone on the list of its class and no registration holds a reference to it |
| `AsWritten.RunsAgree` | server/serd.c:79-86 | the fault-free runs of the code as written are exactly the runs of the model in which no class loses its last reference |
| `AsWritten.HangUpFaultsExactly` | server/epoll.c:97-111 | from every state reached without a fault, while no other thread holds a lock, every event that removes a watched client (closed, without data, or its read failing) leads to a `putclass` that faults if and only if the client was alone in its class with no registration in flight |
| `AsWritten.OneDeviceFaults` | server/serd.c:79-86 | an input: one device that registers and hangs up, with any record and from any address |
| `StepProof.StepKeeps` | server/serd.c:88-246 | the registry invariant is inductive: every step of every thread keeps it |
| `ServerTheorems.ReferenceCounts` | server/serd.c:74-86 | whenever `totlock` is free a class's `count` is the length of its client list plus the registrations holding a reference but not linked yet, and the class is on `classhead` exactly when that is positive (unless it is just being built) |
| `ServerTheorems.WindowKeepsClass` | server/serd.c:147-156 | from `newclass` returning until the client is linked the class is alive, listed, bears the registered name and counts more than its list, even when all its clients are removed meanwhile |
| `ServerTheorems.RegisteredClassAlive` | server/serd.c:149-156 | every registered client's class is alive, listed and bears the name the client registered |
| `ServerTheorems.SharedClass` | server/serd.c:92-117 | two clients registered at the same time share a class object if and only if they registered the same name |
| `Arrivals.SharedClassByDevid` | include/config.h:46-49 | in every run, two devices that registered and have stayed registered share a class object if and only if the first 32 characters of the device ids they sent agree |
| `ServerTheorems.ListedNamesDistinct` | server/serd.c:92-117 | no two classes on `classhead` have the same name |
| `ServerTheorems.ListsAgree` | server/serd.c:153-159 | whenever `totlock` is free each class's client list is `tothead` filtered by class, in the same order |
| `ServerTheorems.ListsPartition` | server/serd.c:230-237 | hence the class lists partition `tothead`: a client is on a class's list if and only if it is registered in that class, and once |
| `ServerTheorems.InterestAgrees` | server/epoll.c:30-52 | whenever `totlock` is free the epoll set is exactly the descriptors of the listed clients it took, each under its own client; it is those of all listed clients if and only if no insertion failed, a failure `epoll_insert` lets pass |
| `Scenarios.ListedUnwatched` | server/epoll.c:37-41 | an input: for every record and address some run, in which the insertion fails, leaves the client listed and the epoll set empty |
| `Arrivals.UnwatchedForEver` | server/epoll.c:104-109 | in every run a client that could not be watched stays registered and unwatched: nothing ever removes it |
| `ServerTheorems.ResourcesConserved` | server/serd.c:123-170 | the open sockets and live SSL objects are exactly those of the registered clients, the registration and the removal in progress, no two clients sharing one; log descriptors and the second close in `close_outfd` (server/serd.c:45-46) are not covered |
| `ServerTheorems.NothingLeaks` | server/serd.c:162-170 | when no registration and no removal is in progress, live clients, classes, sockets, SSL objects and mutexes are exactly those of what is listed, and counts are list lengths, whatever failed before |
| `Admission.AdmittedOnly` | server/serd.c:123-157 | in every run a client comes onto `tothead` only if its allocation, accept, SSL object, handshake and read, in this order and with no other registration in between, were calls that succeeded; and it is listed with the descriptor, address, SSL object, name and MAC those calls returned |
| `Admission.FailureUndone` | server/serd.c:128-170 | from every reachable state in which the accept, the SSL object, the handshake, the read or the allocation of a class fails, the registration thread, whatever locks the others hold, comes back to waiting with the client, its descriptor and its SSL object gone and everything else as it was |
| `ServerTheorems.FailureTakesNoReference` | server/serd.c:147-148 | on every failure exit of `accept_newcli` no class holds a reference for the dropped client |
| `ServerTheorems.FailureUnlisted` | server/serd.c:162-170 | on every failure exit the dropped client is alive, on no list and not watched |
| `Events.EventHandled` | server/epoll.c:64-75 | from every reachable state with an event pending, for all flags, at every place in the batch and through any interleaving: when the event has been handled its client is gone from `tothead`, the epoll set and memory if and only if it hung up, had no data or its read failed, and is in all three otherwise; the batch ends there if and only if it hung up or had no data, and else goes on with the next event |
| `Events.BatchDispatched` | server/epoll.c:97-111 | from one `epoll_wait` to the next the thread dispatches the events reported, in order: all, or those up to and including the first that hung up or had no data |
| `Events.CanBeHandled` | server/epoll.c:64-75 | while no other thread holds a lock the thread alone brings any pending event to its end, whatever its read returns |
| `ServerTheorems.BatchSafeToDispatch` | server/epoll.c:97-111 | every event of the batch still to be handled is for a live registered client with open descriptor and SSL object, although earlier events may have freed clients; no client occurs twice |
| `ServerTheorems.SkippedStayRegistered` | server/epoll.c:104-107 | clients of the events the `break` skips stay alive, listed and watched |
| `ServerTheorems.ClassFreedUnused` | server/serd.c:79-86 | when `putclass` frees a class no other thread holds its mutex or waits for it, its list is empty and no registration or traversal refers to it |
| `ServerTheorems.DyingClassUnreachable` | server/serd.c:236-238 | with the free taken after the unlock: from leaving `classhead` until that unlock nothing else refers to the class any more |
| `ServerTheorems.ClientLockDestroyedUnused` | server/serd.c:244-245 | when a client's mutex is destroyed nobody holds it or waits for it, and the client is on no list, not watched and not at hand in `cmd_sendcmd` or `cmd_listcli`; a `cmd_bashto` that selected it before may still use it (server/bash.c:169-170) |
| `ServerTheorems.LockOrder` | server/serd.c:230-232 | a thread holds at most one lock of each rank and waits only for a rank above all it holds, in the order `classlock`, class lock, then `totlock` or a client lock |
| `ServerTheorems.NoWaitCycle` | server/main.c:99-124 | the wait-for relation has no cycle |
| `ServerTheorems.ChainEnds` | server/main.c:99-124 | from each thread the chain of waits ends at one that is not blocked |
| `ServerTheorems.BlockedMeans` | server/serd.c:91-94 | a step is blocked if and only if the lock the thread is about to take is held |
| `ServerTheorems.SomeThreadSteps` | server/serd.c:91-119 | in every reachable state some thread can take a step: the server never deadlocks |
| `DeviceLogs.ChunksUnbroken` | server/epoll.c:54-75 | in every reachable state and for every file, shared or not: it has an entry for every chunk received, in order, but for one about to be written, and is made of the chunks as far as their writes went, each in one piece, and of the characters of the records in order: no record ever splits a chunk |
| `DeviceLogs.LogIntact` | server/main.c:106-117 | in every run every file is its entries, each as far as it was appended, one after the other in the order in which they were begun, unless it was shared at a moment when a record had been passed on to it in part: a tear needs both |
| `LogTraces.OnePieceIntact` | server/main.c:110-113 | in every run in which the stream passes each record on in one piece or not at all every file, shared or not, is whole |
| `SharedLogs.TornExactlyWhenShared` | server/main.c:106-117 | from every reachable state with both writers idle and the file whole, steps of the two writers can append two complete entries of which one is inside the other if and only if two registered clients share the file; if they do not, it stays whole |
| `SharedLogs.ChunkSplitsRecord` | server/main.c:110-113 | an input: every device has a run, in which it connects twice, after which its log is a record with a chunk inside |
| `SharedLogs.ConnectsTwice` | server/serd.c:139-160 | a device that connects again before its first connection is removed has two registered clients at one file |
| `SharedLogs.SharedBySameDevice` | server/serd.c:53-61 | while no registered class name has a slash, a file is shared if and only if two registered clients, one of them watched, have the same class name, address and MAC |
| `LogTraces.LogHoldsOutput` | server/epoll.c:54-75 | over every stretch of a run with nothing waiting at either end, and for every file, shared or not, the chunks gained are the data the reads returned, one for one; with the records removed the file gains all of it if and only if no `write` was short |
| `LogTraces.PathReceives` | server/epoll.c:64-75 | over every stretch, for every file: what is received for it is what the successful reads of its clients returned, and its chunks are what the writes took of it, in order and nothing else |
| `EndToEnd.OutputReachesLog` | client/rctl.c:358-406 | end to end, for any number of commands over one connection that delivers bytes in order to the reads: over a stretch on which the file has one client, the log stays whole and gains the data read, a beginning of the answers (output, notice or failure message, one command after the other), and all of them once all is delivered if and only if no `write` was short |
| `Commands.CommandKept` | server/main.c:128-155 | from the moment the operator gives a command to its end the command carried out is that one |
| `Commands.CommandSent` | server/main.c:99-122 | when `cmd_sendcmd` has gone through `classhead` it has tried to open the log of each client of the one class with the name given, as that list stood when its lock was taken, and has written the command given to each, once, in order and to no other, whether its log opened or not |
| `Commands.CommandRecorded` | server/main.c:107-115 | over the same stretch, for every command text and through any interleaving, every log file gains exactly one record per attempt that opened it, in order, and none for one that did not: the time in brackets, a blank, the command in quotes and a newline, complete if the stream never gives up |
| `ServerTheorems.BroadcastClass` | server/main.c:104-122 | when `cmd_sendcmd` leaves the matching class it has attempted that class's clients, each once, in list order, and no other; the list is still as it was when the class lock was taken |
| `ServerTheorems.BroadcastDone` | server/main.c:99-125 | at its end it has attempted the clients of the one class with the name, or none when no class has it |
| `ServerTheorems.ClassListNoDup` | server/serd.c:156 | no class list ever has a client twice, even halfway through a link or an unlink |
| `ServerTheorems.ListingDone` | server/main.c:60-76 | `cmd_listcli` goes through every listed class once, in order, each as it stood when its lock was taken |
| `ServerTheorems.ClassListingDone` | server/main.c:45-53 | `cmd_listclass` enters no class |
| `ServerTheorems.SelectsFirst` | server/bash.c:165-176 | `cmd_bashto` selects the first client of `tothead` with the MAC, and gives up only if none has it |
| `ServerTheorems.ListedMacSelects` | server/bash.c:161-172 | typing a MAC as the listing prints it selects a client with that MAC, at or before the listed one |
| `Progress.ListsGuarded` | server/serd.c:153-159 | every step changes `classhead`, `tothead`, a client list, a count or the life of a class only with the guarding locks held |
| `Progress.OwnStepProgress` | server/main.c:99-124 | each step a thread takes with a lock held brings it strictly nearer to holding none |
| `Progress.OtherStepNeutral` | server/main.c:99-124 | the steps of other threads leave that distance unchanged |
| `Fairness.NotInsideForEver` | server/main.c:99-124 | in every endless run a thread that takes steps for ever comes to hold no lock, again and again |
| `Fairness.NoStarvation` | server/serd.c:230-232 | in every endless run in which a thread that could have its lock again and again gets it once, every thread that waits for a lock gets it |
| `Fairness.FairLetsGo` | server/serd.c:230-239 | ... and every thread comes to hold no lock, again and again, without being assumed to go on |
| `Scenarios.RegistrationCompletes` | server/serd.c:123-160 | while the other threads hold no lock, a registration whose calls succeed runs to its end from any point and leaves the client listed, watched unless the insertion into the epoll set fails |
| `Scenarios.ClientsGetListed` | server/serd.c:153-160 | for every record and address some run leads to a client registered with them |
| `Arrivals.RegistrationStores` | server/serd.c:139-160 | a registration that completes has, under any interleaving, listed its client with the address it connected from and the MAC its device sent, in a live listed class named by the first 32 characters of the device id sent |
| `Arrivals.RunCarries` | server/serd.c:139-159 | from the read of the record on the registration carries the name and MAC it read and the address it accepted, first itself and then in the client |
| `Arrivals.OrderKept` | server/serd.c:155-156 | in every run, of two clients that stay registered, or two classes that stay listed, the one that comes first goes on coming first |
| `Arrivals.NewcomerLast` | server/serd.c:117 | a step that puts a new client on `tothead` or a new class on `classhead` puts it at the end and changes nothing else of that list |
| `Registration.RegistrationRoundTrip` | client/rctl.c:348-350 | for every NUL-free device id the name the server reads is its first 32 characters, and the MAC is unchanged |
| `Registration.ServerNameFits` | server/serd.c:110 | every name the server reads fits the class object with its NUL and is copied whole |
| `LinkedLists.LinksInverse` | include/list.h:7-9 | on a well-formed list `next` and `prev` are mutually inverse at every node |
| `LinkedLists.RingUnique` | include/list.h:7-9 | the links determine the entries |
| `LinkedLists.RingsApart` | include/list.h:7-9 | two lists with different heads share no node |
| `LinkedLists.AnyNodeHeads` | include/list.h:7-9 | every node of a ring heads it, the entries rotated accordingly |
| `LinkedLists.Tests` | include/list.h:189-244 | `list_empty`, `list_is_singular` and `list_is_last` hold exactly for no entry, one entry and the last entry |
| `LinkedLists.Add` | include/list.h:78-81 | the node becomes the first entry; only it, the head and the former first are written |
| `LinkedLists.AddTail` | include/list.h:92-95 | the node becomes the last entry; only it, the head and the former last are written |
| `LinkedLists.DelEntry` | include/list.h:116-119 | the list loses exactly the entry; only its two neighbours are written |
| `LinkedLists.Del` | include/list.h:121-126 | ... and the entry's links are poisoned |
| `LinkedLists.DelInit` | include/list.h:155-159 | ... and the entry is an empty list of its own |
| `LinkedLists.Replace` | include/list.h:135-142 | the new node takes the old one's place, entry or head; an empty old one leaves the new one an empty list |
| `LinkedLists.ReplaceInit` | include/list.h:144-149 | ... and the old node is an empty list |
| `LinkedLists.Move` | include/list.h:166-170 | the entry leaves its list and becomes the first of the target, which may be the same list |
| `LinkedLists.MoveTail` | include/list.h:177-182 | the entry leaves its list and becomes the last of the target, which may be the same list |
| `LinkedLists.RotateLeft` | include/list.h:227-235 | the first entry becomes the last; an empty list stays |
| `LinkedLists.FullRotation` | include/list.h:227-235 | rotating as often as the list is long is the identity |
| `LinkedLists.CutPosition` | include/list.h:272-284 | the entries up to `entry` go to `list` and the rest stay, for the empty, singular, head and last cases; exactly when `list` is left alone |
| `LinkedLists.SpliceBetween` | include/list.h:286-298 | the entries come, in order, before the given position |
| `LinkedLists.Splice` | include/list.h:305-310 | the entries come before those of the head, which an empty list leaves alone |
| `LinkedLists.SpliceTail` | include/list.h:317-322 | the entries come after those of the head |
| `LinkedLists.SpliceInit` | include/list.h:331-338 | as `Splice`, and the source becomes empty |
| `LinkedLists.SpliceTailInit` | include/list.h:348-355 | as `SpliceTail`, and the source becomes empty |
| `LinkedLists.CutThenSplice` | include/list.h:272-310 | cutting after any entry or the head into an initialised list and splicing back restores the list, in all cases |
| `LinkedLists.SpliceThenCut` | include/list.h:272-338 | splicing a list in and cutting after its last entry takes the same entries out again |
| `SafeIteration.ForEachSafe` | include/list.h:494-498 | whatever the body does with each entry the loop ends and visits every original entry once, in order; the kept ones stay, those moved follow what the other list held, those deleted are poisoned |
| `SafeIteration.Partitioned` | include/list.h:494-498 | the three groups partition the entries |
| `SafeIteration.Stable` | include/list.h:494-498 | the partition is stable |
| `ClientLists.LinkClient` | server/serd.c:155-156 | the client joins the end of both its lists; any third list is untouched |
| `ClientLists.UnlinkClient` | server/serd.c:233-234 | the client alone leaves both its lists; any third list is untouched |
| `ClientLists.FindByMac` | server/bash.c:164-173 | walking `tothead` through the embedded links finds the first client with the MAC, or none if there is none |
| `HashLists.PprevInverse` | include/list.h:15-17 | `*pprev == node` for every node on a well-formed list |
| `HashLists.ChainUnique` | include/list.h:11-17 | the pointers determine the nodes |
| `HashLists.ChainsApart` | include/list.h:11-17 | two lists share no node |
| `HashLists.Unhash` | include/list.h:588-595 | the list loses exactly the node and stays well-formed |
| `HashLists.Del` | include/list.h:597-602 | ... and the node's pointers are poisoned |
| `HashLists.DelInit` | include/list.h:604-610 | ... likewise, and nothing changes for a node that is on no list |
| `HashLists.AddHead` | include/list.h:612-620 | the node becomes the first |
| `HashLists.AddBefore` | include/list.h:623-630 | the node comes just before the given one |
| `HashLists.AddAfter` | include/list.h:632-641 | the second node comes just after the first |
| `HashLists.MoveList` | include/list.h:653-660 | the new head takes over all nodes in order and the old one is empty |
| `OutputRelay.SendOutput` | client/rctl.c:382-405 | the loop ends; the pieces sent are full buffers but for the last and concatenate to the output, or are the one notice when there is no output; if the connection breaks they are a beginning of it |
| `OutputRelay.RunCommand` | client/rctl.c:366-406 | one command is answered by its output, the notice or the failure message, the shell command by nothing; if the connection breaks what was sent is a beginning of that |
| `OutputRelay.RedirectedIs` | client/rctl.c:371 | the shell gets the command and as much of the redirection as the buffer holds |
| `OutputRelay.PiecesUnique` | client/rctl.c:382-405 | the output alone determines the pieces |
| `ShellPump.RunConserves` | lib/exchange.c:58-96 | in every state of every run each direction's bytes are what came out, what a loop holds and what is under way, in order |
| `ShellPump.SinksArePrefixes` | server/bash.c:123-139 | what comes out at either end is always a prefix of what went in at the other, whichever loop stops where |
| `ShellPump.AtLoopHeads` | lib/exchange.c:58-60 | at the loop heads what went in is what came out plus what is in the channel |
| `ShellRounds.RoundExactly` | lib/exchange.c:58-96 | for either loop, every outcome of its calls and whatever the other does meanwhile: a round stops if and only if one of its calls fails (but the write to the screen), and one that comes back to `select` has read from a descriptor if and only if it was reported and has passed all it read to the other end |
| `ShellRounds.ServerRound` | server/bash.c:123-139 | from every reachable state with the server loop at its head, a round that reports the keyboard, the connection or both can be run to its end, with what is typed sent and what is under way shown |
| `ShellRounds.ClientRound` | lib/exchange.c:58-96 | likewise for the client loop, the pseudo-terminal and the connection |
| `ShellRounds.TypedArrives` | server/bash.c:128-132 | from every reachable state with both loops at their heads any 1 to 2048 bytes typed can get to the pseudo-terminal, with all that was under way before |
| `ShellRounds.PrintedArrives` | lib/exchange.c:82-95 | likewise what the pseudo-terminal prints to the screen |
| `ShellRounds.BothArrive` | lib/exchange.c:67-95 | and both when both loops find both descriptors reported at once |
| `MacAddress.MacstrToMac` | server/bash.c:142-153 | the in-place loop computes `Parsed`, including the early stop that leaves bytes unset |
| `MacAddress.StrtolGroup` | server/bash.c:147-148 | `strtol` in base 16 reads exactly a group of digits up to a colon or the end |
| `MacAddress.StrtolForms` | server/bash.c:147-148 | `strtol` skips white space, takes a sign and a prefix `0x`, and reads all digits that follow, saturated to `long` |
| `MacAddress.StrtolNothing` | server/bash.c:147-148 | without a digit it reads nothing |
| `MacAddress.DigitValues` | server/bash.c:147-148 | the digits of either case have the values that print as their lower case |
| `MacAddress.SignedIs` | server/bash.c:147-148 | the number keeps its sign and is saturated to a 64-bit `long` at both ends |
| `MacAddress.GroupByteIs` | server/bash.c:147-148 | a group sets its byte to its number modulo 256, or to ff when it exceeds a 64-bit `long` |
| `MacAddress.ParsedGroups` | server/bash.c:142-153 | up to six groups of hexadecimal digits, of any length and case, set as many bytes to their values (those above ff, saturated to `long`, modulo 256) and leave the others |
| `MacAddress.MacRoundTrip` | lib/common.c:142-150 | reading a printed MAC gives it back, whatever the array held |
| `MacAddress.GetMacStrInjective` | lib/common.c:142-150 | different MACs print differently |
| `MacAddress.Canonical` | server/bash.c:142-153 | for six groups up to ff reading then printing gives the same numbers in lower-case two-digit form, and doing it again changes nothing |
| `LogPath.PathInjective` | server/serd.c:53-56 | the path determines class name, address and MAC, for all class names including those with underscores |
| `LogPath.PathParts` | server/serd.c:53-57 | the path is `/tmp/`, the class name, an underscore, the address, an underscore and the 17 characters of the MAC |
| `LogPath.DottedOctets` | server/serd.c:53-57 | the address is its four bytes in network order as decimal numbers between dots |
| `LogPath.GoesNowhere` | server/serd.c:60 | in the path `.`, an empty component and a plain component followed by `..` change nothing, nor does `..` at the root |
| `LogPath.SplitSlashed` | server/serd.c:60 | its components are what stands between the slashes |
| `LogPath.PathComplete` | server/serd.c:51-56 | for every admitted device the path has at most 71 characters, so `snprintf` never cuts it |
| `LogPath.SameFileExactly` | server/serd.c:53-61 | for all devices: two share a log file if and only if their addresses, their MACs and the parts of their class names after the last slash agree and the parts before it resolve to one directory |
| `LogPath.FileIs` | server/serd.c:53-61 | the log is the file in `/tmp` its name spells if and only if the class name has no slash |
| `LogPath.FilesDistinct` | server/serd.c:53-61 | devices whose class names have no slash share a log file if and only if they are the same device |
| `LogPath.SlashShares` | server/serd.c:53-61 | with a slash two devices can share a log file: the classes `a` and `./a` do |

Where the code departs from what its comments or names promise:

- `putclass` destroys the mutex of a class and frees the class while `cli_free` holds that mutex (server/serd.c:82-84,
  server/serd.c:231), and the unlock then reads the freed class (server/serd.c:238). It happens exactly when the last client leaves a class
  to which no registration holds a reference (`AsWritten.FaultsExactly`; seen when the removal begins,
  `AsWritten.RemovalFaultsExactly`); one device that registers and hangs up suffices (`AsWritten.OneDeviceFaults`). With the free
  moved after the unlock nothing faults (`ServerTheorems.NeverFaults`).
- The mutex that is to keep the entries of a log apart is the client's, but the file is the device's. A device that connects again before
  its first connection is removed has two clients at one file. A record still never splits a chunk, which is one `write`
  (`DeviceLogs.ChunksUnbroken`); but `fprintf` and `fflush` promise nothing about the number of writes, and a chunk can split a
  record (`SharedLogs.ChunkSplitsRecord`). It can exactly when the file is shared (`SharedLogs.TornExactlyWhenShared`), and
  only at a moment when a record has been passed on in part (`DeviceLogs.LogIntact`).
- The count `write` returns is ignored (server/epoll.c:58), so the rest of a chunk is lost when it is short; the log has all the
  output exactly when none was (`LogTraces.LogHoldsOutput`).
- `epoll_insert` tests for a result below -1 (server/epoll.c:37), which there is none. A client whose insertion fails stays
  listed and counted but is never heard, and nothing ever removes it (`Scenarios.ListedUnwatched`,
  `Arrivals.UnwatchedForEver`); the epoll set agrees with the list exactly when no insertion failed
  (`ServerTheorems.InterestAgrees`).
- A class name may contain a slash, and then different devices can share a log file: `LogPath.SlashShares` gives an input,
  `LogPath.SameFileExactly` the exact condition, `LogPath.FileIs` the one under which the file is the intended one, and
  `LogPath.FilesDistinct` the guarantee that is left.
- `list_cut_position` leaves `list` as it was, not initialised, when `head` is empty (include/list.h:275-276); the contract of
  `LinkedLists.CutPosition` says so, and the round trip holds for an initialised `list`.

## Left out

- TLS, sockets, listening, keepalive, process control, pseudo-terminal set-up, signals, the menu, argument parsing and logging macros: foreign code or plain input and output; accept, the handshake and reads are events of the environment that may fail.
- TLS as a byte channel: a read yields at most a buffer and a write sends all or fails; a shell connection is FIFO and may fail at any step.
- AsWritten.StepAsWritten: ends a run at the fault; what a C program does after destroying a held mutex or reading a freed class is not modelled.
- ServerTheorems.SelectsFirst: claims nothing about the client after `cmd_bashto` has released `totlock` (server/bash.c:169-170), when it may be freed.
- Registry.BatchStep: opening and closing the log is one bracket around the write, and the open of `write_outfd` succeeds, because the code ignores a failure there (server/epoll.c:57) and closes descriptor and stream both (server/serd.c:45-46); the operator's open may fail.
- SharedLogs.ChunkSplitsRecord: rests on a stream that passes a record on in pieces, as the C standard lets it; one that passes each record on in one `write` tears nothing (`LogTraces.OnePieceIntact`).
- ServerTheorems.NeverFaults: takes the free of a class after the unlock that follows its `putclass`; `AsWritten` has the order of the code.
- ServerTheorems.DyingClassUnreachable: likewise speaks of the class up to that unlock, where the code has freed it already.
- ServerTheorems.ResourcesConserved: leaves out the descriptors of the logs and what their second close (server/serd.c:45-46) may hit.
- DeviceLogs.ChunksUnbroken: speaks of what the server appends; what a file of that name held before the server started, links in its path and the directory of a class name with a slash being absent are not modelled.
- EndToEnd.OutputReachesLog: takes the connection as delivering a beginning of what the device sends; that the sending device is the one behind the client is the meaning of the connection.
- Fairness.NoStarvation: assumes fair scheduling of mutexes, which POSIX does not promise, and that a write to a client under a class lock returns.
- ServerTheorems.ListingDone: says which clients the listing goes through and in which order, not the text it prints of each.
- MacAddress.GetMacStr: a string value; the terminating NUL does not fit the 17-byte block the code allocates (lib/common.c:144-148).
- OutputRelay.RunCommand: the command and the messages are strings; what a command of exactly 2048 bytes does to the buffers (client/rctl.c:364, client/rctl.c:371, client/rctl.c:387) is not modelled.
- MacAddress.Strtol: `long` has 64 bits, and the text typed is a string without NUL, whatever its length.
- ShellPump.SinksArePrefixes: takes writes to the pseudo-terminal and the screen to be complete or, at the pseudo-terminal, to fail; the two loops are steps of a state machine rather than loops, since they end only by failure.
- LinkedLists.CutPosition: an `entry` that is on neither list corrupts a list of two or more entries; the documented demand that it be on the list is a precondition there.
- SafeIteration.ForEachSafe: the decision for each entry is given as two sets instead of being taken in the loop body, which the code leaves to each user of the macro.
- `count` is an unbounded integer, and the number of registered clients is not limited to what the kernel allows.
- `list_empty_careful`, `container_of` arithmetic, the iteration macros other than the forward and safe ones, `hlist_add_fake` and the `hlist` iteration macros: memory ordering, address arithmetic or easy variants.
