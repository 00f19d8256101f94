# Verified model of the fiber runtime

The repository is a small JavaScript runtime on V8 and libuv.  Scripts run on fibers.  A
primitive that has to wait allocates an `AsyncContext`, starts a libuv request and yields;
the request's callback stores a result in the context and queues it, and the event loop
drains the queue, builds a value for each context and resumes its fiber.  This project models
that machinery in Dafny and proves what scripts rely on, for every run and every interleaving.

## The parts

- `CompletionQueue.dfy`: the queue that callbacks push to and the drain swaps, with the
  coalescing wakeup.  Threads, sends and the steps of the drain interleave freely.
- `Ownership.dfy`: `shared_ptr` ownership of native handles.  Dafny has no `delete`, so an
  address is a number, the C++ heap is a map, and each object carries the count of its
  control block.
- `Results.dfy`: what each kind of operation makes of libuv's answer.
- `Runtime.dfy`: the runtime as a transition system.  Fibers, contexts, wait fields, the
  completion queue and the handles are one state; each label is one step of a script, of a
  libuv callback, of another thread, or of the drain.  Following a pointer to something null
  or deleted is the outcome `Crash`.  `History` records what happened; no step reads it.
- `RuntimeInvariant.dfy`, `RuntimeSafety.dfy`, `RuntimeHistory.dfy`, `RuntimeOrder.dfy`,
  `RuntimeAnswers.dfy`: the inductive invariant, part by part, and that every step keeps it.
- `RuntimeListeners.dfy`: which handles a removal can hit, and so when a listening socket can
  outlive its handle.
- `RuntimeTheorems.dfy`: the promises, for every reachable state and every run.
- `RuntimeDelivery.dfy`: the way of libuv's answer from the callback to the value a script gets,
  for one step, for whole runs, and that the way is always open.
- `RuntimeHandles.dfy`: which type of handle each primitive takes and where its caller then
  waits, and who owns what after a handle is made, wrapped, held, closed or freed.
- `EventLoop.dfy`: the runtime's globals as an object whose methods assign them the way the
  C++ does.  Each method takes exactly one step of the transition system; the drain is a loop
  of such steps with scripts and other threads acting in between.
- `HandleStore.dfy`: the handle store as an object, and the finalization registry.
- `Streams.dfy`: `readAll` and `writeAll` over arrays.
- `Directory.dfy`: directory listings and the C strings they own.
- `ModuleLoader.dfy`: the module cache over an arbitrary import graph.
- `ContextSwitch.dfy`: the saved contexts behind `yield` and `resume`.
- `Prelude.dfy`: options, results and sequence facts.

## Assumptions

They are written as `Enabled` in `Runtime.dfy`, or as preconditions.

- libuv's start calls succeed, except in `TCP_Poll` and `DNS_Resolve`, whose checks are modelled;
  elsewhere the code ignores the return codes.  Each request calls back at most once, a send is
  followed by a callback, and reads report the bytes they stored.
- A connection event can arrive for any handle given to `uv_listen` and not to `uv_close`,
  whether or not the handle still exists; a read event for any handle being read.  Both stop
  with `uv_close`.
- Asynchronous primitives are called on fibers, `Fiber.run` on main.  `ContextSwitch.dfy` shows
  what happens otherwise: a fiber that resumes another loses the event loop for good.
- The POSIX fiber code is the one modelled.

## Where the code differs from what one would expect

- Freeing the id of a listening server, by hand or by the finalizer of a dropped wrapper,
  destroys the handle without `uv_close`, and the next client makes `OnUvConnection` follow its
  address (`RuntimeTheorems.FreedListenerCrashes`).  `NoRunCrashes` therefore holds for the runs
  that free no open listener, and `RunCrashesIff`, `CrashesNextIff` and
  `FreeThenConnectCrashesIff` say exactly when a run crashes.
- `TCP_Close` drops the store's pointer while libuv is still closing the handle.  What libuv
  itself does with the memory then is not part of this model; the handle is still there exactly
  when a primitive's frame or a TLS handle owns it (`RuntimeTheorems.ClosingHandleExistsIff`).
- Freeing a directory's id without closing it leaks exactly the names not yet read
  (`Directory.Browse`).
- `ExternalResource` registers itself without an unregister token, so `_unregister` removes
  nothing and a finalizer still frees the id of a closed handle
  (`HandleStore.CloseDoesNotUnregister`).  That is harmless below two to the 64 additions,
  because ids are never reused (`RuntimeTheorems.LateFreeIsHarmless`).
- `Fiber.run` inside a fiber, as the servers in `test/main.js` would use it, overwrites main's
  only saved context (`ContextSwitch.NestedRunIsPossible`, `ContextSwitch.NestedResumeLosesMain`).
- Only specifiers that start with "./" are relative to the importing file; "../" and bare ones
  are relative to the working directory (`ModuleLoader.RelativeIff`,
  `ModuleLoader.ParentSpecifierIgnoresReferrer`).

## Model

| member | source | states |
|---|---|---|
| RuntimeTheorems.NoRunCrashes | main.cpp:56-70 | no run in which no open listener is freed by its id ever follows a null or deleted fiber, context, handle or server, whatever scripts, callbacks and threads do |
| RuntimeTheorems.FreedListenerCrashes | handles.cpp:35-38 | the condition is needed: listen, free the id, and the next connection follows a deleted handle |
| RuntimeTheorems.RunCrashesIff | primitives_tcp.cpp:113-115 | a run crashes exactly when, on its way, a connection arrives for a listener that was freed by id while open and that no frame and no TLS handle owns |
| RuntimeTheorems.CrashesNextIff | primitives_tcp.cpp:113-115 | in every reachable state some step can crash exactly when there is such a listener |
| RuntimeTheorems.FreeThenConnectCrashesIff | handles.cpp:35-38 | a free followed by a connection on the handle it named crashes exactly when that was an open listener owned by the store alone |
| RuntimeTheorems.SparedIffNoneAbandoned | handles.cpp:35-38 | a run freed no open listener exactly when its record of abandoned ones is empty |
| RuntimeTheorems.OpenListenersAreStored | primitives_tcp.cpp:167-182 | an open listener is in the store, under its own id, exactly as long as nobody has freed that id |
| RuntimeTheorems.StepKeepsInv | primitives_tcp.cpp:113-153 | in a good state an enabled step crashes exactly when it is a connection to a listener that no longer exists, and any other step keeps the whole invariant |
| RuntimeTheorems.RunsKeepInv | main.cpp:39-81 | the invariant holds in every state that a run reaches |
| RuntimeTheorems.ExactlyOneToken | fiber.cpp:118-133 | an existing fiber is current and running with no wait token, or suspended with exactly one place to be resumed from; every token leads to an existing suspended fiber |
| RuntimeTheorems.TokenHoldsSuspended | main.cpp:57-60 | a token's context serves exactly the operation its suspended fiber is inside; an accept entry's fiber is inside an accept on that server |
| RuntimeTheorems.TokenUnique | primitives_tcp.cpp:189-191 | two places never lead to the same fiber, so no fiber can be resumed twice |
| RuntimeDelivery.CallbackAnswers | primitives_tcp.cpp:113-164 | every callback that meets no orphan answers exactly one operation, which a fiber is suspended in and which had no answer: the context holds exactly what libuv says, leaves the place it waited in and joins the queue, a read adds its bytes to the socket's stream, and nothing else moves; only a connection with nobody waiting does nothing |
| RuntimeDelivery.AnswersAreRecorded | primitives_fs.cpp:102-117 | over every run, operations complete in the order libuv answers them, each has on record exactly the answer its own callback carried, that never changes afterwards, and no operation has an answer that no callback gave |
| RuntimeDelivery.FibersGetTheirAnswers | main.cpp:56-70 | from the start of the runtime, the i-th value a fiber received answers the i-th operation it started, with the very answer libuv gave to that operation in this run |
| RuntimeDelivery.ErrorIffFailed | primitives.h:72-82 | a fiber receives an error exactly when libuv reported one for its operation (timers and the end of a TCP stream apart) or uv_accept refused the client, and it carries libuv's code and the name of the system call |
| RuntimeDelivery.SuccessReturns | primitives_fs.cpp:67-98 | on success an open, scan, connect or accept returns the id made for it, a TCP read the number of bytes delivered, a datagram its size and peer, a file read the count or -1 at the end, a write or poll its count, and every other operation its fixed value |
| RuntimeDelivery.ResumptionMakesIff | primitives_fs.cpp:67-81 | a resumption stores a handle exactly when an open, scan or connect succeeded, or an accept that uv_accept took; it is a file, a directory or a socket accordingly, under a new id that the fiber receives; otherwise no handle is touched |
| RuntimeDelivery.AnswerReachesFiber | main.cpp:39-81 | with the loop idle, the answer of any callback can be sent, drained and returned: then the fiber whose operation it answers runs and has received exactly one more value, made of that answer |
| RuntimeDelivery.WaitersCanBeReached | primitives_tcp.cpp:137-165 | every suspended fiber waits in a place from which it can be reached: libuv can answer its request with anything, deliver any bytes or error to the handle it reads, or report a connection to its server until that is closed, or its answer is queued |
| RuntimeDelivery.QueuedMeansOngoing | main.cpp:74-81 | while anything is queued and no fiber runs, some thread still has its send to make or the loop has a next step |
| RuntimeDelivery.RunningScriptCanAct | fiber.cpp:118-133 | whoever has control can return from its primitive, or call any other, or end once nothing is on its stack |
| RuntimeHandles.StartsIff | primitives_udp.cpp:131-145 | a primitive starts exactly when its id names a file for the six file primitives, a TCP socket for accept, read, write and poll, a UDP socket for receive and send, no read is pending for the two reads, and a poll or name lookup can begin; then the operation on record names that very handle, its fiber is suspended in it, keeps the handle alive, and waits in libuv, on the handle or in the accept queue; otherwise nothing has changed |
| RuntimeHandles.ReturnUnwinds | primitives_fs.cpp:183-197 | a returning primitive hands its fiber the value it was resumed with, drops its own pointer to the handle, and only FS_Close takes an id, its own, out of the store; no other id and no other stack pointer is touched |
| RuntimeHandles.CreateMakes | primitives_udp.cpp:109-115 | a new handle goes under a new id, owned by the store alone; all other handles, ids and owners are as before |
| RuntimeHandles.ListenMakes | primitives_tcp.cpp:167-182 | the same for a new server, which libuv then reports connections to |
| RuntimeHandles.CreateTlsMakes | primitives_tls.cpp:159-170 | a new TLS handle is found under a new id, the store is its only owner, and it is exactly one more owner of its socket; without a socket under the given id nothing changes |
| RuntimeHandles.TlsKeepsItsSocket | handles.h:81-88 | from then on, in every continuation, the socket exists as long as the TLS handle does, whatever ids are closed or freed |
| RuntimeHandles.FreeLoses | handles.cpp:35-38 | a free drops the store's pointer to what the id names, destroys exactly what that owned alone, and closes nothing |
| RuntimeHandles.CloseLoses | primitives_tcp.cpp:255-261 | a close of a socket or directory under its id hands a socket to uv_close, stops its reads and unstores it; a wrong id or type changes nothing |
| RuntimeHandles.HoldOwns | primitives_tls.cpp:208-233 | a primitive's local copy is exactly one more owner of the handle its id names |
| RuntimeHandles.LetGoLoses | primitives_tls.cpp:208-233 | when the local goes, exactly what it owned alone is destroyed |
| RuntimeTheorems.AnswersInOrder | main.cpp:60-69 | the values a fiber received are the results of the operations it started, one each, in start order, with at most the current one outstanding |
| RuntimeTheorems.HandleIdsAreFresh | handles.cpp:20-25 | no two operations are answered with the same handle id |
| RuntimeTheorems.ValuesTellOutcomes | primitives.h:72-85 | equal values of two counting operations of one kind come from equal answers of libuv, and two operations answered with the same handle id are the same operation |
| RuntimeTheorems.IdsFitTheirType | handles.h:116-121 | an id that an open, a scan, a connect or an accept returned is found by the primitives for that type exactly as long as it is in the store |
| RuntimeTheorems.ResumedInCompletionOrder | main.cpp:48-70 | operations resume in the order they complete; each completes once, and none is skipped or repeated |
| RuntimeTheorems.KAheadResumeFirst | main.cpp:49-70 | an operation with k completed ones ahead of it is resumed after exactly k other resumptions, in every continuation |
| RuntimeTheorems.RunDrivesQueue | main.cpp:74-81 | every run of the runtime drives its queue through a legal run of CompletionQueue, ending in the same queue |
| RuntimeTheorems.RunIsFifo | main.cpp:48-81 | over a whole run, contexts leave the pair of queues in the order they were pushed |
| RuntimeTheorems.QuietMeansNothingQueued | main.cpp:79-80 | with no signal, no sender and no drain under way nothing is queued: every suspended fiber waits for libuv or for a connection |
| RuntimeTheorems.OneReaderPerHandle | primitives_tcp.cpp:137-153 | a handle is read exactly while a read is pending on it and it is not closing, and then one fiber, suspended in a read of it, owns the context and keeps the handle alive |
| RuntimeTheorems.StoredHandleIsOpen | primitives_tcp.cpp:255-261 | for a handle still in the store, being read and having a pending read are the same |
| RuntimeTheorems.StartIsRefusedIff | primitives_tcp.cpp:223-225 | a primitive throws, changing nothing, exactly when its id names no handle of its type, it is a second read of the handle, or it is a poll without a descriptor or a name lookup that cannot start |
| RuntimeTheorems.StreamIsSplitInOrder | primitives_tcp.cpp:143-153 | the bytes of a socket are cut into consecutive pieces: those of reads already resumed in resume order, then those of queued reads in queue order |
| RuntimeTheorems.ReadReturnsItsPiece | primitives_tcp.cpp:67-74 | a read that succeeds returns the length of its piece, end of stream returns -1, and failures carry no bytes; every read names its socket |
| RuntimeTheorems.AcceptIsFirstComeFirstServed | primitives_tcp.cpp:115-118 | the fibers that ever joined an accept queue are those served by connections, then those still waiting |
| RuntimeTheorems.ConnectionWakesTheFirst | primitives_tcp.cpp:113-123 | a connection event crashes exactly when its listener is an orphan; else it queues one context, for the first waiter, and leaves all other queues alone, and with nobody waiting it does nothing |
| RuntimeTheorems.ResumeDeliversFreshId | primitives_tcp.cpp:81-97 | a resumption that makes a handle puts it under an id and address never used before, and exactly that id is what the waiter receives; any other leaves all handles alone; no other fiber is touched |
| RuntimeTheorems.CountsAreExact | handles.h:81-88 | in every reachable state a handle's count is its store entry plus the stack frames of existing fibers holding it plus the TLS handles built on it, and is positive |
| RuntimeTheorems.WaitingHandlesExist | primitives_tcp.cpp:77-97 | the handle a suspended fiber is inside, and the raw server pointer of a queued accept, always exist, whatever was closed or freed meanwhile |
| RuntimeTheorems.IdsAreNeverReused | handles.cpp:20-32 | along any run an id the store has handed out never comes to name another handle, nor a handle to change its type or id |
| RuntimeTheorems.LateFreeIsHarmless | stdlib.js:38-54 | once an id is gone, a finalizer that frees it in any later state changes nothing |
| RuntimeTheorems.ClosingRemovesTheId | primitives_fs.cpp:183-197 | after a close or a free, or once FS_Close has returned, the id resolves to nothing for every type |
| RuntimeTheorems.CloseSilences | primitives_tcp.cpp:7-11 | once a socket is closed libuv reads nothing for it and reports no connection to it, in every state of every continuation |
| RuntimeTheorems.ClosingHandleExistsIff | primitives_tcp.cpp:255-261 | at any time after `uv_close` was started on a socket, its handle exists exactly when a frame or a TLS handle owns it |
| RuntimeTheorems.HoldThenLetGo | primitives_tls.cpp:208-233 | a primitive's local copy of a handle refers to the handle its id named, and dropping it restores the state exactly |
| RuntimeTheorems.LivesAreProper | fiber.cpp:39-53 | a fiber goes NEW, RUNNING, then SUSPENDED and RUNNING in turn, then DONE; it is deleted exactly when DONE; fibers and contexts are freed once, and no freed context is in a queue, in flight, or a pending read |
| RuntimeInvariant.HeadIsWaiting | primitives_tcp.cpp:117-120 | the fiber at the head of an accept queue exists and is suspended in an accept on that server |
| RuntimeInvariant.HeadIsResumable | main.cpp:57-67 | the context at the head of the local queue finds its fiber suspended and, for an accept, its server alive |
| RuntimeSafety.PinnedHandleExists | primitives_tcp.cpp:223-235 | the handle a fiber's primitive looked up exists until that primitive returns |
| RuntimeSafety.PendingHandleExists | primitives_udp.cpp:69-81 | the alloc callbacks find a pending context, and its handle exists |
| RuntimeOrder.StreamConcat | primitives_tcp.cpp:143-153 | what two successive batches of reads deliver is the concatenation of what each delivers |
| RuntimeAnswers.ResumeAnswers | main.cpp:62-67 | the value written before a resume is the result of the one operation the resumed fiber is inside |
| CompletionQueue.NoLostWakeup | main.cpp:74-81 | in every interleaving, a non-empty shared queue has a signal pending, a thread about to send, or a drain about to swap |
| CompletionQueue.RunIsFifo | main.cpp:48-70 | removals followed by what is left equal the old contents followed by the pushes, for every run |
| CompletionQueue.KAheadMeansKResumesFirst | main.cpp:56-70 | an entry with k ahead of it is the k-th removed, or still has the rest ahead of it |
| CompletionQueue.LoopConsumesLocal | main.cpp:56-58 | while a drain loops, the local queue shrinks by its own removals only |
| CompletionQueue.DrainHandlesItsSwap | main.cpp:49-70 | a drain removes exactly the entries present at its swap, in order |
| CompletionQueue.QuietRunsAreBounded | main.cpp:56-80 | without new completions the loop takes a bounded number of steps |
| CompletionQueue.StoppedMeansDelivered | main.cpp:79-80 | a loop that cannot step any more has delivered everything |
| EventLoop.Loop.constructor | fiber.cpp:11-14 | the runtime starts in the initial state of the transition system |
| EventLoop.Loop.RunFiber | fiber.cpp:182-187 | creating and resuming a fiber takes exactly the step FiberRun, and the fiber is current |
| EventLoop.Loop.YieldFiber | fiber.cpp:118-123 | the current fiber is suspended in its operation and main is current |
| EventLoop.Loop.Read | primitives_tcp.cpp:218-231 | TCP_Read takes exactly the step Start: it throws without a change, or parks its context and yields |
| EventLoop.Loop.BeginReading | primitives_udp.cpp:140-144 | past the checks, a read pins its handle, parks a new context on it and yields |
| EventLoop.Loop.AcceptConnection | primitives_tcp.cpp:184-191 | TCP_Accept takes exactly the step Start: it throws without a change, or appends the fiber to the accept queue |
| EventLoop.Loop.HandleRead | primitives_tcp.cpp:143-153 | OnRead clears the pending read and queues exactly that context, with no null or missing object in the way |
| EventLoop.Loop.HandleConnection | primitives_tcp.cpp:113-123 | OnUvConnection takes exactly the step OnConnection, and crashes, with nothing changed, exactly when its listener is an orphan |
| EventLoop.Loop.QueueFiberToResume | main.cpp:74-78 | the critical section appends one context to the shared queue |
| EventLoop.Loop.ResumeFront | main.cpp:56-67 | one turn up to the resume takes exactly the step ResumeNext |
| EventLoop.Loop.BuildValue | primitives_tcp.cpp:81-97 | the value and the handle it may add are those of the specification |
| EventLoop.Loop.Others | main.cpp:56-70 | between two steps of the loop exactly the given steps of scripts, libuv and threads happen, in order, those that are possible, until one is a connection to an orphan |
| EventLoop.Loop.DrainOnce | main.cpp:56-70 | one turn of the loop, with any script behaviour in between, is a run whose own steps are one resume, with uv_accept's answer as given, and one delete; it takes one context from the local queue and frees it |
| EventLoop.Loop.OnFibersToResume | main.cpp:39-71 | the drain terminates; unless a connection to an orphan kills the process, it resumes and deletes exactly the contexts present at its swap, so everything completed before the callback and nothing completed after the swap, and returns to main with an empty local queue; all that happens is one run, in which the loop's own steps are enter, swap, a resume and a delete per context, and leave |
| EventLoop.OthersKeepDrain | main.cpp:56-70 | no script, callback or thread touches the local queue, the active context or the record of resumptions |
| Results.ValueTellsOutcomeIff | primitives.h:72-85 | for every kind of operation, exactly which answers of libuv give a script the same value |
| Ownership.CountSplits | handles.h:81-88 | a count is store membership plus frames plus TLS handles |
| Ownership.DestroyedExactlyWithLastOwner | handles.cpp:27-32 | dropping a pointer destroys an object exactly when it was the last owner, or the last owner of the TLS handle that was |
| Ownership.CopyThenDrop | handles.h:116-121 | copying a `shared_ptr` and dropping the copy leaves the heap as it was |
| Ownership.OwnedSurvives | primitives_tcp.cpp:223-235 | removing an id never destroys what a suspended primitive holds |
| Ownership.AddTlsKeepsInv | primitives_tls.cpp:159-170 | building a TLS handle on a socket keeps all counts exact |
| Ownership.DropKeepsInv | handles.h:81-88 | a destructor, with the `net_handle` it may drop in turn, keeps all counts exact |
| Ownership.RemoveKeepsInv | handles.cpp:27-38 | Remove keeps all counts exact and the id is gone |
| Ownership.RemoveIsLater | handles.cpp:27-32 | Remove never makes an id name something new |
| HandleStore.IdsAreDistinctIff | handles.cpp:20-22 | a 64-bit `next_id` hands out 1, 2 and so on, then 0, distinct for exactly up to two to the 64 additions |
| HandleStore.UnregisterNeedsAToken | stdlib.js:49-51 | unregistering changes the registry only if something was registered with that token |
| HandleStore.CloseDoesNotUnregister | stdlib.js:44-54 | over any sequence of constructions and closes the registry keeps one cell for every wrapper ever made |
| HandleStore.OnlyHeldSurvive | handles.cpp:12-18 | with an empty store a handle exists exactly when a primitive's frame holds it, directly or through a TLS handle |
| HandleStore.StoredAreDistinct | handles.cpp:20-25 | the stored handles are distinct and are those carrying their own key |
| HandleStore.StoredAscend | handles.cpp:12-16 | they come in ascending order of their ids |
| HandleStore.Uint64Wraps | handles.cpp:35-38 | a BigInt stands for itself exactly when it is a 64-bit id, and else for the one it differs from by a multiple of two to the 64 |
| HandleStore.HandleStore.constructor | handles.cpp:7-10 | the store starts empty with next id 1 |
| HandleStore.HandleStore.Add | handles.cpp:20-25 | a new handle goes under an id that was free, carries it, and can be got back, for every addition up to the one that hands out two to the 64 minus one |
| HandleStore.HandleStore.Get | handles.h:116-121 | found exactly when stored and of the asked type; what is found carries that id and was never closed |
| HandleStore.HandleStore.Remove | handles.cpp:27-32 | the entry goes, an absent id changes nothing, no id gets a new meaning |
| HandleStore.HandleStore.Free | handles.cpp:35-38 | a BigInt id is taken modulo two to the 64 and removed |
| HandleStore.HandleStore.Close | primitives_tcp.cpp:255-261 | the handle found is closed once and removed; otherwise nothing happens |
| HandleStore.HandleStore.Dispose | handles.cpp:12-18 | every handle left is closed once, in ascending id order, the store is empty, and exactly what suspended primitives hold survives |
| Streams.ReadValueTellsAll | primitives_fs.cpp:73-74 | from the value of a read alone a script can tell data, zero reads, end of stream and errors |
| Streams.FilesAndSocketsNeverRefuse | primitives_tcp.cpp:46-53 | a socket write accepts the whole view, a file write the count reported, errors are thrown, and -1n never appears |
| Streams.Stop | stdlib.js:106-109 | the first answer that ends or fails the stream |
| Streams.DeliveredGrows | stdlib.js:70-74 | what a stream delivers starts empty and grows by the bytes of each answer that goes on |
| Streams.DeliveredStops | stdlib.js:106-109 | the answer that ends or fails the stream adds nothing, nor does anything after it |
| Streams.PositiveCountsFinish | stdlib.js:95-100 | as many positive counts as bytes take the whole buffer |
| Streams.Stream.Read | primitives_tcp.cpp:60-74 | a read fills a prefix of the buffer and returns its length, -1 or an exception |
| Streams.Stream.ReadAll | stdlib.js:67-84 | the result is the concatenation of all bytes before end of stream, for every pattern of short and zero reads into one reused buffer; an error is thrown on, and a stream that never ends blocks |
| Streams.Stream.Concatenated | stdlib.js:76-83 | the chunks end up one after another in the result |
| Streams.Stream.Write | stdlib.js:97 | no more than the view is accepted, from its start |
| Streams.Stream.WriteAll | stdlib.js:92-102 | the stream holds exactly the first bytes of the buffer, in order and once; it returns exactly when that is all of them, throws on a refusal or error, and cannot fail with positive counts |
| Streams.SendAndReceive | stdlib.js:67-102 | writeAll then readAll gives the buffer back, however the bytes are cut on either side |
| Directory.DirectoryHandle.constructor | primitives_fs.cpp:106-114 | a scan duplicates every name into its own block and changes no other |
| Directory.DirectoryHandle.DirRead | primitives_fs.cpp:274-287 | the next entry in scan order, with its name freed exactly then, or null and no change |
| Directory.DirectoryHandle.Close | primitives_fs.cpp:32-40 | the names not yet read are freed once each, in order, and nothing else is |
| Directory.DirectoryHandle.Destroy | handles.h:34-39 | the destructor frees no name |
| Directory.Browse | primitives_fs.cpp:267-296 | any number of reads give entries in scan order, then null; after a close every name is freed exactly once, after a mere free of the id exactly the unread ones stay allocated, so all are freed exactly when it was closed or read to the end |
| Directory.Dispose | handles.cpp:12-18 | closing all open directories frees exactly the names they still own |
| ModuleLoader.Loader.LookUpReferrer | module_loader.inc:34-38 | the reverse lookup finds the one path the referrer was cached under |
| ModuleLoader.ParentIsTheDirectory | module_loader.inc:45 | the parent of any path is what stands before its last run of slashes, the root if that is nothing, and nothing for a bare name |
| ModuleLoader.MeansItsOwnDirectory | module_loader.inc:44-48 | a file means by "./" the canonical form of that name in its own directory, and by any other specifier the canonical form of the specifier itself |
| ModuleLoader.RelativeIff | module_loader.inc:44-48 | importers in different directories mean different names by a specifier exactly when it starts with a dot and a slash |
| ModuleLoader.ParentSpecifierIgnoresReferrer | module_loader.inc:44-48 | a parent specifier means the same to importers in different directories |
| ModuleLoader.Loader.Resolve | module_loader.inc:24-81 | the target named by the resolution rule, from the cache or compiled now; an error changes nothing and says which kind it is |
| ModuleLoader.Loader.ResolveAgain | module_loader.inc:56-58 | a specifier that resolved for a referrer resolves to the same module whatever is loaded in between (section 16.2.1.7 of ECMA-262, ES2022) |
| ModuleLoader.Loader.Compile | module_loader.inc:60-80 | a file is compiled and cached exactly when it can be read and compiles |
| ModuleLoader.Loader.LinkNext | module_loader.inc:116-119 | linking one module keeps the progress invariant; a failure means something reachable is missing or broken |
| ModuleLoader.Loader.Load | module_loader.inc:83-119 | for every import graph, cycles included, loading terminates, compiles no file twice and only reachable ones, and succeeds exactly when everything reachable exists and compiles, with exactly those files cached; an error names a reachable file that is broken or a name missing from one |
| ModuleLoader.ClosedCoversReachable | module_loader.inc:54-58 | a set with the entry and closed under imports contains everything reachable |
| ModuleLoader.FailureMeansNotAllGood | module_loader.inc:49-53 | a request that fails shows the program cannot be loaded completely, and its error names what is missing or broken |
| ModuleLoader.ClosedMeansDone | module_loader.inc:56-58 | when the imports of all cached files are cached, nothing reachable is missing or broken |
| ContextSwitch.StepIsCoherentIff | fiber.cpp:118-137 | a switch keeps every fiber's continuation in place exactly when it is not a resume by a fiber other than main |
| ContextSwitch.CoherentIffOnlyMainResumes | fiber.cpp:125-133 | a run is coherent throughout exactly when only main resumes fibers |
| ContextSwitch.YieldLandsInMain | fiber.cpp:118-123 | in a coherent state a yield or an end continues main, and an end removes that fiber alone |
| ContextSwitch.NestedResumeLosesMain | fiber.cpp:125-128 | after a resume by another fiber main never runs again; after one by main it can |
| ContextSwitch.NestedRunIsPossible | fiber.cpp:182-187 | a fiber that runs another is such a run: it can happen, and it loses the event loop |

## Left out

- HandleStore.HandleStore.Add: covers the additions before `next_id` has wrapped around to zero; what happens after is stated by HandleStore.IdsAreDistinctIff alone, and Ownership uses unbounded ids.
- `Fiber.run` inside another fiber, beyond the theorems of ContextSwitch, and the Windows fibers (fiber.cpp:56-93).
- EventLoop.Loop.RunScript: a resumed script is assumed to yield or end after finitely many steps.
- EventLoop.Loop.Take: steps whose code adds no further control flow (writes, polls, file operations, closes) are taken as steps of the transition system and not written out as assignments.
- Liveness of accept waiters and of pending reads after a close (primitives_tcp.cpp:255-261), and of connections that arrive with nobody waiting: the code promises neither.
- V8 values, exception texts, isolates and scopes: results are abstract values; a datagram's port, stat fields and addresses are not modelled.
- The TLS handshake, retry loops and certificate callback (primitives_tls.cpp); a TLS handle matters only as an owner of its socket and enters the store when it is made.  Its reads return -1n on errors too, so Streams covers files and TCP.
- The copy of a `uv_tcp_t` in `ConnectContext` (primitives_tcp.cpp:22-28): a connect simply makes a handle.
- libuv's own use of a handle between `uv_close` and its close callback, and of an active handle that was freed without `uv_close`, other than connection events; operating system resources freed without `Close` (handles.cpp:35-38): counts and destruction are modelled, file descriptors are not.
- Directory.CHeap.Strdup: addresses are not reused after a free, so a use after free shows as a missing block rather than as another string.
- Streams.Stream.Write: bytes that leave before a failing socket write reports its error are not counted as sent.
- ModuleLoader.Loader.Load: V8's linking is modelled as depth-first requests for each module once; missing exports and evaluation are not part of this model.
- DNS over HTTPS, open flags, encodings, console, build files and certificates: plumbing with no further state.
