# Fiberproxy: a verified model

Fiberproxy is a proxy server built on user-space fibers: it parses HTTP/1.x incrementally, schedules
fibers on a thread with intrusive queues, forwards each incoming call to several back-end services over
multiplexed or pooled connections, logs the calls in a ring, and keeps port forwards in step with a
registry. This project models that behaviour in Dafny 4.11 and proves what it keeps over every input and
every run. `dafny verify dfyconfig.toml` checks all of it.

The modules follow the program.

**The HTTP parser and printer** (`Http*.dfy`). `HttpDispatch` is the switch of the parser, one function per
group of states. `HttpMachine` folds it over single bytes; `HttpExecute` has the parser as the source has
it, an object that loops over a buffer, keeps marks into it, swallows stretches of the body and makes
callbacks. The main results are

- *split invariance*: however the input is cut into buffers, the object ends in the state of the byte
  machine on the joined input, and its callbacks are the same once adjacent pieces of a text are joined;
- *consistency*: over every input none of the source's asserts can fire, at most one mark is open, and a
  byte is dispatched again at most three times;
- *recognisers are string comparison*: flags and header states, built letter by letter, say exactly what a
  comparison of whole, lower-cased names and values says, and exactly the listed methods are accepted;
- *conservation*: the body bytes delivered are those announced by Content-Length or by the chunk sizes
  (RFC 2616 sections 3.6.1 and 4.4), and the 64-bit accumulators never wrap or reach the sentinel;
- *URL decomposition* (RFC 3986 section 3), with the exact length up to which it holds;
- *round trip*: a well-formed request that is printed, cut into any buffers and parsed comes back the same.

**The fibers** (`Fiber*.dfy`). `FiberQueues` has the doubly linked queues of the scheduler as heap
structures; `FiberSched` is the scheduler as a machine on values, `FiberSafety` and `FiberRuns` prove its
invariant and what it gives on whole runs, and `FiberManager` is the scheduler on the heap queues, each
method proved to be one step of that machine. Mutexes, condition, barrier and the pool of worker fibers are
state machines over the steps between suspensions, with the objects of the source proved to take those
steps. `FiberFairness` shows that a ready fiber is resumed before there have been more turns than fibers, and
`FiberLocks` puts a mutex and the scheduler together: a woken waiter attempts again within that bound.

**Forwarding** (`RpcClient`, `ClientPool`, `FanOut`, `PortForward`, `LogRing`). The table of pending
requests on a shared connection, the pools of HTTP clients, the fan-out of one call to several services
with its transaction decision, the reconciliation of port forwards with a listing, and the ring of call
records.

Time is an integer, with `FOREVER` for the largest time point. Sockets, timers and the registry are
represented by what they answer: the result of a send, a received message, a listing, a bound port, the
outcome of an attempt. Every callback of the parser returns 0. The parser is in strict mode.

## Where the code differs from what one might expect

- The table of hexadecimal digits has 128 initialisers for 256 entries, so bytes from 128 up count as the
  digit 0 in a chunk size (`HttpText.UnhexTable`).
- The parts of a URL are kept in 16-bit fields. A longer path is reported with its length modulo 65536
  (`HttpUrl.LengthWraps`), and all URLs of a length are decomposed correctly if and only if that length is
  below 65536 (`HttpUrl.BoundIsExact`).
- A header value that is continued on another line never sets a flag for keep-alive, close or chunked.
- When the parser fails, the text of an open mark is not reported. Feeding is therefore specified in full
  for runs without error, and up to one missing text for the others (`HttpExecute.HttpParser.ReadByte`).
- The request ids of a connection wrap after 2^32 requests. Beginning a request is safe if and only if its id is
  neither in the table nor that of a send that has not returned (`RpcClient.ClashIsExact`); a request lost in
  this way is never answered (`RpcClient.LostForEver`). Two reachable runs show both ways of losing one
  (`RpcClient.WrapTakesOver`, `RpcClient.StaleSendTakesOut`).
- After a refused start the log sender stands at that id until a record of a later lap is ended in the same slot,
  and then gives that record up (`LogRing.SenderStands`).
- The ports noted for an agent only ever grow, also when the agent no longer uses them
  (`PortForward.Reconciler.NoteUsers`).
- A URL that turns out to be wrong still leaves the parts recorded so far in the request
  (`HttpRequests.RequestReader.OnMessageComplete`).
- The error of a service call is not cleared when the call starts, so it is empty afterwards if and only if
  the call succeeded and it was empty before (`FanOut.CallSingle`).
- A cached answer counts as a success for a transaction, so with caching a transaction can be confirmed
  although a call failed; without caching it cannot (`FanOut.CallServices`).
- The early exit of the waiting queue's scan is right only because the queue is ordered
  (`FiberOrder.OrderIsNeeded` shows it fail without the order).

## Model

| member | source | states |
|---|---|---|
| `HttpExecute.HttpParser.constructor` | source/core/fiber-server/http_parser.cpp:1975-1984 | a new parser is at the start of the byte machine, with no callback made |
| `HttpExecute.HttpParser.ReadBody` | source/core/fiber-server/http_parser.cpp:1719-1868 | swallowing a stretch of the body at once leaves the parser where reading it byte by byte would, with one callback for the stretch |
| `HttpExecute.HttpParser.DispatchByte` | source/core/fiber-server/http_parser.cpp:662-1883 | repeated dispatch of one byte settles, keeps marks and callbacks in step with the byte machine, and on failure lacks at most the text of one open mark |
| `HttpExecute.HttpParser.ReadByte` | source/core/fiber-server/http_parser.cpp:639-1883 | one turn of the loop is a run of the byte machine on the bytes it took; stopping means an upgrade, failing leaves at most one text unreported |
| `HttpExecute.HttpParser.Execute` | source/core/fiber-server/http_parser.cpp:576-1922 | one call takes the parser through exactly the bytes it says it consumed; it stops early only for an upgrade or at the first byte in error; after an error nothing happens |
| `HttpExecute.HttpParser.ExecuteEof` | source/core/fiber-server/http_parser.cpp:595-613 | an empty buffer completes a body that runs to the end of input, is ignored between messages and is an error elsewhere |
| `HttpExecute.HttpParser.Feed` | source/core/fiber-server/http_parser.cpp:576-1922 | for every cut of an input into non-empty buffers, if nothing fails or upgrades, the state and the joined callbacks are those of the whole input |
| `HttpExecute.BodyRun` | source/core/fiber-server/http_parser.cpp:1719-1868 | bulk reading of an identity, chunk or to-the-end body equals reading it byte by byte |
| `HttpExecute.AtMostOneMark` | source/core/fiber-server/http_parser.cpp:1885-1914 | at the end of a buffer at most one mark is open, the one of the state the parser is in |
| `HttpMachine.AgainLowersRank` | source/core/fiber-server/http_parser.cpp:662-1883 | every dispatch that looks at the same byte again goes to a state of lower rank, and ranks are at most three |
| `HttpMachine.RunConcat` | source/core/fiber-server/http_parser.cpp:576-1922 | running two inputs one after the other is running their concatenation |
| `HttpInvariant.DispatchKeeps` | source/core/fiber-server/http_parser.cpp:662-1883 | every dispatch, from every consistent state and byte, leads to a consistent state or to an error |
| `HttpInvariant.AssertsHold` | source/core/fiber-server/http_parser.cpp:662-1914 | in a consistent state none of the assertions of the source can fire |
| `HttpInvariant.LengthNeverWraps` | source/core/fiber-server/http_parser.cpp:1501-1525 | an accepted digit of Content-Length neither wraps 64 bits nor gives the sentinel |
| `HttpInvariant.ChunkSizeNeverWraps` | source/core/fiber-server/http_parser.cpp:1783-1818 | an accepted digit of a chunk size neither wraps 64 bits nor gives the sentinel |
| `HttpMarks.DispatchMarks` | source/core/fiber-server/http_parser.cpp:662-1914 | each mark is opened, kept and closed only in the states of its own text |
| `HttpRuns.RedispatchesAtMostRank` | source/core/fiber-server/http_parser.cpp:662-1883 | the number of times a byte is dispatched again is at most the rank of the state it met, at most three |
| `HttpRuns.ParserIsConsistent` | source/core/fiber-server/http_parser.cpp:662-1914 | after every input without error the state is consistent, no assert fires on any next byte, and that byte is dispatched again at most three times |
| `HttpText.UnhexTable` | source/core/fiber-server/http_parser.cpp:180-190 | a byte is accepted as a hexadecimal digit exactly when it is one or is at least 128, and then it counts as zero |
| `HttpRecognise.NameMeaning` | source/core/fiber-server/http_parser.cpp:1229-1403 | the header state at the end of a name says connection, content-length, transfer-encoding or upgrade exactly when the lower-cased name is that word |
| `HttpRecognise.WordMeaning` | source/core/fiber-server/http_parser.cpp:1424-1605 | at the end of a value the header state says keep-alive, close or chunked exactly when name and unfolded value, trailing spaces aside, are those words |
| `HttpRecognise.RecognisersAgree` | source/core/fiber-server/http_parser.cpp:1229-1605 | on every run the flags, the length and the header states are those of an observer that compares whole strings |
| `HttpMethods.OnlyMethodLetters` | source/core/fiber-server/http_parser.cpp:949-1032 | for parsers of requests and of both kinds, while the method is read the letters read are a prefix of the current candidate |
| `HttpMethods.ListedMethodRead` | source/core/fiber-server/http_parser.cpp:908-1032 | every listed method is read to its end without error |
| `HttpMethods.MethodAccepted` | source/core/fiber-server/http_parser.cpp:908-1032 | for parsers of requests and of both kinds, letters followed by a blank that do not begin a response are accepted if and only if they are a listed method, which is then the one recorded |
| `HttpMethods.BothIsRequest` | source/core/fiber-server/http_parser.cpp:675-710 | on bytes that do not begin a response, a parser of both kinds ends where one for requests does, or both fail |
| `HttpLedger.BodyConserved` | source/core/fiber-server/http_parser.cpp:1448-1883 | on every run, delivered body bytes plus those still expected are those announced; when a message completes, delivered and announced are equal |
| `HttpHeaders.HeaderRun` | source/core/fiber-server/http_parser.cpp:1229-1605 | a whole header line, for any token name and legal value, reports its name and value and changes flags and length by string comparison alone |
| `HttpUrl.UrlDecomposed` | source/core/fiber-server/http_parser.cpp:2063-2233 | on success the parts are non-empty, in bounds, disjoint and in order, all other bytes are delimiters, a schema has a host, the port is the value of its digits, and CONNECT gives host and port only |
| `HttpUrl.LengthWraps` | source/core/fiber-server/http_parser.cpp:2154-2212 | a plain path of any length is reported with its length modulo 65536 |
| `HttpUrl.BoundIsExact` | source/core/fiber-server/http_parser.cpp:2136-2233 | all URLs of a given length are decomposed as promised if and only if that length is below 65536 |
| `HttpUrl.UrlMovesOn` | source/core/fiber-server/http_parser.cpp:428-574 | a URL byte never leads back to an earlier part |
| `HttpUrl.RecordedInBounds` | source/core/fiber-server/http_parser.cpp:2063-2233 | whatever the length of the URL and the outcome, every part in the record lies in the buffer |
| `HttpUrl.UrlRecord.ParseHost` | source/core/fiber-server/http_parser.cpp:2063-2134 | the loop over the server part computes the second pass and fails in the states in which it must |
| `HttpUrl.UrlRecord.ScanAll` | source/core/fiber-server/http_parser.cpp:2142-2212 | the loop over the bytes computes the first pass, or finds the URL invalid |
| `HttpUrl.UrlRecord.Parse` | source/core/fiber-server/http_parser.cpp:2136-2233 | the record ends up with the two passes' parts and port, fails exactly when they do, and on failure holds what was recorded until then |
| `HttpRequests.Print` | source/core/fiber-server/HttpProtocolHandler.cpp:538-565 | the loop writes the request line, the headers, the two added headers, and the body |
| `HttpRequests.HandleJoined` | source/core/fiber-server/HttpProtocolHandler.cpp:44-136 | the request that is rebuilt does not depend on how its texts were cut into callbacks |
| `HttpRequests.RequestReader.constructor` | source/core/fiber-server/HttpProtocolHandler.cpp:36-43 | a new reader is at the start |
| `HttpRequests.RequestReader.OnMessageBegin` | source/core/fiber-server/HttpProtocolHandler.cpp:44-51 | clears the request and the URL |
| `HttpRequests.RequestReader.OnUrl` | source/core/fiber-server/HttpProtocolHandler.cpp:52-63 | continues the URL or starts it anew |
| `HttpRequests.RequestReader.OnHeaderField` | source/core/fiber-server/HttpProtocolHandler.cpp:69-79 | continues the last name or opens a header |
| `HttpRequests.RequestReader.OnHeaderValue` | source/core/fiber-server/HttpProtocolHandler.cpp:81-90 | continues or sets the value of the last header |
| `HttpRequests.RequestReader.OnBody` | source/core/fiber-server/HttpProtocolHandler.cpp:96-100 | appends to the body |
| `HttpRequests.RequestReader.OnMessageComplete` | source/core/fiber-server/HttpProtocolHandler.cpp:102-136 | takes method, version and keep-alive from the parser and the recorded parts from the URL, also if the URL is wrong |
| `HttpRequests.RequestReader.Deliver` | source/core/fiber-server/HttpProtocolHandler.cpp:44-136 | the callbacks of a trace, made in order, fold over the reader's state |
| `HttpRoundTrip.PrintedUrl` | source/core/fiber-server/HttpProtocolHandler.cpp:102-136 | path and query come out of the printed URL again |
| `HttpRoundTrip.RoundTrip` | source/core/fiber-server/HttpProtocolHandler.cpp:538-565 | a printed well-formed request is parsed without error and the callbacks rebuild it, with the two added headers |
| `HttpRoundTrip.NothingStops` | source/core/fiber-server/http_parser.cpp:576-1922 | no byte of a printed request is an error or an upgrade |
| `HttpRoundTrip.Exchange` | source/core/fiber-server/HttpProtocolHandler.cpp:538-565 | the same through the parser object, for every cut of the printed bytes into buffers |
| `HttpUpgrade.RunTold` | source/core/fiber-server/http_parser.cpp:1628-1717 | on every run, an upgrade is in force only if a callback has told so |
| `FiberOrder.PushKeepsOrder` | source/core/boost-fiber/boost/fiber/detail/waiting_queue.hpp:40-118 | inserting at the place `push` chooses keeps a ready prefix followed by non-decreasing deadlines |
| `FiberOrder.WakeKeepsOrder` | source/core/boost-fiber/boost/fiber/detail/waiting_queue.hpp:127-169 | moving a readied fiber to the head keeps the order |
| `FiberOrder.EarlyExitIsFullScan` | source/core/boost-fiber/boost/fiber/detail/waiting_queue.hpp:171-208 | a scan that stops at the first fiber not ready takes exactly what a scan of the whole queue would |
| `FiberOrder.TopIsEarliest` | source/core/boost-fiber/fiber_manager.cpp:103-119 | if the head is not ready, nobody is, and its deadline is the earliest |
| `FiberOrder.OrderIsNeeded` | source/core/boost-fiber/boost/fiber/detail/waiting_queue.hpp:201-205 | in an unordered queue the early exit leaves a due fiber behind |
| `FiberQueues.Fifo.Push` | source/core/boost-fiber/boost/fiber/detail/fifo.hpp:39-59 | the list stays well linked and grows by the fiber at its end, unless it is already there |
| `FiberQueues.Fifo.Pop` | source/core/boost-fiber/boost/fiber/detail/fifo.hpp:61-75 | takes the first fiber, clears its links, keeps the rest in order and well linked |
| `FiberQueues.WaitingQueue.Push` | source/core/boost-fiber/boost/fiber/detail/waiting_queue.hpp:40-118 | splices the fiber in at its place in the order, or leaves it where it is if it is queued |
| `FiberQueues.WaitingQueue.MoveToRun` | source/core/boost-fiber/boost/fiber/detail/waiting_queue.hpp:127-169 | moves a fiber of the queue to its head, the others keeping their order |
| `FiberQueues.WaitingQueue.FetchReady` | source/core/boost-fiber/fiber_manager.cpp:33-43 | readies the fiber at the head if its deadline has come, and says whether it is ready |
| `FiberQueues.WaitingQueue.MoveTo` | source/core/boost-fiber/boost/fiber/detail/waiting_queue.hpp:171-208 | hands exactly the ready and due fibers at the head to the run queue, in order, unlinked and without deadline, and leaves the rest |
| `FiberSafety.StepKeeps` | source/core/boost-fiber/fiber_manager.cpp:64-270 | every step of the scheduler keeps its invariant |
| `FiberSafety.TerminateKeeps` | source/core/boost-fiber/detail/worker_fiber.cpp:52-80 | a terminating fiber readies every fiber that joined it |
| `FiberRuns.AlwaysInv` | source/core/boost-fiber/fiber_manager.cpp:64-270 | the invariant holds in every state of every run |
| `FiberRuns.OnePlace` | source/core/boost-fiber/fiber_manager.cpp:64-270 | in every reachable state a live fiber is in exactly one place, the one its status names |
| `FiberRuns.ResumedInTime` | source/core/boost-fiber/fiber_manager.cpp:161-191 | a fiber at position k of the run queue is resumed by the (k+1)-th turn, whatever happens in between |
| `FiberRuns.SleepsInTime` | source/core/boost-fiber/fiber_manager.cpp:103-191 | the thread sleeps only when nobody is runnable or due, and not past the earliest deadline |
| `FiberRuns.JoinEnds` | source/core/boost-fiber/fiber_manager.cpp:238-270 | a joining fiber waits until, and only until, the step in which its target terminates |
| `FiberManager.Manager.constructor` | source/core/boost-fiber/fiber_manager.cpp:45-51 | a new manager has no fibers and empty queues |
| `FiberManager.Manager.Spawn` | source/core/boost-fiber/fiber_manager.cpp:121-131 | is the spawn step of the scheduler |
| `FiberManager.Manager.Awaken` | source/core/boost-fiber/round_robin.cpp:18-24 | the fiber goes to the end of the run queue |
| `FiberManager.Manager.WaitUntil` | source/core/boost-fiber/fiber_manager.cpp:198-220 | is the waiting step: the active fiber is queued by its deadline |
| `FiberManager.Manager.Yield` | source/core/boost-fiber/fiber_manager.cpp:222-236 | is the yielding step: the active fiber is queued ready |
| `FiberManager.Manager.SetReady` | source/core/boost-fiber/detail/worker_fiber.cpp:73-80 | readies a fiber and moves it to the head of the waiting queue if it is there |
| `FiberManager.Manager.Wake` | source/core/boost-fiber/detail/worker_fiber.cpp:73-80 | is the waking step on a waiting fiber |
| `FiberManager.Manager.Join` | source/core/boost-fiber/fiber_manager.cpp:238-260 | is the joining step, for a target that runs and for one that has ended |
| `FiberManager.Manager.Tell` | source/core/boost-fiber/detail/worker_fiber.cpp:64-66 | readies the joiners one after the other |
| `FiberManager.Manager.Terminate` | source/core/boost-fiber/detail/worker_fiber.cpp:52-71 | is the terminating step: nobody is left waiting for the fiber |
| `FiberManager.Manager.MoveReady` | source/core/boost-fiber/fiber_manager.cpp:167-169 | moves the ready and due fibers to the run queue |
| `FiberManager.Manager.Pick` | source/core/boost-fiber/round_robin.cpp:26-33 | takes the first fiber of the run queue |
| `FiberManager.Manager.Switch` | source/core/boost-fiber/fiber_manager.cpp:64-80 | the first fiber of the run queue becomes the active one |
| `FiberManager.Manager.Turn` | source/core/boost-fiber/fiber_manager.cpp:161-191 | is the turn step; it gives a time to sleep until exactly when nobody runs, and no waiting fiber is due before it |
| `FiberMutex.MutexSafe` | source/core/boost-fiber/mutex.cpp:23-122 | on every run, with fibers that take a free mutex past the queue: one holder at most, with the right depth, and a free mutex with waiters has a woken fiber that will try again |
| `FiberFairness.ReadyIsResumed` | source/core/boost-fiber/fiber_manager.cpp:161-191 | on every run a ready fiber, in either queue, is resumed before there have been more turns than fibers |
| `FiberLocks.SystemSafe` | source/core/boost-fiber/mutex.cpp:47-122 | on every run of mutex and scheduler together, fibers in the mutex's queue sleep until unlocked for, and fibers taken off it are ready or running |
| `FiberLocks.WakeupArrives` | source/core/boost-fiber/mutex.cpp:105-122 | the fiber that an unlock wakes is asleep in the waiting queue |
| `FiberLocks.RetriesSoon` | source/core/boost-fiber/mutex.cpp:53-65 | a fiber taken off the queue attempts again before there are two turns more than fibers |
| `FiberLocks.FreeMutexIsTried` | source/core/boost-fiber/mutex.cpp:47-122 | when the mutex is free and fibers queue for it, one taken off the queue attempts within that bound |
| `FiberMutex.Mutex.constructor` | source/core/boost-fiber/mutex.cpp:34-39 | a new mutex is free |
| `FiberMutex.Mutex.LockIfUnlocked` | source/core/boost-fiber/mutex.cpp:23-32 | takes the mutex exactly when it is free |
| `FiberMutex.Mutex.Attempt` | source/core/boost-fiber/mutex.cpp:47-66 | one turn of the locking loop: the fiber owns the mutex or is queued |
| `FiberMutex.Mutex.TryLock` | source/core/boost-fiber/mutex.cpp:92-103 | succeeds exactly when the mutex is free, and never queues |
| `FiberMutex.Mutex.Unlock` | source/core/boost-fiber/mutex.cpp:105-122 | frees the mutex and wakes the first waiter |
| `FiberMutex.RecursiveMutex.constructor` | source/core/boost-fiber/recursive_mutex.cpp:43-49 | a new mutex is free |
| `FiberMutex.RecursiveMutex.LockIfUnlocked` | source/core/boost-fiber/recursive_mutex.cpp:23-41 | takes the mutex when it is free or already owned by the fiber |
| `FiberMutex.RecursiveMutex.Attempt` | source/core/boost-fiber/recursive_mutex.cpp:58-77 | one turn of the locking loop: the fiber owns the mutex or is queued |
| `FiberMutex.RecursiveMutex.TryLock` | source/core/boost-fiber/recursive_mutex.cpp:103-114 | succeeds exactly when the mutex is free or owned by the fiber |
| `FiberMutex.RecursiveMutex.Unlock` | source/core/boost-fiber/recursive_mutex.cpp:116-137 | lowers the depth; the last unlock frees the mutex and wakes the first waiter |
| `FiberCondition.Condition.Enlist` | source/core/boost-fiber/boost/fiber/condition.hpp:72-86 | queues the fiber last |
| `FiberCondition.Condition.NotifyOne` | source/core/boost-fiber/condition.cpp:26-41 | wakes the first waiter if there is one |
| `FiberCondition.Condition.NotifyAll` | source/core/boost-fiber/condition.cpp:43-61 | wakes all waiters in order and empties the queue |
| `FiberBarrier.BitIsGeneration` | source/core/boost-fiber/barrier.cpp:36-56 | the one bit a caller remembers equals the barrier's bit exactly when the caller's generation is the current one of an unbounded count |
| `FiberBarrier.LookKeeps` | source/core/boost-fiber/barrier.cpp:50-55 | a notified caller finds the bit changed and leaves |
| `FiberBarrier.BarrierSafe` | source/core/boost-fiber/barrier.cpp:36-56 | on every run nobody passes a generation before all have arrived, generations differ by at most one, and in every completed generation exactly one call returns true, that of its leader, which has returned |
| `FiberBarrier.SharedBarrier.constructor` | source/core/boost-fiber/barrier.cpp:22-34 | a new barrier for a positive number of participants has all of them outside |
| `FiberBarrier.SharedBarrier.Arrive` | source/core/boost-fiber/barrier.cpp:36-53 | is the arriving step; the last arrival returns, the others sleep |
| `FiberBarrier.SharedBarrier.Look` | source/core/boost-fiber/barrier.cpp:50-55 | is the looking step after a notification; under the invariant the caller returns |
| `FiberPool.PoolSafe` | source/core/fiber-server/FiberPool.hpp:119-194 | on every run tasks are taken once and in order, no worker stays parked while queued tasks outnumber the workers about to look, and the size is 0 or 10 times a power of two up to 2^11 |
| `FiberPool.GrowthKeepsSize` | source/core/fiber-server/FiberPool.hpp:124-153 | growing keeps the size among those eleven doublings |
| `FiberPool.TaskPool.Start` | source/core/fiber-server/FiberPool.hpp:127-133 | adds new workers, all about to look for a task |
| `FiberPool.TaskPool.Schedule` | source/core/fiber-server/FiberPool.hpp:119-156 | queues the task, grows the pool if needed, and notifies one worker |
| `FiberPool.TaskPool.Check` | source/core/fiber-server/FiberPool.hpp:167-184 | a worker takes the first task or parks |
| `FiberPool.TaskPool.Finish` | source/core/fiber-server/FiberPool.hpp:185-186 | a worker is done and will look again |
| `RpcClient.MultiplexingSafe` | source/core/forward-manager/FibpClient.cpp:414-587 | on every interleaving of any length in which no request is begun with an id still in use: an answer reaches only the request with its id, each request is resolved at most once, a sent and pending one has a reader, and when the reader ends all pending ones fail and the table is empty |
| `RpcClient.BeforeTheWrap` | source/core/forward-manager/FibpClient.cpp:421-441 | every run of up to 2^32 requests is of that kind |
| `RpcClient.AlwaysFiled` | source/core/forward-manager/FibpClient.cpp:414-587 | on every run of any length the table holds requests under their own ids, and only ones whose send has not failed |
| `RpcClient.ClashIsExact` | source/core/forward-manager/FibpClient.cpp:421-447 | from a safe state, beginning a request makes it possible to lose one if and only if its id is in the table or belongs to a send that has not returned |
| `RpcClient.LostForEver` | source/core/forward-manager/FibpClient.cpp:414-587 | no later step answers or fails a lost request |
| `RpcClient.WrapTakesOver` | source/core/forward-manager/FibpClient.cpp:421-441 | a reachable run in which request 2^32 + 1 takes over the entry of the first |
| `RpcClient.StaleSendTakesOut` | source/core/forward-manager/FibpClient.cpp:442-447 | a reachable run in which the failed send of the first request takes the entry of request 2^32 + 1 out |
| `RpcClient.Connection.BeginSend` | source/core/forward-manager/FibpClient.cpp:414-441 | a new id and future enter the table, also past the wrap; if the id is not in use the invariant is kept |
| `RpcClient.Connection.EndSend` | source/core/forward-manager/FibpClient.cpp:442-456 | a failed send takes the entry back, a successful one makes sure there is a reader |
| `RpcClient.Connection.SetResponse` | source/core/forward-manager/FibpClient.cpp:567-576 | resolves the request with that id if there is one, and removes it |
| `RpcClient.Connection.SetAllError` | source/core/forward-manager/FibpClient.cpp:578-587 | fails every pending request and empties the table |
| `RpcClient.Connection.EndReading` | source/core/forward-manager/FibpClient.cpp:559-565 | the reader fails everything and ends |
| `LogRing.RingSafe` | source/core/log-manager/FibpLogger.cpp:156-246 | on every run an occupied slot keeps its record until the sender takes it, the lag is never negative, and a record that is sent has the id the sender is at |
| `LogRing.WaitingSlot` | source/core/log-manager/FibpLogger.cpp:156-159 | the record found by the sender is not older than its position, and is the very one if the lag is below the size of the ring |
| `LogRing.SenderStands` | source/core/log-manager/FibpLogger.cpp:156-246 | in every reachable state: where the sender stands, what its slot holds, and that at an id without a record it waits for one of a later lap, which it gives up |
| `LogRing.LogBuffer.StartCall` | source/core/log-manager/FibpLogger.cpp:452-470 | a new id, with a free slot taken for it, or 0 when the slot is in use |
| `LogRing.LogBuffer.EndCall` | source/core/log-manager/FibpLogger.cpp:472-480 | marks the record as waiting to be sent; 0 is ignored |
| `LogRing.LogBuffer.SendBatch` | source/core/log-manager/FibpLogger.cpp:156-246 | sends or drops waiting records one by one, a thousand at most, until the next slot does not wait |
| `PortForward.UniqueStrIsUnique` | source/core/forward-manager/FibpServiceMgr.cpp:691-691 | name followed by type identifies a service |
| `PortForward.ForwardTable.Start` | source/core/forward-manager/FibpPortForwardMgr.cpp:120-165 | a server runs at the port and forwards to the service |
| `PortForward.ForwardTable.Stop` | source/core/forward-manager/FibpPortForwardMgr.cpp:167-185 | a running server is removed with its service; anything else stays |
| `PortForward.ForwardTable.Get` | source/core/forward-manager/FibpPortForwardMgr.cpp:110-118 | the service of a port, if there is one |
| `PortForward.PortsAreDistinct` | source/core/forward-manager/FibpServiceMgr.cpp:694-712 | no two services share a port |
| `PortForward.Reconciler.ClearAgents` | source/core/forward-manager/FibpServiceMgr.cpp:655-659 | every port is left without users |
| `PortForward.Reconciler.HandleKey` | source/core/forward-manager/FibpServiceMgr.cpp:662-713 | one more key is tallied; a forward is started if its service has none |
| `PortForward.Reconciler.Sweep` | source/core/forward-manager/FibpServiceMgr.cpp:715-736 | exactly the forwards without users are stopped |
| `PortForward.Reconciler.NoteUsers` | source/core/forward-manager/FibpServiceMgr.cpp:738-748 | for every agent the ports it uses now are added to those noted before |
| `PortForward.Reconciler.Iterate` | source/core/forward-manager/FibpServiceMgr.cpp:648-748 | after a non-empty listing the forwarded services are exactly those of its resolved keys, a service forwarded before keeps its port, each port has exactly its users, and all tables agree; an empty listing changes no forward |
| `PortForward.LiveForwards` | source/core/forward-manager/FibpServiceMgr.cpp:648-736 | after such a listing a service is served at some port if and only if some key resolves to it |
| `FanOut.CallSingle` | source/core/forward-manager/FibpForwardManager.cpp:116-217 | at most three attempts, up to the first final one; before the cache the error is empty exactly on success, and the answer is that attempt's; a failed cacheable call falls back to the cache |
| `FanOut.LastDecides` | source/core/forward-manager/FibpForwardManager.cpp:135-200 | a call succeeds if and only if its first final attempt does |
| `FanOut.JoinSafe` | source/core/forward-manager/FibpForwardManager.cpp:219-351 | on every run the callback is made at most once, with every child finished and its response written, so no child touches the parent afterwards |
| `FanOut.JoinGoesOn` | source/core/forward-manager/FibpForwardManager.cpp:289-307 | until the callback has been made, the parent or a child can take a step |
| `FanOut.JoinCompletes` | source/core/forward-manager/FibpForwardManager.cpp:219-351 | a run with N children has at most 3N + 2 steps, and it cannot go on if and only if the callback has been made, once |
| `FanOut.CancelsOnly` | source/core/forward-manager/FibpForwardManager.cpp:328-344 | cancelling reaches exactly the responses with a transaction id |
| `FanOut.Decide` | source/core/forward-manager/FibpForwardManager.cpp:310-345 | everything is confirmed if no response has an error, otherwise every known id is cancelled |
| `FanOut.CallAll` | source/core/forward-manager/FibpForwardManager.cpp:282-308 | whatever the order in which children are scheduled and finish, the wait ends and every call has left its answer |
| `FanOut.CallServices` | source/core/forward-manager/FibpForwardManager.cpp:246-351 | a transaction never both confirms and cancels, is refused unless every service is HTTP, and without caching confirms only if every call succeeded |
| `ClientPool.PoolConserves` | source/core/forward-manager/FibpClientMgr.cpp:45-147 | on every run the count of a host is pooled plus checked-out plus shared clients, no client is pooled twice or while in use, HTTP clients are at most 101 and all clients at most 103 |
| `ClientPool.ClientManager.CheckOut` | source/core/forward-manager/FibpClientMgr.cpp:45-71 | takes the first idle client, or makes one below the limit, or refuses |
| `ClientPool.ClientManager.PutBack` | source/core/forward-manager/FibpClientMgr.cpp:72-77 | the client goes back to the end of its queue, after a failed send as after a response |
| `ClientPool.ClientManager.UseRpc` | source/core/forward-manager/FibpClientMgr.cpp:106-133 | the one RPC client of a host is made at its first use and counted once |
| `ClientPool.ClientManager.UseRaw` | source/core/forward-manager/FibpClientMgr.cpp:106-133 | the same for the raw client |

## Left out

- HttpExecute.HttpParser.Feed: says nothing of the callbacks when a buffer fails or upgrades, because the source then leaves an open text unreported; `Execute` and `ReadByte` say what is known.
- HttpLedger.BodyConserved: a body that runs to the end of the input announces no length, so nothing is claimed for it; nor for a message that ends in an upgrade.
- HttpUrl.UrlRecord.Parse: starts from a zeroed record; the caller in the protocol handler passes an uninitialised one, of which the parser clears only the port and the field set.
- HttpRoundTrip.RoundTrip: the five methods the printer can name, versions up to 999, a head within the parser's limit and a URL below 65536 bytes.
- FanOut.CallAll: a child makes its attempts in one step; children write disjoint responses.
- PortForward.Reconciler.Iterate: ports are given, fresh and distinct; the crash of a server is not modelled, nor is the branch for a start that fails, which cannot be taken because `startPortForward` always returns true.
- FiberCondition.Condition.Enlist: the release of the caller's lock when `wait` suspends, and its taking again afterwards, are not steps of the condition; the barrier and the pool take their steps under the lock.
- FiberMutex.MutexSafe: a fiber that locks a plain mutex it already holds is allowed and waits for ever, as in the source; no promise is made to it.
- Memory order and real parallelism: steps between suspension points are atomic, one scheduler on one thread.
- Interruption of fibers, the branches for the main fiber, timed mutexes, thread migration and the bounded queue (which nothing uses).
- Nested calls of the scheduler from a running fiber.
- Stopping the pool of fibers, and the queue through which other threads hand it tasks.
- The message formats of the RPC and raw clients; their tables and readers are the same code twice (source/core/forward-manager/FibpClient.cpp:414-587 and 671-817), and `RpcClient` models both.
- Printing of responses, chunked sending, and the callbacks' own decisions to stop or skip a body.
- Sockets, timers, coroutine switching, JSON, msgpack and XML, logging text, statistics, the cache's own storage, service discovery.
