# Verification of beast-router

A Dafny model of the three stateful parts of the library, with proofs about every run of them.

* **The session** (`Pipeline`, `SessionModel`, `SessionInvariant`, `Guards`, `SessionAccounting`,
  `SessionTheorems`, `SessionEffects`, `FailedReads`). A session is driven by the events that its strand runs one at a time: posted calls, read,
  write and timer completions, clock ticks, contexts being copied and dropped, the stream being closed. Error
  codes, completion times and the order of completions are arbitrary. `Pipeline` holds the outbound queue
  together with `do_write` and `on_write`; `SessionModel.Run` folds one event after the other over a session.
* **Routing** (`Chains`, `Routing`, `LinearDispatch`, `CallAccounting`, `CallProgress`). Chains of handlers, the
  routing table as the replay of its registrations, one dispatch over one table, and a small-step system in
  which any number of threads register and dispatch under the shared mutex.
* **The accept pipeline** (`AcceptPipeline`). Completions of `async_accept` run on any thread; each one posts
  its result to the strand and then arms the next accept.

`SessionObjects` and the class `AcceptPipeline.Listener` hold the objects of the program, with the fields the
source has and methods that change them in place. Each method's postcondition gives the whole new state as a
function of the old one (`State() == M.OnWrite(old(State()), ...)`), so the theorems about those functions
are theorems about the objects; `Session.Drive` shows that any sequence of inputs, registrations on the
router among them, is one `Run`. `Inputs` joins the parts: what a server puts on the wire is, input after
input, the answer from the table as registered by then.
`dafny verify dfyconfig.toml` checks everything.

## Reading the model

* A heap object that owns a queued message is identified by the number of the push that made it
  (`Item.id`). The serializer is the identity of the item whose message it refers to.
* Handlers are functions of the request, the user data of their context and the regex match. They answer
  with a verdict, new user data and the actions they take: calls on their context, keeping a copy of it,
  closing the stream it gives them, taking time. A callback that does not return `bool` lets its chain go on, as the documentation of
  `router::get` says.
* `Step` ignores an event that is not enabled, so `Run` is defined for every sequence of events. `Enabled`
  says only that a completion needs an outstanding operation and that user code needs a live context.
* Histories (messages sent, popped and started, completion codes, deadlines armed, timeouts) are part of
  the state, and in the classes they are ghost fields.

What is taken from Boost.Asio: handlers of one strand do not overlap; posts to a strand run in post order; an
initiating function does not call its handler inline; `dispatch` inside the strand runs inline; the steady
clock is monotone; each outstanding operation completes once; `cancel` and `expires_after` abort outstanding
waits. The strand queue orders posted calls among themselves; nothing is assumed about how they interleave
with completions.

## Where the code does not do what one would expect

* A timeout can be reported after the operation it guards has completed. `timer::cancel` aborts the wait but
  keeps the expiry, and `on_timer` checks the expiry also for aborted waits.
  `CompletedReadCanStillTimeOut` gives the run for every session with such a read; `TimesOutIff` says exactly
  when the end of a wait reports `timed_out` and shuts the socket down.
* `not_found` can run twice for one request, or run although a chain completed: exactly for requests with the
  unknown method whose target the empty pattern matches (`NotFoundRunsOnceIff`, `UnknownMethodAnsweredTwice`).
  A failed read makes such a request. `on_read` dispatches whatever the parser holds after every error but
  the end of the stream, and an unparsed message has the unknown method and an empty target. A server
  without registrations then queues `Not Found` twice for a peer that asked for nothing
  (`FailedReadAnsweredTwice`). With HTTP/1.1, the version of an unparsed message, both answers are written;
  below that the first one closes and the second never is (`FailedReadOnTheWire`).
* When several patterns match a target, the order of their responses is that of an unordered map. What runs
  does not depend on it (`OrderIrrelevant`). The order of the responses does: it is fixed exactly when the
  messages of any two matching chains commute (`ResponsesOrderFreeIff`), so in particular when at most one of
  them sends anything, and two chains that send different messages answer in either order
  (`TwoMatchesReorder`). The whole sequence of handler actions is fixed exactly when those commute
  (`OutputOrderFreeIff`).

## Model

| member | source | states |
|---|---|---|
| Pipeline.CompleteKeepsInv | include/beast_router/impl/session.ipp:222-245 | a write completion, popping or taking one of the three early returns, keeps the outbound invariant, and never pops an empty queue |
| Pipeline.OutputIsCut | include/beast_router/base/conn_queue.hpp:29-68 | the writes started are the list of sends cut just after the first terminal completion |
| Pipeline.InterleavingIrrelevant | include/beast_router/base/conn_queue.hpp:29-68 | equal sends and equal completion codes give equal queues, writes and output, however they interleaved |
| Pipeline.LatchedIffTerminal | include/beast_router/impl/session.ipp:229-242 | a queue with work and no write outstanding occurs exactly after a terminal completion |
| SessionInvariant.StepKeepsInv | include/beast_router/impl/session.ipp:91-245 | every event keeps the invariant of queue, timer and ownership, and only a write completion takes anything out of the queue |
| SessionInvariant.ReachableInv | include/beast_router/impl/session.ipp:56-70 | every state that a session can reach from its construction has that invariant |
| SessionInvariant.ActAllKeepsBusy | include/beast_router/impl/session.ipp:91-135 | what a running handler does only adds messages, reads and waits, and closes the stream if it says so: it completes, reports and shuts down nothing |
| SessionAccounting.PostedInOrder | include/beast_router/impl/session.ipp:304-355 | over every run the calls posted from other threads run in the order of their posts, without loss or repetition |
| SessionAccounting.ReadsAccounted | include/beast_router/impl/session.ipp:91-164 | over every run each call of `recv`, from handlers too, starts one read, which has completed or is outstanding |
| SessionAccounting.WaitsAccounted | include/beast_router/impl/session.ipp:128-135 | over every run each call with a time limit starts one wait, whose handler has run or is outstanding; at most one wait is armed |
| SessionAccounting.ContextsAccounted | include/beast_router/impl/session.ipp:296-302 | over every run the live contexts are the first one, those copied and those kept by handlers, without those dropped |
| SessionTheorems.OutputOfRun | include/beast_router/impl/session.ipp:205-245 | over every run the output is what the callers handed over, posted sends in the order of their posts and what the handlers of each message send, cut after the first terminal completion |
| SessionTheorems.PoppedThenQueued | include/beast_router/base/conn_queue.hpp:29-75 | in every reachable state, popped followed by queued is what was sent, and started is popped plus the front |
| SessionTheorems.OneWriteOutstanding | include/beast_router/base/conn_queue.hpp:47-68 | in every reachable state at most one write is outstanding, it writes the front, and the latch is closed exactly after a terminal completion |
| SessionTheorems.LatchForever | include/beast_router/impl/session.ipp:229-242 | after a terminal completion no continuation of the run starts a write (section 9.6 of RFC 9112) |
| SessionTheorems.WriteCompletion | include/beast_router/impl/session.ipp:222-245 | after the end of the stream, a reported failure or a closing message nothing is written in any continuation; after any other completion the message leaves the queue and the next one starts |
| SessionTheorems.RecvIsAnswered | include/beast_router/impl/session.ipp:91-182 | a `recv` whose turn has come starts a read that can complete in any way, and what the handlers of the message send is queued |
| SessionTheorems.SerializerStaysValid | include/beast_router/impl/session.ipp:205-220 | until its completion an outstanding write keeps its serializer, which refers to the front item, and that item stays in the queue |
| SessionTheorems.ResponsesInRequestOrder | include/beast_router/impl/session.ipp:166-203 | the wire holds a prefix of the per-request outputs in dispatch order; no later request's message precedes an earlier one's (section 9.3.2 of RFC 9112) |
| SessionTheorems.CleanRunDrains | include/beast_router/base/conn_queue.hpp:47-68 | with successful writes and no closing message, the queue length is sends minus completions over every interleaving |
| SessionTheorems.Drain | include/beast_router/base/conn_queue.hpp:47-68 | from any state that has not latched, successful completions write the queue up to and including its first closing message and latch there; without one the queue is emptied and a further send starts at once |
| SessionTheorems.DestroyedIffUnowned | include/beast_router/impl/session.ipp:296-302 | the use count is the number of outstanding operations, posted calls and contexts, and the session is destroyed exactly when it is zero |
| SessionTheorems.DestroyedForever | include/beast_router/impl/session.ipp:131-164 | no handler runs on a destroyed session and nothing about it changes any more |
| SessionTheorems.QueueDoesNotOwnSession | include/beast_router/base/conn_queue.hpp:73-74 | whatever the queue holds, the session is destroyed when its last owner leaves: the back-reference owns nothing |
| SessionTheorems.AbandonedItems | include/beast_router/impl/session.ipp:222-232 | a run that destroys a session whose queue still holds an item |
| SessionTheorems.CanBeDestroyed | include/beast_router/impl/session.ipp:296-302 | sessions do not leak: every state with the invariant has a continuation that destroys the session |
| SessionEffects.TimesOutIff | include/beast_router/impl/session.ipp:137-155 | the end of a wait, expired or aborted, times the session out exactly at or past the deadline armed last: it then makes one `timed_out` report, one shutdown of an open socket and a report if that fails, and otherwise shows nothing |
| Guards.GuardsAreArmed | include/beast_router/impl/session.ipp:99-135 | over every run the deadlines armed are, in order, those of the calls with a time limit: the clock when the call ran plus the duration it asked for |
| SessionEffects.LateIffExpired | include/beast_router/impl/session.ipp:128-155 | for a clock within its range, the deadline armed last is reached exactly when the clock has reached the time of the latest call with a time limit plus its duration, or its own end |
| SessionEffects.TimeoutsNeverEarly | include/beast_router/impl/session.ipp:128-155 | wherever in a run the end of a wait reports anything or shuts the socket down, a call with a time limit has run and the clock has reached its time plus its duration; timeouts never outnumber armings |
| SessionEffects.ExpiredCallTimesOut | include/beast_router/impl/session.ipp:128-155 | in every run, while fewer handlers of waits have run than calls with a time limit were made and the latest of these has expired, the next handler of a wait times the session out |
| SessionEffects.SilentPeerTimesOut | include/beast_router/impl/session.ipp:99-155 | after a call with a time limit, whatever happens while no other limit is set, the session times out at the deadline with the next handler of a wait |
| SessionEffects.SilenceTimesOut | include/beast_router/impl/session.ipp:99-155 | in particular when only the clock goes on |
| SessionEffects.CompletionCancelsWait | include/beast_router/impl/session.ipp:166-245 | a completed read or write cancels the waits and keeps the deadline, unless the handlers set a new limit |
| SessionEffects.SupersededWaitsAreHarmless | include/beast_router/common/impl/timer.ipp:14-26 | a wait superseded by a new arming is measured against the new deadline |
| SessionEffects.QuietUntilDeadline | include/beast_router/impl/session.ipp:148-154 | between two armings a timeout means that the clock has reached the deadline |
| SessionEffects.CompletedReadCanStillTimeOut | include/beast_router/common/impl/timer.ipp:28-38 | for every session whose guarded read completes in time there is a continuation in which it still times out, reports that and shuts the socket down |
| SessionEffects.ShutdownsAccounted | include/beast_router/impl/session.ipp:184-195 | over every run the socket is shut down once per terminal event, plus once by the destructor if still open, and is never reopened |
| SessionEffects.ReportsOfRun | include/beast_router/impl/session.ipp:137-245 | over every run the error callback hears, in order, each failing completion other than the end of the stream, each timeout and each failed shutdown, and nothing else |
| FailedReads.FailedReadAnsweredTwice | include/beast_router/impl/session.ipp:166-182 | a read that fails before anything was parsed is reported, and a server without registrations then queues two answers |
| FailedReads.FailedReadOnTheWire | include/beast_router/impl/session.ipp:166-245 | of these the following successful writes send both with HTTP/1.1 and exactly the first below it, and none behind a message that closes; the rest is never written |
| Chains.RunsShortestFailingPrefix | include/beast_router/base/storage.hpp:72-136 | a chain runs the shortest prefix that ends in a callable returning false, or all of it, and says which; each callable gets the user data its predecessor left and the match, and one that returns no `bool` never stops the chain |
| Chains.ExecuteAppend | include/beast_router/base/storage.hpp:72-81 | running two chains joined is running the first and, if it completed, the second with the user data it left |
| Chains.TupleFuncIdx | include/beast_router/common/utility.hpp:87-93 | in any order of evaluation exactly the entry with the given index is appended |
| Chains.MakeStorage | include/beast_router/base/storage.hpp:51-68 | the constructor stores exactly the given handlers in argument order |
| Routing.ReplayKeepsLast | include/beast_router/impl/router.ipp:37-47 | after any registrations each method and path maps to the chain registered last for it |
| Routing.TableIsLastRegistrations | include/beast_router/impl/router.ipp:37-47 | registration histories that agree on the last chain of every key leave the same table |
| Routing.ReorderDistinctKeys | include/beast_router/impl/router.ipp:37-47 | exchanging neighbouring registrations of different keys changes nothing |
| Routing.KeysStay | include/beast_router/impl/router.ipp:45-46 | no registration removes a key |
| Routing.VisitAllRuns | include/beast_router/base/dispatcher.hpp:57-77 | the loop runs the matching resources in the order visited, and the request is handled iff one of those chains completed |
| Routing.EachMatchRunsOnce | include/beast_router/base/dispatcher.hpp:62-77 | every path that has a chain for the request's method and matches is run exactly once and no other path is run |
| Routing.SelectedKeys | include/beast_router/base/dispatcher.hpp:62-65 | the loop ranges over exactly the paths that have a chain for the request's method |
| Routing.DispatchSelects | include/beast_router/base/dispatcher.hpp:57-90 | a dispatch runs, once each, the chains kept for the request's method whose patterns match, with empty user data and the groups of the match, and the chain under unknown and the empty path if none completed |
| Routing.DispatchFollowsRegistrations | include/beast_router/impl/router.ipp:37-47 | after any registrations these are the chains registered last for the method and the path |
| Routing.UnregisteredMethodRunsNothing | include/beast_router/base/dispatcher.hpp:62-63 | a method that nobody registered runs no resource |
| Routing.OrderIrrelevant | include/beast_router/base/dispatcher.hpp:62-90 | every iteration order gives the same verdict, the same multiset of runs with the same prefixes, and the same fallback |
| Routing.OutputOrderFreeIff | include/beast_router/base/dispatcher.hpp:62-90 | the sequence of handler actions of a dispatch is free of the iteration order exactly when the actions of the resources commute pairwise |
| Routing.ResponsesOrderFreeIff | include/beast_router/base/dispatcher.hpp:62-90 | the responses of a dispatch come in one order exactly when what any two resources send commutes, whatever else their handlers do |
| Routing.OneSenderFixesResponses | include/beast_router/base/dispatcher.hpp:62-77 | the order of the responses is fixed if at most one matching resource sends anything |
| Routing.TwoMatchesReorder | include/beast_router/base/dispatcher.hpp:62-77 | two matching resources that send different messages answer in either order |
| Routing.FallbackExists | include/beast_router/impl/router.ipp:6-13 | after any registrations on a server the entry for unknown and the empty path exists and holds the last not-found chain |
| Routing.NotFoundRunsOnceIff | include/beast_router/base/dispatcher.hpp:57-90 | the not-found chain runs once if no chain completed and not at all otherwise, exactly unless the method is unknown and the empty pattern matches |
| Routing.UnknownMethodAnsweredTwice | include/beast_router/router.hpp:309-315 | in that case a router with no registrations sends two answers |
| LinearDispatch.StepKeepsInv | include/beast_router/base/lockable.hpp:28-57 | every small step keeps readers and writers apart, the table equal to its log and every dispatch sound |
| LinearDispatch.TableFixedWhileRead | include/beast_router/base/dispatcher.hpp:55-90 | while a dispatch holds the shared lock no step of any thread changes the table |
| LinearDispatch.LockTakenIff | include/beast_router/base/lockable.hpp:24-57 | a dispatch gets its lock exactly when no registration is inside, so dispatches run side by side, and a registration exactly when nobody is |
| LinearDispatch.DispatchIsAtomic | include/beast_router/base/dispatcher.hpp:36-90 | in every interleaving each dispatch gives the result of one atomic dispatch on the table at the moment its lock was taken |
| LinearDispatch.ReaderKeepsItsTable | include/beast_router/base/dispatcher.hpp:55-90 | in every interleaving the live table, as long as a dispatch is inside, is the one after the registrations committed when it took its lock |
| LinearDispatch.LaterDispatchesSeeRegistrations | include/beast_router/impl/router.ipp:37-47 | whatever was committed at some moment is in the table of every dispatch that returns later |
| LinearDispatch.AnyOrderAgrees | include/beast_router/base/dispatcher.hpp:62-90 | that atomic result has the same verdict and runs for any other iteration order of that table |
| LinearDispatch.EveryRecordIsAnswer | include/beast_router/base/dispatcher.hpp:79-89 | on a server every recorded dispatch was handled by a completed chain or by the fallback, never by both |
| CallAccounting.EachCallOnce | include/beast_router/base/lockable.hpp:28-57 | in every run each registration was called for as often as it is committed or under way, and each request as often as it is served or under way |
| CallAccounting.RegistrationTakesEffect | include/beast_router/impl/router.ipp:37-47 | a registration call that is no longer under way has been committed since |
| CallAccounting.DispatchTakesEffect | include/beast_router/base/dispatcher.hpp:36-90 | a dispatch call that is no longer under way has been served since |
| CallAccounting.ReturnedRegistrationIsSeen | include/beast_router/impl/router.ipp:37-47 | once a registration call has returned, every dispatch that returns later is an atomic dispatch on a table made with it |
| CallAccounting.EveryRequestAnswered | include/beast_router/base/dispatcher.hpp:36-90 | on a server a dispatch call that has returned left a record of its own request, answered by a completed chain or by the fallback, never by both |
| CallProgress.SomeThreadCanMove | include/beast_router/base/lockable.hpp:39-57 | registrations and dispatches never deadlock on the mutex |
| CallProgress.ThreadCanFinish | include/beast_router/base/lockable.hpp:28-57 | a thread that holds its lock returns by steps of its own alone, whatever the others wait for |
| CallProgress.AllCanFinish | include/beast_router/base/lockable.hpp:28-57 | from every state in which the invariant holds all calls under way can return |
| CallProgress.EveryMoveCounts | include/beast_router/base/lockable.hpp:28-57 | every step that changes anything, of any thread, brings the calls under way nearer to their return |
| CallProgress.FairScheduleEnds | include/beast_router/base/lockable.hpp:28-57 | without new calls, under every schedule that gives each thread a turn again and again, all calls return |
| CallProgress.FairSchedulesExist | include/beast_router/base/lockable.hpp:28-57 | every state has such a schedule |
| AcceptPipeline.HandedInOrder | include/beast_router/impl/listener.ipp:66-90 | on any number of threads the strand handler gets the results in completion order without loss or repetition, and exactly one accept is armed or being handled |
| AcceptPipeline.RearmFirstReorders | include/beast_router/impl/listener.ipp:77-80 | with the two statements exchanged a later accept can overtake an earlier one |
| AcceptPipeline.SocketsInOrder | include/beast_router/impl/listener.ipp:73-90 | over every run, on any number of threads, the accept callback has seen a prefix of the accepted sockets in completion order |
| AcceptPipeline.Listener.Loop | include/beast_router/impl/listener.ipp:43-64 | an accept is armed only if all four steps succeed; otherwise the first failure alone is reported |
| AcceptPipeline.Listener.OnAccept | include/beast_router/impl/listener.ipp:73-81 | the two statements of the pipeline, in the order posting, arming |
| AcceptPipeline.Listener.OnSpawnConnect | include/beast_router/impl/listener.ipp:83-90 | the oldest posted result reaches the accept callback or the error callback, and the callback has seen the accepted sockets in order |
| AcceptPipeline.Listener.Drive | include/beast_router/impl/listener.ipp:66-90 | whatever happens to a listener takes it through a run of the pipeline; no result is lost and the callback has seen a prefix of the accepted sockets |
| AcceptPipeline.Listen | include/beast_router/impl/listener.ipp:43-90 | the same from the constructor and a successful `loop` |
| SessionObjects.Timer.ExpiresFromNow | include/beast_router/common/impl/timer.ipp:14-19 | the new expiry and what becomes of the outstanding waits |
| SessionObjects.Connection.Destroy | include/beast_router/common/impl/connection.ipp:17-23 | the destructor shuts an open socket down once |
| SessionObjects.Router.AddResource | include/beast_router/impl/router.ipp:37-47 | with the mutex free the table becomes the one with the resource added and the lock is free again; with the mutex held the call waits and has changed nothing |
| SessionObjects.Router.ServerHasFallback | include/beast_router/base/dispatcher.hpp:79-85 | whatever has been registered on a server, its dispatchers find the entry that the fallback assumes to exist |
| SessionObjects.Router.constructor | include/beast_router/impl/router.ipp:5-13 | a server router starts with the default not-found chain, a client router with an empty table |
| SessionObjects.Router.Register | include/beast_router/router.hpp:155-297 | the table stays the replay of all registrations that got the mutex |
| SessionObjects.ConnQueue.Push | include/beast_router/base/conn_queue.hpp:29-53 | the message is appended, and its write started exactly if it is alone |
| SessionObjects.ConnQueue.OnWrite | include/beast_router/base/conn_queue.hpp:55-61 | the front is popped, and the write of the next item started if there is one |
| SessionObjects.Dispatcher.BeginExecute | include/beast_router/base/storage.hpp:72-81 | the index loop returns and does what `Execute` says, on the session of the context |
| SessionObjects.Dispatcher.DoProcessRequest | include/beast_router/base/dispatcher.hpp:42-90 | for the order in which the map yielded the resources, the session changes as by the actions of one `Dispatch` and the shared lock is released; while a writer holds the mutex the call waits and has changed nothing |
| SessionObjects.Dispatcher.DoProcessResponse | include/beast_router/base/dispatcher.hpp:92-115 | a client runs the chain under the unknown method, or waits while a writer holds the mutex |
| SessionObjects.Session.OnTimer | include/beast_router/impl/session.ipp:137-155 | the new state of all objects as `SessionModel.OnTimer` of the old one |
| SessionObjects.Session.OnRead | include/beast_router/impl/session.ipp:166-182 | the new state as `SessionModel.OnRead` with the dispatcher's reaction; an error other than end of stream still dispatches; while a writer holds the mutex the read waits with its timer cancelled, its error reported and no handler run |
| SessionObjects.Session.DoEof | include/beast_router/impl/session.ipp:184-195 | an open socket is shut down and a failure reported; a closed one is left alone |
| SessionObjects.Session.DoWrite | include/beast_router/impl/session.ipp:205-220 | the serializer refers to the item, one write more is outstanding, and it owns the session |
| SessionObjects.Session.OnWrite | include/beast_router/impl/session.ipp:222-245 | the new state as `SessionModel.OnWrite` of the old one, early returns included |
| SessionObjects.Session.Drive | include/beast_router/impl/session.ipp:91-245 | any sequence of inputs, registrations on the shared router among them, takes the objects through one run of the session machine, keeping its invariant; each message is answered from the table that the registrations before it make |
| Inputs.ClientReaction | include/beast_router/base/dispatcher.hpp:92-115 | a client gives every message to the chain registered last for responses |
| Inputs.AnswersOnTheWire | include/beast_router/impl/session.ipp:166-245 | on a new session of a server, registrations, dispatches and writes in any order put on the wire the answers to the inputs one after the other, each from the table as registered by then, cut after the first terminal completion |
| SessionObjects.Serve | include/beast_router/impl/session.ipp:56-70 | the same of the objects, from their constructors |

## Left out

- LinearDispatch.AdvanceThread: runs a whole chain in one step, because a chain touches neither the table nor the mutex.
- SessionObjects.SharedMutex.Lock: returns without the lock where a thread would wait, as `LockShared` does; who gets it then is modelled in LinearDispatch.
- SessionObjects.Session.ReadDone: asks that no writer holds the mutex, because a completion that waits has not run to its end; `Session.OnRead` covers the waiting.
- SessionObjects.Timer.ExpiresFromNow: does not return the number of waits aborted, because a wait whose handler is already queued is not counted and `do_timer` ignores the number.
- SessionObjects.Session.Handle: does not cover an error callback that throws, which leaves the handler and the event loop.
- SessionTheorems.ResponsesInRequestOrder: says nothing about what a handler sends after it has returned; such sends are batches of their own.
- Overlapping reads: outstanding reads are counted, so several are allowed, but the buffer and the parser they would share are not modelled.
- Parsing, serializing, sockets, the strand and the timer implementation are Boost's; a read yields an arbitrary message and code.
- The regular expression engine is a deterministic function; patterns are taken to be valid.
- Which C++ callable signatures are accepted, and how their return type is deduced.
- The TLS handshake and `ssl::connection`: the same state machine with an earlier phase of foreign calls.
- `event_loop`, `connector`, `http_utility` and the examples: thin wrappers and look-up tables.
- `router` swap, and registering on a router from one of its own handlers, which would wait for itself.
- A client router without `handle_response`: the source takes the entry to exist.
- `ptr_locker` keeping the mutex alive: the dispatcher that locks holds its own pointer for as long.
- `message.need_eof()` of the default not-found answer is taken to be true exactly below HTTP/1.1.
