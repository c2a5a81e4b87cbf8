/**
  The objects of a session and the methods that change them in place, each tied to the value-level
  machine of `SessionModel` and `Routing`.
 */
module SessionObjects {
  import opened Common
  import opened Messages
  import opened Chains
  import opened Routing
  import opened Inputs
  import P = Pipeline
  import M = SessionModel
  import I = SessionInvariant
  import T = SessionTheorems

  // ----- Clock, timer and connection -------------------------------------------------------------

  class Clock {
    var now: int

    constructor (now: int)
      ensures this.now == now
    {
      this.now := now;
    }
  }

  class Timer {
    const clock: Clock
    var expiry: int
    var waiting: nat
    var cancelled: nat
    ghost var armings: seq<int>
    ghost var timeouts: seq<M.Timeout>

    ghost function State(): M.TimerState
      reads this
    {
      M.TimerState(expiry, waiting, cancelled, armings, timeouts)
    }

    constructor (clock: Clock)
      ensures this.clock == clock && State() == M.IDLE_TIMER
    {
      this.clock := clock;
      expiry, waiting, cancelled, armings, timeouts := M.LAST_TIME, 0, 0, [], [];
    }

    /** A new expiry aborts the outstanding waits; their number is not modelled, and nobody asks for it. */
    method ExpiresFromNow(duration: int)
      modifies this
      ensures State() == M.ExpiresFromNow(old(State()), clock.now, duration)
    {
      expiry := M.Deadline(clock.now, duration);
      armings := armings + [expiry];
      waiting, cancelled := 0, cancelled + waiting;
    }

    method Cancel()
      modifies this
      ensures State() == M.Cancel(old(State()))
    {
      waiting, cancelled := 0, cancelled + waiting;
    }

    method AsyncWait()
      modifies this
      ensures State() == M.AsyncWait(old(State()))
    {
      waiting := waiting + 1;
    }

    /** A wait leaves the timer when its handler starts. */
    method Take(wasCancelled: bool)
      requires if wasCancelled then cancelled > 0 else waiting > 0
      modifies this
      ensures State() == M.TakeWait(old(State()), wasCancelled)
    {
      if wasCancelled {
        cancelled := cancelled - 1;
      } else {
        waiting := waiting - 1;
      }
    }
  }

  class Connection {
    var open: bool
    var shutdowns: nat

    ghost function State(): M.LinkState
      reads this
    {
      M.LinkState(open, shutdowns)
    }

    constructor (open: bool)
      ensures State() == M.LinkState(open, 0)
    {
      this.open, shutdowns := open, 0;
    }

    /** Shutting a socket down does not close it; `result` is the code the socket returns. */
    method Shutdown(result: Code) returns (code: Code)
      modifies this
      ensures State() == old(State()).(shutdowns := old(shutdowns) + 1) && code == result
    {
      shutdowns := shutdowns + 1;
      code := result;
    }

    method Close()
      modifies this
      ensures State() == old(State()).(open := false)
    {
      open := false;
    }

    method Destroy()
      modifies this
      ensures State() == if old(open) then old(State()).(shutdowns := old(shutdowns) + 1) else old(State())
    {
      if open {
        var _ := Shutdown(Ok);
      }
    }
  }

  // ----- The shared mutex and the router ---------------------------------------------------------

  /** A `std::shared_mutex` as one thread sees it between its own calls. */
  class SharedMutex {
    var shared: nat
    var exclusive: bool

    ghost predicate Free()
      reads this
    {
      shared == 0 && !exclusive
    }

    constructor ()
      ensures Free()
    {
      shared, exclusive := 0, false;
    }

    /** A thread that finds a writer inside waits: it has changed nothing yet and has not acquired the mutex. */
    method LockShared() returns (acquired: bool)
      modifies this
      ensures acquired == !old(exclusive) && exclusive == old(exclusive)
      ensures shared == old(shared) + if acquired then 1 else 0
    {
      acquired := !exclusive;
      if acquired {
        shared := shared + 1;
      }
    }

    method UnlockShared()
      requires shared > 0
      modifies this
      ensures shared == old(shared) - 1 && exclusive == old(exclusive)
    {
      shared := shared - 1;
    }

    /** A thread that finds the mutex held waits: it has changed nothing yet and has not acquired it. */
    method Lock() returns (acquired: bool)
      modifies this
      ensures acquired == old(Free()) && shared == old(shared)
      ensures exclusive == (old(exclusive) || acquired)
    {
      acquired := shared == 0 && !exclusive;
      if acquired {
        exclusive := true;
      }
    }

    method Unlock()
      requires exclusive
      modifies this
      ensures shared == old(shared) && !exclusive
    {
      exclusive := false;
    }
  }

  /** The map object that a router shares with the dispatchers of its sessions. */
  class MethodMap {
    var table: Table

    constructor ()
      ensures table == map[]
    {
      table := map[];
    }
  }

  class Router {
    const server: bool
    const methodMap: MethodMap
    const mutex: SharedMutex
    ghost var log: seq<Registration>

    ghost function Base(): Table
    {
      if server then ServerTable() else map[]
    }

    /** The table is exactly what the registrations so far make of it. */
    ghost predicate Valid()
      reads this, methodMap
    {
      methodMap.table == Replay(Base(), log)
    }

    /** Whatever was registered, a server's dispatchers find the entry that the fallback looks up. */
    lemma ServerHasFallback()
      requires Valid() && server
      ensures Unknown in methodMap.table && "" in methodMap.table[Unknown]
    {
      FallbackExists(log);
    }

    /** A server router starts with a not-found chain, a client router with nothing. */
    constructor (server: bool)
      ensures Valid() && this.server == server && log == []
      ensures fresh(methodMap) && fresh(mutex) && mutex.Free()
    {
      this.server := server;
      methodMap := new MethodMap();
      mutex := new SharedMutex();
      log := [];
      new;
      if server {
        var _ := AddResource("", Unknown, [NotFoundHandler()]);
      }
    }

    /** Waits while another thread holds the mutex, and until then has changed nothing. */
    method AddResource(path: string, verb: Verb, storage: Chain) returns (finished: bool)
      modifies methodMap, mutex
      ensures finished == old(mutex.Free())
      ensures methodMap.table == if finished then
                                   Routing.AddResource(old(methodMap.table), Registration(verb, path, storage))
                                 else old(methodMap.table)
      ensures mutex.shared == old(mutex.shared) && mutex.exclusive == old(mutex.exclusive)
    {
      finished := mutex.Lock();
      if !finished {
        return;
      }
      if verb !in methodMap.table {
        methodMap.table := methodMap.table[verb := map[]];
      }
      methodMap.table := methodMap.table[verb := methodMap.table[verb][path := storage]];
      mutex.Unlock();
    }

    /** `get`, `put`, `post`, `delete_`, `not_found` and `handle_response` differ only in the key they pass. */
    method Register(path: string, verb: Verb, storage: Chain) returns (finished: bool)
      requires Valid()
      modifies this, methodMap, mutex
      ensures Valid() && finished == old(mutex.Free())
      ensures log == old(log) + if finished then [Registration(verb, path, storage)] else []
      ensures mutex.shared == old(mutex.shared) && mutex.exclusive == old(mutex.exclusive)
    {
      finished := AddResource(path, verb, storage);
      if finished {
        log := log + [Registration(verb, path, storage)];
        assert log[..|log| - 1] == old(log);
      }
    }
  }

  // ----- The outbound queue ----------------------------------------------------------------------

  class ConnQueue {
    var impl: Session?
    var items: seq<P.Item>
    var pushed: nat
    ghost var sent: seq<Message>
    ghost var popped: seq<Message>

    constructor ()
      ensures impl == null && items == [] && pushed == 0 && sent == [] && popped == []
    {
      impl, items, pushed, sent, popped := null, [], 0, [], [];
    }

    ghost predicate Attached()
      reads this, impl
    {
      impl != null && impl.queue == this && impl.Shape()
    }

    /** `operator()`: the write starts only if the pushed item is the only one. */
    method Push(message: Message)
      requires Attached()
      modifies this, impl
      ensures Attached() && impl == old(impl)
      ensures impl.State() == M.Enqueue(old(impl.State()), message)
    {
      items := items + [P.Item(pushed, message)];
      pushed := pushed + 1;
      sent := sent + [message];
      if |items| == 1 {
        DoHandle();
      }
    }

    method OnWrite()
      requires Attached() && items != []
      modifies this, impl
      ensures Attached() && impl == old(impl)
      ensures impl.State() == M.Advance(old(impl.State()))
    {
      popped := popped + [items[0].message];
      items := items[1..];
      if |items| > 0 {
        DoHandle();
      }
    }

    method DoHandle()
      requires Attached() && items != []
      modifies impl
      ensures Attached() && impl == old(impl)
      ensures var s := old(impl.State());
        impl.State() == s.(pipe := P.DoWrite(s.pipe, items[0]), refs := s.refs + 1)
    {
      impl.DoWrite(items[0]);
    }
  }

  // ----- The dispatcher --------------------------------------------------------------------------

  /** The context that one chain sees: fresh user data on the session it talks to. */
  class Context {
    const impl: Session
    var userData: Any

    constructor (impl: Session)
      ensures this.impl == impl && userData == Empty
    {
      this.impl := impl;
      userData := Empty;
    }
  }

  class Dispatcher {
    const methodMap: MethodMap
    const mutex: SharedMutex
    const regex: Regex

    /** A dispatcher shares the map and the mutex of the router it is made from. */
    constructor (router: Router, regex: Regex)
      ensures methodMap == router.methodMap && mutex == router.mutex && this.regex == regex
    {
      methodMap, mutex, this.regex := router.methodMap, router.mutex, regex;
    }

    /** `begin_execute`: runs the chain until a callback stops it. */
    method BeginExecute(chain: Chain, request: Request, ctx: Context, groups: Match) returns (completed: bool)
      requires ctx.impl.Shape()
      modifies ctx, ctx.impl.Footprint()
      ensures ctx.impl.Shape()
      ensures var e := Execute(chain, request, old(ctx.userData), groups);
        && completed == e.completed && ctx.userData == e.data
        && ctx.impl.State() == M.ActAll(old(ctx.impl.State()), e.actions)
    {
      hide Execute, Prefixed, M.Act, M.ActAll;
      var idx := 0;
      ghost var s, whole := ctx.impl.State(), Execute(chain, request, ctx.userData, groups);
      ghost var ran: seq<Action> := [];
      ExecutionStarts(chain, request, ctx.userData, groups);
      M.ActAllNothing(s);
      while idx < |chain|
        invariant 0 <= idx <= |chain|
        invariant ctx.impl.Shape()
        invariant ctx.impl.State() == M.ActAll(s, ran)
        invariant whole == Prefixed(idx, ran, Execute(chain[idx..], request, ctx.userData, groups))
      {
        ExecuteFrom(chain, idx, request, ctx.userData, groups, ran);
        var reply := chain[idx].Invoke(request, ctx.userData, groups);
        ctx.userData := reply.data;
        M.ActAllAppend(s, ran, reply.actions);
        ctx.impl.ActAll(reply.actions);
        ran := ran + reply.actions;
        if !reply.proceed {
          return false;
        }
        idx := idx + 1;
      }
      assert chain[idx..] == [];
      ExecutionEnds(idx, ran, request, ctx.userData, groups);
      return true;
    }

    /** One iteration of the dispatch loop: a matching resource is executed with a fresh context. */
    method VisitResource(path: string, chains: map<string, Chain>, request: Request, impl: Session, ghost acc: Progress)
      returns (completed: bool)
      requires impl.Shape() && path in chains
      modifies impl.Footprint()
      ensures impl.Shape()
      ensures var next := Visit(regex, chains, request, path, acc);
        && next.handled == (acc.handled || completed)
        && forall s :: old(impl.State()) == M.ActAll(s, ActionsOfRuns(acc.runs)) ==>
             impl.State() == M.ActAll(s, ActionsOfRuns(next.runs))
    {
      VisitActions(regex, chains, request, path, acc);
      completed := false;
      match regex(path, request.target) {
        case None =>
        case Some(groups) =>
          var ctx := new Context(impl);
          completed := BeginExecute(chains[path], request, ctx, groups);
      }
      hide Execute, Visit;
      forall s | old(impl.State()) == M.ActAll(s, ActionsOfRuns(acc.runs))
        ensures impl.State() == M.ActAll(s, ActionsOfRuns(Visit(regex, chains, request, path, acc).runs))
      {
        match regex(path, request.target) {
          case None =>
          case Some(groups) =>
            M.ActAllAppend(s, ActionsOfRuns(acc.runs), Execute(chains[path], request, Empty, groups).actions);
        }
      }
    }

    /** The loop over the resources of the request's verb, in whatever order the unordered map yields them. */
    method VisitResources(chains: map<string, Chain>, request: Request, impl: Session)
      returns (isHandled: bool, ghost order: seq<string>)
      requires impl.Shape()
      modifies impl.Footprint()
      ensures impl.Shape()
      ensures Enumerates(order, chains.Keys) && forall path <- order :: path in chains
      ensures var acc := VisitAll(regex, chains, request, order);
        isHandled == acc.handled && impl.State() == M.ActAll(old(impl.State()), ActionsOfRuns(acc.runs))
    {
      hide Execute, Visit, M.Act;
      isHandled, order := false, [];
      var remaining := chains.Keys;
      ghost var s := impl.State();
      while remaining != {}
        invariant impl.Shape()
        invariant remaining <= chains.Keys
        invariant multiset(order) + multiset(remaining) == multiset(chains.Keys)
        invariant forall path <- order :: path in chains
        invariant isHandled == VisitAll(regex, chains, request, order).handled
        invariant impl.State() == M.ActAll(s, ActionsOfRuns(VisitAll(regex, chains, request, order).runs))
        decreases remaining
      {
        var path :| path in remaining;
        remaining := remaining - {path};
        VisitAllNext(regex, chains, request, order, path);
        var completed := VisitResource(path, chains, request, impl, VisitAll(regex, chains, request, order));
        order := order + [path];
        if completed {
          isHandled := true;
        }
      }
    }

    /**
      A server dispatch, with the shared lock held throughout. `order` is the order in which the
      resources were visited. While a writer is inside the dispatch waits, and has done nothing yet.
     */
    method DoProcessRequest(request: Request, impl: Session) returns (entered: bool, ghost order: seq<string>)
      requires impl.Shape() && Unknown in methodMap.table
      modifies mutex, impl.Footprint()
      ensures impl.Shape() && entered == !old(mutex.exclusive)
      ensures mutex.shared == old(mutex.shared) && mutex.exclusive == old(mutex.exclusive)
      ensures !entered ==> impl.State() == old(impl.State())
      ensures var table := methodMap.table;
        entered ==>
          && Selects(table, request.verb, order) && Enumerates(order, ChainsOf(table, request.verb).Keys)
          && (forall path <- order :: path in ChainsOf(table, request.verb))
          && impl.State() == M.ActAll(old(impl.State()), ActionsOfOutcome(Dispatch(regex, table, request, order)))
    {
      hide Dispatch, Execute, VisitAll, UnknownActions, ActionsOfRuns, ActionsOfOutcome, Selects, M.ActAll;
      ghost var s := impl.State();
      order := [];
      entered := mutex.LockShared();
      if !entered {
        return;
      }
      var chains := if request.verb in methodMap.table then methodMap.table[request.verb] else map[];
      var isHandled;
      isHandled, order := VisitResources(chains, request, impl);
      DispatchActsInTurn(s, regex, methodMap.table, request, order);
      SelectedKeys(methodMap.table, request.verb, order);
      if !isHandled {
        ExecuteUnknown(request, impl);
      }
      mutex.UnlockShared();
    }

    method ExecuteUnknown(request: Request, impl: Session)
      requires impl.Shape() && Unknown in methodMap.table
      modifies impl.Footprint()
      ensures impl.Shape()
      ensures impl.State() == M.ActAll(old(impl.State()), UnknownActions(methodMap.table, request))
    {
      hide Execute;
      var resources := methodMap.table[Unknown];
      if "" in resources {
        var ctx := new Context(impl);
        var _ := BeginExecute(resources[""], request, ctx, []);
      }
    }

    /** A client hands every response to the chain kept under the unknown method. */
    method DoProcessResponse(response: Request, impl: Session) returns (entered: bool)
      requires impl.Shape() && Unknown in methodMap.table
      modifies mutex, impl.Footprint()
      ensures impl.Shape() && entered == !old(mutex.exclusive)
      ensures mutex.shared == old(mutex.shared) && mutex.exclusive == old(mutex.exclusive)
      ensures impl.State() == if entered then M.ActAll(old(impl.State()), UnknownActions(methodMap.table, response))
                              else old(impl.State())
    {
      hide M.ActAll, UnknownActions;
      entered := mutex.LockShared();
      if entered {
        ExecuteUnknown(response, impl);
        mutex.UnlockShared();
      }
    }
  }

  /** A dispatch acts on a session as its loop does and then, if nothing was handled, the unknown method's chain. */
  lemma DispatchActsInTurn(s: M.State, regex: Regex, table: Table, request: Request, order: seq<string>)
    requires forall path <- order :: path in ChainsOf(table, request.verb)
    ensures var acc := VisitAll(regex, ChainsOf(table, request.verb), request, order);
      var looped := M.ActAll(s, ActionsOfRuns(acc.runs));
      M.ActAll(s, ActionsOfOutcome(Dispatch(regex, table, request, order)))
      == if acc.handled then looped else M.ActAll(looped, UnknownActions(table, request))
  {
    ActionsOfDispatch(regex, table, request, order);
    hide ActionsOfOutcome, Dispatch, Execute, VisitAll, UnknownActions, M.ActAll;
    var looped := ActionsOfRuns(VisitAll(regex, ChainsOf(table, request.verb), request, order).runs);
    assert looped + [] == looped;
    M.ActAllAppend(s, looped, UnknownActions(table, request));
  }

  // ----- The session -----------------------------------------------------------------------------

  /** `session::impl`, with the environment's view of its outstanding operations and owners. */
  class Session {
    const server: bool
    const hasOnError: bool
    const clock: Clock
    const connection: Connection
    const timer: Timer
    const queue: ConnQueue
    const dispatcher: Dispatcher
    var serializer: Option<nat>
    var flights: seq<P.Flight>
    var reading: nat
    var reports: seq<Report>
    var posted: seq<Call>
    var contexts: nat
    var refs: int
    var destroyed: bool
    ghost var started: seq<Message>
    ghost var done: seq<Code>

    ghost function Footprint(): set<object>
    {
      {this, clock, connection, timer, queue}
    }

    ghost predicate Shape()
      reads this, queue
    {
      queue.impl == this && timer.clock == clock && queue.pushed == |queue.sent|
    }

    ghost function State(): M.State
      reads Footprint()
    {
      var pipe := P.Pipe(queue.items, serializer, flights, queue.sent, queue.popped, started, done);
      M.State(hasOnError, clock.now, reading, timer.State(), connection.State(), pipe,
              reports, posted, contexts, refs, destroyed)
    }

    /** Holds between events. */
    ghost predicate Valid()
      reads Footprint()
    {
      Shape() && I.Inv(State())
    }

    /** `init_context`: the new session is owned by the one context that is returned. */
    constructor (clock: Clock, open: bool, router: Router, regex: Regex, hasOnError: bool)
      ensures Valid() && State() == M.Start(hasOnError, open, clock.now)
      ensures server == router.server && this.clock == clock && fresh(Footprint() - {clock})
      ensures fresh(dispatcher) && dispatcher.regex == regex
      ensures dispatcher.methodMap == router.methodMap && dispatcher.mutex == router.mutex
    {
      server, this.hasOnError, this.clock := router.server, hasOnError, clock;
      connection := new Connection(open);
      timer := new Timer(clock);
      queue := new ConnQueue();
      dispatcher := new Dispatcher(router, regex);
      serializer, flights, reading, reports, posted, contexts, refs, destroyed := None, [], 0, [], [], 1, 1, false;
      started, done := [], [];
      new;
      hide I.Inv;
      queue.impl := this;
      I.StartInv(hasOnError, open, clock.now);
    }

    method Report(code: Code, origin: Origin)
      requires Shape()
      modifies this`reports
      ensures Shape() && State() == M.ReportIf(old(State()), code, origin)
    {
      if code != Ok && hasOnError {
        reports := reports + [Messages.Report(code, origin)];
      }
    }

    method DoTimer(duration: int)
      requires Shape()
      modifies this`refs, timer
      ensures Shape() && State() == M.DoTimer(old(State()), duration)
    {
      timer.ExpiresFromNow(duration);
      timer.AsyncWait();
      refs := refs + 1;
    }

    method DoRead()
      requires Shape()
      modifies this
      ensures Shape() && State() == M.DoRead(old(State()))
    {
      reading := reading + 1;
      refs := refs + 1;
    }

    /** The serializer is built on the message that the queue's item owns, and a write is started. */
    method DoWrite(item: P.Item)
      requires Shape()
      modifies this
      ensures Shape()
      ensures var s := old(State());
        State() == s.(pipe := P.DoWrite(s.pipe, item), refs := s.refs + 1)
    {
      serializer := Some(item.id);
      flights := flights + [P.Flight(item.id, item.message.needEof)];
      refs := refs + 1;
      started := started + [item.message];
    }

    method DoEof(shut: Code)
      requires Shape()
      modifies this`reports, connection
      ensures Shape() && State() == M.DoEof(old(State()), shut)
    {
      if !connection.open {
        return;
      }
      var code := connection.Shutdown(shut);
      Report(code, FromShutdown);
    }

    method Recv()
      requires Shape()
      modifies Footprint()
      ensures Shape() && State() == M.Perform(old(State()), Call.Recv)
    {
      DoRead();
    }

    method RecvWithin(duration: int)
      requires Shape()
      modifies Footprint()
      ensures Shape() && State() == M.Perform(old(State()), Call.RecvWithin(duration))
    {
      DoTimer(duration);
      DoRead();
    }

    method Send(message: Message)
      requires Shape()
      modifies Footprint()
      ensures Shape() && State() == M.Perform(old(State()), Call.Send(message))
    {
      queue.Push(message);
    }

    method SendWithin(message: Message, duration: int)
      requires Shape()
      modifies Footprint()
      ensures Shape() && State() == M.Perform(old(State()), Call.SendWithin(message, duration))
    {
      DoTimer(duration);
      queue.Push(message);
    }

    method Perform(call: Call)
      requires Shape()
      modifies Footprint()
      ensures Shape() && State() == M.Perform(old(State()), call)
    {
      match call
      case Recv => Recv();
      case RecvWithin(duration) => RecvWithin(duration);
      case Send(message) => Send(message);
      case SendWithin(message, duration) => SendWithin(message, duration);
    }

    /** What a handler does while it runs on the strand: its calls are dispatched inline. */
    method ActAll(actions: seq<Action>)
      requires Shape()
      modifies Footprint()
      ensures Shape() && State() == M.ActAll(old(State()), actions)
    {
      var i := 0;
      while i < |actions|
        invariant 0 <= i <= |actions|
        invariant Shape()
        invariant M.ActAll(old(State()), actions) == M.ActAll(State(), actions[i..])
      {
        assert actions[i..][0] == actions[i] && actions[i..][1..] == actions[i + 1..];
        match actions[i] {
          case Do(call) => Perform(call);
          case Keep => contexts, refs := contexts + 1, refs + 1;
          case CloseStream => connection.Close();
          case Spend(ticks) => clock.now := clock.now + ticks;
        }
        i := i + 1;
      }
    }

    method OnTimer(code: Code, shut: Code)
      requires Shape()
      modifies Footprint()
      ensures Shape() && State() == M.OnTimer(old(State()), code, shut)
    {
      if code != Ok && code != Aborted {
        Report(code, FromTimer);
        return;
      }
      if timer.expiry <= clock.now {
        timer.timeouts := timer.timeouts + [M.Timeout(clock.now, |timer.armings|)];
        Report(TimedOut, FromTimer);
        DoEof(shut);
      }
    }

    method OnWrite(code: Code, close: bool, shut: Code)
      requires Shape() && queue.items != []
      modifies Footprint()
      ensures Shape() && State() == M.OnWrite(old(State()), code, close, shut)
    {
      hide M.DoEof, M.Advance, M.Cancel, M.ReportIf, P.Pop;
      timer.Cancel();
      if code == EndOfStream {
        DoEof(shut);
        return;
      }
      if code != Ok && hasOnError {
        Report(code, FromWrite);
        return;
      }
      if close {
        DoEof(shut);
        return;
      }
      queue.OnWrite();
    }

    /** A use count of zero destroys the session and its connection. */
    method Release()
      requires Shape()
      modifies this, connection
      ensures Shape() && State() == M.Release(old(State()))
    {
      refs := refs - 1;
      if refs == 0 {
        connection.Destroy();
        destroyed := true;
      }
    }

    // ----- The events of the strand ------------------------------------------------------------

    /** No writer holds the router's mutex and the entry that the fallback looks up exists. */
    ghost predicate CanDispatch()
      reads dispatcher.mutex, dispatcher.methodMap
    {
      !dispatcher.mutex.exclusive && Unknown in dispatcher.methodMap.table
    }

    /** `do_process_request`: the dispatcher runs the handlers for the message that was read. */
    method React(message: Request) returns (entered: bool, ghost order: seq<string>)
      requires Shape() && Unknown in dispatcher.methodMap.table
      modifies Footprint(), dispatcher.mutex
      ensures Shape() && entered == !old(dispatcher.mutex.exclusive)
      ensures dispatcher.mutex.shared == old(dispatcher.mutex.shared)
      ensures dispatcher.mutex.exclusive == old(dispatcher.mutex.exclusive)
      ensures entered ==> IsOrder(server, dispatcher.methodMap.table, message, order)
      ensures var actions := Reaction(server, dispatcher.regex, dispatcher.methodMap.table, message, order);
        State() == M.ActAll(old(State()), if entered then actions else [])
    {
      M.ActAllNothing(State());
      hide M.ActAll, Dispatch, ActionsOfOutcome, UnknownActions;
      order := [];
      if server {
        entered, order := dispatcher.DoProcessRequest(message, this);
      } else {
        entered := dispatcher.DoProcessResponse(message, this);
      }
    }

    /** A read that waits for a writer of the table has cancelled and reported, and none of its handlers has run. */
    method OnRead(code: Code, shut: Code, message: Request) returns (finished: bool, ghost order: seq<string>)
      requires Shape() && Unknown in dispatcher.methodMap.table
      modifies Footprint(), dispatcher.mutex
      ensures Shape() && finished == (code == EndOfStream || !old(dispatcher.mutex.exclusive))
      ensures dispatcher.mutex.shared == old(dispatcher.mutex.shared)
      ensures dispatcher.mutex.exclusive == old(dispatcher.mutex.exclusive)
      ensures finished && code != EndOfStream ==> IsOrder(server, dispatcher.methodMap.table, message, order)
      ensures var actions := Reaction(server, dispatcher.regex, dispatcher.methodMap.table, message, order);
        State() == M.OnRead(old(State()), code, shut, if finished then actions else [])
    {
      hide M.ActAll, Reaction, IsOrder;
      finished, order := true, [];
      timer.Cancel();
      if code == EndOfStream {
        DoEof(shut);
        return;
      }
      Report(code, FromRead);
      finished, order := React(message);
    }

    /** A read completes: `on_read` runs with one owner fewer outstanding. */
    method ReadDone(code: Code, shut: Code, message: Request) returns (ghost order: seq<string>)
      requires Valid() && reading > 0 && CanDispatch()
      modifies Footprint(), dispatcher.mutex
      ensures Valid() && CanDispatch() && dispatcher.mutex.shared == old(dispatcher.mutex.shared)
      ensures code != EndOfStream ==> IsOrder(server, dispatcher.methodMap.table, message, order)
      ensures var actions := Reaction(server, dispatcher.regex, dispatcher.methodMap.table, message, order);
        State() == M.Step(old(State()), M.ReadDone(code, shut, actions))
    {
      hide I.Inv, M.OnRead, M.Release, M.Step, Reaction, IsOrder;
      ghost var s := State();
      reading := reading - 1;
      assert State() == s.(reading := s.reading - 1);
      var finished;
      finished, order := OnRead(code, shut, message);
      Release();
      ghost var actions := Reaction(server, dispatcher.regex, dispatcher.methodMap.table, message, order);
      M.ReadDoneStep(s, code, shut, actions);
      I.StepKeepsInv(s, M.ReadDone(code, shut, actions));
    }

    method Land(index: nat, code: Code)
      requires Shape() && index < |flights|
      modifies this
      ensures Shape() && State() == old(State()).(pipe := P.Land(old(State()).pipe, index, code))
    {
      flights := flights[..index] + flights[index + 1..];
      done := done + [code];
    }

    /** A write completes: `on_write` runs with the closing flag that was bound when the write started. */
    method WriteDone(index: nat, code: Code, shut: Code)
      requires Valid() && index < |flights|
      modifies Footprint()
      ensures Valid() && State() == M.Step(old(State()), M.WriteDone(index, code, shut))
    {
      hide I.Inv, M.OnWrite, M.Release, M.Step, P.Land;
      I.FlightHasItem(State());
      I.StepKeepsInv(State(), M.WriteDone(index, code, shut));
      M.WriteDoneStep(State(), index, code, shut);
      var close := flights[index].close;
      Land(index, code);
      OnWrite(code, close, shut);
      Release();
    }

    method TimerDone(wasCancelled: bool, code: Code, shut: Code)
      requires Valid() && M.Enabled(State(), M.TimerDone(wasCancelled, code, shut))
      modifies Footprint()
      ensures Valid() && State() == M.Step(old(State()), M.TimerDone(wasCancelled, code, shut))
    {
      I.StepKeepsInv(State(), M.TimerDone(wasCancelled, code, shut));
      hide I.Inv, M.OnTimer, M.Release;
      timer.Take(wasCancelled);
      OnTimer(code, shut);
      Release();
    }

    /** User code on another thread calls a context: the call is posted to the strand and owns the session. */
    method Post(call: Call)
      requires Valid() && contexts > 0
      modifies this
      ensures Valid() && State() == M.Step(old(State()), M.Post(call))
    {
      I.StepKeepsInv(State(), M.Post(call));
      hide I.Inv;
      posted := posted + [call];
      refs := refs + 1;
    }

    /** The strand runs the oldest posted call. */
    method RunPosted()
      requires Valid() && posted != []
      modifies Footprint()
      ensures Valid() && State() == M.Step(old(State()), M.RunPosted)
    {
      I.StepKeepsInv(State(), M.RunPosted);
      hide I.Inv, M.Perform, M.Release;
      var call := posted[0];
      posted := posted[1..];
      Perform(call);
      Release();
    }

    method CopyContext()
      requires Valid() && contexts > 0
      modifies this
      ensures Valid() && State() == M.Step(old(State()), M.CopyContext)
    {
      I.StepKeepsInv(State(), M.CopyContext);
      hide I.Inv;
      contexts, refs := contexts + 1, refs + 1;
    }

    method DropContext()
      requires Valid() && contexts > 0
      modifies Footprint()
      ensures Valid() && State() == M.Step(old(State()), M.DropContext)
    {
      I.StepKeepsInv(State(), M.DropContext);
      hide I.Inv, M.Release;
      contexts := contexts - 1;
      Release();
    }

    method Tick(ticks: nat)
      requires Valid()
      modifies Footprint()
      ensures Valid() && State() == M.Step(old(State()), M.Tick(ticks))
    {
      I.StepKeepsInv(State(), M.Tick(ticks));
      hide I.Inv;
      clock.now := clock.now + ticks;
    }

    /** User code closes the stream that a live context gave it. */
    method StreamClosed()
      requires Valid() && contexts > 0
      modifies Footprint()
      ensures Valid() && State() == M.Step(old(State()), M.StreamClosed)
    {
      I.StepKeepsInv(State(), M.StreamClosed);
      hide I.Inv;
      connection.Close();
    }

    // ----- Any sequence of inputs ----------------------------------------------------------------

    /** The session was made for this router, whose mutex is free between inputs. */
    ghost predicate Serves(router: Router)
      reads router, router.methodMap, router.mutex
    {
      && router.Valid() && router.mutex.Free() && server == router.server
      && dispatcher.methodMap == router.methodMap && dispatcher.mutex == router.mutex
      && (!server ==> Unknown in router.methodMap.table)
    }

    /** On a server the entry that the fallback looks up exists whatever has been registered. */
    lemma ServingCanDispatch(router: Router)
      requires Serves(router)
      ensures CanDispatch()
    {
      if server {
        router.ServerHasFallback();
      }
    }

    /** Something that is not outstanding cannot complete. */
    method HandlePlain(event: M.Event)
      requires Valid() && !event.ReadDone?
      modifies Footprint()
      ensures Valid() && State() == M.Step(old(State()), event)
    {
      hide I.Inv;
      match event
      case Tick(ticks) => Tick(ticks);
      case Post(call) => if contexts > 0 { Post(call); }
      case RunPosted => if posted != [] { RunPosted(); }
      case CopyContext => if contexts > 0 { CopyContext(); }
      case DropContext => if contexts > 0 { DropContext(); }
      case StreamClosed => if contexts > 0 { StreamClosed(); }
      case WriteDone(index, code, shut) => if index < |flights| { WriteDone(index, code, shut); }
      case TimerDone(wasCancelled, code, shut) =>
        if (if wasCancelled then timer.cancelled > 0 else timer.waiting > 0 && code != Aborted) {
          TimerDone(wasCancelled, code, shut);
        }
    }

    method HandleArrival(code: Code, shut: Code, message: Request) returns (ghost event: M.Event)
      requires Valid() && CanDispatch()
      modifies Footprint(), dispatcher.mutex
      ensures Valid() && dispatcher.mutex.shared == old(dispatcher.mutex.shared) && !dispatcher.mutex.exclusive
      ensures State() == M.Step(old(State()), event)
      ensures Realises(server, dispatcher.regex, dispatcher.methodMap.table, old(State()),
                       Arrival(code, shut, message), event)
    {
      hide I.Inv, Reaction, IsOrder;
      event := M.ReadDone(code, shut, []);
      if reading > 0 {
        ghost var order := ReadDone(code, shut, message);
        event := M.ReadDone(code, shut, Reaction(server, dispatcher.regex, dispatcher.methodMap.table, message, order));
      }
    }

    method HandleRoute(r: Registration, router: Router)
      requires Valid() && Serves(router)
      modifies router, router.methodMap, router.mutex
      ensures Valid() && Serves(router) && router.log == old(router.log) + [r]
      ensures State() == M.Step(old(State()), M.Tick(0))
    {
      hide I.Inv;
      var _ := router.Register(r.path, r.verb, r.chain);
    }

    /** Runs whatever the environment offers. */
    method Handle(input: Input, router: Router) returns (ghost event: M.Event)
      requires Valid() && Serves(router)
      requires input.Plain? ==> !input.event.ReadDone?
      modifies Footprint(), router, router.methodMap, router.mutex
      ensures Valid() && Serves(router) && router.log == old(router.log) + Registrations([input])
      ensures State() == M.Step(old(State()), event)
      ensures Realises(server, dispatcher.regex, Replay(router.Base(), old(router.log)), old(State()), input, event)
    {
      hide I.Inv, M.Step, Replay, IsOrder, Reaction;
      match input
      case Arrival(code, shut, message) =>
        ServingCanDispatch(router);
        event := HandleArrival(code, shut, message);
      case Route(r) =>
        HandleRoute(r, router);
        event := M.Tick(0);
      case Plain(e) =>
        HandlePlain(e);
        event := e;
    }

    /**
      Any sequence of inputs, registrations among them, takes the objects through a run of the session
      machine; each message is answered from the table as registered by then.
     */
    method Drive(inputs: seq<Input>, router: Router) returns (ghost events: seq<M.Event>)
      requires Valid() && Serves(router)
      requires forall input <- inputs :: input.Plain? ==> !input.event.ReadDone?
      modifies Footprint(), router, router.methodMap, router.mutex
      ensures Valid() && Serves(router) && router.log == old(router.log) + Registrations(inputs)
      ensures State() == M.Run(old(State()), events)
      ensures RealisesAll(server, dispatcher.regex, router.Base(), old(router.log), old(State()), inputs, events)
    {
      hide I.Inv, M.Step, Serves, Realises, Replay;
      ghost var s, log := State(), router.log;
      events := [];
      var i := 0;
      while i < |inputs|
        invariant 0 <= i <= |inputs| && |events| == i
        invariant Valid() && Serves(router)
        invariant router.log == log + Registrations(inputs[..i])
        invariant State() == M.Run(s, events)
        invariant RealisesAll(server, dispatcher.regex, router.Base(), log, s, inputs[..i], events)
      {
        hide M.Run, Registrations, RealisesAll;
        ghost var event := Handle(inputs[i], router);
        RealisesOneMore(server, dispatcher.regex, router.Base(), log, s, inputs, events, i, event);
        events := events + [event];
        i := i + 1;
      }
      assert inputs[..i] == inputs;
    }
  }

  /** A new server without registrations, one session of it, and any inputs: what is on the wire then. */
  method Serve(clock: Clock, open: bool, regex: Regex, hasOnError: bool, inputs: seq<Input>)
    returns (session: Session, ghost events: seq<M.Event>, ghost answers: seq<seq<Message>>)
    requires forall input <- inputs :: input.Plain? ==> !input.event.ReadDone?
    modifies clock
    ensures |answers| == |inputs|
    ensures RealisesAll(true, regex, ServerTable(), [], M.Start(hasOnError, open, old(clock.now)), inputs, events)
    ensures var s := M.Start(hasOnError, open, old(clock.now));
      && session.State() == M.Run(s, events)
      && (forall i :: 0 <= i < |inputs| ==>
            Answers(regex, Replay(ServerTable(), Registrations(inputs[..i])), s, events[..i], inputs[i], answers[i]))
      && session.started == P.Cut(Flatten(answers), T.WriteCodes(s, events), hasOnError)
  {
    var router := new Router(true);
    session := new Session(clock, open, router, regex, hasOnError);
    hide I.Inv, M.Run, M.Start, Answers, Replay, RealisesAll;
    events := session.Drive(inputs, router);
    answers := AnswersOnTheWire(regex, hasOnError, open, old(clock.now), inputs, events);
  }
}
