/**
  Registrations and dispatches of any number of threads over one routing table, in small steps: taking
  the shared mutex, one map operation or one loop iteration at a time, releasing the mutex. Every step
  reads and writes the live table; a dispatch has no copy of it.
 */
module LinearDispatch {
  import opened Common
  import opened Chains
  import opened Routing

  /**
    Where a thread is. `at` is history: the number of registrations committed when the thread took the
    shared lock.
   */
  datatype Local =
    | Registering(r: Registration)     // waits for the exclusive lock
    | Locked(r: Registration)          // holds it
    | Inserted(r: Registration)        // has inserted the verb
    | Assigned(r: Registration)        // has assigned the chain
    | Requesting(request: Request)     // waits for the shared lock
    | Serving(request: Request, at: nat, visited: seq<string>, progress: Progress)
    | Deciding(request: Request, at: nat, visited: seq<string>, outcome: Outcome)

  /** A dispatch that has returned. */
  datatype Served = Served(request: Request, at: nat, order: seq<string>, outcome: Outcome)

  datatype World = World(
    table: Table,
    readers: set<nat>,
    writer: Option<nat>,
    threads: map<nat, Local>,
    log: seq<Registration>,
    served: seq<Served>)

  /** Small steps. `path` is the resource that the iterator of a dispatch yields next. */
  datatype Event =
    | CallRegister(thread: nat, r: Registration)
    | CallDispatch(thread: nat, request: Request)
    | Advance(thread: nat, path: string)

  function Start(table: Table): World
  {
    World(table, {}, None, map[], [], [])
  }

  predicate Writing(l: Local)
  {
    l.Locked? || l.Inserted? || l.Assigned?
  }

  predicate Reading(l: Local)
  {
    l.Serving? || l.Deciding?
  }

  function Step(regex: Regex, w: World, e: Event): World
  {
    match e
    case CallRegister(t, r) =>
      if t in w.threads then w else w.(threads := w.threads[t := Registering(r)])
    case CallDispatch(t, request) =>
      if t in w.threads then w else w.(threads := w.threads[t := Requesting(request)])
    case Advance(t, path) =>
      if t !in w.threads then w else AdvanceThread(regex, w, t, path)
  }

  /** The next step of one thread; a thread that cannot take its lock stays where it is. */
  function AdvanceThread(regex: Regex, w: World, t: nat, path: string): World
    requires t in w.threads
  {
    match w.threads[t]
    case Registering(r) =>
      if w.writer != None || w.readers != {} then w
      else w.(writer := Some(t), threads := w.threads[t := Locked(r)])
    case Locked(r) =>
      w.(table := InsertVerb(w.table, r.verb), threads := w.threads[t := Inserted(r)])
    case Inserted(r) =>
      if r.verb !in w.table then w
      else w.(table := AssignPath(w.table, r.verb, r.path, r.chain),
              log := w.log + [r],
              threads := w.threads[t := Assigned(r)])
    case Assigned(r) =>
      w.(writer := None, threads := w.threads - {t})
    case Requesting(request) =>
      if w.writer != None then w
      else w.(readers := w.readers + {t}, threads := w.threads[t := Serving(request, |w.log|, [], Progress(false, []))])
    case Serving(request, at, visited, progress) =>
      var chains := ChainsOf(w.table, request.verb);
      if path in chains && path !in visited then
        var next := Serving(request, at, visited + [path], Visit(regex, chains, request, path, progress));
        w.(threads := w.threads[t := next])
      else if forall p <- chains.Keys :: p in visited then
        w.(threads := w.threads[t := Deciding(request, at, visited, Finish(w.table, request, progress))])
      else w
    case Deciding(request, at, visited, outcome) =>
      w.(readers := w.readers - {t},
         threads := w.threads - {t},
         served := w.served + [Served(request, at, visited, outcome)])
  }

  function Run(regex: Regex, w: World, es: seq<Event>): World
    decreases |es|
  {
    if es == [] then w else Run(regex, Step(regex, w, es[0]), es[1..])
  }

  lemma RunCons(regex: Regex, w: World, e: Event, es: seq<Event>)
    ensures Run(regex, w, [e] + es) == Run(regex, Step(regex, w, e), es)
  {
    hide Step;
    assert ([e] + es)[1..] == es;
  }

  lemma {:induction false} RunAppend(regex: Regex, w: World, a: seq<Event>, b: seq<Event>)
    ensures Run(regex, w, a + b) == Run(regex, Run(regex, w, a), b)
    decreases |a|
  {
    if a == [] {
      assert a + b == b;
    } else {
      assert (a + b)[1..] == a[1..] + b;
      RunAppend(regex, Step(regex, w, a[0]), a[1..], b);
    }
  }

  // ----- Invariant -----------------------------------------------------------------------------

  /** The dispatch gave what one atomic dispatch gives on the table after the first `s.at` registrations. */
  ghost predicate Atomic(regex: Regex, base: Table, log: seq<Registration>, s: Served)
  {
    && s.at <= |log|
    && var table := Replay(base, log[..s.at]);
    && Enumerates(s.order, ChainsOf(table, s.request.verb).Keys)
    && (forall p <- s.order :: p in ChainsOf(table, s.request.verb))
    && s.outcome == Dispatch(regex, table, s.request, s.order)
  }

  /** A dispatch in its loop has done what the visited resources do, and sees all committed registrations. */
  ghost predicate Underway(regex: Regex, table: Table, log: seq<Registration>, l: Local)
    requires l.Serving?
  {
    && l.at == |log|
    && (forall p <- l.visited :: p in ChainsOf(table, l.request.verb) && multiset(l.visited)[p] == 1)
    && l.progress == VisitAll(regex, ChainsOf(table, l.request.verb), l.request, l.visited)
  }

  ghost predicate Locks(w: World)
  {
    && (forall t :: t in w.readers <==> t in w.threads && Reading(w.threads[t]))
    && (forall t :: w.writer == Some(t) <==> t in w.threads && Writing(w.threads[t]))
    && (w.writer != None ==> w.readers == {})
  }

  /** The table is what the log says, except between the two halves of a registration. */
  ghost predicate TableFollowsLog(base: Table, w: World)
  {
    if w.writer != None && w.writer.value in w.threads && w.threads[w.writer.value].Inserted? then
      w.table == InsertVerb(Replay(base, w.log), w.threads[w.writer.value].r.verb)
    else w.table == Replay(base, w.log)
  }

  ghost predicate Dispatches(regex: Regex, base: Table, w: World)
  {
    && (forall t :: t in w.threads && w.threads[t].Serving? ==> Underway(regex, w.table, w.log, w.threads[t]))
    && (forall t :: t in w.threads && w.threads[t].Deciding? ==>
          var l := w.threads[t];
          l.at == |w.log| && Atomic(regex, base, w.log, Served(l.request, l.at, l.visited, l.outcome)))
    && (forall s :: s in w.served ==> Atomic(regex, base, w.log, s))
  }

  ghost predicate Inv(regex: Regex, base: Table, w: World)
  {
    Locks(w) && TableFollowsLog(base, w) && Dispatches(regex, base, w)
  }

  lemma LocksKept(regex: Regex, w: World, e: Event)
    requires Locks(w)
    ensures Locks(Step(regex, w, e))
  {
  }

  lemma TableKept(regex: Regex, base: Table, w: World, e: Event)
    requires Locks(w) && TableFollowsLog(base, w)
    ensures TableFollowsLog(base, Step(regex, w, e))
  {
    if e.Advance? && e.thread in w.threads && w.threads[e.thread].Inserted? {
      var r := w.threads[e.thread].r;
      assert w.writer == Some(e.thread);
      assert (w.log + [r])[..|w.log|] == w.log;
      assert AddResource(Replay(base, w.log), r) == Replay(base, w.log + [r]);
      hide Replay;
    } else {
      hide Replay, Visit, Finish, AssignPath;
    }
  }

  /** While any dispatch holds the shared lock, no step of any thread changes the table or the log. */
  lemma TableFixedWhileRead(regex: Regex, w: World, e: Event)
    requires Locks(w) && w.readers != {}
    ensures Step(regex, w, e).table == w.table && Step(regex, w, e).log == w.log
  {
    assert forall t :: t in w.threads ==> !Writing(w.threads[t]);
  }

  lemma AtomicExtends(regex: Regex, base: Table, log: seq<Registration>, r: Registration, s: Served)
    requires Atomic(regex, base, log, s)
    ensures Atomic(regex, base, log + [r], s)
  {
    assert (log + [r])[..s.at] == log[..s.at];
  }

  /** A writer's step disturbs no dispatch, because none is running. */
  lemma WriterKeepsDispatches(regex: Regex, base: Table, w: World, t: nat, path: string)
    requires Inv(regex, base, w) && t in w.threads && Writing(w.threads[t])
    ensures Dispatches(regex, base, AdvanceThread(regex, w, t, path))
  {
    hide Underway;
    assert w.writer == Some(t);
    assert forall u :: u in w.threads ==> !Reading(w.threads[u]);
    if w.threads[t].Inserted? {
      forall s | s in w.served
        ensures Atomic(regex, base, w.log + [w.threads[t].r], s)
      {
        AtomicExtends(regex, base, w.log, w.threads[t].r, s);
      }
    }
    hide Atomic;
  }

  /** One iteration of a dispatch keeps it underway. */
  lemma VisitKeepsUnderway(regex: Regex, table: Table, log: seq<Registration>, l: Local, path: string)
    requires l.Serving? && Underway(regex, table, log, l)
    requires path in ChainsOf(table, l.request.verb) && path !in l.visited
    ensures var progress := Visit(regex, ChainsOf(table, l.request.verb), l.request, path, l.progress);
      Underway(regex, table, log, Serving(l.request, l.at, l.visited + [path], progress))
  {
    var visited := l.visited + [path];
    assert visited[..|visited| - 1] == l.visited;
    assert forall p <- l.visited :: p in multiset(l.visited);
    assert multiset(l.visited)[path] == 0;
  }

  /** A dispatch whose loop is over has done what one atomic dispatch does. */
  lemma LoopEndIsAtomic(regex: Regex, base: Table, log: seq<Registration>, l: Local)
    requires l.Serving? && Underway(regex, Replay(base, log), log, l)
    requires forall p <- ChainsOf(Replay(base, log), l.request.verb).Keys :: p in l.visited
    ensures var outcome := Finish(Replay(base, log), l.request, l.progress);
      Atomic(regex, base, log, Served(l.request, l.at, l.visited, outcome))
  {
    var chains := ChainsOf(Replay(base, log), l.request.verb);
    assert log[..l.at] == log;
    assert Enumerates(l.visited, chains.Keys) by {
      assert forall p :: p in l.visited <==> p in multiset(l.visited);
      assert forall p :: multiset(l.visited)[p] == multiset(chains.Keys)[p];
    }
  }

  /** What `Dispatches` asks of one thread. */
  ghost predicate Sound(regex: Regex, base: Table, w: World, l: Local)
  {
    && (l.Serving? ==> Underway(regex, w.table, w.log, l))
    && (l.Deciding? ==> l.at == |w.log| && Atomic(regex, base, w.log, Served(l.request, l.at, l.visited, l.outcome)))
  }

  lemma ReaderMovesOn(regex: Regex, base: Table, w: World, t: nat, next: Local)
    requires Dispatches(regex, base, w) && Sound(regex, base, w, next)
    ensures Dispatches(regex, base, w.(threads := w.threads[t := next]))
  {
    hide Underway, Atomic;
  }

  lemma ReaderReturns(regex: Regex, base: Table, w: World, t: nat, path: string)
    requires Inv(regex, base, w) && t in w.threads && w.threads[t].Deciding?
    ensures Dispatches(regex, base, AdvanceThread(regex, w, t, path))
  {
    hide Underway, Atomic, Locks, TableFollowsLog;
  }

  lemma ReaderKeepsDispatches(regex: Regex, base: Table, w: World, t: nat, path: string)
    requires Inv(regex, base, w) && t in w.threads && Reading(w.threads[t])
    ensures Dispatches(regex, base, AdvanceThread(regex, w, t, path))
  {
    assert w.writer == None && w.table == Replay(base, w.log);
    hide Underway, Atomic, Finish, Visit, Replay, Locks, TableFollowsLog;
    var l := w.threads[t];
    if l.Serving? {
      var chains := ChainsOf(w.table, l.request.verb);
      if path in chains && path !in l.visited {
        VisitKeepsUnderway(regex, w.table, w.log, l, path);
        var progress := Visit(regex, chains, l.request, path, l.progress);
        ReaderMovesOn(regex, base, w, t, Serving(l.request, l.at, l.visited + [path], progress));
      } else if forall p <- chains.Keys :: p in l.visited {
        LoopEndIsAtomic(regex, base, w.log, l);
        AtomicIsNow(regex, base, w, l);
        ReaderMovesOn(regex, base, w, t, Deciding(l.request, l.at, l.visited, Finish(w.table, l.request, l.progress)));
      }
      hide Dispatches;
    } else {
      ReaderReturns(regex, base, w, t, path);
      hide *;
    }
  }

  lemma AtomicIsNow(regex: Regex, base: Table, w: World, l: Local)
    requires l.Serving? && Underway(regex, w.table, w.log, l)
    ensures l.at == |w.log|
  {
  }

  lemma StepKeepsInv(regex: Regex, base: Table, w: World, e: Event)
    requires Inv(regex, base, w)
    ensures Inv(regex, base, Step(regex, w, e))
  {
    LocksKept(regex, w, e);
    TableKept(regex, base, w, e);
    if e.Advance? && e.thread in w.threads && Writing(w.threads[e.thread]) {
      WriterKeepsDispatches(regex, base, w, e.thread, e.path);
    } else if e.Advance? && e.thread in w.threads && Reading(w.threads[e.thread]) {
      ReaderKeepsDispatches(regex, base, w, e.thread, e.path);
    } else {
      ArrivalKeepsDispatches(regex, base, w, e);
    }
    hide Dispatches, Locks, TableFollowsLog, AdvanceThread, Writing, Reading;
  }

  /** A thread that arrives or takes its lock disturbs nobody. */
  lemma ArrivalKeepsDispatches(regex: Regex, base: Table, w: World, e: Event)
    requires Inv(regex, base, w)
    requires e.Advance? && e.thread in w.threads ==> !Writing(w.threads[e.thread]) && !Reading(w.threads[e.thread])
    ensures Dispatches(regex, base, Step(regex, w, e))
  {
    hide Atomic, Locks, TableFollowsLog;
  }

  lemma {:induction false} RunKeepsInv(regex: Regex, base: Table, w: World, es: seq<Event>)
    requires Inv(regex, base, w)
    ensures Inv(regex, base, Run(regex, w, es))
    decreases |es|
  {
    if es != [] {
      StepKeepsInv(regex, base, w, es[0]);
      hide Inv, Step;
      RunKeepsInv(regex, base, Step(regex, w, es[0]), es[1..]);
    }
  }

  /**
    When a thread gets its lock: a dispatch exactly when no registration is inside, so dispatches share the
    table, and a registration exactly when nobody is.
   */
  lemma LockTakenIff(regex: Regex, w: World, t: nat, path: string)
    requires t in w.threads
    ensures var u := Step(regex, w, Advance(t, path));
      && (w.threads[t].Requesting? ==>
            if w.writer == None then u.readers == w.readers + {t} && t in u.threads && u.threads[t].Serving?
            else u == w)
      && (w.threads[t].Registering? ==>
            if w.writer == None && w.readers == {} then u.writer == Some(t) && t in u.threads && u.threads[t].Locked?
            else u == w)
  {
    hide Visit, Finish, InsertVerb, AssignPath, ChainsOf;
  }

  // ----- Linearizability -----------------------------------------------------------------------

  /**
    In every interleaving, every dispatch that has returned gave the result of one atomic dispatch on
    the table as it stood when its shared lock was taken: the one after the first `s.at` registrations.
   */
  lemma DispatchIsAtomic(regex: Regex, base: Table, es: seq<Event>)
    ensures var w := Run(regex, Start(base), es);
      forall s <- w.served :: Atomic(regex, base, w.log, s)
  {
    assert Inv(regex, base, Start(base));
    RunKeepsInv(regex, base, Start(base), es);
  }

  /** At every moment of a dispatch the live table still is the one it found when it took the shared lock. */
  lemma ReaderKeepsItsTable(regex: Regex, base: Table, es: seq<Event>, t: nat)
    requires var w := Run(regex, Start(base), es); t in w.threads && Reading(w.threads[t])
    ensures var w := Run(regex, Start(base), es);
      w.threads[t].at <= |w.log| && w.table == Replay(base, w.log[..w.threads[t].at])
  {
    assert Inv(regex, base, Start(base));
    RunKeepsInv(regex, base, Start(base), es);
    LockedTable(regex, base, Run(regex, Start(base), es), t);
  }

  lemma LockedTable(regex: Regex, base: Table, w: World, t: nat)
    requires Inv(regex, base, w) && t in w.threads && Reading(w.threads[t])
    ensures w.threads[t].at <= |w.log| && w.table == Replay(base, w.log[..w.threads[t].at])
  {
    assert t in w.readers && w.writer == None;
    assert w.threads[t].at == |w.log|;
    assert w.log[..|w.log|] == w.log;
  }

  /**
    The atomic dispatches respect real time: whatever was committed at some moment of a run is seen by
    every dispatch that returns later, and is never taken back.
   */
  lemma {:induction false} LaterDispatchesSeeRegistrations(regex: Regex, base: Table, w: World, es: seq<Event>)
    requires Inv(regex, base, w)
    ensures var v := Run(regex, w, es);
      && w.log <= v.log && w.served <= v.served
      && (forall i :: |w.served| <= i < |v.served| ==> |w.log| <= v.served[i].at <= |v.log|)
    decreases |es|
  {
    RunKeepsInv(regex, base, w, es);
    if es != [] {
      var u := Step(regex, w, es[0]);
      StepKeepsInv(regex, base, w, es[0]);
      StepExtends(regex, base, w, es[0]);
      LaterDispatchesSeeRegistrations(regex, base, u, es[1..]);
      hide Inv, Step;
    }
  }

  lemma StepExtends(regex: Regex, base: Table, w: World, e: Event)
    requires Inv(regex, base, w)
    ensures var u := Step(regex, w, e);
      && w.log <= u.log && w.served <= u.served
      && (forall i :: |w.served| <= i < |u.served| ==> u.served[i].at == |w.log| == |u.log|)
  {
    hide Atomic, Underway;
  }

  /** Nor does the iteration order show: any other order of that table's resources gives the same verdict and runs. */
  lemma AnyOrderAgrees(regex: Regex, base: Table, log: seq<Registration>, s: Served, order: seq<string>)
    requires Atomic(regex, base, log, s)
    requires Enumerates(order, ChainsOf(Replay(base, log[..s.at]), s.request.verb).Keys)
    ensures forall p <- order :: p in ChainsOf(Replay(base, log[..s.at]), s.request.verb)
    ensures var other := Dispatch(regex, Replay(base, log[..s.at]), s.request, order);
      && s.outcome.handled == other.handled && s.outcome.fallback == other.fallback
      && multiset(s.outcome.runs) == multiset(other.runs)
  {
    OrderIrrelevant(regex, Replay(base, log[..s.at]), s.request, s.order, order);
  }

  lemma AtomicIsAnswered(regex: Regex, base: Table, log: seq<Registration>, s: Served)
    requires base == ServerTable() && Atomic(regex, base, log, s)
    ensures s.outcome.handled == AnyCompleted(s.outcome.runs) && s.outcome.fallback.Some? == !s.outcome.handled
  {
    FallbackExists(log[..s.at]);
    VisitAllRuns(regex, ChainsOf(Replay(base, log[..s.at]), s.request.verb), s.request, s.order);
  }

  /** On a server a recorded dispatch was answered: by a chain that ran to its end, or else by the fallback. */
  lemma EveryRecordIsAnswer(regex: Regex, base: Table, es: seq<Event>, s: Served)
    requires base == ServerTable() && s in Run(regex, Start(base), es).served
    ensures s.outcome.handled == AnyCompleted(s.outcome.runs)
    ensures s.outcome.fallback.Some? == !s.outcome.handled
  {
    DispatchIsAtomic(regex, base, es);
    AtomicIsAnswered(regex, base, Run(regex, Start(base), es).log, s);
  }
}
