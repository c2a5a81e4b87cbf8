/** Every registration and every dispatch gets through: under any fair schedule all calls return. */
module CallProgress {
  import opened Common
  import opened Chains
  import opened Routing
  import opened LinearDispatch

  // ----- A continuation in which every call returns ---------------------------------------------

  /** Nothing keeps the thread from moving: it holds its lock, or nobody holds any. */
  ghost predicate CanGo(w: World, t: nat)
  {
    t in w.threads
    && (Writing(w.threads[t]) || Reading(w.threads[t]) || (w.writer == None && w.readers == {}))
  }

  /** How far a thread is from its return, not counting the iterations of its loop. */
  function Rank(l: Local): nat
  {
    match l
    case Registering(_) => 4
    case Locked(_) => 3
    case Inserted(_) => 2
    case Assigned(_) => 1
    case Requesting(_) => 3
    case Serving(_, _, _, _) => 2
    case Deciding(_, _, _, _) => 1
  }

  /** The resources that the loop of a dispatch has still to visit. */
  function Unvisited(table: Table, l: Local): set<string>
  {
    if l.Serving? then ChainsOf(table, l.request.verb).Keys - (set p <- l.visited) else {}
  }

  /** The step brings the thread nearer to its return, or is its return. */
  ghost predicate Nearer(w: World, u: World, t: nat)
    requires t in w.threads
  {
    || u.threads == w.threads - {t}
    || (&& CanGo(u, t) && u.threads == w.threads[t := u.threads[t]]
        && (|| Rank(u.threads[t]) < Rank(w.threads[t])
            || (&& Rank(u.threads[t]) == Rank(w.threads[t])
                && |Unvisited(u.table, u.threads[t])| < |Unvisited(w.table, w.threads[t])|)))
  }

  lemma VisitShrinks(table: Table, l: Local, path: string, progress: Progress)
    requires l.Serving? && path in Unvisited(table, l)
    ensures |Unvisited(table, Serving(l.request, l.at, l.visited + [path], progress))| < |Unvisited(table, l)|
  {
    hide ChainsOf;
    assert Unvisited(table, Serving(l.request, l.at, l.visited + [path], progress)) == Unvisited(table, l) - {path};
  }

  lemma LoopGoesOn(regex: Regex, w: World, t: nat, path: string)
    requires t in w.threads && w.threads[t].Serving? && path in Unvisited(w.table, w.threads[t])
    ensures Nearer(w, Step(regex, w, Advance(t, path)), t)
  {
    var l := w.threads[t];
    var chains := ChainsOf(w.table, l.request.verb);
    var progress := Visit(regex, chains, l.request, path, l.progress);
    VisitShrinks(w.table, l, path, progress);
    hide Visit, ChainsOf;
    var next := Serving(l.request, l.at, l.visited + [path], progress);
    assert Step(regex, w, Advance(t, path)) == w.(threads := w.threads[t := next]);
    hide Unvisited, Step;
  }

  lemma AllVisited(table: Table, l: Local)
    requires l.Serving? && Unvisited(table, l) == {}
    ensures forall path :: path in ChainsOf(table, l.request.verb) ==> path in l.visited
  {
    hide ChainsOf;
    assert forall path :: path in ChainsOf(table, l.request.verb) ==> path !in Unvisited(table, l);
  }

  lemma LoopEnds(regex: Regex, w: World, t: nat, path: string)
    requires t in w.threads && w.threads[t].Serving? && Unvisited(w.table, w.threads[t]) == {}
    ensures Nearer(w, Step(regex, w, Advance(t, path)), t)
  {
    var l := w.threads[t];
    AllVisited(w.table, l);
    hide Visit, Finish, ChainsOf, Unvisited;
    var u := Step(regex, w, Advance(t, path));
    assert u.threads == w.threads[t := Deciding(l.request, l.at, l.visited, Finish(w.table, l.request, l.progress))];
    hide Step;
  }

  lemma InsertedMoves(regex: Regex, base: Table, w: World, t: nat, path: string)
    requires Locks(w) && TableFollowsLog(base, w) && t in w.threads && w.threads[t].Inserted?
    ensures Nearer(w, Step(regex, w, Advance(t, path)), t)
  {
    hide Replay;
    assert w.writer == Some(t) && w.threads[t].r.verb in w.table;
    hide *;
    InsertedSteps(regex, w, t, path);
  }

  lemma InsertedSteps(regex: Regex, w: World, t: nat, path: string)
    requires t in w.threads && w.threads[t].Inserted? && w.threads[t].r.verb in w.table
    ensures Nearer(w, Step(regex, w, Advance(t, path)), t)
  {
    hide AssignPath;
    assert Step(regex, w, Advance(t, path)).threads == w.threads[t := Assigned(w.threads[t].r)];
  }

  /** Taking a free lock, inserting the verb, returning. */
  lemma LockMoves(regex: Regex, w: World, t: nat, path: string)
    requires CanGo(w, t) && !w.threads[t].Serving? && !w.threads[t].Inserted?
    ensures Nearer(w, Step(regex, w, Advance(t, path)), t)
  {
    hide InsertVerb;
    var l, u := w.threads[t], Step(regex, w, Advance(t, path));
    match l
    case Registering(r) => assert u.threads == w.threads[t := Locked(r)];
    case Locked(r) => assert u.threads == w.threads[t := Inserted(r)];
    case Requesting(request) =>
      assert u.threads == w.threads[t := Serving(request, |w.log|, [], Progress(false, []))];
    case Assigned(_) => assert u.threads == w.threads - {t};
    case Deciding(_, _, _, _) => assert u.threads == w.threads - {t};
    case _ =>
  }

  lemma ThreadMoves(regex: Regex, base: Table, w: World, t: nat) returns (path: string)
    requires Inv(regex, base, w) && CanGo(w, t)
    ensures Nearer(w, Step(regex, w, Advance(t, path)), t)
  {
    hide Dispatches;
    path := "";
    if w.threads[t].Serving? {
      if Unvisited(w.table, w.threads[t]) == {} {
        LoopEnds(regex, w, t, path);
      } else {
        path :| path in Unvisited(w.table, w.threads[t]);
        LoopGoesOn(regex, w, t, path);
      }
      hide *;
    } else if w.threads[t].Inserted? {
      InsertedMoves(regex, base, w, t, path);
      hide *;
    } else {
      LockMoves(regex, w, t, path);
      hide *;
    }
  }

  lemma SomeoneCanGo(w: World) returns (t: nat)
    requires Locks(w) && w.threads.Keys != {}
    ensures CanGo(w, t) && t in w.threads
  {
    if w.writer != None {
      t := w.writer.value;
    } else if w.readers != {} {
      t :| t in w.readers;
    } else {
      t :| t in w.threads.Keys;
    }
  }

  /** The mutex never deadlocks registrations and dispatches: while any is under way, some thread can move. */
  lemma SomeThreadCanMove(regex: Regex, base: Table, w: World) returns (t: nat, path: string)
    requires Inv(regex, base, w) && w.threads.Keys != {}
    ensures Step(regex, w, Advance(t, path)) != w
  {
    t := SomeoneCanGo(w);
    path := ThreadMoves(regex, base, w, t);
    hide Inv, CanGo, Rank, Unvisited, Step;
  }

  /** A thread that nothing blocks returns, whatever the others wait for, in finitely many steps of its own. */
  lemma {:induction false} ThreadCanFinish(regex: Regex, base: Table, w: World, t: nat) returns (es: seq<Event>)
    requires Inv(regex, base, w) && CanGo(w, t)
    ensures forall e <- es :: e.Advance? && e.thread == t
    ensures Inv(regex, base, Run(regex, w, es)) && Run(regex, w, es).threads == w.threads - {t}
    decreases Rank(w.threads[t]), |Unvisited(w.table, w.threads[t])|
  {
    var path := ThreadMoves(regex, base, w, t);
    var e := Advance(t, path);
    var u := Step(regex, w, e);
    StepKeepsInv(regex, base, w, e);
    if u.threads == w.threads - {t} {
      es := [e];
      RunCons(regex, w, e, []);
      hide *;
    } else {
      hide *;
      Approaches(w, u, t);
      var rest := ThreadCanFinish(regex, base, u, t);
      es := [e] + rest;
      RunCons(regex, w, e, rest);
    }
  }

  lemma Approaches(w: World, u: World, t: nat)
    requires t in w.threads && Nearer(w, u, t) && u.threads != w.threads - {t}
    ensures CanGo(u, t) && t in u.threads && u.threads - {t} == w.threads - {t}
    ensures || Rank(u.threads[t]) < Rank(w.threads[t])
            || (&& Rank(u.threads[t]) == Rank(w.threads[t])
                && |Unvisited(u.table, u.threads[t])| < |Unvisited(w.table, w.threads[t])|)
  {
    hide CanGo, Rank, Unvisited;
    assert CanGo(u, t);
    assert u.threads == w.threads[t := u.threads[t]];
  }

  /** Every call can finish: any state can be continued, without new calls, to one in which all have returned. */
  lemma {:induction false} AllCanFinish(regex: Regex, base: Table, w: World) returns (es: seq<Event>)
    requires Inv(regex, base, w)
    ensures forall e <- es :: e.Advance?
    ensures Run(regex, w, es).threads == map[]
    decreases |w.threads.Keys|
  {
    es := [];
    if w.threads.Keys != {} {
      var t := SomeoneCanGo(w);
      var first := ThreadCanFinish(regex, base, w, t);
      var u := Run(regex, w, first);
      assert u.threads.Keys == w.threads.Keys - {t};
      var rest := AllCanFinish(regex, base, u);
      RunAppend(regex, w, first, rest);
      es := first + rest;
    }
  }

  // ----- Any fair schedule ---------------------------------------------------------------------

  function RankIn(w: World): nat -> nat
  {
    t => if t in w.threads then Rank(w.threads[t]) else 0
  }

  function UnvisitedIn(w: World): nat -> nat
  {
    t => if t in w.threads then |Unvisited(w.table, w.threads[t])| else 0
  }

  /** How far all threads are from their return, not counting the iterations of their loops. */
  ghost function TotalRank(w: World): nat
  {
    Sum(RankIn(w), w.threads.Keys)
  }

  /** The iterations that all loops under way have before them. */
  ghost function TotalUnvisited(w: World): nat
  {
    Sum(UnvisitedIn(w), w.threads.Keys)
  }

  /** The thread has returned, or is nearer to its return, and no other thread has moved. */
  ghost predicate MovedOn(w: World, u: World, t: nat)
    requires t in w.threads
  {
    || u.threads == w.threads - {t}
    || (&& t in u.threads && u.threads == w.threads[t := u.threads[t]]
        && (|| Rank(u.threads[t]) < Rank(w.threads[t])
            || (&& Rank(u.threads[t]) == Rank(w.threads[t]) && u.table == w.table
                && |Unvisited(u.table, u.threads[t])| < |Unvisited(w.table, w.threads[t])|)))
  }

  lemma IterationMovesOn(regex: Regex, w: World, t: nat, path: string)
    requires t in w.threads && w.threads[t].Serving? && Step(regex, w, Advance(t, path)) != w
    ensures MovedOn(w, Step(regex, w, Advance(t, path)), t)
  {
    var l, u := w.threads[t], Step(regex, w, Advance(t, path));
    var chains := ChainsOf(w.table, l.request.verb);
    hide Visit, Finish, ChainsOf;
    if path in chains && path !in l.visited {
      var progress := Visit(regex, chains, l.request, path, l.progress);
      assert path in Unvisited(w.table, l);
      VisitShrinks(w.table, l, path, progress);
      hide Unvisited;
      assert u.threads == w.threads[t := Serving(l.request, l.at, l.visited + [path], progress)];
    } else {
      hide Unvisited;
      assert u.threads == w.threads[t := Deciding(l.request, l.at, l.visited, Finish(w.table, l.request, l.progress))];
    }
  }

  lemma ChangeMovesOn(regex: Regex, w: World, t: nat, path: string)
    requires t in w.threads && Step(regex, w, Advance(t, path)) != w
    ensures MovedOn(w, Step(regex, w, Advance(t, path)), t)
  {
    if w.threads[t].Serving? {
      IterationMovesOn(regex, w, t, path);
      hide *;
    } else {
      hide InsertVerb, AssignPath, Finish, Unvisited, ChainsOf;
    }
  }

  /** Whatever thread moves, and whatever its move, all of them together are nearer to their return. */
  lemma EveryMoveCounts(regex: Regex, w: World, t: nat, path: string)
    requires Step(regex, w, Advance(t, path)) != w
    ensures var u := Step(regex, w, Advance(t, path));
      TotalRank(u) < TotalRank(w) || (TotalRank(u) == TotalRank(w) && TotalUnvisited(u) < TotalUnvisited(w))
  {
    ChangeMovesOn(regex, w, t, path);
    hide Step;
    var u := Step(regex, w, Advance(t, path));
    var others := w.threads.Keys - {t};
    SumTakeOut(RankIn(w), w.threads.Keys, t);
    SumTakeOut(UnvisitedIn(w), w.threads.Keys, t);
    if u.threads == w.threads - {t} {
      SumSame(RankIn(w), RankIn(u), others);
      RankPositive(w.threads[t]);
    } else {
      assert u.threads.Keys == w.threads.Keys;
      SumTakeOut(RankIn(u), u.threads.Keys, t);
      SumTakeOut(UnvisitedIn(u), u.threads.Keys, t);
      SumSame(RankIn(w), RankIn(u), others);
      if u.table == w.table {
        SumSame(UnvisitedIn(w), UnvisitedIn(u), others);
      }
    }
  }

  lemma RankPositive(l: Local)
    ensures Rank(l) > 0
  {
  }

  /** The world after `n` steps of a schedule. */
  function Trace(regex: Regex, w: World, schedule: nat -> Event, n: nat): World
  {
    if n == 0 then w else Step(regex, Trace(regex, w, schedule, n - 1), schedule(n - 1))
  }

  /** It is the thread's turn, and a loop that has resources left is given one of them. */
  ghost predicate Turn(w: World, e: Event, t: nat)
  {
    && e.Advance? && e.thread == t
    && (t in w.threads && Unvisited(w.table, w.threads[t]) != {} ==> e.path in Unvisited(w.table, w.threads[t]))
  }

  /** No new calls are made, and at any time every thread under way will have a turn. */
  ghost predicate Fair(regex: Regex, w: World, schedule: nat -> Event)
  {
    && (forall n: nat :: schedule(n).Advance?)
    && (forall n: nat, t :: t in Trace(regex, w, schedule, n).threads ==>
          exists m :: n <= m && TurnOrGone(regex, w, schedule, m, t))
  }

  ghost predicate TurnOrGone(regex: Regex, w: World, schedule: nat -> Event, m: nat, t: nat)
  {
    var x := Trace(regex, w, schedule, m);
    t !in x.threads || Turn(x, schedule(m), t)
  }

  lemma {:induction false} TraceKeepsInv(regex: Regex, base: Table, w: World, schedule: nat -> Event, n: nat)
    requires Inv(regex, base, w)
    ensures Inv(regex, base, Trace(regex, w, schedule, n))
  {
    if n > 0 {
      TraceKeepsInv(regex, base, w, schedule, n - 1);
      StepKeepsInv(regex, base, Trace(regex, w, schedule, n - 1), schedule(n - 1));
      hide Inv, Step;
    }
  }

  /** If the world is not the same any more, some step was the first to change it. */
  lemma {:induction false} FirstChange(regex: Regex, w: World, schedule: nat -> Event, n: nat, m: nat) returns (k: nat)
    requires n <= m && Trace(regex, w, schedule, m) != Trace(regex, w, schedule, n)
    ensures n <= k < m
    ensures Trace(regex, w, schedule, k) == Trace(regex, w, schedule, n) != Trace(regex, w, schedule, k + 1)
    decreases m
  {
    hide Step;
    if Trace(regex, w, schedule, m - 1) == Trace(regex, w, schedule, n) {
      k := m - 1;
    } else {
      k := FirstChange(regex, w, schedule, n, m - 1);
    }
  }

  /** A thread that nothing blocks moves when it has its turn. */
  lemma TurnMoves(regex: Regex, base: Table, w: World, e: Event, t: nat)
    requires Inv(regex, base, w) && CanGo(w, t) && Turn(w, e, t)
    ensures Step(regex, w, e) != w
  {
    if w.threads[t].Serving? {
      if Unvisited(w.table, w.threads[t]) == {} {
        LoopEnds(regex, w, t, e.path);
      } else {
        LoopGoesOn(regex, w, t, e.path);
      }
    } else if w.threads[t].Inserted? {
      InsertedMoves(regex, base, w, t, e.path);
    } else {
      LockMoves(regex, w, t, e.path);
    }
    hide Inv, CanGo, Step, Rank, Unvisited;
  }

  /** As long as any call is under way, a fair schedule will change the world again. */
  lemma LaterChange(regex: Regex, base: Table, w: World, schedule: nat -> Event, n: nat) returns (m: nat)
    requires Inv(regex, base, w) && Fair(regex, w, schedule) && Trace(regex, w, schedule, n).threads != map[]
    ensures n < m && Trace(regex, w, schedule, m) != Trace(regex, w, schedule, n)
  {
    hide Fair, Locks, Step, Turn, CanGo, Trace;
    TraceKeepsInv(regex, base, w, schedule, n);
    var x := Trace(regex, w, schedule, n);
    assert Locks(x) && x.threads.Keys != {};
    hide Inv;
    var t := SomeoneCanGo(x);
    m := SomeTurn(regex, w, schedule, n, t);
    if Trace(regex, w, schedule, m) == x {
      ScheduledMove(regex, w, schedule, m);
      TurnMoves(regex, base, x, schedule(m), t);
      m := m + 1;
    }
  }

  lemma SomeTurn(regex: Regex, w: World, schedule: nat -> Event, n: nat, t: nat) returns (m: nat)
    requires Fair(regex, w, schedule) && t in Trace(regex, w, schedule, n).threads
    ensures n <= m && TurnOrGone(regex, w, schedule, m, t)
  {
    hide Trace, TurnOrGone;
    m :| n <= m && TurnOrGone(regex, w, schedule, m, t);
  }

  /**
    Under every fair schedule all calls return: whichever thread the scheduler and the mutex prefer, and
    however often a thread finds the mutex held, no registration and no dispatch is left behind.
   */
  lemma {:induction false} FairScheduleEnds(regex: Regex, base: Table, w: World, schedule: nat -> Event, n: nat)
    returns (end: nat)
    requires Inv(regex, base, w) && Fair(regex, w, schedule)
    ensures n <= end && Trace(regex, w, schedule, end).threads == map[]
    decreases TotalRank(Trace(regex, w, schedule, n)), TotalUnvisited(Trace(regex, w, schedule, n))
  {
    hide *;
    var x := Trace(regex, w, schedule, n);
    if x.threads == map[] {
      end := n;
    } else {
      var m := LaterChange(regex, base, w, schedule, n);
      var k := FirstChange(regex, w, schedule, n, m);
      ScheduledMove(regex, w, schedule, k);
      EveryMoveCounts(regex, x, schedule(k).thread, schedule(k).path);
      end := FairScheduleEnds(regex, base, w, schedule, k + 1);
    }
  }

  lemma ScheduledMove(regex: Regex, w: World, schedule: nat -> Event, k: nat)
    requires Fair(regex, w, schedule)
    ensures schedule(k).Advance?
    ensures Trace(regex, w, schedule, k + 1)
         == Step(regex, Trace(regex, w, schedule, k), Advance(schedule(k).thread, schedule(k).path))
  {
    hide Step;
  }

  lemma {:induction false} TraceIsRun(regex: Regex, w: World, es: seq<Event>, schedule: nat -> Event, n: nat)
    requires n <= |es| && forall k :: 0 <= k < |es| ==> schedule(k) == es[k]
    ensures Trace(regex, w, schedule, n) == Run(regex, w, es[..n])
  {
    hide Step;
    if n > 0 {
      TraceIsRun(regex, w, es, schedule, n - 1);
      RunAppend(regex, w, es[..n - 1], [es[n - 1]]);
      assert es[..n] == es[..n - 1] + [es[n - 1]];
      assert Run(regex, Run(regex, w, es[..n - 1]), [es[n - 1]])
          == Run(regex, Step(regex, Run(regex, w, es[..n - 1]), es[n - 1]), []);
    }
  }

  /** Every state has a fair schedule. */
  lemma FairSchedulesExist(regex: Regex, base: Table, w: World) returns (schedule: nat -> Event)
    requires Inv(regex, base, w)
    ensures Fair(regex, w, schedule)
  {
    var es := AllCanFinish(regex, base, w);
    schedule := (n: nat) => if n < |es| then es[n] else Advance(0, "");
    TraceIsRun(regex, w, es, schedule, |es|);
    assert es[..|es|] == es;
    hide Inv, Run, Step, Turn;
    var end := |es|;
    assert Trace(regex, w, schedule, end).threads == map[];
    hide Trace;
    StaysIdle(regex, w, schedule, end);
    forall n: nat, t | t in Trace(regex, w, schedule, n).threads
      ensures exists m :: n <= m && TurnOrGone(regex, w, schedule, m, t)
    {
      assert n < end && TurnOrGone(regex, w, schedule, end, t);
    }
  }

  lemma StaysIdle(regex: Regex, w: World, schedule: nat -> Event, end: nat)
    requires (forall n: nat :: schedule(n).Advance?) && Trace(regex, w, schedule, end).threads == map[]
    ensures forall n: nat :: end <= n ==> Trace(regex, w, schedule, n).threads == map[]
  {
    forall n: nat | end <= n
      ensures Trace(regex, w, schedule, n).threads == map[]
    {
      IdleAt(regex, w, schedule, end, n);
    }
  }

  lemma {:induction false} IdleAt(regex: Regex, w: World, schedule: nat -> Event, end: nat, n: nat)
    requires (forall n: nat :: schedule(n).Advance?) && Trace(regex, w, schedule, end).threads == map[] && end <= n
    ensures Trace(regex, w, schedule, n).threads == map[]
    decreases n
  {
    if end < n {
      IdleAt(regex, w, schedule, end, n - 1);
    }
  }
}
