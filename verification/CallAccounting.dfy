/** Every registration and every dispatch that was called takes effect exactly once. */
module CallAccounting {
  import opened Chains
  import opened Routing
  import opened LinearDispatch

  // ----- Calls, and what has become of them ----------------------------------------------------

  /** The thread is in a registration that is not committed yet. */
  ghost predicate Pending(w: World, t: nat, r: Registration)
  {
    t in w.threads && var l := w.threads[t]; (l.Registering? || l.Locked? || l.Inserted?) && l.r == r
  }

  /** The thread is in a dispatch of the request. */
  ghost predicate Asks(w: World, t: nat, request: Request)
  {
    t in w.threads && var l := w.threads[t]; (l.Requesting? || l.Serving? || l.Deciding?) && l.request == request
  }

  ghost function PendingThreads(w: World, r: Registration): set<nat>
  {
    set t | t in w.threads && Pending(w, t, r)
  }

  ghost function AskingThreads(w: World, request: Request): set<nat>
  {
    set t | t in w.threads && Asks(w, t, request)
  }

  /** The registration that a step calls for, if any; a thread makes one call at a time. */
  function RegistrationCall(w: World, e: Event): seq<Registration>
  {
    if e.CallRegister? && e.thread !in w.threads then [e.r] else []
  }

  function DispatchCall(w: World, e: Event): seq<Request>
  {
    if e.CallDispatch? && e.thread !in w.threads then [e.request] else []
  }

  /** All calls for a registration in a run, in order. */
  function RegistrationCalls(regex: Regex, w: World, es: seq<Event>): seq<Registration>
    decreases |es|
  {
    if es == [] then [] else RegistrationCall(w, es[0]) + RegistrationCalls(regex, Step(regex, w, es[0]), es[1..])
  }

  function DispatchCalls(regex: Regex, w: World, es: seq<Event>): seq<Request>
    decreases |es|
  {
    if es == [] then [] else DispatchCall(w, es[0]) + DispatchCalls(regex, Step(regex, w, es[0]), es[1..])
  }

  function Requests(served: seq<Served>): seq<Request>
  {
    seq(|served|, i requires 0 <= i < |served| => served[i].request)
  }

  lemma RequestsAppend(a: seq<Served>, b: seq<Served>)
    ensures Requests(a + b) == Requests(a) + Requests(b)
  {
  }

  // ----- One step ------------------------------------------------------------------------------

  function One(b: bool): nat
  {
    if b then 1 else 0
  }

  /** What replacing or removing one thread does to a count of threads. */
  lemma CountChanges(a: set<nat>, b: set<nat>, t: nat)
    requires a - {t} == b - {t}
    ensures |a| + One(t in b) == |b| + One(t in a)
  {
    assert a == if t in a then (a - {t}) + {t} else a - {t};
    assert b == if t in b then (b - {t}) + {t} else b - {t};
  }

  /** A step moves its own thread only. */
  lemma OthersStay(regex: Regex, w: World, e: Event)
    ensures Step(regex, w, e).threads - {e.thread} == w.threads - {e.thread}
  {
    hide InsertVerb, AssignPath, Finish, Visit, ChainsOf;
  }

  /** A registration leaves its thread exactly when it enters the log. */
  lemma RegistrationMoves(regex: Regex, w: World, e: Event, r: Registration)
    ensures var u := Step(regex, w, e);
      && w.log <= u.log
      && multiset(RegistrationCall(w, e))[r] + One(Pending(w, e.thread, r))
         == multiset(u.log[|w.log|..])[r] + One(Pending(u, e.thread, r))
  {
    hide InsertVerb, AssignPath, Finish, Visit, ChainsOf;
    var u := Step(regex, w, e);
    if u.log == w.log {
      assert u.log[|w.log|..] == [];
    } else {
      assert u.log[|w.log|..] == [w.threads[e.thread].r];
    }
  }

  /** A request leaves its thread exactly when its dispatch is recorded. */
  lemma DispatchMoves(regex: Regex, w: World, e: Event, request: Request)
    ensures var u := Step(regex, w, e);
      && w.served <= u.served
      && multiset(DispatchCall(w, e))[request] + One(Asks(w, e.thread, request))
         == multiset(Requests(u.served[|w.served|..]))[request] + One(Asks(u, e.thread, request))
  {
    hide InsertVerb, AssignPath, Finish, Visit, ChainsOf;
    var u := Step(regex, w, e);
    if u.served == w.served {
      assert Requests(u.served[|w.served|..]) == [];
    } else {
      assert Requests(u.served[|w.served|..]) == [w.threads[e.thread].request];
    }
  }

  lemma AdvanceAccounts(regex: Regex, w: World, e: Event, r: Registration)
    ensures var u := Step(regex, w, e);
      multiset(RegistrationCall(w, e))[r] + multiset(w.log)[r] + |PendingThreads(w, r)|
      == multiset(u.log)[r] + |PendingThreads(u, r)|
  {
    RegistrationMoves(regex, w, e, r);
    OthersStay(regex, w, e);
    hide Step;
    var u := Step(regex, w, e);
    SameThreads(w, u, e.thread);
    CountChanges(PendingThreads(w, r), PendingThreads(u, r), e.thread);
    hide Pending;
    assert u.log == w.log + u.log[|w.log|..];
  }

  lemma ServeAccounts(regex: Regex, w: World, e: Event, request: Request)
    ensures var u := Step(regex, w, e);
      multiset(DispatchCall(w, e))[request] + multiset(Requests(w.served))[request] + |AskingThreads(w, request)|
      == multiset(Requests(u.served))[request] + |AskingThreads(u, request)|
  {
    DispatchMoves(regex, w, e, request);
    OthersStay(regex, w, e);
    hide Step;
    var u := Step(regex, w, e);
    SameThreads(w, u, e.thread);
    CountChanges(AskingThreads(w, request), AskingThreads(u, request), e.thread);
    hide Asks, Requests;
    assert u.served == w.served + u.served[|w.served|..];
    RequestsAppend(w.served, u.served[|w.served|..]);
  }

  lemma SameThreads(w: World, u: World, t: nat)
    requires u.threads - {t} == w.threads - {t}
    ensures forall r :: PendingThreads(u, r) - {t} == PendingThreads(w, r) - {t}
    ensures forall request :: AskingThreads(u, request) - {t} == AskingThreads(w, request) - {t}
  {
    assert forall s :: s != t ==> (s in u.threads <==> s in u.threads - {t});
    assert forall s :: s != t ==> (s in w.threads <==> s in w.threads - {t});
    assert forall s :: s != t && s in u.threads ==> u.threads[s] == (u.threads - {t})[s] == w.threads[s];
  }

  // ----- Whole runs ----------------------------------------------------------------------------

  lemma {:induction false} RegistrationsAccounted(regex: Regex, w: World, es: seq<Event>, r: Registration)
    ensures var v := Run(regex, w, es);
      multiset(RegistrationCalls(regex, w, es))[r] + multiset(w.log)[r] + |PendingThreads(w, r)|
      == multiset(v.log)[r] + |PendingThreads(v, r)|
    decreases |es|
  {
    if es != [] {
      AdvanceAccounts(regex, w, es[0], r);
      RegistrationsAccounted(regex, Step(regex, w, es[0]), es[1..], r);
      hide Step, PendingThreads, RegistrationCall;
    }
  }

  lemma {:induction false} DispatchesAccounted(regex: Regex, w: World, es: seq<Event>, request: Request)
    ensures var v := Run(regex, w, es);
      multiset(DispatchCalls(regex, w, es))[request] + multiset(Requests(w.served))[request]
        + |AskingThreads(w, request)|
      == multiset(Requests(v.served))[request] + |AskingThreads(v, request)|
    decreases |es|
  {
    if es != [] {
      ServeAccounts(regex, w, es[0], request);
      DispatchesAccounted(regex, Step(regex, w, es[0]), es[1..], request);
      hide Step, AskingThreads, DispatchCall, Requests;
    }
  }

  /**
    Exactly once: in every run of any number of threads, each registration was called for as often as it
    is in the log or still under way, and each request as often as it has been served or is being served.
   */
  lemma EachCallOnce(regex: Regex, base: Table, es: seq<Event>, r: Registration, request: Request)
    ensures var v := Run(regex, Start(base), es);
      && multiset(RegistrationCalls(regex, Start(base), es))[r] == multiset(v.log)[r] + |PendingThreads(v, r)|
      && multiset(DispatchCalls(regex, Start(base), es))[request]
         == multiset(Requests(v.served))[request] + |AskingThreads(v, request)|
  {
    RegistrationsAccounted(regex, Start(base), es, r);
    DispatchesAccounted(regex, Start(base), es, request);
    hide Run;
  }

  // ----- Calls that have returned --------------------------------------------------------------

  lemma PendingStep(regex: Regex, w: World, e: Event, t: nat, r: Registration)
    requires Pending(w, t, r)
    ensures var u := Step(regex, w, e);
      w.log <= u.log && (Pending(u, t, r) || r in u.log[|w.log|..])
  {
    hide InsertVerb, AssignPath, Finish, Visit, ChainsOf;
  }

  lemma AsksStep(regex: Regex, w: World, e: Event, t: nat, request: Request)
    requires Asks(w, t, request)
    ensures var u := Step(regex, w, e);
      w.served <= u.served && (Asks(u, t, request) || request in Requests(u.served[|w.served|..]))
  {
    hide InsertVerb, AssignPath, Finish, Visit, ChainsOf;
    var u := Step(regex, w, e);
    if u.served != w.served {
      assert Requests(u.served[|w.served|..])[0] == w.threads[e.thread].request;
    }
  }

  /** What is added by two steps was added by the first or by the second. */
  lemma AddedLater<T>(a: seq<T>, b: seq<T>, c: seq<T>)
    requires a <= b <= c
    ensures c[|a|..] == b[|a|..] + c[|b|..]
  {
  }

  /** A registration under way is committed, later than anything so far, unless its thread is still in it. */
  lemma {:induction false} RegistrationTakesEffect(regex: Regex, base: Table, w: World, es: seq<Event>,
                                                   t: nat, r: Registration)
    requires Inv(regex, base, w) && Pending(w, t, r)
    ensures var v := Run(regex, w, es);
      w.log <= v.log && (Pending(v, t, r) || r in v.log[|w.log|..])
    decreases |es|
  {
    if es != [] {
      var u, v := Step(regex, w, es[0]), Run(regex, w, es);
      StepKeepsInv(regex, base, w, es[0]);
      PendingStep(regex, w, es[0], t, r);
      LaterDispatchesSeeRegistrations(regex, base, u, es[1..]);
      hide Inv, Step, Pending;
      AddedLater(w.log, u.log, v.log);
      if Pending(u, t, r) {
        RegistrationTakesEffect(regex, base, u, es[1..], t, r);
      }
    }
  }

  /** A request under way is answered and recorded, unless its thread is still busy with it. */
  lemma {:induction false} DispatchTakesEffect(regex: Regex, base: Table, w: World, es: seq<Event>,
                                               t: nat, request: Request)
    requires Inv(regex, base, w) && Asks(w, t, request)
    ensures var v := Run(regex, w, es);
      w.served <= v.served && (Asks(v, t, request) || request in Requests(v.served[|w.served|..]))
    decreases |es|
  {
    if es != [] {
      var u, v := Step(regex, w, es[0]), Run(regex, w, es);
      StepKeepsInv(regex, base, w, es[0]);
      AsksStep(regex, w, es[0], t, request);
      LaterDispatchesSeeRegistrations(regex, base, u, es[1..]);
      hide Inv, Step, Asks, Requests;
      AddedLater(w.served, u.served, v.served);
      RequestsAppend(u.served[|w.served|..], v.served[|u.served|..]);
      if Asks(u, t, request) {
        DispatchTakesEffect(regex, base, u, es[1..], t, request);
      }
    }
  }

  /**
    Real time: once a registration has returned, every dispatch that returns later runs on a table made
    with it. `w` is any moment during the call, `a` leads to one after its return, `b` onwards.
   */
  lemma ReturnedRegistrationIsSeen(regex: Regex, base: Table, w: World, a: seq<Event>, b: seq<Event>,
                                   t: nat, r: Registration)
    requires Inv(regex, base, w) && Pending(w, t, r)
    requires t !in Run(regex, w, a).threads
    ensures var v := Run(regex, w, a);
      var x := Run(regex, v, b);
      forall i :: |v.served| <= i < |x.served| ==>
        && |w.log| <= x.served[i].at <= |x.log| && r in x.log[|w.log|..x.served[i].at]
        && Atomic(regex, base, x.log, x.served[i])
  {
    var v := Run(regex, w, a);
    var x := Run(regex, v, b);
    RunKeepsInv(regex, base, w, a);
    RunKeepsInv(regex, base, v, b);
    RegistrationTakesEffect(regex, base, w, a, t, r);
    LaterDispatchesSeeRegistrations(regex, base, v, b);
    hide Run, Atomic, Locks, TableFollowsLog;
    forall i | |v.served| <= i < |x.served|
      ensures |w.log| <= x.served[i].at <= |x.log| && r in x.log[|w.log|..x.served[i].at]
      ensures Atomic(regex, base, x.log, x.served[i])
    {
      var k :| |w.log| <= k < |v.log| && v.log[k] == r;
      assert x.log[|w.log|..x.served[i].at][k - |w.log|] == r;
      assert x.served[i] in x.served;
    }
  }

  /**
    On a server every request is answered: a dispatch that has returned, whatever its thread did before
    or after, left a record of its own request. Its chains answered it by running to their end, or else
    the fallback did, never both.
   */
  lemma EveryRequestAnswered(regex: Regex, w: World, es: seq<Event>, t: nat, request: Request) returns (s: Served)
    requires Inv(regex, ServerTable(), w) && Asks(w, t, request)
    requires t !in Run(regex, w, es).threads
    ensures var v := Run(regex, w, es);
      && w.served <= v.served && s in v.served[|w.served|..] && s.request == request
      && Atomic(regex, ServerTable(), v.log, s)
    ensures s.outcome.handled == AnyCompleted(s.outcome.runs)
    ensures s.outcome.fallback.Some? == !s.outcome.handled
  {
    var v := Run(regex, w, es);
    RunKeepsInv(regex, ServerTable(), w, es);
    DispatchTakesEffect(regex, ServerTable(), w, es, t, request);
    hide Run, Atomic, Locks, TableFollowsLog;
    var i :| 0 <= i < |Requests(v.served[|w.served|..])| && Requests(v.served[|w.served|..])[i] == request;
    s := v.served[|w.served|..][i];
    assert s in v.served;
    AtomicIsAnswered(regex, ServerTable(), v.log, s);
  }
}
