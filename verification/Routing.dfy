/** The routing table, what a dispatch does with it, and why the table's unspecified order does not matter. */
module Routing {
  import opened Common
  import opened Messages
  import opened Chains

  /** `method_map_type`: for every verb, the chain registered for each path pattern. */
  type Table = map<Verb, map<string, Chain>>

  // ----- Registration --------------------------------------------------------------------------

  datatype Registration = Registration(verb: Verb, path: string, chain: Chain)

  /** The first half of `add_resource`: `insert` leaves an existing entry alone. */
  function InsertVerb(table: Table, verb: Verb): Table
  {
    if verb in table then table else table[verb := map[]]
  }

  /** The second half: `insert_or_assign` into the verb's resources. */
  function AssignPath(table: Table, verb: Verb, path: string, chain: Chain): Table
    requires verb in table
  {
    table[verb := table[verb][path := chain]]
  }

  function AddResource(table: Table, r: Registration): Table
  {
    AssignPath(InsertVerb(table, r.verb), r.verb, r.path, r.chain)
  }

  function Replay(table: Table, log: seq<Registration>): Table
    decreases |log|
  {
    if |log| == 0 then table else AddResource(Replay(table, log[..|log| - 1]), log[|log| - 1])
  }

  function Lookup(table: Table, verb: Verb, path: string): Option<Chain>
  {
    if verb in table && path in table[verb] then Some(table[verb][path]) else None
  }

  /** The chain registered last for a verb and path. */
  function LastFor(log: seq<Registration>, verb: Verb, path: string): Option<Chain>
    decreases |log|
  {
    if |log| == 0 then None
    else
      var r := log[|log| - 1];
      if r.verb == verb && r.path == path then Some(r.chain) else LastFor(log[..|log| - 1], verb, path)
  }

  /** Each key holds the chain registered last for it, or what it held before if none was. */
  lemma {:induction false} ReplayKeepsLast(table: Table, log: seq<Registration>, verb: Verb, path: string)
    ensures Lookup(Replay(table, log), verb, path)
         == if LastFor(log, verb, path).Some? then LastFor(log, verb, path) else Lookup(table, verb, path)
    decreases |log|
  {
    if |log| > 0 {
      ReplayKeepsLast(table, log[..|log| - 1], verb, path);
    }
  }

  /** A verb that has an entry had one before, or some path was registered for it. */
  lemma {:induction false} VerbRegistered(table: Table, log: seq<Registration>, verb: Verb) returns (path: string)
    requires verb in Replay(table, log) && verb !in table
    ensures LastFor(log, verb, path).Some?
    decreases |log|
  {
    var r := log[|log| - 1];
    if r.verb == verb {
      path := r.path;
    } else {
      path := VerbRegistered(table, log[..|log| - 1], verb);
    }
  }

  lemma {:induction false} VerbStays(table: Table, log: seq<Registration>, verb: Verb)
    requires verb in table
    ensures verb in Replay(table, log)
    decreases |log|
  {
    if |log| > 0 {
      VerbStays(table, log[..|log| - 1], verb);
    }
  }

  lemma VerbCarriesOver(table: Table, a: seq<Registration>, b: seq<Registration>, verb: Verb)
    requires forall path :: LastFor(a, verb, path) == LastFor(b, verb, path)
    requires verb in Replay(table, a)
    ensures verb in Replay(table, b)
  {
    if verb in table {
      VerbStays(table, b, verb);
    } else {
      var path := VerbRegistered(table, a, verb);
      ReplayKeepsLast(table, b, verb, path);
    }
  }

  lemma SameResources(table: Table, a: seq<Registration>, b: seq<Registration>, verb: Verb)
    requires forall path :: LastFor(a, verb, path) == LastFor(b, verb, path)
    requires verb in Replay(table, a) && verb in Replay(table, b)
    ensures Replay(table, a)[verb] == Replay(table, b)[verb]
  {
    var x, y := Replay(table, a)[verb], Replay(table, b)[verb];
    forall path
      ensures path in x <==> path in y
      ensures path in x && path in y ==> x[path] == y[path]
    {
      ReplayKeepsLast(table, a, verb, path);
      ReplayKeepsLast(table, b, verb, path);
    }
  }

  /** Two histories that agree on the last chain of every key leave the same table. */
  lemma TableIsLastRegistrations(table: Table, a: seq<Registration>, b: seq<Registration>)
    requires forall verb, path :: LastFor(a, verb, path) == LastFor(b, verb, path)
    ensures Replay(table, a) == Replay(table, b)
  {
    var s, t := Replay(table, a), Replay(table, b);
    forall verb
      ensures verb in s <==> verb in t
      ensures verb in s && verb in t ==> s[verb] == t[verb]
    {
      if verb in s {
        VerbCarriesOver(table, a, b, verb);
      } else if verb in t {
        VerbCarriesOver(table, b, a, verb);
      }
      if verb in s {
        SameResources(table, a, b, verb);
      }
    }
  }

  /** Exchanging two neighbouring registrations of different keys changes nothing. */
  lemma ReorderDistinctKeys(table: Table, a: seq<Registration>, x: Registration, y: Registration, b: seq<Registration>)
    requires x.verb != y.verb || x.path != y.path
    ensures Replay(table, a + [x, y] + b) == Replay(table, a + [y, x] + b)
  {
    forall verb, path
      ensures LastFor(a + [x, y] + b, verb, path) == LastFor(a + [y, x] + b, verb, path)
    {
      LastForAppend(a + [x, y], b, verb, path);
      LastForAppend(a + [y, x], b, verb, path);
      LastForAppend(a, [x, y], verb, path);
      LastForAppend(a, [y, x], verb, path);
      assert [x, y][..1] == [x] && [y, x][..1] == [y];
    }
    TableIsLastRegistrations(table, a + [x, y] + b, a + [y, x] + b);
  }

  lemma {:induction false} LastForAppend(a: seq<Registration>, b: seq<Registration>, verb: Verb, path: string)
    ensures LastFor(a + b, verb, path)
         == if LastFor(b, verb, path).Some? then LastFor(b, verb, path) else LastFor(a, verb, path)
    decreases |b|
  {
    if |b| == 0 {
      assert a + b == a;
    } else {
      assert (a + b)[..|a + b| - 1] == a + b[..|b| - 1];
      LastForAppend(a, b[..|b| - 1], verb, path);
    }
  }

  /** No registration removes a key. */
  lemma {:induction false} KeysStay(table: Table, log: seq<Registration>)
    ensures forall verb, path :: Lookup(table, verb, path).Some? ==> Lookup(Replay(table, log), verb, path).Some?
  {
    forall verb, path | Lookup(table, verb, path).Some?
      ensures Lookup(Replay(table, log), verb, path).Some?
    {
      ReplayKeepsLast(table, log, verb, path);
    }
  }

  // ----- Dispatch ------------------------------------------------------------------------------

  /** A chain that a dispatch ran, and how far. */
  datatype ChainRun = ChainRun(path: string, execution: Execution)

  /** The state of the loop over the resources of the request's verb. */
  datatype Progress = Progress(handled: bool, runs: seq<ChainRun>)

  datatype Outcome = Outcome(handled: bool, runs: seq<ChainRun>, fallback: Option<Execution>)

  /** One iteration of the dispatch loop. Every chain gets a fresh context, so its user data starts empty. */
  function Visit(regex: Regex, chains: map<string, Chain>, request: Request, path: string, acc: Progress): Progress
    requires path in chains
  {
    match regex(path, request.target)
    case None => acc
    case Some(groups) =>
      var e := Execute(chains[path], request, Empty, groups);
      Progress(acc.handled || e.completed, acc.runs + [ChainRun(path, e)])
  }

  function VisitAll(regex: Regex, chains: map<string, Chain>, request: Request, order: seq<string>): Progress
    requires forall path <- order :: path in chains
    decreases |order|
  {
    if order == [] then Progress(false, [])
    else Visit(regex, chains, request, order[|order| - 1], VisitAll(regex, chains, request, order[..|order| - 1]))
  }

  /** The resources that the loop ranges over. */
  function ChainsOf(table: Table, verb: Verb): map<string, Chain>
  {
    if verb in table then table[verb] else map[]
  }

  /** The decision after the loop: an unhandled request runs the chain kept under the unknown method. */
  function Finish(table: Table, request: Request, acc: Progress): Outcome
  {
    if acc.handled then Outcome(true, acc.runs, None)
    else
      match Lookup(table, Unknown, "")
      case None => Outcome(false, acc.runs, None)
      case Some(chain) => Outcome(false, acc.runs, Some(Execute(chain, request, Empty, [])))
  }

  /** A whole dispatch against one table, visiting the resources in the given order. */
  function Dispatch(regex: Regex, table: Table, request: Request, order: seq<string>): Outcome
    requires forall path <- order :: path in ChainsOf(table, request.verb)
  {
    Finish(table, request, VisitAll(regex, ChainsOf(table, request.verb), request, order))
  }

  lemma VisitAllNext(regex: Regex, chains: map<string, Chain>, request: Request, order: seq<string>, path: string)
    requires (forall p <- order :: p in chains) && path in chains
    ensures (forall p <- order + [path] :: p in chains)
    ensures VisitAll(regex, chains, request, order + [path])
         == Visit(regex, chains, request, path, VisitAll(regex, chains, request, order))
  {
    assert (order + [path])[..|order|] == order;
  }

  /** What the handlers of a dispatch do, in the order they ran. */
  function ActionsOfRuns(runs: seq<ChainRun>): seq<Action>
    decreases |runs|
  {
    if runs == [] then []
    else ActionsOfRuns(runs[..|runs| - 1]) + runs[|runs| - 1].execution.actions
  }

  lemma VisitActions(regex: Regex, chains: map<string, Chain>, request: Request, path: string, acc: Progress)
    requires path in chains
    ensures ActionsOfRuns(Visit(regex, chains, request, path, acc).runs)
         == ActionsOfRuns(acc.runs) +
              match regex(path, request.target)
              case None => []
              case Some(groups) => Execute(chains[path], request, Empty, groups).actions
  {
    var next := Visit(regex, chains, request, path, acc);
    if next != acc && regex(path, request.target).Some? {
      assert next.runs[..|next.runs| - 1] == acc.runs;
    }
  }

  function ActionsOfOutcome(outcome: Outcome): seq<Action>
  {
    ActionsOfRuns(outcome.runs) + if outcome.fallback.Some? then outcome.fallback.value.actions else []
  }

  /** What the chain kept under the unknown method does. */
  function UnknownActions(table: Table, request: Request): seq<Action>
  {
    match Lookup(table, Unknown, "")
    case None => []
    case Some(chain) => Execute(chain, request, Empty, []).actions
  }

  /** A dispatch acts as its loop does and then, if nothing was handled, as the unknown method's chain does. */
  lemma ActionsOfDispatch(regex: Regex, table: Table, request: Request, order: seq<string>)
    requires forall path <- order :: path in ChainsOf(table, request.verb)
    ensures var acc := VisitAll(regex, ChainsOf(table, request.verb), request, order);
      ActionsOfOutcome(Dispatch(regex, table, request, order))
      == ActionsOfRuns(acc.runs) + if acc.handled then [] else UnknownActions(table, request)
  {
  }

  // ----- The order of the resources ------------------------------------------------------------

  /** The run of one resource, if it exists and its pattern matches. */
  function RunOf(regex: Regex, chains: map<string, Chain>, request: Request, path: string): seq<ChainRun>
  {
    if path !in chains then []
    else
      match regex(path, request.target)
      case None => []
      case Some(groups) => [ChainRun(path, Execute(chains[path], request, Empty, groups))]
  }

  /** What the chain of one resource does for a request. */
  function Contribution(regex: Regex, chains: map<string, Chain>, request: Request, path: string): seq<Action>
  {
    ActionsOfRuns(RunOf(regex, chains, request, path))
  }

  function Runner(regex: Regex, chains: map<string, Chain>, request: Request): string -> seq<ChainRun>
  {
    path => RunOf(regex, chains, request, path)
  }

  function Contributor(regex: Regex, chains: map<string, Chain>, request: Request): string -> seq<Action>
  {
    path => Contribution(regex, chains, request, path)
  }

  /** Some chain ran to its end. */
  ghost predicate AnyCompleted(runs: seq<ChainRun>)
  {
    exists r :: r in runs && r.execution.completed
  }

  lemma VisitRuns(regex: Regex, chains: map<string, Chain>, request: Request, path: string, acc: Progress)
    requires path in chains
    ensures var next := Visit(regex, chains, request, path, acc);
      && next.runs == acc.runs + RunOf(regex, chains, request, path)
      && (next.handled <==> acc.handled || AnyCompleted(RunOf(regex, chains, request, path)))
  {
    hide Execute;
    var one := RunOf(regex, chains, request, path);
    if one != [] {
      assert one[0] in one;
    }
  }

  lemma AnyCompletedAppend(a: seq<ChainRun>, b: seq<ChainRun>)
    ensures AnyCompleted(a + b) <==> AnyCompleted(a) || AnyCompleted(b)
  {
    assert forall r :: r in a + b <==> r in a || r in b;
  }

  /** The loop runs every matching resource once; the request is handled iff one of those runs completed. */
  lemma {:induction false} VisitAllRuns(regex: Regex, chains: map<string, Chain>, request: Request, order: seq<string>)
    requires forall path <- order :: path in chains
    ensures var acc := VisitAll(regex, chains, request, order);
      && acc.runs == Gather(Runner(regex, chains, request), order)
      && (acc.handled <==> AnyCompleted(acc.runs))
    decreases |order|
  {
    if order != [] {
      var init, last := order[..|order| - 1], order[|order| - 1];
      VisitAllRuns(regex, chains, request, init);
      VisitRuns(regex, chains, request, last, VisitAll(regex, chains, request, init));
      AnyCompletedAppend(VisitAll(regex, chains, request, init).runs, RunOf(regex, chains, request, last));
      hide Visit, RunOf, AnyCompleted;
      assert order == init + [last];
      GatherAppend(Runner(regex, chains, request), init, [last]);
      assert Gather(Runner(regex, chains, request), [last]) == RunOf(regex, chains, request, last);
    }
  }

  lemma {:induction false} ActionsOfRunsAppend(a: seq<ChainRun>, b: seq<ChainRun>)
    ensures ActionsOfRuns(a + b) == ActionsOfRuns(a) + ActionsOfRuns(b)
    decreases |b|
  {
    if b == [] {
      assert a + b == a;
    } else {
      assert (a + b)[..|a + b| - 1] == a + b[..|b| - 1];
      ActionsOfRunsAppend(a, b[..|b| - 1]);
    }
  }

  /** The actions of the runs are the contributions of the resources, in the order visited. */
  lemma {:induction false} ActionsAreContributions(regex: Regex, chains: map<string, Chain>, request: Request,
                                                   order: seq<string>)
    ensures ActionsOfRuns(Gather(Runner(regex, chains, request), order))
         == Gather(Contributor(regex, chains, request), order)
    decreases |order|
  {
    if order != [] {
      ActionsAreContributions(regex, chains, request, order[1..]);
      ActionsOfRunsAppend(RunOf(regex, chains, request, order[0]), Gather(Runner(regex, chains, request), order[1..]));
    }
  }

  lemma EnumeratesKeys(order: seq<string>, chains: map<string, Chain>)
    requires Enumerates(order, chains.Keys)
    ensures forall path <- order :: path in chains
    ensures forall path :: multiset(order)[path] == if path in chains then 1 else 0
  {
    assert forall path <- order :: path in multiset(order);
  }

  /**
    Whatever order an unordered map yields, a dispatch reaches the same verdict, runs the same chains
    equally far, and makes the same decision about the fallback.
   */
  lemma OrderIrrelevant(regex: Regex, table: Table, request: Request, a: seq<string>, b: seq<string>)
    requires Enumerates(a, ChainsOf(table, request.verb).Keys)
    requires Enumerates(b, ChainsOf(table, request.verb).Keys)
    ensures forall path <- a :: path in ChainsOf(table, request.verb)
    ensures forall path <- b :: path in ChainsOf(table, request.verb)
    ensures var x, y := Dispatch(regex, table, request, a), Dispatch(regex, table, request, b);
      x.handled == y.handled && multiset(x.runs) == multiset(y.runs) && x.fallback == y.fallback
  {
    var chains := ChainsOf(table, request.verb);
    EnumeratesKeys(a, chains);
    EnumeratesKeys(b, chains);
    GatherPermutation(Runner(regex, chains, request), a, b);
    VisitAllRuns(regex, chains, request, a);
    VisitAllRuns(regex, chains, request, b);
    SameMembersComplete(VisitAll(regex, chains, request, a).runs, VisitAll(regex, chains, request, b).runs);
  }

  lemma SameMembersComplete(a: seq<ChainRun>, b: seq<ChainRun>)
    requires multiset(a) == multiset(b)
    ensures AnyCompleted(a) == AnyCompleted(b)
  {
    assert forall r :: r in a <==> r in multiset(a);
    assert forall r :: r in b <==> r in multiset(b);
  }

  /** The actions of a dispatch do not depend on the order in which the resources are visited. */
  ghost predicate OutputOrderFree(regex: Regex, table: Table, request: Request)
  {
    forall a, b |
      && Enumerates(a, ChainsOf(table, request.verb).Keys) && Enumerates(b, ChainsOf(table, request.verb).Keys)
      && (forall path <- a :: path in ChainsOf(table, request.verb))
      && (forall path <- b :: path in ChainsOf(table, request.verb)) ::
      ActionsOfOutcome(Dispatch(regex, table, request, a)) == ActionsOfOutcome(Dispatch(regex, table, request, b))
  }

  lemma DispatchActions(regex: Regex, table: Table, request: Request, order: seq<string>)
    requires forall path <- order :: path in ChainsOf(table, request.verb)
    ensures var outcome := Dispatch(regex, table, request, order);
      ActionsOfOutcome(outcome)
      == Gather(Contributor(regex, ChainsOf(table, request.verb), request), order)
         + if outcome.fallback.Some? then outcome.fallback.value.actions else []
  {
    VisitAllRuns(regex, ChainsOf(table, request.verb), request, order);
    ActionsAreContributions(regex, ChainsOf(table, request.verb), request, order);
  }

  /**
    The whole sequence of actions of a dispatch is free of the iteration order exactly when the actions
    of any two resources commute.
   */
  lemma OutputOrderFreeIff(regex: Regex, table: Table, request: Request)
    ensures OutputOrderFree(regex, table, request)
       <==> Commute(Contributor(regex, ChainsOf(table, request.verb), request), ChainsOf(table, request.verb).Keys)
  {
    var chains := ChainsOf(table, request.verb);
    var f := Contributor(regex, chains, request);
    OrderFreeIffCommute(f, chains.Keys);
    if OrderFree(f, chains.Keys) {
      forall a, b | Enumerates(a, chains.Keys) && Enumerates(b, chains.Keys)
                    && (forall path <- a :: path in chains) && (forall path <- b :: path in chains)
        ensures ActionsOfOutcome(Dispatch(regex, table, request, a))
             == ActionsOfOutcome(Dispatch(regex, table, request, b))
      {
        DispatchActions(regex, table, request, a);
        DispatchActions(regex, table, request, b);
        OrderIrrelevant(regex, table, request, a, b);
      }
    }
    if OutputOrderFree(regex, table, request) {
      forall a, b | Enumerates(a, chains.Keys) && Enumerates(b, chains.Keys)
        ensures Gather(f, a) == Gather(f, b)
      {
        OrderIrrelevant(regex, table, request, a, b);
        DispatchActions(regex, table, request, a);
        DispatchActions(regex, table, request, b);
        var fallback := Dispatch(regex, table, request, a).fallback;
        CancelTail(Gather(f, a), Gather(f, b), if fallback.Some? then fallback.value.actions else []);
      }
    }
  }

  // ----- The order of the responses ------------------------------------------------------------

  /** The messages that a dispatch sends, in order. */
  function Responses(regex: Regex, table: Table, request: Request, order: seq<string>): seq<Message>
    requires forall path <- order :: path in ChainsOf(table, request.verb)
  {
    SentByAll(ActionsOfOutcome(Dispatch(regex, table, request, order)))
  }

  /** The messages that the chain of one resource sends for a request. */
  function Sender(regex: Regex, chains: map<string, Chain>, request: Request): string -> seq<Message>
  {
    path => SentByAll(Contribution(regex, chains, request, path))
  }

  /** The responses of a dispatch do not depend on the order in which the resources are visited. */
  ghost predicate ResponsesOrderFree(regex: Regex, table: Table, request: Request)
  {
    forall a, b |
      && Enumerates(a, ChainsOf(table, request.verb).Keys) && Enumerates(b, ChainsOf(table, request.verb).Keys)
      && (forall path <- a :: path in ChainsOf(table, request.verb))
      && (forall path <- b :: path in ChainsOf(table, request.verb)) ::
      Responses(regex, table, request, a) == Responses(regex, table, request, b)
  }

  lemma {:induction false} SentAlong(regex: Regex, chains: map<string, Chain>, request: Request, order: seq<string>)
    ensures SentByAll(Gather(Contributor(regex, chains, request), order))
         == Gather(Sender(regex, chains, request), order)
    decreases |order|
  {
    if order != [] {
      SentAlong(regex, chains, request, order[1..]);
      SentByAllAppend(Contribution(regex, chains, request, order[0]),
                      Gather(Contributor(regex, chains, request), order[1..]));
    }
  }

  lemma DispatchResponses(regex: Regex, table: Table, request: Request, order: seq<string>)
    requires forall path <- order :: path in ChainsOf(table, request.verb)
    ensures var fallback := Dispatch(regex, table, request, order).fallback;
      Responses(regex, table, request, order)
      == Gather(Sender(regex, ChainsOf(table, request.verb), request), order)
         + SentByAll(if fallback.Some? then fallback.value.actions else [])
  {
    var fallback := Dispatch(regex, table, request, order).fallback;
    DispatchActions(regex, table, request, order);
    SentByAllAppend(Gather(Contributor(regex, ChainsOf(table, request.verb), request), order),
                    if fallback.Some? then fallback.value.actions else []);
    SentAlong(regex, ChainsOf(table, request.verb), request, order);
  }

  lemma SameFallback(regex: Regex, table: Table, request: Request, a: seq<string>, b: seq<string>)
    requires Enumerates(a, ChainsOf(table, request.verb).Keys)
    requires Enumerates(b, ChainsOf(table, request.verb).Keys)
    ensures forall path <- a :: path in ChainsOf(table, request.verb)
    ensures forall path <- b :: path in ChainsOf(table, request.verb)
    ensures var f := Sender(regex, ChainsOf(table, request.verb), request);
      Responses(regex, table, request, a) == Responses(regex, table, request, b) <==> Gather(f, a) == Gather(f, b)
  {
    OrderIrrelevant(regex, table, request, a, b);
    DispatchResponses(regex, table, request, a);
    DispatchResponses(regex, table, request, b);
    var f := Sender(regex, ChainsOf(table, request.verb), request);
    var fallback := Dispatch(regex, table, request, a).fallback;
    hide Responses, Dispatch, Gather, SentByAll;
    var tail := SentByAll(if fallback.Some? then fallback.value.actions else []);
    if Gather(f, a) + tail == Gather(f, b) + tail {
      CancelTail(Gather(f, a), Gather(f, b), tail);
    }
  }

  /**
    The order of a request's responses is free of the iteration order exactly when what any two
    resources send commutes. Other actions of their handlers have no influence.
   */
  lemma ResponsesOrderFreeIff(regex: Regex, table: Table, request: Request)
    ensures ResponsesOrderFree(regex, table, request)
       <==> Commute(Sender(regex, ChainsOf(table, request.verb), request), ChainsOf(table, request.verb).Keys)
  {
    var chains := ChainsOf(table, request.verb);
    var f := Sender(regex, chains, request);
    OrderFreeIffCommute(f, chains.Keys);
    hide Commute, Responses, Sender;
    if OrderFree(f, chains.Keys) {
      forall a, b | Enumerates(a, chains.Keys) && Enumerates(b, chains.Keys)
                    && (forall path <- a :: path in chains) && (forall path <- b :: path in chains)
        ensures Responses(regex, table, request, a) == Responses(regex, table, request, b)
      {
        SameFallback(regex, table, request, a, b);
      }
    }
    if ResponsesOrderFree(regex, table, request) {
      forall a, b | Enumerates(a, chains.Keys) && Enumerates(b, chains.Keys)
        ensures Gather(f, a) == Gather(f, b)
      {
        SameFallback(regex, table, request, a, b);
      }
    }
  }

  /** In particular the order is fixed when at most one resource sends anything for the request. */
  lemma OneSenderFixesResponses(regex: Regex, table: Table, request: Request)
    requires AtMostOneYields(Sender(regex, ChainsOf(table, request.verb), request), ChainsOf(table, request.verb).Keys)
    ensures ResponsesOrderFree(regex, table, request)
  {
    hide ResponsesOrderFree, Sender, ChainsOf;
    ResponsesOrderFreeIff(regex, table, request);
    AtMostOneCommutes(Sender(regex, ChainsOf(table, request.verb), request), ChainsOf(table, request.verb).Keys);
  }

  /** A callback that sends one message and lets the chain go on. */
  function Sends(message: Message): Callback
  {
    Callback(true, (request: Request, data: Any, groups: Match) => Reply(true, data, [Do(Send(message))]))
  }

  lemma SendsOnce(regex: Regex, chains: map<string, Chain>, request: Request, path: string, message: Message)
    requires path in chains && chains[path] == [Sends(message)] && regex(path, request.target).Some?
    ensures Sender(regex, chains, request)(path) == [message]
  {
    var groups := regex(path, request.target).value;
    var reply := Sends(message).Invoke(request, Empty, groups);
    ExecuteFrom(chains[path], 0, request, Empty, groups, []);
    var e := Execute(chains[path], request, Empty, groups);
    assert chains[path][0..] == chains[path] && chains[path][1..] == [];
    assert reply == Reply(true, Empty, [Do(Send(message))]);
    assert e.actions == [Do(Send(message))];
    var runs := RunOf(regex, chains, request, path);
    assert ActionsOfRuns(runs) == ActionsOfRuns(runs[..0]) + e.actions;
    var actions := Contribution(regex, chains, request, path);
    assert actions == [Do(Send(message))] && actions[1..] == [];
    assert SentByAll(actions) == [message] + SentByAll([]);
  }

  /** Two resources that both match and send different messages answer in either order. */
  lemma TwoMatchesReorder(regex: Regex, request: Request, p: string, q: string, m: Message, n: Message)
    requires p != q && m != n
    requires regex(p, request.target).Some? && regex(q, request.target).Some?
    ensures !ResponsesOrderFree(regex, map[request.verb := map[p := [Sends(m)], q := [Sends(n)]]], request)
  {
    var chains := map[p := [Sends(m)], q := [Sends(n)]];
    SendsOnce(regex, chains, request, p, m);
    SendsOnce(regex, chains, request, q, n);
    assert chains.Keys == {p, q};
    var table := map[request.verb := chains];
    assert ChainsOf(table, request.verb) == chains;
    ResponsesOrderFreeIff(regex, table, request);
    hide *;
    PairsDoNotCommute(Sender(regex, chains, request), chains.Keys, p, q, m, n);
  }

  // ----- The fallback --------------------------------------------------------------------------

  /** What the default not-found handler does. */
  function NotFoundReply(request: Request): Action
  {
    Do(Send(Message("Not Found", request.version < 11)))
  }

  /** The callback that the constructor of a server router installs: it answers 404 and ends the chain. */
  function NotFoundHandler(): Callback
  {
    Callback(true, (request: Request, data: Any, groups: Match) => Reply(false, data, [NotFoundReply(request)]))
  }

  /** The table of a server router that nothing has been registered with. */
  function ServerTable(): Table
  {
    AddResource(map[], Registration(Unknown, "", [NotFoundHandler()]))
  }

  /** Whatever has been registered since, the lookups of the fallback succeed. */
  lemma FallbackExists(log: seq<Registration>)
    ensures var table := Replay(ServerTable(), log);
      && Unknown in table && "" in table[Unknown]
      && table[Unknown][""]
         == if LastFor(log, Unknown, "").Some? then LastFor(log, Unknown, "").value else [NotFoundHandler()]
  {
    ReplayKeepsLast(ServerTable(), log, Unknown, "");
    assert Lookup(ServerTable(), Unknown, "") == Some([NotFoundHandler()]);
  }

  /** How often a path's chain occurs among the runs. */
  function TimesRun(runs: seq<ChainRun>, path: string): nat
    decreases |runs|
  {
    if runs == [] then 0 else (if runs[0].path == path then 1 else 0) + TimesRun(runs[1..], path)
  }

  lemma {:induction false} TimesRunAppend(a: seq<ChainRun>, b: seq<ChainRun>, path: string)
    ensures TimesRun(a + b, path) == TimesRun(a, path) + TimesRun(b, path)
    decreases |a|
  {
    if a == [] {
      assert a + b == b;
    } else {
      assert (a + b)[1..] == a[1..] + b;
      TimesRunAppend(a[1..], b, path);
    }
  }

  lemma TimesRunOne(regex: Regex, chains: map<string, Chain>, request: Request, visited: string, path: string)
    requires visited in chains
    ensures TimesRun(RunOf(regex, chains, request, visited), path)
         == if visited == path && regex(path, request.target).Some? then 1 else 0
  {
    hide Execute;
  }

  /** A resource that matches is run as often as it is visited, one that does not match never. */
  lemma {:induction false} RunsAsOftenAsVisited(regex: Regex, chains: map<string, Chain>, request: Request,
                                                order: seq<string>, path: string)
    requires forall p <- order :: p in chains
    ensures TimesRun(Gather(Runner(regex, chains, request), order), path)
         == if regex(path, request.target).Some? then multiset(order)[path] else 0
    decreases |order|
  {
    if order != [] {
      RunsAsOftenAsVisited(regex, chains, request, order[1..], path);
      TimesRunOne(regex, chains, request, order[0], path);
      hide RunOf;
      TimesRunAppend(RunOf(regex, chains, request, order[0]), Gather(Runner(regex, chains, request), order[1..]), path);
      assert order == [order[0]] + order[1..];
      assert multiset(order)[path] == multiset{order[0]}[path] + multiset(order[1..])[path];
    }
  }

  /** Every matching resource is run exactly once and no other resource is run. */
  lemma EachMatchRunsOnce(regex: Regex, table: Table, request: Request, order: seq<string>, path: string)
    requires Enumerates(order, ChainsOf(table, request.verb).Keys)
    ensures forall p <- order :: p in ChainsOf(table, request.verb)
    ensures TimesRun(Dispatch(regex, table, request, order).runs, path)
         == if Lookup(table, request.verb, path).Some? && regex(path, request.target).Some? then 1 else 0
  {
    EnumeratesKeys(order, ChainsOf(table, request.verb));
    VisitAllRuns(regex, ChainsOf(table, request.verb), request, order);
    RunsAsOftenAsVisited(regex, ChainsOf(table, request.verb), request, order, path);
  }

  // ----- What a dispatch selects ---------------------------------------------------------------

  /** The order lists every path that has a chain for the verb, once, and no other path. */
  ghost predicate Selects(table: Table, verb: Verb, order: seq<string>)
  {
    forall path :: multiset(order)[path] == if Lookup(table, verb, path).Some? then 1 else 0
  }

  lemma SelectedKeys(table: Table, verb: Verb, order: seq<string>)
    ensures Enumerates(order, ChainsOf(table, verb).Keys) <==> Selects(table, verb, order)
  {
    var keys := ChainsOf(table, verb).Keys;
    assert forall path :: multiset(keys)[path] == if Lookup(table, verb, path).Some? then 1 else 0;
    if Selects(table, verb, order) {
      assert forall path :: multiset(order)[path] == multiset(keys)[path];
    }
  }

  /** The run is that of the chain kept for the request's method and the run's path, whose pattern matches. */
  ghost predicate RunsChain(regex: Regex, table: Table, request: Request, run: ChainRun)
  {
    var chain, groups := Lookup(table, request.verb, run.path), regex(run.path, request.target);
    chain.Some? && groups.Some? && run.execution == Execute(chain.value, request, Empty, groups.value)
  }

  lemma {:induction false} GatheredRuns(regex: Regex, table: Table, request: Request, order: seq<string>)
    ensures forall run <- Gather(Runner(regex, ChainsOf(table, request.verb), request), order) ::
              RunsChain(regex, table, request, run)
    decreases |order|
  {
    hide Execute;
    if order != [] {
      GatheredRuns(regex, table, request, order[1..]);
    }
  }

  /**
    What a request's method selects: each path that has a chain for it and whose pattern matches runs that
    chain, once, with empty user data and the groups of the match; nothing else runs. If none of these runs
    completed, the chain under the unknown method and the empty path runs, without groups.
   */
  lemma DispatchSelects(regex: Regex, table: Table, request: Request, order: seq<string>)
    requires Selects(table, request.verb, order)
    ensures forall path <- order :: path in ChainsOf(table, request.verb)
    ensures var outcome := Dispatch(regex, table, request, order);
      && (forall run <- outcome.runs :: RunsChain(regex, table, request, run))
      && (forall path :: TimesRun(outcome.runs, path)
            == if Lookup(table, request.verb, path).Some? && regex(path, request.target).Some? then 1 else 0)
      && (outcome.handled <==> AnyCompleted(outcome.runs))
      && outcome.fallback == if outcome.handled || Lookup(table, Unknown, "") == None then None
                             else Some(Execute(Lookup(table, Unknown, "").value, request, Empty, []))
  {
    SelectedKeys(table, request.verb, order);
    EnumeratesKeys(order, ChainsOf(table, request.verb));
    VisitAllRuns(regex, ChainsOf(table, request.verb), request, order);
    GatheredRuns(regex, table, request, order);
    forall path
      ensures TimesRun(Dispatch(regex, table, request, order).runs, path)
           == if Lookup(table, request.verb, path).Some? && regex(path, request.target).Some? then 1 else 0
    {
      EachMatchRunsOnce(regex, table, request, order, path);
    }
    hide Execute, VisitAll, RunsChain, AnyCompleted, TimesRun, Selects;
  }

  /** A method that nobody registered runs no resource. */
  lemma UnregisteredMethodRunsNothing(regex: Regex, table: Table, request: Request, order: seq<string>)
    requires Enumerates(order, ChainsOf(table, request.verb).Keys)
    requires forall path :: Lookup(table, request.verb, path) == None
    ensures forall path <- order :: path in ChainsOf(table, request.verb)
    ensures Dispatch(regex, table, request, order).runs == []
  {
    SelectedKeys(table, request.verb, order);
    DispatchSelects(regex, table, request, order);
    var runs := Dispatch(regex, table, request, order).runs;
    assert |runs| > 0 ==> RunsChain(regex, table, request, runs[0]);
  }

  /** What is kept for a key after registrations: the chain registered last, or what was there before. */
  function Registered(table: Table, log: seq<Registration>, verb: Verb, path: string): Option<Chain>
  {
    if LastFor(log, verb, path).Some? then LastFor(log, verb, path) else Lookup(table, verb, path)
  }

  /** After any registrations a dispatch runs, for each matching path, the chain registered last for its method. */
  lemma DispatchFollowsRegistrations(regex: Regex, base: Table, log: seq<Registration>, request: Request,
                                     order: seq<string>)
    requires Enumerates(order, ChainsOf(Replay(base, log), request.verb).Keys)
    ensures forall path <- order :: path in ChainsOf(Replay(base, log), request.verb)
    ensures var outcome := Dispatch(regex, Replay(base, log), request, order);
      && (forall run <- outcome.runs ::
            var chain, groups := Registered(base, log, request.verb, run.path), regex(run.path, request.target);
            chain.Some? && groups.Some? && run.execution == Execute(chain.value, request, Empty, groups.value))
      && (forall path :: TimesRun(outcome.runs, path)
            == if Registered(base, log, request.verb, path).Some? && regex(path, request.target).Some? then 1 else 0)
      && outcome.fallback == if outcome.handled || Registered(base, log, Unknown, "") == None then None
                             else Some(Execute(Registered(base, log, Unknown, "").value, request, Empty, []))
  {
    forall verb, path
      ensures Lookup(Replay(base, log), verb, path) == Registered(base, log, verb, path)
    {
      ReplayKeepsLast(base, log, verb, path);
    }
    SelectedKeys(Replay(base, log), request.verb, order);
    DispatchSelects(regex, Replay(base, log), request, order);
    hide Execute, Replay, Dispatch, Registered, Lookup, Selects, TimesRun, ChainsOf;
  }

  /** How often the not-found chain runs in one dispatch: as a resource and as the fallback. */
  function TimesNotFound(request: Request, outcome: Outcome): nat
  {
    (if request.verb == Unknown then TimesRun(outcome.runs, "") else 0) + if outcome.fallback.Some? then 1 else 0
  }

  /**
    On a server, the not-found chain runs exactly once if no matching chain ran to completion and not
    at all otherwise; this fails exactly for requests with the unknown method whose target the empty
    pattern matches, because their own loop already runs that chain.
   */
  lemma NotFoundRunsOnceIff(regex: Regex, log: seq<Registration>, request: Request, order: seq<string>)
    requires Enumerates(order, ChainsOf(Replay(ServerTable(), log), request.verb).Keys)
    ensures forall p <- order :: p in ChainsOf(Replay(ServerTable(), log), request.verb)
    ensures var outcome := Dispatch(regex, Replay(ServerTable(), log), request, order);
      && (outcome.handled <==> AnyCompleted(outcome.runs))
      && (TimesNotFound(request, outcome) == (if AnyCompleted(outcome.runs) then 0 else 1)
          <==> !(request.verb == Unknown && regex("", request.target).Some?))
  {
    var table := Replay(ServerTable(), log);
    FallbackExists(log);
    EachMatchRunsOnce(regex, table, request, order, "");
    VisitAllRuns(regex, ChainsOf(table, request.verb), request, order);
  }

  /** With nothing registered, a request with the unknown method that the empty pattern matches is answered twice. */
  lemma UnknownMethodAnsweredTwice(regex: Regex, request: Request)
    requires request.verb == Unknown && regex("", request.target).Some?
    ensures Enumerates([""], ChainsOf(ServerTable(), Unknown).Keys)
    ensures ActionsOfOutcome(Dispatch(regex, ServerTable(), request, [""]))
         == [NotFoundReply(request), NotFoundReply(request)]
  {
    var table, groups := ServerTable(), regex("", request.target).value;
    assert ChainsOf(table, Unknown).Keys == {""};
    RefusesAtOnce(request, groups);
    RefusesAtOnce(request, []);
    OneRun(regex, table[Unknown], request);
    DispatchActions(regex, table, request, [""]);
    hide Execute, VisitAll, Contribution;
    assert Gather(Contributor(regex, table[Unknown], request), [""])
        == Contribution(regex, table[Unknown], request, "");
  }

  lemma RefusesAtOnce(request: Request, groups: Match)
    ensures Execute([NotFoundHandler()], request, Empty, groups) == Execution(false, 1, Empty, [NotFoundReply(request)])
  {
  }

  lemma OneRun(regex: Regex, chains: map<string, Chain>, request: Request)
    requires "" in chains && regex("", request.target).Some?
    ensures var e := Execute(chains[""], request, Empty, regex("", request.target).value);
      && Contribution(regex, chains, request, "") == e.actions
      && VisitAll(regex, chains, request, [""]).handled == e.completed
  {
    hide Execute;
    var runs := RunOf(regex, chains, request, "");
    assert |runs| == 1 && runs[..0] == [];
    assert ActionsOfRuns(runs) == ActionsOfRuns([]) + runs[0].execution.actions == runs[0].execution.actions;
    var order := [""];
    assert order[..|order| - 1] == [] && order[|order| - 1] == "";
    assert VisitAll(regex, chains, request, order) == Visit(regex, chains, request, "", Progress(false, []));
  }
}
