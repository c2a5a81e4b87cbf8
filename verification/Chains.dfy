/** Requests, handlers and chains of handlers: what `storage` keeps and how `begin_execute` runs it. */
module Chains {
  import opened Common
  import opened Messages

  datatype Verb = Unknown | Get | Put | Post | Delete | Other(name: string)

  datatype Request = Request(verb: Verb, target: string, version: nat)

  /** The groups of a regular expression match. */
  type Match = seq<string>

  /** Deterministic full matching of a target against a registered pattern. */
  type Regex = (string, string) -> Option<Match>

  /** The user data of a context, a `std::any`. */
  datatype Any = Empty | Holds(value: int)

  /** What one invocation of a handler does: its verdict, the user data it leaves, its actions. */
  datatype Reply = Reply(proceed: bool, data: Any, actions: seq<Action>)

  /** A stored callback; one that does not return `bool` always lets the chain go on. */
  datatype Callback = Callback(returnsBool: bool, run: (Request, Any, Match) -> Reply)
  {
    function Invoke(request: Request, data: Any, groups: Match): Reply
    {
      if returnsBool then run(request, data, groups) else run(request, data, groups).(proceed := true)
    }
  }

  type Chain = seq<Callback>

  /** The outcome of running a chain: whether all of it ran, how many callbacks ran, and their effect. */
  datatype Execution = Execution(completed: bool, ran: nat, data: Any, actions: seq<Action>)

  function Execute(chain: Chain, request: Request, data: Any, groups: Match): Execution
  {
    if |chain| == 0 then Execution(true, 0, data, [])
    else
      var reply := chain[0].Invoke(request, data, groups);
      if reply.proceed then Prefixed(1, reply.actions, Execute(chain[1..], request, reply.data, groups))
      else Execution(false, 1, reply.data, reply.actions)
  }

  /** An execution preceded by `n` callbacks that proceeded and did `actions`. */
  function Prefixed(n: nat, actions: seq<Action>, e: Execution): Execution
  {
    e.(ran := n + e.ran, actions := actions + e.actions)
  }

  lemma ExecutionStarts(chain: Chain, request: Request, data: Any, groups: Match)
    ensures Execute(chain, request, data, groups) == Prefixed(0, [], Execute(chain[0..], request, data, groups))
  {
    assert chain[0..] == chain;
    var e := Execute(chain, request, data, groups);
    assert [] + e.actions == e.actions;
  }

  lemma ExecutionEnds(n: nat, ran: seq<Action>, request: Request, data: Any, groups: Match)
    ensures Prefixed(n, ran, Execute([], request, data, groups)) == Execution(true, n, data, ran)
  {
    assert ran + [] == ran;
  }

  /** Continuing at position `k` of a chain of which `ran` has been done so far. */
  lemma ExecuteFrom(chain: Chain, k: nat, request: Request, data: Any, groups: Match, ran: seq<Action>)
    requires k < |chain|
    ensures var reply := chain[k].Invoke(request, data, groups);
      Prefixed(k, ran, Execute(chain[k..], request, data, groups))
      == if reply.proceed then
           Prefixed(k + 1, ran + reply.actions, Execute(chain[k + 1..], request, reply.data, groups))
         else Execution(false, k + 1, reply.data, ran + reply.actions)
  {
    var reply := chain[k].Invoke(request, data, groups);
    var tail := Execute(chain[k + 1..], request, reply.data, groups);
    assert chain[k..][0] == chain[k] && chain[k..][1..] == chain[k + 1..];
    assert ran + (reply.actions + tail.actions) == (ran + reply.actions) + tail.actions;
  }

  // ----- An independent reading of a chain: what each callable answers, were all before it run. ------

  function DataBefore(chain: Chain, request: Request, data: Any, groups: Match, k: nat): Any
    requires k <= |chain|
  {
    if k == 0 then data
    else chain[k - 1].run(request, DataBefore(chain, request, data, groups, k - 1), groups).data
  }

  function ReplyOf(chain: Chain, request: Request, data: Any, groups: Match, k: nat): Reply
    requires k < |chain|
  {
    chain[k].run(request, DataBefore(chain, request, data, groups, k), groups)
  }

  /** A chain stops only at a callable that returns `bool`, and returned false. */
  predicate Stops(chain: Chain, request: Request, data: Any, groups: Match, k: nat)
    requires k < |chain|
  {
    chain[k].returnsBool && !ReplyOf(chain, request, data, groups, k).proceed
  }

  /** The actions of the first `n` callbacks. */
  function ActionsOf(chain: Chain, request: Request, data: Any, groups: Match, n: nat): seq<Action>
    requires n <= |chain|
  {
    if n == 0 then []
    else ActionsOf(chain, request, data, groups, n - 1) + ReplyOf(chain, request, data, groups, n - 1).actions
  }

  lemma {:induction false} DataBeforeTail(chain: Chain, request: Request, data: Any, groups: Match, k: nat)
    requires 1 <= k <= |chain|
    ensures DataBefore(chain, request, data, groups, k)
         == DataBefore(chain[1..], request, ReplyOf(chain, request, data, groups, 0).data, groups, k - 1)
  {
    if k > 1 {
      DataBeforeTail(chain, request, data, groups, k - 1);
    }
  }

  lemma {:induction false} ActionsOfTail(chain: Chain, request: Request, data: Any, groups: Match, n: nat)
    requires 1 <= n <= |chain|
    ensures var first := ReplyOf(chain, request, data, groups, 0);
      ActionsOf(chain, request, data, groups, n)
      == first.actions + ActionsOf(chain[1..], request, first.data, groups, n - 1)
  {
    if n > 1 {
      ActionsOfTail(chain, request, data, groups, n - 1);
      DataBeforeTail(chain, request, data, groups, n - 1);
    }
  }

  /**
    A chain runs exactly the shortest prefix that ends in a false verdict, or all of it, and says so. Each
    callable gets the user data its predecessor left and the groups of the match; one that returns no
    `bool` lets the chain go on.
   */
  lemma {:induction false} RunsShortestFailingPrefix(chain: Chain, request: Request, data: Any, groups: Match)
    ensures var e := Execute(chain, request, data, groups);
      && e.ran <= |chain|
      && (forall k :: 0 <= k < |chain| && (k < e.ran - 1 || e.completed) ==>
            !Stops(chain, request, data, groups, k))
      && (if e.completed then e.ran == |chain|
          else e.ran > 0 && Stops(chain, request, data, groups, e.ran - 1))
      && e.data == DataBefore(chain, request, data, groups, e.ran)
      && e.actions == ActionsOf(chain, request, data, groups, e.ran)
  {
    if |chain| > 0 {
      var first := ReplyOf(chain, request, data, groups, 0);
      if !Stops(chain, request, data, groups, 0) {
        var e := Execute(chain, request, data, groups);
        RunsShortestFailingPrefix(chain[1..], request, first.data, groups);
        forall k | 1 <= k <= |chain|
          ensures DataBefore(chain, request, data, groups, k)
               == DataBefore(chain[1..], request, first.data, groups, k - 1)
        {
          DataBeforeTail(chain, request, data, groups, k);
        }
        forall k | 1 <= k < |chain|
          ensures Stops(chain, request, data, groups, k) == Stops(chain[1..], request, first.data, groups, k - 1)
        {
        }
        ActionsOfTail(chain, request, data, groups, e.ran);
      } else {
        assert ActionsOf(chain, request, data, groups, 1) == [] + first.actions;
      }
    }
  }

  /** Running `a + b` is running `a` and then, if `a` ran to its end, `b` with the user data `a` left. */
  lemma {:induction false} ExecuteAppend(a: Chain, b: Chain, request: Request, data: Any, groups: Match)
    ensures var first := Execute(a, request, data, groups);
      Execute(a + b, request, data, groups)
      == if first.completed then Prefixed(first.ran, first.actions, Execute(b, request, first.data, groups)) else first
  {
    if |a| == 0 {
      assert a + b == b;
      var e := Execute(b, request, data, groups);
      assert [] + e.actions == e.actions;
    } else {
      var reply := a[0].Invoke(request, data, groups);
      assert (a + b)[1..] == a[1..] + b && (a + b)[0] == a[0];
      if reply.proceed {
        ExecuteAppend(a[1..], b, request, reply.data, groups);
        var rest := Execute(a[1..], request, reply.data, groups);
        if rest.completed {
          var tail := Execute(b, request, rest.data, groups);
          assert reply.actions + (rest.actions + tail.actions) == (reply.actions + rest.actions) + tail.actions;
        }
      }
    }
  }

  /** The indices of a tuple of `size` entries. */
  function Indices(size: nat): (s: set<nat>)
    ensures forall i: nat :: i in s <==> i < size
  {
    if size == 0 then {} else Indices(size - 1) + {size - 1}
  }

  /** Each index is evaluated once, at one position of the evaluation order. */
  lemma Evaluated(order: seq<nat>, size: nat, i: nat, idx: nat)
    requires Enumerates(order, Indices(size)) && i < |order| && idx < size
    ensures order[i] < size
    ensures multiset(order[..i + 1])[idx] == multiset(order[..i])[idx] + (if order[i] == idx then 1 else 0) <= 1
  {
    assert order[..i + 1] == order[..i] + [order[i]];
    assert order == order[..i + 1] + order[i + 1..];
    assert multiset(order)[idx] == 1 && order[i] in multiset(order);
  }

  /**
    `tuple_func_idx`: every expanded argument is evaluated, in the unspecified order `order`, and the
    one whose index is `idx` appends its entry.
   */
  method TupleFuncIdx(idx: nat, entries: Chain, stored: Chain, order: seq<nat>) returns (result: Chain)
    requires idx < |entries| && Enumerates(order, Indices(|entries|))
    ensures result == stored + [entries[idx]]
  {
    result := stored;
    var i := 0;
    while i < |order|
      invariant 0 <= i <= |order|
      invariant multiset(order[..i])[idx] <= 1
      invariant result == if multiset(order[..i])[idx] == 0 then stored else stored + [entries[idx]]
    {
      Evaluated(order, |entries|, i, idx);
      if idx == order[i] {
        result := result + [entries[order[i]]];
      }
      i := i + 1;
    }
    assert order[..i] == order && multiset(order)[idx] == 1;
  }

  /** The `storage` constructor: its nested index loop stores exactly the given handlers, in order. */
  method MakeStorage(handlers: Chain, orders: seq<seq<nat>>) returns (clbs: Chain)
    requires |orders| == |handlers|
    requires forall i :: 0 <= i < |orders| ==> Enumerates(orders[i], Indices(|handlers|))
    ensures clbs == handlers
  {
    clbs := [];
    var idx := 0;
    while idx < |handlers|
      invariant 0 <= idx <= |handlers|
      invariant clbs == handlers[..idx]
    {
      clbs := TupleFuncIdx(idx, handlers, clbs, orders[idx]);
      idx := idx + 1;
    }
  }
}
